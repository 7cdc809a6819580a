/** Reading the forms the target system returns. The answer is untrusted: it may report any
    controls, under any titles, in any number, or be no form at all. */
module AisForms {
  import opened Wrappers
  import Texts

  /** Why a call stopped: before anything was saved, as not a write of this item, or with an
      exception of another kind. */
  datatype Stop = NotSent | NotAWrite | Broken

  datatype Result<+T> = Done(value: T) | Stopped(why: Stop) {
    predicate IsFailure() {
      Stopped?
    }

    function PropagateFailure<U>(): Result<U>
      requires Stopped?
    {
      Stopped(why)
    }

    function Extract(): T
      requires Done?
    {
      value
    }
  }

  // ---------------------------------------------------------------------------------------------
  // The raw answer
  // ---------------------------------------------------------------------------------------------

  /** One entry of a form's data; only dictionaries are fields. */
  datatype Entry = Entry(key: string, isField: bool, value: Option<string>)

  datatype RawRow = RawRow(index: string, cells: seq<(string, Option<string>)>)

  datatype Control = Control(id: Option<string>, title: string)

  datatype Body = Body(errors: seq<string>, data: seq<Entry>, columns: seq<string>, rowset: seq<RawRow>,
                       controls: Option<seq<Control>>)

  /** The call raised; or it answered, possibly naming a stack, with forms or with something that
      cannot be read as an answer. */
  datatype Answer = Raised | Answered(stack: bool, forms: Option<seq<(string, Body)>>)

  // ---------------------------------------------------------------------------------------------
  // Control keys: z_ALIAS_number
  // ---------------------------------------------------------------------------------------------

  predicate IsAliasChar(c: char) {
    'A' <= c <= 'Z' || '0' <= c <= '9' || c == '#' || c == '$' || c == '@'
  }

  predicate IsDigit(c: char) {
    '0' <= c <= '9'
  }

  predicate AllDigits(s: string) {
    s != "" && forall i :: 0 <= i < |s| ==> IsDigit(s[i])
  }

  function AliasLength(s: string): (n: nat)
    ensures n <= |s|
    ensures forall i :: 0 <= i < n ==> IsAliasChar(s[i])
    ensures n < |s| ==> !IsAliasChar(s[n])
  {
    if s == "" || !IsAliasChar(s[0]) then 0 else 1 + AliasLength(s[1..])
  }

  /** One line feed at the end does not count: the expressions that read keys and row ids stop before it. */
  function Line(s: string): string {
    if s != "" && s[|s| - 1] == '\n' then s[..|s| - 1] else s
  }

  /** The alias and control number of a key, if it has the form of one. */
  function ParseKey(key: string): (r: Option<(string, string)>)
    ensures r.Some? ==> IsKey(Line(key), r.value.0, r.value.1)
  {
    if !("z_" <= Line(key)) then None
    else
      var rest := Line(key)[2..];
      var n := AliasLength(rest);
      if n == 0 || n == |rest| || rest[n] != '_' || !AllDigits(rest[n + 1..]) then None
      else
        assert Line(key) == "z_" + rest[..n] + "_" + rest[n + 1..];
        Some((rest[..n], rest[n + 1..]))
  }

  predicate IsKey(s: string, alias: string, number: string) {
    && s == "z_" + alias + "_" + number
    && alias != "" && (forall i :: 0 <= i < |alias| ==> IsAliasChar(alias[i])) && AllDigits(number)
  }

  lemma {:induction false} AliasEnds(s: string, n: nat)
    requires n < |s| && !IsAliasChar(s[n]) && forall i :: 0 <= i < n ==> IsAliasChar(s[i])
    ensures AliasLength(s) == n
  {
    if n > 0 {
      AliasEnds(s[1..], n - 1);
    }
  }

  /** A key is read as this alias and number if and only if it is made of them: no other reading exists. */
  lemma KeysAreReadExactly(key: string, alias: string, number: string)
    ensures ParseKey(key) == Some((alias, number)) <==> IsKey(Line(key), alias, number)
  {
    if IsKey(Line(key), alias, number) {
      var rest := Line(key)[2..];
      assert rest == alias + "_" + number;
      assert rest[|alias|] == '_';
      AliasEnds(rest, |alias|);
      assert rest[|alias| + 1..] == number && rest[..|alias|] == alias;
    }
  }

  function LettersOnly(s: string): string {
    if s == "" then ""
    else
      var c := Texts.LowerChar(s[0]);
      (if 'a' <= c <= 'z' then [c] else "") + LettersOnly(s[1..])
  }

  // ---------------------------------------------------------------------------------------------
  // A form
  // ---------------------------------------------------------------------------------------------

  type Ids = map<string, seq<string>>

  datatype GridRow = GridRow(index: string, cells: map<string, Option<string>>)

  datatype Form = Form(name: string, fields: Ids, columns: Ids, buttons: Ids, buttonsReported: bool,
                       rows: seq<GridRow>, errors: seq<string>, values: map<string, Option<string>>)

  function IdsAt(ids: Ids, k: string): seq<string> {
    if k in ids then ids[k] else []
  }

  function WithId(ids: Ids, k: string, id: string): Ids {
    ids[k := IdsAt(ids, k) + [id]]
  }

  /** The keys that name a control, in the order of the answer, as alias and number. */
  function ControlKeys(keys: seq<string>): seq<(string, string)> {
    if keys == [] then []
    else
      var p := ParseKey(keys[|keys| - 1]);
      var front := ControlKeys(keys[..|keys| - 1]);
      if p.Some? then front + [p.value] else front
  }

  /** The control numbers reported for an alias. */
  function NumbersOf(pairs: seq<(string, string)>, alias: string): seq<string> {
    if pairs == [] then []
    else
      var last := pairs[|pairs| - 1];
      var front := NumbersOf(pairs[..|pairs| - 1], alias);
      if last.0 == alias then front + [last.1] else front
  }

  function ControlsTitled(controls: seq<Control>, title: string): seq<string> {
    if controls == [] then []
    else
      var c := controls[|controls| - 1];
      var front := ControlsTitled(controls[..|controls| - 1], title);
      if c.id.Some? && LettersOnly(c.title) == title then front + [c.id.value] else front
  }

  function FieldKeys(data: seq<Entry>): seq<(string, string)> {
    if data == [] then []
    else
      var e := data[|data| - 1];
      var p := ParseKey(e.key);
      var front := FieldKeys(data[..|data| - 1]);
      if e.isField && p.Some? then front + [p.value] else front
  }

  // ---------------------------------------------------------------------------------------------
  // Reading an answer
  // ---------------------------------------------------------------------------------------------

  function Collected(pairs: seq<(string, string)>): Ids {
    if pairs == [] then map[]
    else
      var last := pairs[|pairs| - 1];
      WithId(Collected(pairs[..|pairs| - 1]), last.0, last.1)
  }

  /** The value shown for each alias: that of the last control reported for it. */
  function ShownValues(data: seq<Entry>): map<string, Option<string>> {
    if data == [] then map[]
    else
      var e := data[|data| - 1];
      var p := ParseKey(e.key);
      var front := ShownValues(data[..|data| - 1]);
      if e.isField && p.Some? then front[p.value.0 := e.value] else front
  }

  function Titled(controls: seq<Control>): Ids {
    if controls == [] then map[]
    else
      var c := controls[|controls| - 1];
      var front := Titled(controls[..|controls| - 1]);
      if c.id.Some? then WithId(front, LettersOnly(c.title), c.id.value) else front
  }

  function Cells(cells: seq<(string, Option<string>)>): map<string, Option<string>> {
    if cells == [] then map[]
    else
      var last := cells[|cells| - 1];
      var p := ParseKey(last.0);
      var front := Cells(cells[..|cells| - 1]);
      if p.Some? then front[p.value.0 := last.1] else front
  }

  function RowOf(raw: RawRow): GridRow {
    GridRow(raw.index, Cells(raw.cells))
  }

  function RowsOf(rowset: seq<RawRow>): seq<GridRow> {
    seq(|rowset|, i requires 0 <= i < |rowset| => RowOf(rowset[i]))
  }

  function FormOf(name: string, body: Body): Form {
    Form(name, Collected(FieldKeys(body.data)), Collected(ControlKeys(body.columns)),
         if body.controls.Some? then Titled(body.controls.value) else map[], body.controls.Some?,
         RowsOf(body.rowset), body.errors, ShownValues(body.data))
  }

  /** The one form in an answer. An answer with another number of forms is refused as not sent. */
  function Parsed(forms: seq<(string, Body)>): Result<Form> {
    if |forms| == 1 then Done(FormOf(forms[0].0, forms[0].1)) else Stopped(NotSent)
  }

  method ReadFields(data: seq<Entry>) returns (fields: Ids, values: map<string, Option<string>>)
    ensures fields == Collected(FieldKeys(data)) && values == ShownValues(data)
  {
    fields, values := map[], map[];
    for i := 0 to |data|
      invariant fields == Collected(FieldKeys(data[..i])) && values == ShownValues(data[..i])
    {
      assert data[..i + 1][..i] == data[..i];
      var m := ParseKey(data[i].key);
      if m.Some? && data[i].isField {
        CollectedNext(FieldKeys(data[..i]), m.value);
        fields := WithId(fields, m.value.0, m.value.1);
        values := values[m.value.0 := data[i].value];
      }
    }
    assert data[..|data|] == data;
  }

  lemma CollectedNext(pairs: seq<(string, string)>, pair: (string, string))
    ensures Collected(pairs + [pair]) == WithId(Collected(pairs), pair.0, pair.1)
  {
    assert (pairs + [pair])[..|pairs|] == pairs;
  }

  method ReadColumns(keys: seq<string>) returns (columns: Ids)
    ensures columns == Collected(ControlKeys(keys))
  {
    columns := map[];
    for i := 0 to |keys|
      invariant columns == Collected(ControlKeys(keys[..i]))
    {
      assert keys[..i + 1][..i] == keys[..i];
      var m := ParseKey(keys[i]);
      if m.Some? {
        CollectedNext(ControlKeys(keys[..i]), m.value);
        columns := WithId(columns, m.value.0, m.value.1);
      }
    }
    assert keys[..|keys|] == keys;
  }

  method ReadRow(raw: RawRow) returns (row: GridRow)
    ensures row == RowOf(raw)
  {
    var cells: map<string, Option<string>> := map[];
    for i := 0 to |raw.cells|
      invariant cells == Cells(raw.cells[..i])
    {
      assert raw.cells[..i + 1][..i] == raw.cells[..i];
      var m := ParseKey(raw.cells[i].0);
      if m.Some? {
        cells := cells[m.value.0 := raw.cells[i].1];
      }
    }
    assert raw.cells[..|raw.cells|] == raw.cells;
    row := GridRow(raw.index, cells);
  }

  method ReadButtons(controls: seq<Control>) returns (buttons: Ids)
    ensures buttons == Titled(controls)
  {
    buttons := map[];
    for i := 0 to |controls|
      invariant buttons == Titled(controls[..i])
    {
      assert controls[..i + 1][..i] == controls[..i];
      if controls[i].id.Some? {
        buttons := WithId(buttons, LettersOnly(controls[i].title), controls[i].id.value);
      }
    }
    assert controls[..|controls|] == controls;
  }

  method ReadRows(rowset: seq<RawRow>) returns (rows: seq<GridRow>)
    ensures rows == RowsOf(rowset)
  {
    rows := [];
    for i := 0 to |rowset|
      invariant |rows| == i && forall j :: 0 <= j < i ==> rows[j] == RowOf(rowset[j])
    {
      var row := ReadRow(rowset[i]);
      rows := rows + [row];
    }
  }

  method ParseForm(forms: seq<(string, Body)>) returns (r: Result<Form>)
    ensures r == Parsed(forms)
  {
    if |forms| != 1 {
      return Stopped(NotSent);
    }
    var (name, body) := forms[0];
    var fields, values := ReadFields(body.data);
    var columns := ReadColumns(body.columns);
    var rows := ReadRows(body.rowset);
    var buttons: Ids := map[];
    if body.controls.Some? {
      buttons := ReadButtons(body.controls.value);
    }
    r := Done(Form(name, fields, columns, buttons, body.controls.Some?, rows, body.errors, values));
  }

  // ---------------------------------------------------------------------------------------------
  // What a form holds is what the answer reported
  // ---------------------------------------------------------------------------------------------

  lemma {:induction false} CollectedHolds(pairs: seq<(string, string)>, alias: string)
    ensures IdsAt(Collected(pairs), alias) == NumbersOf(pairs, alias)
    ensures alias in Collected(pairs) <==> NumbersOf(pairs, alias) != []
  {
    if pairs != [] {
      CollectedHolds(pairs[..|pairs| - 1], alias);
    }
  }

  lemma {:induction false} TitledHolds(controls: seq<Control>, title: string)
    ensures IdsAt(Titled(controls), title) == ControlsTitled(controls, title)
  {
    if controls != [] {
      TitledHolds(controls[..|controls| - 1], title);
    }
  }

  /** An alias has exactly the controls the answer named for it, in its order, in the header and in the
      grid; a title exactly the controls reported under a title that reads the same. */
  lemma FormsHoldWhatIsReported(name: string, body: Body, alias: string, title: string)
    ensures var form := FormOf(name, body);
            && IdsAt(form.fields, alias) == NumbersOf(FieldKeys(body.data), alias)
            && IdsAt(form.columns, alias) == NumbersOf(ControlKeys(body.columns), alias)
            && IdsAt(form.buttons, title) == (if body.controls.Some? then ControlsTitled(body.controls.value, title) else [])
  {
    CollectedHolds(FieldKeys(body.data), alias);
    CollectedHolds(ControlKeys(body.columns), alias);
    if body.controls.Some? {
      TitledHolds(body.controls.value, title);
    }
  }

  /** The entry is a field and names this control. */
  predicate NamesControl(e: Entry, alias: string, number: string) {
    e.isField && IsKey(Line(e.key), alias, number)
  }

  lemma LastPair(data: seq<Entry>, alias: string, number: string)
    requires data != []
    ensures number in NumbersOf(FieldKeys(data), alias) <==>
              number in NumbersOf(FieldKeys(data[..|data| - 1]), alias) || NamesControl(data[|data| - 1], alias, number)
  {
    var front, e := FieldKeys(data[..|data| - 1]), data[|data| - 1];
    KeysAreReadExactly(e.key, alias, number);
    var p := ParseKey(e.key);
    if e.isField && p.Some? {
      assert FieldKeys(data) == front + [p.value];
      assert (front + [p.value])[..|front|] == front;
    }
  }

  predicate NamedIn(data: seq<Entry>, alias: string, number: string) {
    exists i :: 0 <= i < |data| && NamesControl(data[i], alias, number)
  }

  lemma NamedLast(data: seq<Entry>, alias: string, number: string)
    requires data != []
    ensures NamedIn(data, alias, number) <==>
              NamedIn(data[..|data| - 1], alias, number) || NamesControl(data[|data| - 1], alias, number)
  {
    var front := data[..|data| - 1];
    assert forall i :: 0 <= i < |front| ==> front[i] == data[i];
    if NamedIn(front, alias, number) {
      var i :| 0 <= i < |front| && NamesControl(front[i], alias, number);
      assert NamesControl(data[i], alias, number);
    }
  }

  /** A number answers to an alias if and only if the answer names that control, as a field. */
  lemma {:induction false} FieldsAreReported(data: seq<Entry>, alias: string, number: string)
    ensures number in NumbersOf(FieldKeys(data), alias) <==> NamedIn(data, alias, number)
  {
    if data != [] {
      FieldsAreReported(data[..|data| - 1], alias, number);
      LastPair(data, alias, number);
      NamedLast(data, alias, number);
    }
  }

  /** A control answers to a title if and only if the answer reports it under a title that reads the same. */
  lemma {:induction false} ButtonsAreReported(controls: seq<Control>, title: string, id: string)
    ensures id in ControlsTitled(controls, title) <==>
              exists i :: 0 <= i < |controls| && controls[i].id == Some(id) && LettersOnly(controls[i].title) == title
  {
    if controls != [] {
      var front, c := controls[..|controls| - 1], controls[|controls| - 1];
      ButtonsAreReported(front, title, id);
      if i :| 0 <= i < |front| && front[i].id == Some(id) && LettersOnly(front[i].title) == title {
        assert controls[i] == front[i];
      }
    }
  }

  /** The form's own identifier: its name after the first underscore. */
  function Oid(name: string): string {
    var i := FirstUnderscore(name);
    if i < |name| then name[i + 1..] else name
  }

  function FirstUnderscore(s: string): (i: nat)
    ensures i <= |s|
    ensures i < |s| ==> s[i] == '_'
  {
    if s == "" || s[0] == '_' then 0 else 1 + FirstUnderscore(s[1..])
  }

  // ---------------------------------------------------------------------------------------------
  // Resolving controls
  // ---------------------------------------------------------------------------------------------

  const PERMITTED_BUTTONS := {"find", "select", "add", "ok"}

  /** The aliases a form may use for an item's field: the alias, or the alias without its table prefix. */
  function Candidates(alias: string): seq<string> {
    if |alias| > 4 then [alias, alias[2..]] else [alias]
  }

  /** Exactly one control of the form answers to the alias, and it is this one. */
  ghost predicate Resolves(source: Ids, alias: string, id: string) {
    exists c :: c in Candidates(alias) && c in source && source[c] == [id]
                && forall d :: d in Candidates(alias) && d in source ==> d == c
  }

  function FieldId(source: Ids, alias: string): (r: Result<string>)
    ensures r.Done? ==> Resolves(source, alias, r.value)
    ensures r.Stopped? ==> r.why == NotSent
  {
    var short := if |alias| > 4 then alias[2..] else alias;
    if alias in source && short in source && short != alias then Stopped(NotSent)
    else if alias !in source && short !in source then Stopped(NotSent)
    else
      var c := if alias in source then alias else short;
      assert c in Candidates(alias);
      if |source[c]| != 1 then Stopped(NotSent)
      else
        assert source[c] == [source[c][0]];
        Done(source[c][0])
  }

  /** The one control that answers to an alias is found whenever there is one. */
  lemma FieldIdFindsExactly(source: Ids, alias: string, id: string)
    ensures FieldId(source, alias) == Done(id) <==> Resolves(source, alias, id)
  {
    if Resolves(source, alias, id) {
      var c :| c in Candidates(alias) && c in source && source[c] == [id]
               && forall d :: d in Candidates(alias) && d in source ==> d == c;
      assert Candidates(alias)[0] == alias;
      assert |alias| > 4 ==> Candidates(alias)[1] == alias[2..];
    }
  }

  predicate ReportedAs(form: Form, title: string, id: string) {
    form.buttonsReported && IdsAt(form.buttons, title) == [id]
  }

  function ButtonId(form: Form, title: string): (r: Result<string>)
    ensures r.Done? ==> LettersOnly(title) in PERMITTED_BUTTONS && ReportedAs(form, LettersOnly(title), r.value)
    ensures r.Stopped? ==> r.why == (if LettersOnly(title) in PERMITTED_BUTTONS then NotSent else NotAWrite)
  {
    var t := LettersOnly(title);
    if t !in PERMITTED_BUTTONS then Stopped(NotAWrite)
    else if !form.buttonsReported || |IdsAt(form.buttons, t)| != 1 then Stopped(NotSent)
    else
      assert IdsAt(form.buttons, t) == [IdsAt(form.buttons, t)[0]];
      Done(IdsAt(form.buttons, t)[0])
  }
}
