/** The requests of the form driver: what it asks for on each form, and what such a request is. */
module AisPlan {
  import opened Wrappers
  import opened Changes
  import opened AisForms
  import opened AisGuard
  import Texts

  /** A request handed to the transport, with the form it was made for. */
  datatype Dispatch = Dispatch(request: Request, on: Option<Form>)

  // ---------------------------------------------------------------------------------------------
  // The item's fields on a form
  // ---------------------------------------------------------------------------------------------

  /** The item's key fields, as the alias the forms use and the approved value. */
  function KeyPairs(fm: FormMap, key: Fields, names: seq<string>): Fields {
    seq(|names|, i requires 0 <= i < |names| => (Get(fm.key, names[i]), Get(key, names[i])))
  }

  function KeyNames(fields: Fields): seq<string> {
    seq(|fields|, i requires 0 <= i < |fields| => fields[i].0)
  }

  /** What the commit sets in the header of the revision form. */
  function FieldPairs(content: Content, fm: FormMap): Fields
    requires content.Row?
  {
    if fm.layout == Grid then KeyPairs(fm, content.key, fm.header)
    else (if content.action == Add then KeyPairs(fm, content.key, KeyNames(fm.key)) else []) + content.values
  }

  /** What the commit sets in the columns of its grid. */
  function ColumnPairs(content: Content, fm: FormMap): Fields
    requires content.Row?
  {
    if fm.layout == Header then []
    else (if content.action == Add then KeyPairs(fm, content.key, fm.rowKey) else []) + content.values
  }

  predicate AllResolve(source: Ids, pairs: Fields) {
    forall i :: 0 <= i < |pairs| ==> FieldId(source, pairs[i].0).Done?
  }

  /** The control that answers to each alias, and its value. */
  function Resolved(source: Ids, pairs: Fields): Fields
    requires AllResolve(source, pairs)
  {
    seq(|pairs|, i requires 0 <= i < |pairs| => (FieldId(source, pairs[i].0).value, pairs[i].1))
  }

  function Sets(resolved: Fields): seq<Action> {
    seq(|resolved|, i requires 0 <= i < |resolved| => SetControl(resolved[i].0, resolved[i].1))
  }

  /** The filter control of a grid column. */
  function QbeId(column: string): string {
    "1[" + column + "]"
  }

  function Qbes(resolved: Fields): seq<Action> {
    seq(|resolved|, i requires 0 <= i < |resolved| => SetQbe(QbeId(resolved[i].0), resolved[i].1))
  }

  // ---------------------------------------------------------------------------------------------
  // Rows
  // ---------------------------------------------------------------------------------------------

  function Shows(cell: Option<string>): string {
    if cell.Some? then cell.value else "None"
  }

  /** The row shows the item's key in the columns that identify a row. */
  predicate RowMatches(row: GridRow, content: Content, fm: FormMap)
    requires content.Row?
  {
    forall i :: 0 <= i < |fm.rowKey| ==>
      var alias := Get(fm.key, fm.rowKey[i]);
      Texts.Strip(if alias in row.cells then Shows(row.cells[alias]) else "")
      == Texts.Strip(Get(content.key, fm.rowKey[i]))
  }

  function Matching(rows: seq<GridRow>, content: Content, fm: FormMap): (r: seq<GridRow>)
    requires content.Row?
    ensures forall row :: row in r <==> row in rows && RowMatches(row, content, fm)
  {
    if rows == [] then []
    else (if RowMatches(rows[0], content, fm) then [rows[0]] else []) + Matching(rows[1..], content, fm)
  }

  /** Where the form shows a value for a key field, it is the item's. */
  predicate ShowsKey(on: Form, content: Content, k: (string, string))
    requires content.Row?
  {
    k.1 in on.values && on.values[k.1].Some? ==>
      Texts.Strip(on.values[k.1].value) == Texts.Strip(Get(content.key, k.0))
  }

  /** The revision form is on the item's row: for an update of a grid it shows the row once, for an update
      of a header form it shows no other key. */
  predicate OnTheRow(rev: Form, content: Content, fm: FormMap)
    requires content.Row?
  {
    content.action == Update ==>
      if fm.layout == Grid then |Matching(rev.rows, content, fm)| == 1
      else forall i :: 0 <= i < |fm.key| ==> ShowsKey(rev, content, fm.key[i])
  }

  // ---------------------------------------------------------------------------------------------
  // The requests
  // ---------------------------------------------------------------------------------------------

  /** The filters of a search: a header form is searched by its row key. */
  function FilterPairs(content: Content, fm: FormMap): Fields
    requires content.Row?
  {
    if fm.layout == Header then KeyPairs(fm, content.key, fm.rowKey) else []
  }

  /** The search on the Work With form. */
  function QueryOf(ww: Form, content: Content, fm: FormMap): Result<Request>
    requires content.Row?
  {
    var header, filters := KeyPairs(fm, content.key, fm.header), FilterPairs(content, fm);
    if !AllResolve(ww.fields, header) || !AllResolve(ww.columns, filters) then Stopped(NotSent)
    else
      var find :- ButtonId(ww, "Find");
      Done(Execute(Oid(ww.name), Sets(Resolved(ww.fields, header)) + Qbes(Resolved(ww.columns, filters)) + [DoAction(find)]))
  }

  /** The way into the revision form: Add for a new row, Select for the one that is shown. */
  function WayOf(ww: Form, content: Content, fm: FormMap): Result<Request>
    requires content.Row?
  {
    var rows := Matching(ww.rows, content, fm);
    if content.action == Add then
      if rows != [] then Stopped(NotSent)
      else
        var add :- ButtonId(ww, "Add");
        Done(Execute(Oid(ww.name), [DoAction(add)]))
    else if |rows| != 1 then Stopped(NotSent)
    else
      var select :- ButtonId(ww, "Select");
      Done(Execute(Oid(ww.name), [SelectRow("1." + rows[0].index), DoAction(select)]))
  }

  function GridChange(rev: Form, content: Content, fm: FormMap): seq<Action>
    requires content.Row? && AllResolve(rev.columns, ColumnPairs(content, fm)) && OnTheRow(rev, content, fm)
  {
    if fm.layout == Header then []
    else
      var events := Resolved(rev.columns, ColumnPairs(content, fm));
      [if content.action == Add then InsertRow(events) else UpdateRow(Matching(rev.rows, content, fm)[0].index, events)]
  }

  /** The commit on the revision form: the approved values on the item's row, and OK. */
  function SavingOf(rev: Form, content: Content, fm: FormMap): Result<Request>
    requires content.Row?
  {
    if !AllResolve(rev.fields, FieldPairs(content, fm)) || !AllResolve(rev.columns, ColumnPairs(content, fm))
       || !OnTheRow(rev, content, fm) then Stopped(NotSent)
    else
      var ok :- ButtonId(rev, "OK");
      Done(Execute(Oid(rev.name),
                   Sets(Resolved(rev.fields, FieldPairs(content, fm))) + GridChange(rev, content, fm) + [DoAction(ok)]))
  }

  /** What the guard can still refuse in a request whose controls were resolved: a form that is not the
      item's, or a row that is not a grid row. */
  predicate Sendable(r: Request, forms: set<string>) {
    OnForms(r, forms) && forall a :: a in ActionsOf(r) && a.SelectRow? ==> IsRowId(a.id)
  }

  /** Every control the request sets or presses was allowed. */
  predicate Granted(r: Request, allowedFields: set<string>, allowedButtons: set<string>) {
    forall a :: a in ActionsOf(r) && !a.SelectRow? ==> ActionAllowed(a, allowedFields, allowedButtons)
  }

  lemma GuardOfGranted(r: Request, allowedFields: set<string>, allowedButtons: set<string>, forms: set<string>)
    requires Granted(r, allowedFields, allowedButtons)
    ensures Guard(r, allowedFields, allowedButtons, forms) <==> Sendable(r, forms)
  {
  }

  // ---------------------------------------------------------------------------------------------
  // What a request is
  // ---------------------------------------------------------------------------------------------

  /** The control is pressed as the one control the form reported under this title. */
  ghost predicate PressesAs(d: Dispatch, id: string, title: string) {
    d.on.Some? && DoAction(id) in ActionsOf(d.request) && ReportedAs(d.on.value, title, id)
  }

  /** A request that only opens, searches or moves: it changes no grid, and every button it presses was
      reported under Find, Add or Select. */
  ghost predicate Navigates(d: Dispatch) {
    && (forall a :: a in ActionsOf(d.request) ==> !a.InsertRow? && !a.UpdateRow?)
    && (forall a :: a in ActionsOf(d.request) && a.DoAction? ==>
          exists title :: title in {"find", "add", "select"} && PressesAs(d, a.id, title))
  }

  ghost predicate PressesOk(d: Dispatch) {
    exists id :: DoAction(id) in ActionsOf(d.request) && PressesAs(d, id, "ok")
  }

  /** Nothing is pressed but one control, as the form reports it under this title, and that last. */
  ghost predicate PressesOnly(d: Dispatch, title: string) {
    && d.on.Some? && d.request.Execute? && d.request.actions != []
    && var n := |d.request.actions| - 1;
       && d.request.actions[n].DoAction? && ReportedAs(d.on.value, title, d.request.actions[n].id)
       && forall i :: 0 <= i < n ==> !d.request.actions[i].DoAction?
  }

  /** The search: the item's header keys set on the form, for a header form its row key as filter, and Find. */
  ghost predicate Searches(d: Dispatch, content: Content, fm: FormMap)
    requires content.Row?
  {
    && PressesOnly(d, "find")
    && var header, filters := KeyPairs(fm, content.key, fm.header), FilterPairs(content, fm);
       var actions, n := d.request.actions, |header|;
       && |actions| == n + |filters| + 1
       && (forall i :: 0 <= i < n ==> actions[i].SetControl? && actions[i].value == header[i].1
                                      && Resolves(d.on.value.fields, header[i].0, actions[i].id))
       && (forall i :: 0 <= i < |filters| ==> actions[n + i].SetQbe? && actions[n + i].value == filters[i].1
                                              && Filters(d.on.value.columns, filters[i].0, actions[n + i].id))
  }

  ghost predicate Filters(source: Ids, alias: string, id: string) {
    exists c :: Resolves(source, alias, c) && id == QbeId(c)
  }

  /** The way into the revision form, from the form that answered the search: an add only where no row
      matched, an update by selecting the one row that did. */
  ghost predicate Enters(d: Dispatch, content: Content, fm: FormMap)
    requires content.Row?
  {
    && PressesOnly(d, if content.action == Add then "add" else "select")
    && var rows := Matching(d.on.value.rows, content, fm);
       if content.action == Add then rows == [] && |d.request.actions| == 1
       else |rows| == 1 && |d.request.actions| == 2 && d.request.actions[0] == SelectRow("1." + rows[0].index)
  }

  /** The alias and value are approved with the item. */
  predicate Approves(content: Content, fm: FormMap, alias: string, value: string)
    requires content.Row?
  {
    (alias, value) in content.values || (alias, value) in KeyPairs(fm, content.key, KeyNames(fm.key))
  }

  /** Every set puts an approved value into the one control that answers to its alias. */
  ghost predicate SetsOnlyApproved(actions: seq<Action>, on: Form, content: Content, fm: FormMap)
    requires content.Row?
  {
    && (forall a :: a in actions && a.SetControl? ==>
          exists alias :: Approves(content, fm, alias, a.value) && Resolves(on.fields, alias, a.id))
    && (forall a, e :: a in actions && (a.InsertRow? || a.UpdateRow?) && e in a.events ==>
          exists alias :: Approves(content, fm, alias, e.1) && Resolves(on.columns, alias, e.0))
    && (forall a :: a in actions ==> !a.SetQbe? && !a.SelectRow?)
  }

  /** Some action puts the value into the one control or column that answers to the alias. */
  ghost predicate SetsPair(actions: seq<Action>, on: Form, alias: string, value: string) {
    || (exists a :: a in actions && a.SetControl? && a.value == value && Resolves(on.fields, alias, a.id))
    || (exists a, id :: a in actions && (a.InsertRow? || a.UpdateRow?) && (id, value) in a.events
                        && Resolves(on.columns, alias, id))
  }

  /** Every approved value is set, and every key field of a new row. */
  ghost predicate SetsEverything(actions: seq<Action>, on: Form, content: Content, fm: FormMap)
    requires content.Row?
  {
    && (forall v :: v in content.values ==> SetsPair(actions, on, v.0, v.1))
    && (content.action == Add ==>
          forall i :: 0 <= i < |fm.key| ==> SetsPair(actions, on, fm.key[i].1, Get(content.key, fm.key[i].0)))
  }

  /** The grid change is on exactly the item's row: a new row for an add; for an update, the one row the
      form shows for the item's key. */
  ghost predicate AddressesTheRow(actions: seq<Action>, on: Form, content: Content, fm: FormMap)
    requires content.Row?
  {
    && OnTheRow(on, content, fm)
    && (forall a :: a in actions && a.InsertRow? ==> content.action == Add)
    && (forall a :: a in actions && a.UpdateRow? ==>
          content.action == Update && |Matching(on.rows, content, fm)| == 1
          && a.row == Matching(on.rows, content, fm)[0].index)
  }

  /** The commit is exactly the approved item, on the item's revision form: OK, as the form reports it,
      after sets of approved values on the item's row. */
  ghost predicate Carries(d: Dispatch, content: Content, fm: FormMap)
    requires content.Row?
  {
    && PressesOnly(d, "ok")
    && EndsWith(d.on.value.name, "_" + fm.revision)
    && d.request.formOid == Oid(d.on.value.name)
    && var actions := d.request.actions[..|d.request.actions| - 1];
       && SetsOnlyApproved(actions, d.on.value, content, fm)
       && SetsEverything(actions, d.on.value, content, fm)
       && AddressesTheRow(actions, d.on.value, content, fm)
  }

  // ---------------------------------------------------------------------------------------------
  // The requests are what they should be
  // ---------------------------------------------------------------------------------------------

  lemma {:induction false} SmallLetters(s: string)
    requires forall i :: 0 <= i < |s| ==> 'a' <= s[i] <= 'z'
    ensures LettersOnly(s) == s
  {
    if s != "" {
      SmallLetters(s[1..]);
      assert s == [s[0]] + s[1..];
    }
  }

  lemma Capital(c: char, rest: string)
    requires 'A' <= c <= 'Z'
    ensures LettersOnly([c] + rest) == [Texts.LowerChar(c)] + LettersOnly(rest)
  {
    assert ([c] + rest)[1..] == rest;
  }

  lemma CapitalTitle(c: char, rest: string)
    requires 'A' <= c <= 'Z' && forall i :: 0 <= i < |rest| ==> 'a' <= rest[i] <= 'z'
    ensures LettersOnly([c] + rest) == [Texts.LowerChar(c)] + rest
  {
    Capital(c, rest);
    SmallLetters(rest);
  }

  lemma OkIsRead()
    ensures LettersOnly("OK") == "ok"
  {
    Capital('O', "K");
    Capital('K', "");
    assert ['O'] + "K" == "OK" && ['K'] + "" == "K";
  }

  lemma FindIsRead()
    ensures LettersOnly("Find") == "find"
  {
    CapitalTitle('F', "ind");
    assert ['F'] + "ind" == "Find";
  }

  lemma AddIsRead()
    ensures LettersOnly("Add") == "add"
  {
    CapitalTitle('A', "dd");
    assert ['A'] + "dd" == "Add";
  }

  lemma SelectIsRead()
    ensures LettersOnly("Select") == "select"
  {
    CapitalTitle('S', "elect");
    assert ['S'] + "elect" == "Select";
  }

  /** The titles the driver presses, as they are compared. */
  lemma TitlesRead()
    ensures LettersOnly("Find") == "find" && LettersOnly("OK") == "ok"
    ensures LettersOnly("Add") == "add" && LettersOnly("Select") == "select"
  {
    FindIsRead();
    OkIsRead();
    AddIsRead();
    SelectIsRead();
  }

  /** A request that presses one button under such a title, and changes no grid, navigates. */
  lemma OnePressNavigates(d: Dispatch, title: string)
    requires PressesOnly(d, title) && title in {"find", "add", "select"}
    requires forall a :: a in d.request.actions ==> !a.InsertRow? && !a.UpdateRow?
    ensures Navigates(d)
  {
    forall a | a in ActionsOf(d.request) && a.DoAction? ensures PressesAs(d, a.id, title) {
      var i :| 0 <= i < |d.request.actions| && d.request.actions[i] == a;
    }
  }

  lemma QuerySets(ww: Form, header: Fields, filters: Fields, find: string, actions: seq<Action>)
    requires AllResolve(ww.fields, header) && AllResolve(ww.columns, filters)
    requires actions == Sets(Resolved(ww.fields, header)) + Qbes(Resolved(ww.columns, filters)) + [DoAction(find)]
    ensures |actions| == |header| + |filters| + 1 && actions[|actions| - 1] == DoAction(find)
    ensures forall i :: 0 <= i < |header| ==> actions[i].SetControl? && actions[i].value == header[i].1
                                              && Resolves(ww.fields, header[i].0, actions[i].id)
    ensures forall i :: 0 <= i < |filters| ==>
              actions[|header| + i].SetQbe? && actions[|header| + i].value == filters[i].1
              && Filters(ww.columns, filters[i].0, actions[|header| + i].id)
  {
    forall i | 0 <= i < |filters|
      ensures actions[|header| + i].SetQbe? && actions[|header| + i].value == filters[i].1
              && Filters(ww.columns, filters[i].0, actions[|header| + i].id)
    {
      assert actions[|header| + i] == Qbes(Resolved(ww.columns, filters))[i];
    }
  }

  lemma QuerySearches(ww: Form, content: Content, fm: FormMap)
    requires content.Row? && QueryOf(ww, content, fm).Done?
    ensures var d := Dispatch(QueryOf(ww, content, fm).value, Some(ww)); Searches(d, content, fm) && Navigates(d)
  {
    FindIsRead();
    var d := Dispatch(QueryOf(ww, content, fm).value, Some(ww));
    var header, filters := KeyPairs(fm, content.key, fm.header), FilterPairs(content, fm);
    QuerySets(ww, header, filters, ButtonId(ww, "Find").value, d.request.actions);
    SearchNavigates(d, content, fm);
  }

  lemma SearchChangesNothing(d: Dispatch, content: Content, fm: FormMap, i: nat)
    requires content.Row? && Searches(d, content, fm) && i < |d.request.actions|
    ensures !d.request.actions[i].InsertRow? && !d.request.actions[i].UpdateRow?
  {
    var actions, n, filters := d.request.actions, |KeyPairs(fm, content.key, fm.header)|, FilterPairs(content, fm);
    if n <= i < |actions| - 1 {
      assert filters[i - n] in filters;
      assert actions[n + (i - n)].SetQbe?;
    }
  }

  lemma SearchNavigates(d: Dispatch, content: Content, fm: FormMap)
    requires content.Row? && Searches(d, content, fm)
    ensures Navigates(d)
  {
    forall i | 0 <= i < |d.request.actions| ensures !d.request.actions[i].InsertRow? && !d.request.actions[i].UpdateRow? {
      SearchChangesNothing(d, content, fm, i);
    }
    OnePressNavigates(d, "find");
  }

  lemma WayEnters(ww: Form, content: Content, fm: FormMap)
    requires content.Row? && WayOf(ww, content, fm).Done?
    ensures var d := Dispatch(WayOf(ww, content, fm).value, Some(ww)); Enters(d, content, fm) && Navigates(d)
  {
    AddIsRead();
    SelectIsRead();
    var d := Dispatch(WayOf(ww, content, fm).value, Some(ww));
    OnePressNavigates(d, if content.action == Add then "add" else "select");
  }

  /** The lists of a map name only key fields, each key field once, and a grid's lists name all of them. */
  predicate WellMapped(fm: FormMap) {
    && (forall i, j :: 0 <= i < j < |fm.key| ==> fm.key[i].0 != fm.key[j].0)
    && (fm.layout == Grid ==> forall n :: n in KeyNames(fm.key) ==> n in fm.header || n in fm.rowKey)
    && (forall n :: n in fm.header ==> n in KeyNames(fm.key))
    && (forall n :: n in fm.rowKey ==> n in KeyNames(fm.key))
  }

  /** The key fields of a mapped item are approved under the alias its forms use. */
  lemma KeysAreApproved(content: Content, fm: FormMap, names: seq<string>)
    requires content.Row? && forall n :: n in names ==> n in KeyNames(fm.key)
    ensures forall p :: p in KeyPairs(fm, content.key, names) ==> Approves(content, fm, p.0, p.1)
  {
    var all := KeyPairs(fm, content.key, KeyNames(fm.key));
    forall p | p in KeyPairs(fm, content.key, names) ensures p in all {
      var i :| 0 <= i < |names| && KeyPairs(fm, content.key, names)[i] == p;
      assert names[i] in KeyNames(fm.key);
      var j :| 0 <= j < |fm.key| && KeyNames(fm.key)[j] == names[i];
      assert all[j] == p;
    }
  }

  lemma PairsAreApproved(content: Content, fm: FormMap)
    requires content.Row? && WellMapped(fm)
    ensures forall p :: p in FieldPairs(content, fm) || p in ColumnPairs(content, fm) ==> Approves(content, fm, p.0, p.1)
  {
    KeysAreApproved(content, fm, fm.header);
    KeysAreApproved(content, fm, fm.rowKey);
    KeysAreApproved(content, fm, KeyNames(fm.key));
  }

  lemma ResolvedAt(source: Ids, pairs: Fields, r: (string, string))
    requires AllResolve(source, pairs) && r in Resolved(source, pairs)
    ensures exists p :: p in pairs && p.1 == r.1 && Resolves(source, p.0, r.0)
  {
    var i :| 0 <= i < |pairs| && Resolved(source, pairs)[i] == r;
    assert pairs[i] in pairs;
  }

  lemma PairIsResolved(source: Ids, pairs: Fields, p: (string, string))
    requires AllResolve(source, pairs) && p in pairs
    ensures exists id :: (id, p.1) in Resolved(source, pairs) && Resolves(source, p.0, id)
  {
    var i :| 0 <= i < |pairs| && pairs[i] == p;
    assert Resolved(source, pairs)[i] in Resolved(source, pairs);
  }

  /** The actions of the commit before OK. */
  function Front(rev: Form, content: Content, fm: FormMap): seq<Action>
    requires content.Row? && AllResolve(rev.fields, FieldPairs(content, fm))
    requires AllResolve(rev.columns, ColumnPairs(content, fm)) && OnTheRow(rev, content, fm)
  {
    Sets(Resolved(rev.fields, FieldPairs(content, fm))) + GridChange(rev, content, fm)
  }

  lemma FrontActions(rev: Form, content: Content, fm: FormMap, a: Action)
    requires content.Row? && AllResolve(rev.fields, FieldPairs(content, fm))
    requires AllResolve(rev.columns, ColumnPairs(content, fm)) && OnTheRow(rev, content, fm)
    ensures a in Front(rev, content, fm) <==>
              (a.SetControl? && (a.id, a.value) in Resolved(rev.fields, FieldPairs(content, fm)))
              || a in GridChange(rev, content, fm)
  {
    var resolved := Resolved(rev.fields, FieldPairs(content, fm));
    if a.SetControl? && (a.id, a.value) in resolved {
      var i :| 0 <= i < |resolved| && resolved[i] == (a.id, a.value);
      assert Sets(resolved)[i] == a;
    }
    if a in Sets(resolved) {
      var i :| 0 <= i < |resolved| && Sets(resolved)[i] == a;
      assert resolved[i] in resolved;
    }
  }

  lemma FrontSetsOnlyApproved(rev: Form, content: Content, fm: FormMap)
    requires content.Row? && WellMapped(fm) && AllResolve(rev.fields, FieldPairs(content, fm))
    requires AllResolve(rev.columns, ColumnPairs(content, fm)) && OnTheRow(rev, content, fm)
    ensures SetsOnlyApproved(Front(rev, content, fm), rev, content, fm)
  {
    PairsAreApproved(content, fm);
    var front := Front(rev, content, fm);
    forall a | a in front ensures !a.SetQbe? && !a.SelectRow? {
      FrontActions(rev, content, fm, a);
    }
    forall a | a in front && a.SetControl?
      ensures exists alias :: Approves(content, fm, alias, a.value) && Resolves(rev.fields, alias, a.id)
    {
      FrontActions(rev, content, fm, a);
      ResolvedAt(rev.fields, FieldPairs(content, fm), (a.id, a.value));
    }
    forall a, e | a in front && (a.InsertRow? || a.UpdateRow?) && e in a.events
      ensures exists alias :: Approves(content, fm, alias, e.1) && Resolves(rev.columns, alias, e.0)
    {
      FrontActions(rev, content, fm, a);
      ResolvedAt(rev.columns, ColumnPairs(content, fm), e);
    }
  }

  /** Whatever is among the pairs of the header or of the grid is set. */
  lemma FrontSetsPair(rev: Form, content: Content, fm: FormMap, p: (string, string))
    requires content.Row? && AllResolve(rev.fields, FieldPairs(content, fm))
    requires AllResolve(rev.columns, ColumnPairs(content, fm)) && OnTheRow(rev, content, fm)
    requires p in FieldPairs(content, fm) || p in ColumnPairs(content, fm)
    ensures SetsPair(Front(rev, content, fm), rev, p.0, p.1)
  {
    if p in FieldPairs(content, fm) {
      PairIsResolved(rev.fields, FieldPairs(content, fm), p);
      var id :| (id, p.1) in Resolved(rev.fields, FieldPairs(content, fm)) && Resolves(rev.fields, p.0, id);
      FrontActions(rev, content, fm, SetControl(id, p.1));
      assert SetControl(id, p.1).value == p.1;
    } else {
      PairIsResolved(rev.columns, ColumnPairs(content, fm), p);
      var change := GridChange(rev, content, fm)[0];
      FrontActions(rev, content, fm, change);
      assert change in Front(rev, content, fm);
    }
  }

  lemma {:induction false} GetOf(fields: Fields, i: nat)
    requires i < |fields| && forall j, k :: 0 <= j < k < |fields| ==> fields[j].0 != fields[k].0
    ensures Get(fields, fields[i].0) == fields[i].1
  {
    if i > 0 {
      GetOf(fields[1..], i - 1);
    }
  }

  lemma NamedPair(fm: FormMap, key: Fields, names: seq<string>, name: string)
    requires name in names
    ensures (Get(fm.key, name), Get(key, name)) in KeyPairs(fm, key, names)
  {
    var j :| 0 <= j < |names| && names[j] == name;
    assert KeyPairs(fm, key, names)[j] in KeyPairs(fm, key, names);
  }

  /** Every key field of an added row is among the pairs. */
  lemma KeyIsThere(content: Content, fm: FormMap, i: nat)
    requires content.Row? && content.action == Add && WellMapped(fm) && i < |fm.key|
    ensures var p := (fm.key[i].1, Get(content.key, fm.key[i].0));
            p in FieldPairs(content, fm) || p in ColumnPairs(content, fm)
  {
    GetOf(fm.key, i);
    var name := fm.key[i].0;
    assert KeyNames(fm.key)[i] in KeyNames(fm.key);
    if fm.layout == Header {
      NamedPair(fm, content.key, KeyNames(fm.key), name);
    } else if name in fm.header {
      NamedPair(fm, content.key, fm.header, name);
    } else {
      NamedPair(fm, content.key, fm.rowKey, name);
    }
  }

  lemma FrontSetsEverything(rev: Form, content: Content, fm: FormMap)
    requires content.Row? && WellMapped(fm) && AllResolve(rev.fields, FieldPairs(content, fm))
    requires AllResolve(rev.columns, ColumnPairs(content, fm)) && OnTheRow(rev, content, fm)
    ensures SetsEverything(Front(rev, content, fm), rev, content, fm)
  {
    forall v | v in content.values ensures SetsPair(Front(rev, content, fm), rev, v.0, v.1) {
      assert v in FieldPairs(content, fm) || v in ColumnPairs(content, fm);
      FrontSetsPair(rev, content, fm, v);
    }
    if content.action == Add {
      forall i | 0 <= i < |fm.key|
        ensures SetsPair(Front(rev, content, fm), rev, fm.key[i].1, Get(content.key, fm.key[i].0))
      {
        KeyIsThere(content, fm, i);
        FrontSetsPair(rev, content, fm, (fm.key[i].1, Get(content.key, fm.key[i].0)));
      }
    }
  }

  lemma FrontIsOnTheRow(rev: Form, content: Content, fm: FormMap)
    requires content.Row? && AllResolve(rev.fields, FieldPairs(content, fm))
    requires AllResolve(rev.columns, ColumnPairs(content, fm)) && OnTheRow(rev, content, fm)
    ensures AddressesTheRow(Front(rev, content, fm), rev, content, fm)
    ensures forall a :: a in Front(rev, content, fm) ==> !a.DoAction?
  {
    forall a | a in Front(rev, content, fm)
      ensures !a.DoAction? && (a.InsertRow? || a.UpdateRow? ==> a in GridChange(rev, content, fm))
    {
      FrontActions(rev, content, fm, a);
    }
  }

  /** The commit carries exactly the item. */
  lemma SavingCarries(rev: Form, content: Content, fm: FormMap)
    requires content.Row? && WellMapped(fm) && SavingOf(rev, content, fm).Done? && EndsWith(rev.name, "_" + fm.revision)
    ensures Carries(Dispatch(SavingOf(rev, content, fm).value, Some(rev)), content, fm)
  {
    OkIsRead();
    FrontSetsOnlyApproved(rev, content, fm);
    FrontSetsEverything(rev, content, fm);
    FrontIsOnTheRow(rev, content, fm);
    var actions, front := SavingOf(rev, content, fm).value.actions, Front(rev, content, fm);
    assert actions == front + [actions[|front|]] && actions[..|actions| - 1] == front;
    forall i | 0 <= i < |front| ensures !actions[i].DoAction? {
      assert front[i] in front;
    }
  }

  lemma NamesOfOne(a: (string, string))
    ensures KeyNames([a]) == [a.0]
  {
  }

  lemma NamesOfThree(a: (string, string), b: (string, string), c: (string, string))
    ensures KeyNames([a, b, c]) == [a.0, b.0, c.0]
  {
  }

  lemma MapsAreWell(content: Content)
    ensures FormMapFor(content).Some? ==> WellMapped(FormMapFor(content).value)
  {
    NamesOfThree(("DRSY", "SY"), ("DRRT", "RT"), ("DRKY", "KY"));
    NamesOfOne(("DCTO", "DCTO"));
    NamesOfOne(("LNTY", "LNTY"));
    NamesOfThree(("DCTO", "DCTO"), ("LNTY", "LNTY"), ("LNST", "LNST"));
  }

  // ---------------------------------------------------------------------------------------------
  // OK under another title
  // ---------------------------------------------------------------------------------------------

  /** The form reports one and the same control under the title and as OK. */
  predicate SharesOk(form: Form, title: string) {
    form.buttonsReported && |IdsAt(form.buttons, title)| == 1 && IdsAt(form.buttons, title) == IdsAt(form.buttons, "ok")
  }

  /** A request that presses one button presses OK if and only if the form shares it with that title. */
  lemma PressIsOkExactly(d: Dispatch, title: string)
    requires PressesOnly(d, title)
    ensures PressesOk(d) <==> SharesOk(d.on.value, title)
  {
    var n := |d.request.actions| - 1;
    var id := d.request.actions[n].id;
    assert IdsAt(d.on.value.buttons, title) == [id];
    if SharesOk(d.on.value, title) {
      assert d.request.actions[n] == DoAction(id) && PressesAs(d, id, "ok");
    }
  }

  // ---------------------------------------------------------------------------------------------
  // What the commit leaves behind
  // ---------------------------------------------------------------------------------------------

  /** The value a control holds after these sets, in order. */
  function Final(sets: Fields, id: string): Option<string> {
    if sets == [] then None
    else if sets[|sets| - 1].0 == id then Some(sets[|sets| - 1].1)
    else Final(sets[..|sets| - 1], id)
  }

  /** The sets of header controls and of grid columns a request makes, in order. */
  function FieldSets(actions: seq<Action>): Fields {
    if actions == [] then []
    else
      var a, front := actions[|actions| - 1], FieldSets(actions[..|actions| - 1]);
      if a.SetControl? then front + [(a.id, a.value)] else front
  }

  function ColumnSets(actions: seq<Action>): Fields {
    if actions == [] then []
    else
      var a, front := actions[|actions| - 1], ColumnSets(actions[..|actions| - 1]);
      if a.InsertRow? || a.UpdateRow? then front + a.events else front
  }

  /** Every pair's control holds the pair's value in the end. */
  ghost predicate AllRemain(sets: Fields, source: Ids, pairs: Fields) {
    forall i, id :: 0 <= i < |pairs| && Resolves(source, pairs[i].0, id) ==> Final(sets, id) == Some(pairs[i].1)
  }

  /** Two fields with different values answer to one control of the form. */
  ghost predicate Clash(source: Ids, pairs: Fields) {
    exists i, j, id :: 0 <= i < |pairs| && 0 <= j < |pairs| && pairs[i].1 != pairs[j].1
                       && Resolves(source, pairs[i].0, id) && Resolves(source, pairs[j].0, id)
  }

  lemma {:induction false} FinalIsASet(sets: Fields, i: nat)
    requires i < |sets|
    ensures exists j :: i <= j < |sets| && sets[j].0 == sets[i].0 && Final(sets, sets[i].0) == Some(sets[j].1)
  {
    var n := |sets| - 1;
    if sets[n].0 == sets[i].0 {
      assert sets[n].0 == sets[i].0;
    } else {
      FinalIsASet(sets[..n], i);
      var j :| i <= j < n && sets[..n][j].0 == sets[..n][i].0 && Final(sets[..n], sets[i].0) == Some(sets[..n][j].1);
      assert sets[j].0 == sets[i].0;
    }
  }

  /** An alias is answered by one control only. */
  lemma ResolvesOne(source: Ids, alias: string, id: string, other: string)
    requires Resolves(source, alias, id) && Resolves(source, alias, other)
    ensures id == other
  {
    FieldIdFindsExactly(source, alias, id);
    FieldIdFindsExactly(source, alias, other);
  }

  lemma PairsRemainExactly(source: Ids, pairs: Fields)
    requires AllResolve(source, pairs)
    ensures AllRemain(Resolved(source, pairs), source, pairs) <==> !Clash(source, pairs)
  {
    var sets := Resolved(source, pairs);
    if !Clash(source, pairs) {
      forall i, id | 0 <= i < |pairs| && Resolves(source, pairs[i].0, id) ensures Final(sets, id) == Some(pairs[i].1) {
        ResolvesOne(source, pairs[i].0, id, sets[i].0);
        FinalIsASet(sets, i);
        var j :| i <= j < |sets| && sets[j].0 == sets[i].0 && Final(sets, sets[i].0) == Some(sets[j].1);
        assert Resolves(source, pairs[j].0, id);
      }
    } else {
      var i, j, id :| 0 <= i < |pairs| && 0 <= j < |pairs| && pairs[i].1 != pairs[j].1
                      && Resolves(source, pairs[i].0, id) && Resolves(source, pairs[j].0, id);
      assert !(Final(sets, id) == Some(pairs[i].1) && Final(sets, id) == Some(pairs[j].1));
    }
  }

  lemma {:induction false} SetsInOrder(sets: Fields)
    ensures FieldSets(Sets(sets)) == sets && ColumnSets(Sets(sets)) == []
  {
    if sets != [] {
      var n := |sets| - 1;
      SetsInOrder(sets[..n]);
      assert Sets(sets)[..n] == Sets(sets[..n]);
      assert sets == sets[..n] + [sets[n]];
    }
  }

  lemma LastSet(front: seq<Action>, a: Action)
    ensures FieldSets(front + [a]) == FieldSets(front) + (if a.SetControl? then [(a.id, a.value)] else [])
    ensures ColumnSets(front + [a]) == ColumnSets(front) + (if a.InsertRow? || a.UpdateRow? then a.events else [])
  {
    assert (front + [a])[..|front|] == front;
  }

  lemma SetsBeforeOk(sets: Fields, ok: string)
    ensures FieldSets(Sets(sets) + [DoAction(ok)]) == sets && ColumnSets(Sets(sets) + [DoAction(ok)]) == []
  {
    SetsInOrder(sets);
    LastSet(Sets(sets), DoAction(ok));
  }

  lemma SetsBeforeGrid(sets: Fields, change: Action, ok: string)
    requires change.InsertRow? || change.UpdateRow?
    ensures FieldSets(Sets(sets) + [change] + [DoAction(ok)]) == sets
    ensures ColumnSets(Sets(sets) + [change] + [DoAction(ok)]) == change.events
  {
    SetsInOrder(sets);
    LastSet(Sets(sets), change);
    LastSet(Sets(sets) + [change], DoAction(ok));
  }

  lemma CommitSets(rev: Form, content: Content, fm: FormMap)
    requires content.Row? && SavingOf(rev, content, fm).Done?
    ensures var actions := SavingOf(rev, content, fm).value.actions;
            && FieldSets(actions) == Resolved(rev.fields, FieldPairs(content, fm))
            && ColumnSets(actions) == Resolved(rev.columns, ColumnPairs(content, fm))
  {
    var sets, ok := Resolved(rev.fields, FieldPairs(content, fm)), ButtonId(rev, "OK").value;
    if fm.layout == Header {
      SetsBeforeOk(sets, ok);
      assert Sets(sets) + [] == Sets(sets);
      assert Resolved(rev.columns, ColumnPairs(content, fm)) == [];
    } else {
      SetsBeforeGrid(sets, GridChange(rev, content, fm)[0], ok);
    }
  }

  /** After the commit every approved value it sets, an added row's key fields included, is what its
      control or column holds if and only if no two of the item's fields with different values answer
      to one control, or one column, of that form. */
  lemma ApprovedValuesRemainExactly(rev: Form, content: Content, fm: FormMap)
    requires content.Row? && SavingOf(rev, content, fm).Done?
    ensures var actions := SavingOf(rev, content, fm).value.actions;
            (AllRemain(FieldSets(actions), rev.fields, FieldPairs(content, fm))
             && AllRemain(ColumnSets(actions), rev.columns, ColumnPairs(content, fm)))
            <==> !Clash(rev.fields, FieldPairs(content, fm)) && !Clash(rev.columns, ColumnPairs(content, fm))
  {
    CommitSets(rev, content, fm);
    PairsRemainExactly(rev.fields, FieldPairs(content, fm));
    PairsRemainExactly(rev.columns, ColumnPairs(content, fm));
  }
}
