/** The item language of configuration change sets: how a proposed item is normalised. */
module ConfigItems {
  import opened Wrappers
  import opened Changes
  import Texts

  const UDC_FIELDS := {"DRDL01", "DRDL02", "DRSPHD"}

  datatype Kind = OptionKind | UdcKind | SetupKind | SelectionKind | SequencingKind

  /** What the catalogue says about a capability: its item kind and, where it names any, its tables. */
  datatype Rule = Rule(kind: Option<Kind>, tables: set<string>)

  /** An item as it was proposed; a text that was not given is empty. */
  datatype RawItem = RawItem(text: map<string, string>, key: Fields, values: Fields, rule: Rule)

  datatype NormalItem = NormalItem(id: string, kind: Kind, content: Content)

  // ---------------------------------------------------------------------------------------------
  // Names
  // ---------------------------------------------------------------------------------------------

  predicate IsUpper(c: char) {
    'A' <= c <= 'Z'
  }

  predicate IsUpperOrDigit(c: char) {
    IsUpper(c) || '0' <= c <= '9'
  }

  predicate AllUpperOrDigits(s: string) {
    forall i :: 0 <= i < |s| ==> IsUpperOrDigit(s[i])
  }

  /** A data dictionary alias; object names have the same form. */
  predicate IsAlias(s: string) {
    2 <= |s| <= 10 && IsUpper(s[0]) && AllUpperOrDigits(s)
  }

  predicate IsTable(s: string) {
    4 <= |s| <= 10 && s[0] == 'F' && AllUpperOrDigits(s)
  }

  predicate OracleOwned(version: string) {
    |version| >= 4 && (version[..4] == "XJDE" || version[..4] == "ZJDE")
  }

  predicate UniqueNames(fields: Fields) {
    forall i, j :: 0 <= i < j < |fields| ==> fields[i].0 != fields[j].0
  }

  // ---------------------------------------------------------------------------------------------
  // Fields: a dictionary filled from what was proposed
  // ---------------------------------------------------------------------------------------------

  function AliasOf(raw: string): string {
    Texts.Upper(Texts.Strip(raw))
  }

  predicate FieldAllowed(f: (string, string), allowed: Option<set<string>>) {
    && IsAlias(AliasOf(f.0)) && |f.1| <= 200
    && (allowed.Some? ==> AliasOf(f.0) in allowed.value)
  }

  /** The value proposed last for an alias. */
  function LastValue(raw: Fields, alias: string): Option<string> {
    if raw == [] then None
    else if AliasOf(raw[|raw| - 1].0) == alias then Some(raw[|raw| - 1].1)
    else LastValue(raw[..|raw| - 1], alias)
  }

  function ValueOf(fields: Fields, alias: string): Option<string> {
    if fields == [] then None
    else if fields[0].0 == alias then Some(fields[0].1)
    else ValueOf(fields[1..], alias)
  }

  /** The fields hold exactly the value proposed last for each alias, once. */
  ghost predicate Holds(fields: Fields, raw: Fields) {
    && UniqueNames(fields)
    && (forall i :: 0 <= i < |fields| ==> LastValue(raw, fields[i].0) == Some(fields[i].1))
    && (forall alias :: LastValue(raw, alias).Some? ==> exists i :: 0 <= i < |fields| && fields[i].0 == alias)
  }

  method Put(fields: Fields, alias: string, value: string) returns (r: Fields)
    requires UniqueNames(fields)
    ensures UniqueNames(r) && (alias, value) in r
    ensures forall i :: 0 <= i < |fields| ==> i < |r| && r[i] == if fields[i].0 == alias then (alias, value) else fields[i]
    ensures forall i :: |fields| <= i < |r| ==> r[i] == (alias, value)
    ensures |r| == |fields| || (|r| == |fields| + 1 && forall i :: 0 <= i < |fields| ==> fields[i].0 != alias)
  {
    var i := 0;
    while i < |fields| && fields[i].0 != alias
      invariant 0 <= i <= |fields| && forall j :: 0 <= j < i ==> fields[j].0 != alias
    {
      i := i + 1;
    }
    if i == |fields| {
      r := fields + [(alias, value)];
      assert r[|fields|] == (alias, value);
    } else {
      r := fields[i := (alias, value)];
      assert r[i] == (alias, value);
    }
  }

  lemma HoldsNext(fields: Fields, raw: Fields, next: (string, string), r: Fields)
    requires Holds(fields, raw) && UniqueNames(r) && (AliasOf(next.0), next.1) in r
    requires forall i :: 0 <= i < |fields| ==>
               i < |r| && r[i] == if fields[i].0 == AliasOf(next.0) then (AliasOf(next.0), next.1) else fields[i]
    requires forall i :: |fields| <= i < |r| ==> r[i] == (AliasOf(next.0), next.1)
    ensures Holds(r, raw + [next])
  {
  }

  /** Names are trimmed and put in upper case; where two proposed names come out the same, the later
      value stands. */
  method Aliases(raw: Fields, allowed: Option<set<string>>, limit: nat) returns (r: Option<Fields>)
    ensures r.Some? <==> FieldsAccepted(raw, allowed, limit)
    ensures r.Some? ==> Holds(r.value, raw) && r.value != []
    ensures r.Some? ==> forall i :: 0 <= i < |r.value| ==> IsAlias(r.value[i].0)
  {
    if raw == [] || |raw| > limit {
      return None;
    }
    var fields: Fields := [];
    for i := 0 to |raw|
      invariant Holds(fields, raw[..i])
      invariant i > 0 ==> fields != []
      invariant forall j :: 0 <= j < i ==> FieldAllowed(raw[j], allowed)
      invariant forall j :: 0 <= j < |fields| ==> IsAlias(fields[j].0)
    {
      if !FieldAllowed(raw[i], allowed) {
        return None;
      }
      var next := Put(fields, AliasOf(raw[i].0), raw[i].1);
      HoldsNext(fields, raw[..i], raw[i], next);
      assert raw[..i] + [raw[i]] == raw[..i + 1];
      fields := next;
    }
    assert raw[..|raw|] == raw;
    return Some(fields);
  }

  // ---------------------------------------------------------------------------------------------
  // Items
  // ---------------------------------------------------------------------------------------------

  function Given(raw: RawItem, name: string): string {
    Texts.Strip(if name in raw.text then raw.text[name] else "")
  }

  /** A required text within its limit. */
  function Text(raw: RawItem, name: string, limit: nat): Option<string> {
    if Given(raw, name) == "" || |Given(raw, name)| > limit then None else Some(Given(raw, name))
  }

  function UpperText(raw: RawItem, name: string, limit: nat): Option<string> {
    var t := Text(raw, name, limit);
    if t.Some? then Some(Texts.Upper(t.value)) else None
  }

  /** A text as it is stored: given, trimmed, within its limit. */
  predicate IsText(s: string, limit: nat) {
    s != "" && |s| <= limit && Texts.Trimmed(s)
  }

  /** A version a customer may have of their own. */
  predicate IsVersion(s: string) {
    IsText(s, 10) && Texts.Upper(s) == s && !OracleOwned(s)
  }

  /** What a normalised item always is. */
  predicate WellFormed(kind: Kind, content: Content) {
    match content
    case ProcessingOption(application, version, option, _) =>
      kind == OptionKind && IsAlias(application) && IsVersion(version) && IsText(option, 40)
    case VersionText(application, version, specification) =>
      (kind == SelectionKind || kind == SequencingKind) && IsAlias(application) && application[0] == 'R'
      && IsVersion(version) && IsText(specification, 2000)
    case Row(table, key, _, values) =>
      (kind == UdcKind || kind == SetupKind) && IsTable(table)
      && key != [] && values != [] && UniqueNames(key) && UniqueNames(values)
      && (forall i :: 0 <= i < |key| ==> IsAlias(key[i].0)) && (forall i :: 0 <= i < |values| ==> IsAlias(values[i].0))
      && (forall i, j :: 0 <= i < |key| && 0 <= j < |values| ==> key[i].0 != values[j].0)
  }

  lemma TextIsText(raw: RawItem, name: string, limit: nat)
    ensures var t := Text(raw, name, limit);
            t.Some? ==> IsText(t.value, limit) && IsText(Texts.Upper(t.value), limit)
                        && Texts.Upper(Texts.Upper(t.value)) == Texts.Upper(t.value)
  {
    var t := Text(raw, name, limit);
    if t.Some? {
      Texts.StripTrims(if name in raw.text then raw.text[name] else "");
      Texts.UpperStaysTrimmed(t.value);
      Texts.UpperAt(t.value);
      Texts.UpperAt(Texts.Upper(t.value));
    }
  }

  function Version(raw: RawItem): (r: Option<(string, string)>)
    ensures r.Some? ==> IsAlias(r.value.0) && IsVersion(r.value.1)
  {
    var application, version := UpperText(raw, "application", 10), UpperText(raw, "version", 10);
    if application.None? || version.None? || !IsAlias(application.value) || OracleOwned(version.value) then None
    else
      TextIsText(raw, "version", 10);
      Some((application.value, version.value))
  }

  function ActionOf(raw: RawItem): Option<RowAction> {
    var a := Texts.Upper(Given(raw, "action"));
    if a == "ADD" then Some(Add) else if a == "UPDATE" then Some(Update) else None
  }

  function OptionContent(raw: RawItem): (r: Option<Content>)
    ensures r.Some? ==> WellFormed(OptionKind, r.value)
  {
    var v, option, value := Version(raw), Text(raw, "option", 40), Given(raw, "value");
    TextIsText(raw, "option", 40);
    if v.None? || option.None? || |value| > 200 then None
    else Some(ProcessingOption(v.value.0, v.value.1, option.value, value))
  }

  function VersionContent(raw: RawItem): (r: Option<Content>)
    ensures r.Some? ==> WellFormed(SelectionKind, r.value) && WellFormed(SequencingKind, r.value)
  {
    var v, specification := Version(raw), Text(raw, "specification", 2000);
    TextIsText(raw, "specification", 2000);
    if v.None? || v.value.0[0] != 'R' || specification.None? then None
    else Some(VersionText(v.value.0, v.value.1, specification.value))
  }

  predicate FieldsAccepted(raw: Fields, allowed: Option<set<string>>, limit: nat) {
    0 < |raw| <= limit && forall i :: 0 <= i < |raw| ==> FieldAllowed(raw[i], allowed)
  }

  /** No alias is proposed both as a key field and as a value. */
  predicate Apart(key: Fields, values: Fields) {
    forall i, j :: 0 <= i < |key| && 0 <= j < |values| ==> AliasOf(key[i].0) != AliasOf(values[j].0)
  }

  function TableOf(raw: RawItem): Option<string> {
    var table := UpperText(raw, "table", 10);
    if table.None? || !IsTable(table.value) || (raw.rule.tables != {} && table.value !in raw.rule.tables) then None
    else table
  }

  predicate RowAccepted(raw: RawItem) {
    && ActionOf(raw).Some? && TableOf(raw).Some?
    && FieldsAccepted(raw.key, None, 6) && FieldsAccepted(raw.values, None, 30) && Apart(raw.key, raw.values)
  }

  /** The row content holds what was proposed. */
  ghost predicate RowHolds(raw: RawItem, content: Content) {
    && content.Row? && Some(content.action) == ActionOf(raw) && Some(content.table) == TableOf(raw)
    && Holds(content.key, raw.key) && Holds(content.values, raw.values)
  }

  lemma {:induction false} LastIsProposed(raw: Fields, alias: string)
    ensures LastValue(raw, alias).Some? <==> exists i :: 0 <= i < |raw| && AliasOf(raw[i].0) == alias
  {
    if raw != [] {
      var front := raw[..|raw| - 1];
      LastIsProposed(front, alias);
      if AliasOf(raw[|raw| - 1].0) != alias && exists i :: 0 <= i < |raw| && AliasOf(raw[i].0) == alias {
        var i :| 0 <= i < |raw| && AliasOf(raw[i].0) == alias;
        assert front[i] == raw[i];
      }
    }
  }

  /** A clash between the fields is a clash between what was proposed. */
  lemma ClashIsProposed(key: Fields, rawKey: Fields, values: Fields, rawValues: Fields, i: nat, j: nat)
    requires Holds(key, rawKey) && Holds(values, rawValues) && i < |key| && j < |values| && key[i].0 == values[j].0
    ensures !Apart(rawKey, rawValues)
  {
    LastIsProposed(rawKey, key[i].0);
    LastIsProposed(rawValues, key[i].0);
    var a :| 0 <= a < |rawKey| && AliasOf(rawKey[a].0) == key[i].0;
    var b :| 0 <= b < |rawValues| && AliasOf(rawValues[b].0) == key[i].0;
  }

  lemma ApartIsApart(key: Fields, rawKey: Fields, values: Fields, rawValues: Fields)
    requires Holds(key, rawKey) && Holds(values, rawValues)
    requires forall a, b :: 0 <= a < |key| && 0 <= b < |values| ==> key[a].0 != values[b].0
    ensures Apart(rawKey, rawValues)
  {
    forall i, j | 0 <= i < |rawKey| && 0 <= j < |rawValues| ensures AliasOf(rawKey[i].0) != AliasOf(rawValues[j].0) {
      var alias := AliasOf(rawKey[i].0);
      LastIsProposed(rawKey, alias);
      LastIsProposed(rawValues, alias);
    }
  }

  method Overlap(key: Fields, values: Fields) returns (r: bool)
    ensures r <==> exists i, j :: 0 <= i < |key| && 0 <= j < |values| && key[i].0 == values[j].0
  {
    for i := 0 to |key|
      invariant forall a, b :: 0 <= a < i && 0 <= b < |values| ==> key[a].0 != values[b].0
    {
      for j := 0 to |values|
        invariant forall b :: 0 <= b < j ==> key[i].0 != values[b].0
      {
        if key[i].0 == values[j].0 {
          return true;
        }
      }
    }
    return false;
  }

  method NormaliseRow(raw: RawItem) returns (r: Option<Content>)
    ensures r.Some? <==> RowAccepted(raw)
    ensures r.Some? ==> WellFormed(SetupKind, r.value) && RowHolds(raw, r.value)
  {
    var action, table := ActionOf(raw), TableOf(raw);
    if action.None? || table.None? {
      return None;
    }
    var key := Aliases(raw.key, None, 6);
    var values := Aliases(raw.values, None, 30);
    if key.None? || values.None? {
      return None;
    }
    var overlap := Overlap(key.value, values.value);
    if overlap {
      ghost var i, j :| 0 <= i < |key.value| && 0 <= j < |values.value| && key.value[i].0 == values.value[j].0;
      ClashIsProposed(key.value, raw.key, values.value, raw.values, i, j);
      return None;
    }
    ApartIsApart(key.value, raw.key, values.value, raw.values);
    return Some(Row(table.value, key.value, action.value, values.value));
  }

  function UdcKey(raw: RawItem): Option<Fields> {
    var product, udcType, code := UpperText(raw, "product_code", 4), UpperText(raw, "udc_type", 2), Text(raw, "code", 10);
    if product.None? || udcType.None? || code.None? then None
    else Some([("DRSY", product.value), ("DRRT", udcType.value), ("DRKY", code.value)])
  }

  method NormaliseUdc(raw: RawItem) returns (r: Option<Content>)
    ensures r.Some? <==> ActionOf(raw).Some? && UdcKey(raw).Some? && FieldsAccepted(raw.values, Some(UDC_FIELDS), 30)
    ensures r.Some? ==> WellFormed(UdcKind, r.value) && r.value.Row? && r.value.table == "F0005"
                        && Some(r.value.action) == ActionOf(raw) && Some(r.value.key) == UdcKey(raw)
                        && Holds(r.value.values, raw.values)
  {
    var action, key := ActionOf(raw), UdcKey(raw);
    if action.None? || key.None? {
      return None;
    }
    var values := Aliases(raw.values, Some(UDC_FIELDS), 30);
    if values.None? {
      return None;
    }
    UdcNames(key.value, raw.values, values.value);
    return Some(Row("F0005", key.value, action.value, values.value));
  }

  /** The three key fields of a user defined code, none of which may be a value field. */
  lemma UdcNames(key: Fields, raw: Fields, values: Fields)
    requires |key| == 3 && key[0].0 == "DRSY" && key[1].0 == "DRRT" && key[2].0 == "DRKY"
    requires Holds(values, raw) && forall i :: 0 <= i < |raw| ==> FieldAllowed(raw[i], Some(UDC_FIELDS))
    ensures UniqueNames(key) && (forall i :: 0 <= i < |key| ==> IsAlias(key[i].0)) && IsTable("F0005")
    ensures forall i, j :: 0 <= i < |key| && 0 <= j < |values| ==> key[i].0 != values[j].0
  {
    assert "DRSY"[2] != "DRRT"[2] && "DRSY"[2] != "DRKY"[2] && "DRRT"[2] != "DRKY"[2];
    forall i, j | 0 <= i < |key| && 0 <= j < |values| ensures key[i].0 != values[j].0 {
      LastIsAllowed(raw, values[j].0);
      assert |key[i].0| == 4 && |"DRDL01"| == 6 && |"DRDL02"| == 6 && |"DRSPHD"| == 6;
    }
  }

  lemma {:induction false} LastIsAllowed(raw: Fields, alias: string)
    requires LastValue(raw, alias).Some? && forall i :: 0 <= i < |raw| ==> FieldAllowed(raw[i], Some(UDC_FIELDS))
    ensures alias in UDC_FIELDS
  {
    if AliasOf(raw[|raw| - 1].0) != alias {
      LastIsAllowed(raw[..|raw| - 1], alias);
    }
  }

  predicate Accepted(raw: RawItem) {
    match raw.rule.kind
    case None => false
    case Some(OptionKind) => OptionContent(raw).Some?
    case Some(SelectionKind) => VersionContent(raw).Some?
    case Some(SequencingKind) => VersionContent(raw).Some?
    case Some(UdcKind) => ActionOf(raw).Some? && UdcKey(raw).Some? && FieldsAccepted(raw.values, Some(UDC_FIELDS), 30)
    case Some(SetupKind) => RowAccepted(raw)
  }

  /** The item is what was proposed, in its normal form. */
  ghost predicate NormalOf(raw: RawItem, index: nat, item: NormalItem) {
    && item.id == ItemId(index) && raw.rule.kind == Some(item.kind) && WellFormed(item.kind, item.content)
    && match item.kind
       case OptionKind => OptionContent(raw) == Some(item.content)
       case SelectionKind => VersionContent(raw) == Some(item.content)
       case SequencingKind => VersionContent(raw) == Some(item.content)
       case UdcKind => item.content.Row? && Some(item.content.action) == ActionOf(raw)
                       && Some(item.content.key) == UdcKey(raw) && Holds(item.content.values, raw.values)
       case SetupKind => RowHolds(raw, item.content)
  }

  method NormaliseItem(raw: RawItem, index: nat) returns (r: Option<NormalItem>)
    ensures r.Some? <==> Accepted(raw)
    ensures r.Some? ==> NormalOf(raw, index, r.value)
  {
    if raw.rule.kind.None? {
      return None;
    }
    var kind := raw.rule.kind.value;
    var content;
    match kind {
      case OptionKind => content := OptionContent(raw);
      case SelectionKind => content := VersionContent(raw);
      case SequencingKind => content := VersionContent(raw);
      case UdcKind => content := NormaliseUdc(raw);
      case SetupKind => content := NormaliseRow(raw);
    }
    return if content.None? then None else Some(NormalItem(ItemId(index), kind, content.value));
  }

  // ---------------------------------------------------------------------------------------------
  // Item ids: I1, I2, ...
  // ---------------------------------------------------------------------------------------------

  function Decimal(n: nat): string {
    if n < 10 then [('0' as int + n) as char] else Decimal(n / 10) + [('0' as int + n % 10) as char]
  }

  function ItemId(index: nat): string {
    "I" + Decimal(index + 1)
  }

  lemma {:induction false} DecimalIsInjective(m: nat, n: nat)
    requires Decimal(m) == Decimal(n)
    ensures m == n
  {
    var a, b := Decimal(m), Decimal(n);
    assert a[|a| - 1] == ('0' as int + m % 10) as char && b[|b| - 1] == ('0' as int + n % 10) as char;
    if m >= 10 && n >= 10 {
      assert a[..|a| - 1] == Decimal(m / 10) && b[..|b| - 1] == Decimal(n / 10);
      DecimalIsInjective(m / 10, n / 10);
    } else if m >= 10 {
      DecimalNotEmpty(m / 10);
    } else if n >= 10 {
      DecimalNotEmpty(n / 10);
    }
  }

  lemma DecimalNotEmpty(n: nat)
    ensures |Decimal(n)| > 0
  {
  }

  lemma IdsAreUnique(i: nat, j: nat)
    requires ItemId(i) == ItemId(j)
    ensures i == j
  {
    assert ItemId(i)[1..] == Decimal(i + 1) && ItemId(j)[1..] == Decimal(j + 1);
    DecimalIsInjective(i + 1, j + 1);
  }

  // ---------------------------------------------------------------------------------------------
  // Approved values
  // ---------------------------------------------------------------------------------------------

  function ValueMap(fields: Fields): map<string, Option<string>> {
    map f | f in fields :: f.0 := ValueOf(fields, f.0)
  }

  /** What must be in the target system afterwards. */
  function ApprovedState(content: Content): Observed {
    match content
    case ProcessingOption(_, _, _, value) => Changes.Text(Some(value))
    case Row(_, _, _, values) => RowState(true, ValueMap(values))
    case VersionText(_, _, specification) => Specification(specification)
  }

  lemma {:induction false} ValueIsThere(fields: Fields, f: (string, string))
    requires f in fields && UniqueNames(fields)
    ensures ValueOf(fields, f.0) == Some(f.1)
  {
    var i :| 0 <= i < |fields| && fields[i] == f;
    if i > 0 {
      assert fields[1..][i - 1] == f;
      ValueIsThere(fields[1..], f);
    }
  }

  /** A target system that shows exactly the approved values is recognised as such. */
  lemma ApprovedStateMatches(kind: Kind, item: Item)
    requires WellFormed(kind, item.content)
    ensures MatchesApproved(item, ApprovedState(item.content))
  {
    if item.content.Row? {
      var values := item.content.values;
      forall f | f in values ensures Same(Lookup(ValueMap(values), f.0), Some(f.1)) {
        ValueIsThere(values, f);
      }
    }
  }
}
