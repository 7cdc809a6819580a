/** The target text by which two items are told to change the same thing: what it tells apart, and
    exactly where it does not. */
module Targets {
  import opened Changes
  import opened ConfigItems
  import AisGuard
  import AisForms
  import AisPlan
  import Texts

  // ---------------------------------------------------------------------------------------------
  // The target of an item
  // ---------------------------------------------------------------------------------------------

  predicate Less(a: string, b: string) {
    if b == "" then false
    else if a == "" then true
    else if a[0] != b[0] then a[0] < b[0]
    else Less(a[1..], b[1..])
  }

  function Insert(f: (string, string), fields: Fields): Fields {
    if fields == [] then [f]
    else if Less(fields[0].0, f.0) then [fields[0]] + Insert(f, fields[1..])
    else [f] + fields
  }

  function Sorted(fields: Fields): Fields {
    if fields == [] then [] else Insert(fields[0], Sorted(fields[1..]))
  }

  function Parts(fields: Fields): seq<string> {
    seq(|fields|, i requires 0 <= i < |fields| => fields[i].0 + "=" + fields[i].1)
  }

  function Join(parts: seq<string>): string {
    if parts == [] then "" else if |parts| == 1 then parts[0] else parts[0] + ";" + Join(parts[1..])
  }

  /** The stable identity of what an item changes: its kind and, after a colon, what it is there. */
  function TargetOf(kind: Kind, content: Content): string {
    Head(kind, content) + [':'] + Rest(content)
  }

  function Head(kind: Kind, content: Content): string {
    match content
    case ProcessingOption(_, _, _, _) => "po"
    case VersionText(_, _, _) => if kind == SelectionKind then "vds" else "vsq"
    case Row(_, _, _, _) => "row"
  }

  function Rest(content: Content): string {
    match content
    case ProcessingOption(application, version, option, _) => application + "|" + version + "|" + Texts.Upper(option)
    case VersionText(application, version, _) => application + "|" + version
    case Row(table, key, _, _) => table + ":" + Join(Parts(Sorted(key)))
  }

  /** Two items change the same thing: the same option of a version, the same text of a version, or the
      same row of a table. */
  ghost predicate SameThing(k: Kind, a: Content, l: Kind, b: Content) {
    match (a, b)
    case (ProcessingOption(p, v, o, _), ProcessingOption(q, w, u, _)) => p == q && v == w && Texts.Upper(o) == Texts.Upper(u)
    case (VersionText(p, v, _), VersionText(q, w, _)) => p == q && v == w && (k == SelectionKind <==> l == SelectionKind)
    case (Row(t, key, _, _), Row(u, other, _, _)) => t == u && forall f :: f in key <==> f in other
    case _ => false
  }

  /** No text of the item's identity contains the mark its target is put together with. */
  predicate Plain(content: Content) {
    match content
    case ProcessingOption(_, version, _, _) => '|' !in version
    case VersionText(_, _, _) => true
    case Row(_, key, _, _) => forall i :: 0 <= i < |key| ==> ';' !in key[i].1
  }

  // Sorting: the same fields in any order come out the same.

  predicate Ascending(fields: Fields) {
    forall i, j :: 0 <= i < j < |fields| ==> Less(fields[i].0, fields[j].0)
  }

  lemma {:induction false} LessIsTransitive(a: string, b: string, c: string)
    requires Less(a, b) && Less(b, c)
    ensures Less(a, c)
    decreases |a|
  {
    if a != "" && a[0] == b[0] == c[0] {
      LessIsTransitive(a[1..], b[1..], c[1..]);
    }
  }

  lemma {:induction false} LessIsTotal(a: string, b: string)
    ensures a == b || Less(a, b) || Less(b, a)
    ensures !(Less(a, b) && Less(b, a)) && !Less(a, a)
    decreases |a|
  {
    if a != "" && b != "" && a[0] == b[0] {
      LessIsTotal(a[1..], b[1..]);
      assert a == [a[0]] + a[1..] && b == [b[0]] + b[1..];
    }
    if a != "" {
      LessIsTotal(a[1..], a[1..]);
    }
  }

  lemma {:induction false} InsertedIsAscending(f: (string, string), fields: Fields)
    requires Ascending(fields) && forall i :: 0 <= i < |fields| ==> fields[i].0 != f.0
    ensures Ascending(Insert(f, fields))
    ensures forall g :: g in Insert(f, fields) <==> g == f || g in fields
  {
    if fields != [] {
      var first, rest := fields[0], fields[1..];
      assert fields == [first] + rest;
      LessIsTotal(first.0, f.0);
      if Less(first.0, f.0) {
        InsertedIsAscending(f, rest);
        PrependAscending(first, Insert(f, rest));
      } else {
        forall g | g in fields ensures Less(f.0, g.0) {
          var i :| 0 <= i < |fields| && fields[i] == g;
          if i > 0 {
            LessIsTransitive(f.0, first.0, g.0);
          }
        }
        PrependAscending(f, fields);
      }
    }
  }

  lemma PrependAscending(f: (string, string), fields: Fields)
    requires Ascending(fields) && forall g :: g in fields ==> Less(f.0, g.0)
    ensures Ascending([f] + fields)
  {
  }

  lemma {:induction false} SortedIsAscending(fields: Fields)
    requires UniqueNames(fields)
    ensures Ascending(Sorted(fields)) && forall g :: g in Sorted(fields) <==> g in fields
  {
    if fields != [] {
      SortedIsAscending(fields[1..]);
      var s := Sorted(fields[1..]);
      forall i | 0 <= i < |s| ensures s[i].0 != fields[0].0 {
        assert s[i] in fields[1..];
      }
      InsertedIsAscending(fields[0], s);
      assert fields == [fields[0]] + fields[1..];
    }
  }

  lemma {:induction false} AscendingIsCanonical(a: Fields, b: Fields)
    requires Ascending(a) && Ascending(b) && forall f :: f in a <==> f in b
    ensures a == b
  {
    EmptyTogether(a, b);
    if a != [] {
      HeadsAgree(a, b);
      assert a == [a[0]] + a[1..] && b == [b[0]] + b[1..];
      forall f ensures f in a[1..] <==> f in b[1..] {
        TailIsAfter(a, f);
        TailIsAfter(b, f);
      }
      AscendingIsCanonical(a[1..], b[1..]);
    }
  }

  lemma EmptyTogether(a: Fields, b: Fields)
    requires forall f :: f in a <==> f in b
    ensures a == [] <==> b == []
  {
    if a != [] {
      assert a[0] in b;
    }
    if b != [] {
      assert b[0] in a;
    }
  }

  lemma TailIsAfter(a: Fields, f: (string, string))
    requires Ascending(a) && a != []
    ensures f in a[1..] <==> f in a && f != a[0]
  {
    LessIsTotal(a[0].0, a[0].0);
    assert a == [a[0]] + a[1..];
    if f in a[1..] {
      var i :| 0 < i < |a| && a[i] == f;
      assert Less(a[0].0, f.0);
    }
  }

  lemma HeadsAgree(a: Fields, b: Fields)
    requires Ascending(a) && Ascending(b) && a != [] && b != [] && forall f :: f in a <==> f in b
    ensures a[0] == b[0]
  {
    assert a[0] in b && b[0] in a;
    var i :| 0 <= i < |b| && b[i] == a[0];
    var j :| 0 <= j < |a| && a[j] == b[0];
    LessIsTotal(a[0].0, b[0].0);
  }

  // Reading a target back.

  lemma AliasHasNoMark(s: string, mark: char)
    requires AllUpperOrDigits(s) && !IsUpperOrDigit(mark)
    ensures mark !in s
  {
  }

  predicate PlainParts(parts: seq<string>) {
    forall i :: 0 <= i < |parts| ==> ';' !in parts[i]
  }

  lemma JoinHasMark(parts: seq<string>)
    requires |parts| > 1
    ensures Join(parts) == parts[0] + [';'] + Join(parts[1..])
    ensures ';' in Join(parts)
  {
  }

  lemma {:induction false} JoinIsInjective(a: seq<string>, b: seq<string>)
    requires a != [] && b != [] && PlainParts(a) && PlainParts(b) && Join(a) == Join(b)
    ensures a == b
    decreases |a|
  {
    if |a| > 1 {
      JoinHasMark(a);
    }
    if |b| > 1 {
      JoinHasMark(b);
    }
    if |a| > 1 && |b| > 1 {
      Texts.SplitsAtMark(a[0], Join(a[1..]), b[0], Join(b[1..]), ';');
      JoinIsInjective(a[1..], b[1..]);
      assert a == [a[0]] + a[1..] && b == [b[0]] + b[1..];
    }
  }

  lemma {:induction false} PartsAreInjective(a: Fields, b: Fields)
    requires Parts(a) == Parts(b)
    requires forall i :: 0 <= i < |a| ==> IsAlias(a[i].0)
    requires forall i :: 0 <= i < |b| ==> IsAlias(b[i].0)
    ensures a == b
  {
    assert |a| == |Parts(a)| == |Parts(b)| == |b|;
    forall i | 0 <= i < |a| ensures a[i] == b[i] {
      assert Parts(a)[i] == a[i].0 + ['='] + a[i].1;
      assert Parts(b)[i] == b[i].0 + ['='] + b[i].1;
      AliasHasNoMark(a[i].0, '=');
      AliasHasNoMark(b[i].0, '=');
      Texts.SplitsAtMark(a[i].0, a[i].1, b[i].0, b[i].1, '=');
    }
  }

  lemma PlainKeyParts(key: Fields)
    requires forall i :: 0 <= i < |key| ==> IsAlias(key[i].0) && ';' !in key[i].1
    ensures PlainParts(Parts(key))
  {
  }

  lemma RowTargets(t: string, a: Fields, u: string, b: Fields)
    requires IsTable(t) && IsTable(u) && a != [] && b != [] && UniqueNames(a) && UniqueNames(b)
    requires forall i :: 0 <= i < |a| ==> IsAlias(a[i].0) && ';' !in a[i].1
    requires forall i :: 0 <= i < |b| ==> IsAlias(b[i].0) && ';' !in b[i].1
    ensures t + ":" + Join(Parts(Sorted(a))) == u + ":" + Join(Parts(Sorted(b)))
            <==> t == u && forall f :: f in a <==> f in b
  {
    SortedIsAscending(a);
    SortedIsAscending(b);
    var x, y := Sorted(a), Sorted(b);
    assert x != [] by { assert a[0] in x; }
    assert y != [] by { assert b[0] in y; }
    if t == u && forall f :: f in a <==> f in b {
      AscendingIsCanonical(x, y);
    }
    if t + ":" + Join(Parts(x)) == u + ":" + Join(Parts(y)) {
      AliasHasNoMark(t, ':');
      AliasHasNoMark(u, ':');
      Texts.SplitsAtMark(t, Join(Parts(x)), u, Join(Parts(y)), ':');
      PlainSorted(a, x);
      PlainSorted(b, y);
      JoinIsInjective(Parts(x), Parts(y));
      PartsAreInjective(x, y);
    }
  }

  lemma PlainSorted(key: Fields, sorted: Fields)
    requires forall i :: 0 <= i < |key| ==> IsAlias(key[i].0) && ';' !in key[i].1
    requires forall f :: f in sorted ==> f in key
    ensures forall i :: 0 <= i < |sorted| ==> IsAlias(sorted[i].0) && ';' !in sorted[i].1
    ensures PlainParts(Parts(sorted))
  {
    forall i | 0 <= i < |sorted| ensures IsAlias(sorted[i].0) && ';' !in sorted[i].1 {
      assert sorted[i] in key;
    }
    PlainKeyParts(sorted);
  }

  lemma VersionTargets(p: string, v: string, q: string, w: string)
    requires IsAlias(p) && IsAlias(q)
    ensures p + "|" + v == q + "|" + w <==> p == q && v == w
  {
    AliasHasNoMark(p, '|');
    AliasHasNoMark(q, '|');
    if p + "|" + v == q + "|" + w {
      Texts.SplitsAtMark(p, v, q, w, '|');
    }
  }

  lemma OptionTargets(p: string, v: string, o: string, q: string, w: string, u: string)
    requires IsAlias(p) && IsAlias(q) && '|' !in v && '|' !in w
    ensures p + "|" + v + "|" + o == q + "|" + w + "|" + u <==> p == q && v == w && o == u
  {
    if p + "|" + v + "|" + o == q + "|" + w + "|" + u {
      assert p + "|" + (v + "|" + o) == p + "|" + v + "|" + o;
      assert q + "|" + (w + "|" + u) == q + "|" + w + "|" + u;
      VersionTargets(p, v + "|" + o, q, w + "|" + u);
      Texts.SplitsAtMark(v, o, w, u, '|');
    }
  }

  lemma HeadIsPlain(kind: Kind, content: Content)
    ensures ':' !in Head(kind, content)
  {
  }

  lemma HeadsAreApart(k: Kind, a: Content, l: Kind, b: Content)
    ensures TargetOf(k, a) == TargetOf(l, b) <==> Head(k, a) == Head(l, b) && Rest(a) == Rest(b)
  {
    HeadIsPlain(k, a);
    HeadIsPlain(l, b);
    if TargetOf(k, a) == TargetOf(l, b) {
      Texts.SplitsAtMark(Head(k, a), Rest(a), Head(l, b), Rest(b), ':');
    }
  }

  /** Two normalised items have the same target if and only if they change the same thing -- as long as
      their texts do not contain the marks a target is put together with. */
  lemma TargetsIdentifyExactly(k: Kind, a: Content, l: Kind, b: Content)
    requires WellFormed(k, a) && WellFormed(l, b) && Plain(a) && Plain(b)
    ensures TargetOf(k, a) == TargetOf(l, b) <==> SameThing(k, a, l, b)
  {
    HeadsAreApart(k, a, l, b);
    match (a, b)
    case (ProcessingOption(p, v, o, _), ProcessingOption(q, w, u, _)) =>
      OptionTargets(p, v, Texts.Upper(o), q, w, Texts.Upper(u));
    case (VersionText(p, v, _), VersionText(q, w, _)) =>
      assert "vds"[1] != "vsq"[1];
      VersionTargets(p, v, q, w);
    case (Row(t, x, _, _), Row(u, y, _, _)) => RowTargets(t, x, u, y);
    case _ =>
      assert "po"[0] == 'p' && "vds"[0] == 'v' && "vsq"[0] == 'v' && "row"[0] == 'r';
  }

  lemma SortedPair(f: (string, string), g: (string, string))
    requires Less(f.0, g.0)
    ensures Sorted([f]) == [f] && Sorted([f, g]) == [f, g]
  {
    LessIsTotal(f.0, g.0);
    assert [f][1..] == [] && [f, g][1..] == [g] && [g][1..] == [];
    assert Sorted([g]) == [g];
  }

  lemma JoinedParts(f: (string, string), g: (string, string))
    ensures Join(Parts([f])) == f.0 + "=" + f.1
    ensures Join(Parts([f, g])) == f.0 + "=" + f.1 + ";" + (g.0 + "=" + g.1)
  {
  }

  /** Without that, two different rows can have one target: for any two fields, a value of the first that
      goes on like the second. */
  lemma TargetsCanCollide(table: string, f: (string, string), g: (string, string), values: Fields)
    requires Less(f.0, g.0)
    ensures var a := Row(table, [(f.0, f.1 + ";" + g.0 + "=" + g.1)], Add, values);
            var b := Row(table, [f, g], Add, values);
            TargetOf(SetupKind, a) == TargetOf(SetupKind, b) && !SameThing(SetupKind, a, SetupKind, b)
  {
    var x := (f.0, f.1 + ";" + g.0 + "=" + g.1);
    SortedPair(f, g);
    SortedPair(x, g);
    JoinedParts(f, g);
    JoinedParts(x, g);
    assert f.0 + "=" + f.1 + ";" + (g.0 + "=" + g.1) == f.0 + "=" + (f.1 + ";" + g.0 + "=" + g.1);
    assert g in [f, g] && [f, g][1] == g;
    LessIsTotal(f.0, g.0);
    assert g !in [x];
  }

  // ---------------------------------------------------------------------------------------------
  // Rows that share a target: exactly when
  // ---------------------------------------------------------------------------------------------

  /** The text starts like a further key field: an alias after the given one, and the equals sign. */
  predicate StartsField(s: string, alias: string) {
    var n := Texts.Before(s, '=');
    n < |s| && IsAlias(s[..n]) && Less(alias, s[..n])
  }

  /** The value goes on, after a semicolon, like a further key field. */
  predicate HidesField(f: (string, string)) {
    exists i :: 0 <= i < |f.1| && f.1[i] == ';' && StartsField(f.1[i + 1..], f.0)
  }

  /** Another row has the same target: the key has several fields, which one field can hold, or its one value
      hides another field. */
  predicate SharedKey(key: Fields) {
    |key| >= 2 || (|key| == 1 && HidesField(key[0]))
  }

  lemma BeforeFinds(s: string, mark: char)
    ensures var n := Texts.Before(s, mark); n < |s| ==> s[n] == mark && mark !in s[..n]
  {
    if s != "" && s[0] != mark {
      BeforeFinds(s[1..], mark);
      var n := Texts.Before(s[1..], mark);
      if n < |s[1..]| {
        assert s[..n + 1] == [s[0]] + s[1..][..n];
      }
    }
  }

  lemma FieldStarts(alias: string, b: string, w: string)
    requires IsAlias(b) && Less(alias, b)
    ensures StartsField(b + "=" + w, alias)
  {
    AliasHasNoMark(b, '=');
    Texts.BeforeIsTheEnd(b, '=', w);
    assert (b + "=" + w)[..|b|] == b;
  }

  lemma OnePart(f: (string, string))
    ensures Join(Parts([f])) == f.0 + ['='] + f.1
  {
  }

  lemma MoreParts(fields: Fields)
    requires |fields| > 1
    ensures Join(Parts(fields)) == fields[0].0 + ['='] + (fields[0].1 + [';'] + Join(Parts(fields[1..])))
  {
    JoinHasMark(Parts(fields));
    assert Parts(fields)[1..] == Parts(fields[1..]);
    assert Parts(fields)[0] == fields[0].0 + ['='] + fields[0].1;
    assert fields[0].0 + ['='] + fields[0].1 + [';'] + Join(Parts(fields[1..]))
           == fields[0].0 + ['='] + (fields[0].1 + [';'] + Join(Parts(fields[1..])));
  }

  /** A joined key starts with its first alias, whatever it holds. */
  function AfterFirst(fields: Fields): string
    requires fields != []
  {
    if |fields| == 1 then fields[0].1 else fields[0].1 + [';'] + Join(Parts(fields[1..]))
  }

  lemma FirstPart(fields: Fields)
    requires fields != []
    ensures Join(Parts(fields)) == fields[0].0 + ['='] + AfterFirst(fields)
  {
    if |fields| == 1 {
      assert fields == [fields[0]];
      OnePart(fields[0]);
    } else {
      MoreParts(fields);
    }
  }

  lemma FirstsAgree(x: Fields, y: Fields)
    requires x != [] && y != [] && IsAlias(x[0].0) && IsAlias(y[0].0) && Join(Parts(x)) == Join(Parts(y))
    ensures x[0].0 == y[0].0 && AfterFirst(x) == AfterFirst(y)
  {
    FirstPart(x);
    FirstPart(y);
    AliasHasNoMark(x[0].0, '=');
    AliasHasNoMark(y[0].0, '=');
    Texts.SplitsAtMark(x[0].0, AfterFirst(x), y[0].0, AfterFirst(y), '=');
  }

  /** If one field reads as two or more, it hides the second. */
  lemma ReadAsMore(f: (string, string), y: Fields)
    requires |y| > 1 && y[0].0 == f.0 && f.1 == AfterFirst(y) && Less(y[0].0, y[1].0) && IsAlias(y[1].0)
    ensures HidesField(f)
  {
    var i, rest := |y[0].1|, y[1..];
    FirstPart(rest);
    assert f.1[i] == ';' && f.1[i + 1..] == Join(Parts(rest));
    FieldStarts(f.0, y[1].0, AfterFirst(rest));
    assert Join(Parts(rest)) == y[1].0 + "=" + AfterFirst(rest);
  }

  lemma OneReading(f: (string, string), y: Fields)
    requires IsAlias(f.0) && y != [] && Ascending(y) && (forall i :: 0 <= i < |y| ==> IsAlias(y[i].0))
    requires Join(Parts([f])) == Join(Parts(y)) && !HidesField(f)
    ensures y == [f]
  {
    FirstsAgree([f], y);
    if |y| > 1 {
      ReadAsMore(f, y);
    }
    assert y == [y[0]];
  }

  /** What a hidden field holds. */
  function Hidden(f: (string, string), i: nat): ((string, string), (string, string))
    requires i < |f.1|
  {
    var s := f.1[i + 1..];
    var n := Texts.Before(s, '=');
    ((f.0, f.1[..i]), if n < |s| then (s[..n], s[n + 1..]) else (s, ""))
  }

  lemma HiddenJoins(f: (string, string), i: nat)
    requires i < |f.1| && f.1[i] == ';' && StartsField(f.1[i + 1..], f.0)
    ensures var (a, b) := Hidden(f, i);
            && a.0 == f.0 && IsAlias(b.0) && Less(a.0, b.0) && Join(Parts([a, b])) == Join(Parts([f]))
  {
    var s := f.1[i + 1..];
    var n := Texts.Before(s, '=');
    var (a, b) := Hidden(f, i);
    BeforeFinds(s, '=');
    assert s == s[..n] + ['='] + s[n + 1..];
    assert f.1 == f.1[..i] + [';'] + s;
    OnePart(f);
    OnePart(b);
    MoreParts([a, b]);
    assert [a, b][1..] == [b];
  }

  /** A field name that is none of these two. */
  function OtherAlias(a: string, b: string): (c: string)
    ensures IsAlias(c) && c != a && c != b
  {
    if "AA" != a && "AA" != b then "AA"
    else if "AB" != a && "AB" != b then (assert "AA"[1] != "AB"[1]; "AB")
    else (assert "AA"[1] != "AC"[1] && "AB"[1] != "AC"[1] && "AA"[1] != "AB"[1]; "AC")
  }

  /** The rows that are written out to show that a target is shared. */
  function Counterpart(table: string, key: Fields): Content
    requires key != []
  {
    Row(table, key, Add, [(OtherAlias(key[0].0, key[|key| - 1].0), "X")])
  }

  lemma CounterpartIsWellFormed(table: string, key: Fields)
    requires IsTable(table) && 1 <= |key| <= 2 && UniqueNames(key) && forall i :: 0 <= i < |key| ==> IsAlias(key[i].0)
    ensures WellFormed(SetupKind, Counterpart(table, key))
  {
  }

  lemma RowTargetsJoin(t: string, a: Fields, u: string, b: Fields)
    requires IsTable(t) && IsTable(u)
    ensures t + ":" + Join(Parts(Sorted(a))) == u + ":" + Join(Parts(Sorted(b)))
            <==> t == u && Join(Parts(Sorted(a))) == Join(Parts(Sorted(b)))
  {
    AliasHasNoMark(t, ':');
    AliasHasNoMark(u, ':');
    if t + ":" + Join(Parts(Sorted(a))) == u + ":" + Join(Parts(Sorted(b))) {
      Texts.SplitsAtMark(t, Join(Parts(Sorted(a))), u, Join(Parts(Sorted(b))), ':');
    }
  }

  lemma SortedOne(f: (string, string))
    ensures Sorted([f]) == [f]
  {
    assert [f][1..] == [] && Sorted([]) == [];
  }

  /** The limits a proposed row is held to. */
  predicate InLimits(content: Content) {
    content.Row? ==> |content.key| <= 6 && |content.values| <= 30
                     && (forall f :: f in content.key + content.values ==> |f.1| <= 200)
  }

  lemma TwoAreNotOne(p: (string, string), q: (string, string), f: (string, string))
    requires p != q
    ensures p !in [f] || q !in [f]
  {
  }

  /** The merge of all fields into the first; within the limits where the key is short. */
  lemma MergedShares(kind: Kind, a: Content)
    requires WellFormed(kind, a) && a.Row? && |a.key| >= 2
    ensures exists b :: WellFormed(SetupKind, b) && TargetOf(kind, a) == TargetOf(SetupKind, b)
                        && !SameThing(kind, a, SetupKind, b) && (|TargetOf(kind, a)| <= 200 ==> InLimits(b))
  {
    var x := Sorted(a.key);
    SortedIsAscending(a.key);
    assert x != [] by { assert a.key[0] in x; }
    FirstPart(x);
    var f := (x[0].0, AfterFirst(x));
    OnePart(f);
    SortedOne(f);
    assert x[0] in a.key;
    var b := Counterpart(a.table, [f]);
    CounterpartIsWellFormed(a.table, [f]);
    assert a.key[0].0 != a.key[1].0;
    TwoAreNotOne(a.key[0], a.key[1], f);
    assert TargetOf(kind, a) == TargetOf(SetupKind, b);
    assert !SameThing(kind, a, SetupKind, b) by {
      assert a.key[0] in a.key && a.key[1] in a.key;
    }
  }

  lemma CounterpartInLimits(table: string, key: Fields)
    requires 1 <= |key| <= 2 && forall i :: 0 <= i < |key| ==> |key[i].1| <= 200
    ensures InLimits(Counterpart(table, key))
  {
  }

  lemma HiddenIsShorter(f: (string, string), i: nat)
    requires i < |f.1|
    ensures var (a, b) := Hidden(f, i); |a.1| <= |f.1| && |b.1| <= |f.1|
  {
  }

  /** The split of the one field at what it hides. */
  lemma SplitShares(kind: Kind, a: Content)
    requires WellFormed(kind, a) && a.Row? && |a.key| == 1 && HidesField(a.key[0])
    ensures exists b :: WellFormed(SetupKind, b) && TargetOf(kind, a) == TargetOf(SetupKind, b)
                        && !SameThing(kind, a, SetupKind, b) && (InLimits(a) ==> InLimits(b))
  {
    var f := a.key[0];
    var i :| 0 <= i < |f.1| && f.1[i] == ';' && StartsField(f.1[i + 1..], f.0);
    SplitAt(kind, a, f, i);
  }

  lemma SplitAt(kind: Kind, a: Content, f: (string, string), i: nat)
    requires WellFormed(kind, a) && a.Row? && a.key == [f]
    requires i < |f.1| && f.1[i] == ';' && StartsField(f.1[i + 1..], f.0)
    ensures var b := Counterpart(a.table, [Hidden(f, i).0, Hidden(f, i).1]);
            && WellFormed(SetupKind, b) && TargetOf(kind, a) == TargetOf(SetupKind, b)
            && !SameThing(kind, a, SetupKind, b) && (InLimits(a) ==> InLimits(b))
  {
    HiddenJoins(f, i);
    var (g, h) := Hidden(f, i);
    LessIsTotal(g.0, h.0);
    CounterpartIsWellFormed(a.table, [g, h]);
    if InLimits(a) {
      assert f in a.key + a.values;
      HiddenIsShorter(f, i);
      CounterpartInLimits(a.table, [g, h]);
    }
    SplitIsAnother(kind, a, f, g, h);
  }

  lemma SplitIsAnother(kind: Kind, a: Content, f: (string, string), g: (string, string), h: (string, string))
    requires a.Row? && a.key == [f] && Less(g.0, h.0) && g.0 == f.0 && Join(Parts([g, h])) == Join(Parts([f]))
    ensures var b := Counterpart(a.table, [g, h]);
            TargetOf(kind, a) == TargetOf(SetupKind, b) && !SameThing(kind, a, SetupKind, b)
  {
    SortedOne(f);
    SortedPair(g, h);
    LessIsTotal(g.0, h.0);
    assert h in [g, h] && h !in [f] by {
      assert [g, h][1] == h;
    }
  }

  lemma SharedMeansSharedKey(kind: Kind, a: Content, l: Kind, b: Content)
    requires WellFormed(kind, a) && a.Row? && WellFormed(l, b)
    requires TargetOf(kind, a) == TargetOf(l, b) && !SharedKey(a.key)
    ensures SameThing(kind, a, l, b)
  {
    HeadsAreApart(kind, a, l, b);
    assert "po"[0] == 'p' && "vds"[0] == 'v' && "vsq"[0] == 'v' && "row"[0] == 'r';
    RowTargetsJoin(a.table, a.key, b.table, b.key);
    var f, y := a.key[0], Sorted(b.key);
    assert a.key == [f];
    SortedOne(f);
    SortedIsAscending(b.key);
    assert y != [] by { assert b.key[0] in y; }
    forall i | 0 <= i < |y| ensures IsAlias(y[i].0) {
      assert y[i] in b.key;
    }
    OneReading(f, y);
    assert forall g :: g in a.key <==> g in y;
  }

  /** A normalised row shares its target with some normalised item that changes something else if and only
      if its key has two fields or more, or the value of its one field goes on, after a semicolon, like a
      field with a later alias. Values are of any length. */
  lemma RowTargetIsSharedExactly(kind: Kind, a: Content)
    requires WellFormed(kind, a) && a.Row?
    ensures (exists l, b :: WellFormed(l, b) && TargetOf(kind, a) == TargetOf(l, b) && !SameThing(kind, a, l, b))
            <==> SharedKey(a.key)
  {
    if |a.key| >= 2 {
      MergedShares(kind, a);
    } else if SharedKey(a.key) {
      SplitShares(kind, a);
    } else {
      forall l, b | WellFormed(l, b) && TargetOf(kind, a) == TargetOf(l, b) ensures SameThing(kind, a, l, b) {
        SharedMeansSharedKey(kind, a, l, b);
      }
    }
  }

  /** With one key field the same holds of the rows a proposal can contain. */
  lemma OneFieldIsSharedExactly(kind: Kind, a: Content)
    requires WellFormed(kind, a) && a.Row? && |a.key| == 1 && InLimits(a)
    ensures (exists l, b :: WellFormed(l, b) && InLimits(b) && TargetOf(kind, a) == TargetOf(l, b) && !SameThing(kind, a, l, b))
            <==> HidesField(a.key[0])
  {
    if HidesField(a.key[0]) {
      SplitShares(kind, a);
    } else {
      forall l, b | WellFormed(l, b) && TargetOf(kind, a) == TargetOf(l, b) ensures SameThing(kind, a, l, b) {
        SharedMeansSharedKey(kind, a, l, b);
      }
    }
  }

  // ---------------------------------------------------------------------------------------------
  // Options that share a target: exactly when
  // ---------------------------------------------------------------------------------------------

  /** Version and option put together can be taken apart at another bar, into a version and an option. */
  predicate SharedOption(version: string, option: string) {
    var s := version + "|" + Texts.Upper(option);
    exists j :: 0 <= j < |s| && j != |version| && s[j] == '|' && IsText(s[..j], 10) && IsText(s[j + 1..], 40)
  }

  lemma JoinedHasNoSmall(v: string, o: string)
    requires Texts.NoSmall(v) && Texts.NoSmall(o)
    ensures Texts.NoSmall(v + "|" + o)
  {
  }

  lemma NeverOwned(v: string, rest: string, w: string)
    requires !OracleOwned(v) && w <= v + "|" + rest
    ensures !OracleOwned(w)
  {
    var s := v + "|" + rest;
    if |w| >= 4 && |v| >= 4 {
      assert w[..4] == s[..4] == v[..4];
    } else if |w| >= 4 {
      assert w[|v|] == s[|v|] == '|';
      assert w[..4][|v|] == '|' && '|' !in "XJDE" && '|' !in "ZJDE";
    }
  }

  /** Both parts at another bar are what a version and an option may be. */
  lemma OtherParts(v: string, o: string, j: nat)
    requires IsVersion(v)
    requires var s := v + "|" + Texts.Upper(o); j < |s| && s[j] == '|' && IsText(s[..j], 10)
    ensures var s := v + "|" + Texts.Upper(o); IsVersion(s[..j]) && Texts.Upper(s[j + 1..]) == s[j + 1..]
  {
    var s := v + "|" + Texts.Upper(o);
    Texts.UpperIsKept(v);
    Texts.UpperIsKept(o);
    JoinedHasNoSmall(v, Texts.Upper(o));
    Texts.UpperIsKept(s[..j]);
    Texts.UpperIsKept(s[j + 1..]);
    NeverOwned(v, Texts.Upper(o), s[..j]);
  }

  lemma BarsAssociate(p: string, v: string, o: string)
    ensures p + "|" + v + "|" + o == p + "|" + (v + "|" + o)
  {
  }

  lemma OptionTarget(kind: Kind, a: Content)
    requires a.ProcessingOption?
    ensures TargetOf(kind, a) == "po" + [':'] + (a.application + "|" + (a.version + "|" + Texts.Upper(a.option)))
  {
    BarsAssociate(a.application, a.version, Texts.Upper(a.option));
  }

  lemma OptionsMeet(kind: Kind, a: Content, l: Kind, b: Content)
    requires a.ProcessingOption? && b.ProcessingOption? && a.application == b.application
    requires a.version + "|" + Texts.Upper(a.option) == b.version + "|" + Texts.Upper(b.option)
    ensures TargetOf(kind, a) == TargetOf(l, b)
  {
    OptionTarget(kind, a);
    OptionTarget(l, b);
  }

  lemma BarSplits(s: string, j: nat)
    requires j < |s| && s[j] == '|'
    ensures s == s[..j] + "|" + s[j + 1..] && |s[..j]| == j
  {
  }

  lemma OtherBarShares(kind: Kind, a: Content, j: nat)
    requires WellFormed(kind, a) && a.ProcessingOption?
    requires var s := a.version + "|" + Texts.Upper(a.option);
             j < |s| && j != |a.version| && s[j] == '|' && IsText(s[..j], 10) && IsText(s[j + 1..], 40)
    ensures exists b :: WellFormed(OptionKind, b) && TargetOf(kind, a) == TargetOf(OptionKind, b) && !SameThing(kind, a, OptionKind, b)
  {
    var s := a.version + "|" + Texts.Upper(a.option);
    var version, option := s[..j], s[j + 1..];
    OtherParts(a.version, a.option, j);
    BarSplits(s, j);
    var b := ProcessingOption(a.application, version, option, "");
    OptionsMeet(kind, a, OptionKind, b);
  }

  lemma BarsApart(v: string, o: string, w: string, u: string)
    requires v + "|" + o == w + "|" + u && (v != w || o != u)
    ensures var s := v + "|" + o; |w| < |s| && |w| != |v| && s[|w|] == '|' && s[..|w|] == w && s[|w| + 1..] == u
  {
    var s, t := v + "|" + o, w + "|" + u;
    assert t[..|w|] == w && t[|w| + 1..] == u && t[|w|] == '|';
    assert s[..|v|] == v && s[|v| + 1..] == o;
  }

  lemma SharedMeansOtherBar(kind: Kind, a: Content, l: Kind, b: Content)
    requires WellFormed(kind, a) && a.ProcessingOption? && WellFormed(l, b)
    requires TargetOf(kind, a) == TargetOf(l, b) && !SameThing(kind, a, l, b)
    ensures SharedOption(a.version, a.option)
  {
    HeadsAreApart(kind, a, l, b);
    assert "po"[0] == 'p' && "vds"[0] == 'v' && "vsq"[0] == 'v' && "row"[0] == 'r';
    OptionsShare(a.application, a.version, a.option, b.application, b.version, b.option);
  }

  lemma OptionsShare(p: string, v: string, o: string, q: string, w: string, u: string)
    requires IsAlias(p) && IsAlias(q) && IsText(w, 10) && IsText(u, 40)
    requires p + "|" + v + "|" + Texts.Upper(o) == q + "|" + w + "|" + Texts.Upper(u)
    requires p != q || v != w || Texts.Upper(o) != Texts.Upper(u)
    ensures SharedOption(v, o)
  {
    BarsAssociate(p, v, Texts.Upper(o));
    BarsAssociate(q, w, Texts.Upper(u));
    VersionTargets(p, v + "|" + Texts.Upper(o), q, w + "|" + Texts.Upper(u));
    Texts.UpperStaysTrimmed(u);
    OtherBarIsThere(v, o, w, Texts.Upper(u));
  }

  lemma OtherBarIsThere(v: string, o: string, w: string, u: string)
    requires v + "|" + Texts.Upper(o) == w + "|" + u && (v != w || Texts.Upper(o) != u) && IsText(w, 10) && IsText(u, 40)
    ensures SharedOption(v, o)
  {
    BarsApart(v, Texts.Upper(o), w, u);
    var s := v + "|" + Texts.Upper(o);
    assert s[|w|] == '|' && IsText(s[..|w|], 10) && IsText(s[|w| + 1..], 40);
  }

  /** An item whose target another one can have. The text of a version never shares its target. */
  predicate Shareable(content: Content) {
    match content
    case ProcessingOption(_, version, option, _) => SharedOption(version, option)
    case VersionText(_, _, _) => false
    case Row(_, key, _, _) => SharedKey(key)
  }

  lemma VersionIsItsOwn(kind: Kind, a: Content, l: Kind, b: Content)
    requires WellFormed(kind, a) && a.VersionText? && WellFormed(l, b) && TargetOf(kind, a) == TargetOf(l, b)
    ensures SameThing(kind, a, l, b)
  {
    HeadsAreApart(kind, a, l, b);
    assert "po"[0] == 'p' && "vds"[0] == 'v' && "vsq"[0] == 'v' && "row"[0] == 'r' && "vds"[1] != "vsq"[1];
    VersionTargets(a.application, a.version, b.application, b.version);
  }

  /** What changes the same thing has the same target. */
  lemma SameHasOneTarget(k: Kind, a: Content, l: Kind, b: Content)
    requires WellFormed(k, a) && WellFormed(l, b) && SameThing(k, a, l, b)
    ensures TargetOf(k, a) == TargetOf(l, b)
  {
    if a.Row? {
      SortedIsAscending(a.key);
      SortedIsAscending(b.key);
      AscendingIsCanonical(Sorted(a.key), Sorted(b.key));
    }
  }

  /** A normalised item shares its target with one that changes something else if and only if it is shareable:
      decided by looking at the item alone. */
  lemma TargetIsSharedExactly(kind: Kind, a: Content)
    requires WellFormed(kind, a)
    ensures (exists l, b :: WellFormed(l, b) && TargetOf(kind, a) == TargetOf(l, b) && !SameThing(kind, a, l, b))
            <==> Shareable(a)
  {
    if a.Row? {
      RowTargetIsSharedExactly(kind, a);
    } else if Shareable(a) {
      var s := a.version + "|" + Texts.Upper(a.option);
      var j :| 0 <= j < |s| && j != |a.version| && s[j] == '|' && IsText(s[..j], 10) && IsText(s[j + 1..], 40);
      OtherBarShares(kind, a, j);
    } else {
      forall l, b | WellFormed(l, b) && TargetOf(kind, a) == TargetOf(l, b) ensures SameThing(kind, a, l, b) {
        if a.VersionText? {
          VersionIsItsOwn(kind, a, l, b);
        } else if !SameThing(kind, a, l, b) {
          SharedMeansOtherBar(kind, a, l, b);
        }
      }
    }
  }

  // ---------------------------------------------------------------------------------------------
  // One row with two targets: exactly when
  // ---------------------------------------------------------------------------------------------

  /** The driver takes the two for one row: it compares key values without the spaces around them. */
  predicate Alike(a: Content, b: Content) {
    && a.Row? && b.Row? && a.table == b.table && AisGuard.Names(a.key) == AisGuard.Names(b.key)
    && forall n :: n in AisGuard.Names(a.key) ==> Texts.Strip(AisGuard.Get(a.key, n)) == Texts.Strip(AisGuard.Get(b.key, n))
  }

  lemma {:induction false} MissingIsEmpty(fields: Fields, n: string)
    requires n !in AisGuard.Names(fields)
    ensures AisGuard.Get(fields, n) == ""
  {
    if fields != [] {
      assert fields[0] in fields && AisGuard.Names(fields[1..]) <= AisGuard.Names(fields);
      MissingIsEmpty(fields[1..], n);
    }
  }

  /** On any form a row of the grid shows one exactly if it shows the other. */
  lemma AlikeRowsAreOne(row: AisForms.GridRow, a: Content, b: Content, fm: AisGuard.FormMap)
    requires Alike(a, b)
    ensures AisPlan.RowMatches(row, a, fm) <==> AisPlan.RowMatches(row, b, fm)
  {
    forall i | 0 <= i < |fm.rowKey|
      ensures Texts.Strip(AisGuard.Get(a.key, fm.rowKey[i])) == Texts.Strip(AisGuard.Get(b.key, fm.rowKey[i]))
    {
      if fm.rowKey[i] !in AisGuard.Names(a.key) {
        MissingIsEmpty(a.key, fm.rowKey[i]);
        MissingIsEmpty(b.key, fm.rowKey[i]);
      }
    }
  }

  function Blank(fields: Fields): Fields {
    seq(|fields|, i requires 0 <= i < |fields| => (fields[i].0, ""))
  }

  lemma BlankHolds(fields: Fields, n: string)
    ensures (n, "") in Blank(fields) <==> n in AisGuard.Names(fields)
  {
    if n in AisGuard.Names(fields) {
      var f :| f in fields && f.0 == n;
      var i :| 0 <= i < |fields| && fields[i] == f;
      assert Blank(fields)[i] == (n, "");
    }
    if (n, "") in Blank(fields) {
      var i :| 0 <= i < |fields| && Blank(fields)[i] == (n, "");
      assert fields[i] in fields;
    }
  }

  /** Two sorted lists of the same names name them in the same order. */
  lemma SameNamesInOrder(x: Fields, y: Fields)
    requires Ascending(x) && Ascending(y) && AisGuard.Names(x) == AisGuard.Names(y)
    ensures |x| == |y| && forall i :: 0 <= i < |x| ==> x[i].0 == y[i].0
  {
    forall f ensures f in Blank(x) <==> f in Blank(y) {
      BlankHolds(x, f.0);
      BlankHolds(y, f.0);
    }
    AscendingIsCanonical(Blank(x), Blank(y));
    assert |x| == |Blank(x)| == |Blank(y)| == |y|;
    forall i | 0 <= i < |x| ensures x[i].0 == y[i].0 {
      assert Blank(x)[i] == Blank(y)[i];
    }
  }

  lemma {:induction false} ValuesAgree(x: Fields, y: Fields)
    requires |x| == |y| > 0 && Join(Parts(x)) == Join(Parts(y))
    requires forall i :: 0 <= i < |x| ==> x[i].0 == y[i].0 && IsAlias(x[i].0) && Texts.Count(x[i].1, ';') == Texts.Count(y[i].1, ';')
    ensures x == y
    decreases |x|
  {
    FirstsAgree(x, y);
    if |x| > 1 {
      Texts.SplitsAtCount(x[0].1, Join(Parts(x[1..])), y[0].1, Join(Parts(y[1..])), ';');
      ValuesAgree(x[1..], y[1..]);
    }
    assert x == [x[0]] + x[1..] && y == [y[0]] + y[1..];
  }

  lemma ValueInKey(key: Fields, f: (string, string))
    requires UniqueNames(key) && f in key
    ensures AisGuard.Get(key, f.0) == f.1 && f.0 in AisGuard.Names(key)
  {
    var i :| 0 <= i < |key| && key[i] == f;
    AisPlan.GetOf(key, i);
  }

  lemma SortedNames(key: Fields)
    requires UniqueNames(key)
    ensures AisGuard.Names(Sorted(key)) == AisGuard.Names(key)
  {
    SortedIsAscending(key);
  }

  /** Of two rows the driver takes for one, the targets are equal if and only if the key values are equal as
      they stand, the spaces around them included. */
  lemma AlikeTargetsExactly(k: Kind, a: Content, l: Kind, b: Content)
    requires WellFormed(k, a) && WellFormed(l, b) && Alike(a, b)
    ensures TargetOf(k, a) == TargetOf(l, b) <==> forall f :: f in a.key <==> f in b.key
  {
    if forall f :: f in a.key <==> f in b.key {
      SameHasOneTarget(k, a, l, b);
    }
    if TargetOf(k, a) == TargetOf(l, b) {
      HeadsAreApart(k, a, l, b);
      RowTargetsJoin(a.table, a.key, b.table, b.key);
      AlikeJoined(a.key, b.key);
    }
  }

  lemma AlikeJoined(a: Fields, b: Fields)
    requires UniqueNames(a) && UniqueNames(b) && a != [] && AisGuard.Names(a) == AisGuard.Names(b)
    requires forall i :: 0 <= i < |a| ==> IsAlias(a[i].0)
    requires forall n :: n in AisGuard.Names(a) ==> Texts.Strip(AisGuard.Get(a, n)) == Texts.Strip(AisGuard.Get(b, n))
    requires Join(Parts(Sorted(a))) == Join(Parts(Sorted(b)))
    ensures forall f :: f in a <==> f in b
  {
    var x, y := Sorted(a), Sorted(b);
    SortedIsAscending(a);
    SortedIsAscending(b);
    SortedNames(a);
    SortedNames(b);
    SameNamesInOrder(x, y);
    assert x != [] by { assert a[0] in x; }
    forall i | 0 <= i < |x| ensures IsAlias(x[i].0) && Texts.Count(x[i].1, ';') == Texts.Count(y[i].1, ';') {
      assert x[i] in a && y[i] in b;
      ValueInKey(a, x[i]);
      ValueInKey(b, y[i]);
      Texts.StripKeepsCount(x[i].1, ';');
      Texts.StripKeepsCount(y[i].1, ';');
    }
    ValuesAgree(x, y);
    assert forall f :: f in a <==> f in x;
    assert forall f :: f in b <==> f in y;
  }
}
