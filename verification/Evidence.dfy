/** A story's evidence log: every entry is chained to the one before it by its hash. */
module Evidence {
  import opened Wrappers
  import Texts

  const GENESIS_HASH := "GENESIS"

  /** A value of an entry: a text, or the text of a number or of anything else. */
  datatype Value = Str(s: string) | Number(text: string) | Json(text: string)

  type Entry = map<string, Value>

  /** The hash and the canonical rendering an entry is hashed as. */
  datatype Digest = Digest(sha: string -> string, canonical: Entry -> string)

  /** Neither function maps two inputs to one output; a rendering starts with a brace, and a hash
      contains none and is never the mark of the first entry. */
  ghost predicate Proper(d: Digest) {
    && (forall x, y :: d.sha(x) == d.sha(y) ==> x == y)
    && (forall e, f :: d.canonical(e) == d.canonical(f) ==> e == f)
    && (forall x :: '{' !in d.sha(x) && d.sha(x) != GENESIS_HASH)
    && (forall e :: "{" <= d.canonical(e))
  }

  function EntryHash(d: Digest, prev: string, entry: Entry): string {
    d.sha(prev + d.canonical(entry))
  }

  function Field(e: Entry, name: string): Option<Value> {
    if name in e then Some(e[name]) else None
  }

  /** The hash the next entry is chained onto; None where the last entry names none. */
  function LastHash(log: seq<Entry>): Option<string> {
    if log == [] then Some(GENESIS_HASH)
    else
      var claimed := Field(log[|log| - 1], "entry_hash");
      if claimed.Some? && claimed.value.Str? then Some(claimed.value.s) else None
  }

  // ---------------------------------------------------------------------------------------------
  // Verification
  // ---------------------------------------------------------------------------------------------

  /** The entry names the hash before it, and carries the hash of its own content after that. */
  predicate Chained(d: Digest, prev: string, e: Entry) {
    && Field(e, "prev_hash") == Some(Str(prev))
    && Field(e, "entry_hash") == Some(Str(EntryHash(d, prev, e - {"entry_hash"})))
  }

  predicate LinkedAt(d: Digest, log: seq<Entry>, i: nat)
    requires i < |log|
  {
    LastHash(log[..i]).Some? && Chained(d, LastHash(log[..i]).value, log[i])
  }

  predicate Verifies(d: Digest, log: seq<Entry>) {
    forall i :: 0 <= i < |log| ==> LinkedAt(d, log, i)
  }

  datatype Verdict = Valid | BrokenAt(index: nat)

  // ---------------------------------------------------------------------------------------------
  // Capturing
  // ---------------------------------------------------------------------------------------------

  /** The entry a capture appends. The payload comes last, so it wins over the fields before it, and
      the hash is taken before the entry's own hash is set. */
  function NewEntry(d: Digest, story: string, prev: string, payload: Entry, now: string): Entry {
    var record := map["story_id" := Str(story), "captured_at" := Number(now), "prev_hash" := Str(prev)] + payload;
    record["entry_hash" := Str(EntryHash(d, prev, record))]
  }

  /** The payload names no hash of its own, or only the right one before it. */
  predicate Plain(payload: Entry, prev: string) {
    "entry_hash" !in payload && ("prev_hash" in payload ==> payload["prev_hash"] == Str(prev))
  }

  /** A story's log in the database. */
  class EvidenceLog {
    const digest: Digest
    const story: string
    var entries: seq<Entry>

    constructor (digest: Digest, story: string)
      ensures this.digest == digest && this.story == story && entries == []
    {
      this.digest, this.story, entries := digest, story, [];
    }

    /** Appends one entry, in one transaction; None where the log's last entry has no hash to chain
        onto, and then nothing is written. */
    method Capture(payload: Entry, now: string) returns (r: Option<string>)
      requires Proper(digest)
      modifies this`entries
      ensures r.Some? <==> old(LastHash(entries)).Some?
      ensures r.Some? ==> LastHash(entries) == r
                          && entries == old(entries)
                                        + [NewEntry(digest, story, old(LastHash(entries)).value, payload, now)]
      ensures r.None? ==> entries == old(entries)
      ensures r.Some? ==> (Verifies(digest, entries) <==>
                           Verifies(digest, old(entries)) && Plain(payload, old(LastHash(entries)).value))
    {
      var prev := GENESIS_HASH;
      if |entries| > 0 {
        var last := Field(entries[|entries| - 1], "entry_hash");
        if last.None? || !last.value.Str? {
          return None;
        }
        prev := last.value.s;
      }
      CaptureVerifiesExactly(digest, story, entries, payload, now);
      var record := NewEntry(digest, story, prev, payload, now);
      entries := entries + [record];
      return Some(record["entry_hash"].s);
    }

    /** Recomputes every hash; the index reported is the first that is broken. */
    method VerifyChain() returns (r: Verdict)
      ensures r == Valid <==> Verifies(digest, entries)
      ensures r.BrokenAt? ==> r.index < |entries| && !LinkedAt(digest, entries, r.index)
                              && forall i :: 0 <= i < r.index ==> LinkedAt(digest, entries, i)
    {
      var prev := GENESIS_HASH;
      for i := 0 to |entries|
        invariant LastHash(entries[..i]) == Some(prev)
        invariant forall j :: 0 <= j < i ==> LinkedAt(digest, entries, j)
      {
        var entry := entries[i];
        var expected := EntryHash(digest, prev, entry - {"entry_hash"});
        if Field(entry, "prev_hash") != Some(Str(prev)) || Field(entry, "entry_hash") != Some(Str(expected)) {
          assert !LinkedAt(digest, entries, i);
          return BrokenAt(i);
        }
        assert entries[..i + 1][i] == entry;
        prev := expected;
      }
      return Valid;
    }
  }

  // ---------------------------------------------------------------------------------------------
  // Entry hashes tell entries and predecessors apart
  // ---------------------------------------------------------------------------------------------

  /** What an entry can be chained onto: the mark of the first entry, or a hash. */
  ghost predicate IsLink(d: Digest, prev: string) {
    prev == GENESIS_HASH || exists x :: prev == d.sha(x)
  }

  lemma LinksHaveNoBrace(d: Digest, prev: string)
    requires Proper(d) && IsLink(d, prev)
    ensures '{' !in prev
  {
  }

  /** Two texts without a brace, each followed by one that starts with one, are told apart. */
  lemma SplitAtBrace(p: string, q: string, x: string, y: string)
    requires '{' !in p && '{' !in q && "{" <= x && "{" <= y && p + x == q + y
    ensures p == q && x == y
  {
    assert x == ['{'] + x[1..] && y == ['{'] + y[1..];
    assert p + ['{'] + x[1..] == p + x && q + ['{'] + y[1..] == q + y;
    Texts.SplitsAtMark(p, x[1..], q, y[1..], '{');
  }

  lemma EntryHashIsInjective(d: Digest, p: string, e: Entry, q: string, f: Entry)
    requires Proper(d) && IsLink(d, p) && IsLink(d, q) && EntryHash(d, p, e) == EntryHash(d, q, f)
    ensures p == q && e == f
  {
    LinksHaveNoBrace(d, p);
    LinksHaveNoBrace(d, q);
    SplitAtBrace(p, q, d.canonical(e), d.canonical(f));
  }

  lemma WithoutAndWith(e: Entry, f: Entry)
    requires e - {"entry_hash"} == f - {"entry_hash"} && Field(e, "entry_hash") == Field(f, "entry_hash")
    ensures e == f
  {
    forall k ensures Field(e, k) == Field(f, k) {
      if k != "entry_hash" {
        assert k in e - {"entry_hash"} <==> k in e;
        assert k in f - {"entry_hash"} <==> k in f;
      }
    }
    assert forall k :: k in e <==> Field(e, k).Some?;
    assert forall k :: k in f <==> Field(f, k).Some?;
    assert forall k :: k in e ==> Field(e, k) == Some(e[k]);
    assert forall k :: k in f ==> Field(f, k) == Some(f[k]);
  }

  lemma LastIsLink(d: Digest, log: seq<Entry>)
    requires Verifies(d, log)
    ensures LastHash(log).Some? && IsLink(d, LastHash(log).value)
    ensures log != [] && Proper(d) ==> LastHash(log).value != GENESIS_HASH
  {
    if log != [] {
      assert LinkedAt(d, log, |log| - 1);
    }
  }

  lemma PrefixVerifies(d: Digest, log: seq<Entry>, n: nat)
    requires Verifies(d, log) && n <= |log|
    ensures Verifies(d, log[..n])
  {
    forall i | 0 <= i < n ensures LinkedAt(d, log[..n], i) {
      assert log[..n][..i] == log[..i];
      assert LinkedAt(d, log, i);
    }
  }

  lemma VerifiesAppend(d: Digest, log: seq<Entry>, e: Entry)
    ensures Verifies(d, log + [e]) <==> Verifies(d, log) && LinkedAt(d, log + [e], |log|)
  {
    assert (log + [e])[..|log|] == log;
    if Verifies(d, log + [e]) {
      PrefixVerifies(d, log + [e], |log|);
    }
    if Verifies(d, log) && LinkedAt(d, log + [e], |log|) {
      forall i | 0 <= i < |log + [e]| ensures LinkedAt(d, log + [e], i) {
        if i < |log| {
          assert (log + [e])[..i] == log[..i];
          assert LinkedAt(d, log, i);
        }
      }
    }
  }

  // ---------------------------------------------------------------------------------------------
  // The promises of the chain
  // ---------------------------------------------------------------------------------------------

  lemma NewEntryIsChainedExactly(d: Digest, story: string, prev: string, payload: Entry, now: string)
    requires Proper(d) && IsLink(d, prev)
    ensures Chained(d, prev, NewEntry(d, story, prev, payload, now)) <==> Plain(payload, prev)
  {
    var record := map["story_id" := Str(story), "captured_at" := Number(now), "prev_hash" := Str(prev)] + payload;
    var entry := NewEntry(d, story, prev, payload, now);
    assert "entry_hash" in payload ==> "entry_hash" in record;
    if "entry_hash" !in payload {
      assert entry - {"entry_hash"} == record;
    } else if Chained(d, prev, entry) {
      EntryHashIsInjective(d, prev, record, prev, entry - {"entry_hash"});
    }
  }

  /** A captured log verifies if and only if the log before it did and the payload names no hash
      of its own, or only the right one before it. */
  lemma CaptureVerifiesExactly(d: Digest, story: string, log: seq<Entry>, payload: Entry, now: string)
    requires Proper(d) && LastHash(log).Some?
    ensures Verifies(d, log + [NewEntry(d, story, LastHash(log).value, payload, now)])
            <==> Verifies(d, log) && Plain(payload, LastHash(log).value)
  {
    var prev := LastHash(log).value;
    var entry := NewEntry(d, story, prev, payload, now);
    VerifiesAppend(d, log, entry);
    assert (log + [entry])[..|log|] == log;
    if Verifies(d, log) {
      LastIsLink(d, log);
      NewEntryIsChainedExactly(d, story, prev, payload, now);
    }
  }

  datatype Captured = Captured(payload: Entry, now: string)

  /** The log a sequence of captures builds. */
  function Captures(d: Digest, story: string, payloads: seq<Captured>): (log: seq<Entry>)
    ensures LastHash(log).Some? && |log| == |payloads|
  {
    if payloads == [] then []
    else
      var last := payloads[|payloads| - 1];
      var before := Captures(d, story, payloads[..|payloads| - 1]);
      before + [NewEntry(d, story, LastHash(before).value, last.payload, last.now)]
  }

  /** Every payload was plain when it was captured. */
  predicate AllPlain(d: Digest, story: string, payloads: seq<Captured>) {
    payloads != [] ==>
      var front := payloads[..|payloads| - 1];
      && AllPlain(d, story, front)
      && Plain(payloads[|payloads| - 1].payload, LastHash(Captures(d, story, front)).value)
  }

  /** A log built by any sequence of captures verifies if and only if every payload was plain when
      it was captured. */
  lemma {:induction false} CapturedLogVerifiesExactly(d: Digest, story: string, payloads: seq<Captured>)
    requires Proper(d)
    ensures Verifies(d, Captures(d, story, payloads)) <==> AllPlain(d, story, payloads)
  {
    if payloads != [] {
      var front, last := payloads[..|payloads| - 1], payloads[|payloads| - 1];
      CapturedLogVerifiesExactly(d, story, front);
      CaptureVerifiesExactly(d, story, Captures(d, story, front), last.payload, last.now);
    }
  }

  /** Two logs that verify and end in the same hash are the same log. */
  lemma {:induction false} LastHashDeterminesTheLog(d: Digest, a: seq<Entry>, b: seq<Entry>)
    requires Proper(d) && Verifies(d, a) && Verifies(d, b) && LastHash(a) == LastHash(b)
    ensures a == b
  {
    if a == [] || b == [] {
      LastIsLink(d, a);
      LastIsLink(d, b);
    } else {
      var m, n := |a| - 1, |b| - 1;
      assert LinkedAt(d, a, m) && LinkedAt(d, b, n);
      PrefixVerifies(d, a, m);
      PrefixVerifies(d, b, n);
      LastIsLink(d, a[..m]);
      LastIsLink(d, b[..n]);
      EntryHashIsInjective(d, LastHash(a[..m]).value, a[m] - {"entry_hash"}, LastHash(b[..n]).value, b[n] - {"entry_hash"});
      WithoutAndWith(a[m], b[n]);
      LastHashDeterminesTheLog(d, a[..m], b[..n]);
      assert a == a[..m] + [a[m]] && b == b[..n] + [b[n]];
    }
  }

  /** Changing any entry but the last, and keeping the rest, breaks the chain at that entry or at
      the one after it, and at no earlier one. */
  lemma TamperingIsFound(d: Digest, log: seq<Entry>, i: nat, e: Entry)
    requires Proper(d) && Verifies(d, log) && i + 1 < |log| && e != log[i]
    ensures var log' := log[i := e];
            && (forall j :: 0 <= j < i ==> LinkedAt(d, log', j))
            && !(LinkedAt(d, log', i) && LinkedAt(d, log', i + 1))
  {
    var log' := log[i := e];
    forall j | 0 <= j <= i ensures log'[..j] == log[..j] {
    }
    forall j | 0 <= j < i ensures LinkedAt(d, log', j) {
      assert LinkedAt(d, log, j);
    }
    assert LinkedAt(d, log, i) && LinkedAt(d, log, i + 1);
    if LinkedAt(d, log', i) && LinkedAt(d, log', i + 1) {
      PrefixVerifies(d, log, i);
      LastIsLink(d, log[..i]);
      assert LastHash(log'[..i + 1]) == LastHash(log[..i + 1]);
      var prev := LastHash(log[..i]).value;
      EntryHashIsInjective(d, prev, e - {"entry_hash"}, prev, log[i] - {"entry_hash"});
      WithoutAndWith(e, log[i]);
    }
  }

  /** Entries of a log that verifies, rearranged, repeated or left out, verify if and only if they
      are the first entries of the log in order: nothing but cutting off its end goes unnoticed. */
  lemma {:induction false} OnlyPrefixesVerify(d: Digest, log: seq<Entry>, other: seq<Entry>)
    requires Proper(d) && Verifies(d, log) && forall e :: e in other ==> e in log
    ensures Verifies(d, other) <==> other <= log
  {
    if other <= log {
      PrefixVerifies(d, log, |other|);
      assert log[..|other|] == other;
    }
    if Verifies(d, other) && other != [] {
      var n := |other| - 1;
      PrefixVerifies(d, other, n);
      OnlyPrefixesVerify(d, log, other[..n]);
      assert LinkedAt(d, other, n);
      assert other[n] in log;
      var k :| 0 <= k < |log| && log[k] == other[n];
      assert LinkedAt(d, log, k);
      PrefixVerifies(d, log, k);
      LastHashDeterminesTheLog(d, other[..n], log[..k]);
      assert |other[..n]| == n;
      assert other == other[..n] + [other[n]] == log[..n + 1];
    }
  }

  // ---------------------------------------------------------------------------------------------
  // Proper digests exist
  // ---------------------------------------------------------------------------------------------

  /** A text without braces that tells all texts apart. */
  function Masked(x: string): string {
    if x == "" then "" else Mask(x[0]) + Masked(x[1..])
  }

  function Mask(c: char): string {
    if c == '{' then ['\\', '('] else if c == '\\' then ['\\', '\\'] else [c]
  }

  lemma MaskSplits(a: char, b: char, x: string, y: string)
    requires Mask(a) + x == Mask(b) + y
    ensures a == b && x == y
  {
    var s, t := Mask(a) + x, Mask(b) + y;
    assert s[0] == Mask(a)[0] && t[0] == Mask(b)[0];
    if |Mask(a)| == 2 && |Mask(b)| == 2 {
      assert s[1] == Mask(a)[1] && t[1] == Mask(b)[1];
    }
    assert |Mask(a)| == |Mask(b)|;
    assert s[|Mask(a)|..] == x && t[|Mask(b)|..] == y;
  }

  lemma {:induction false} MaskedIsInjective(x: string, y: string)
    requires Masked(x) == Masked(y)
    ensures x == y
  {
    if x != "" && y != "" {
      MaskSplits(x[0], y[0], Masked(x[1..]), Masked(y[1..]));
      MaskedIsInjective(x[1..], y[1..]);
      assert x == [x[0]] + x[1..] && y == [y[0]] + y[1..];
    }
  }

  lemma {:induction false} MaskedHasNoBrace(x: string)
    ensures '{' !in Masked(x)
  {
    if x != "" {
      MaskedHasNoBrace(x[1..]);
    }
  }

  /** A text whose end is found wherever it stands: quotes and backslashes in it are escaped. */
  function Quoted(s: string): string {
    if s == "" then ['"']
    else (if s[0] == '"' || s[0] == '\\' then ['\\', s[0]] else [s[0]]) + Quoted(s[1..])
  }

  lemma QuotedFirst(s: string, x: string)
    ensures var q := Quoted(s) + x;
            && (s == "" ==> q[0] == '"' && q[1..] == x)
            && (s != "" && (s[0] == '"' || s[0] == '\\') ==>
                  |q| > 1 && q[0] == '\\' && q[1] == s[0] && q[2..] == Quoted(s[1..]) + x)
            && (s != "" && s[0] != '"' && s[0] != '\\' ==> q[0] == s[0] && q[1..] == Quoted(s[1..]) + x)
  {
    if s != "" {
      var first := if s[0] == '"' || s[0] == '\\' then ['\\', s[0]] else [s[0]];
      assert Quoted(s) + x == first + (Quoted(s[1..]) + x);
    }
  }

  lemma {:induction false} QuotedSplits(s: string, t: string, x: string, y: string)
    requires Quoted(s) + x == Quoted(t) + y
    ensures s == t && x == y
    decreases |s|
  {
    QuotedFirst(s, x);
    QuotedFirst(t, y);
    if s != "" && t != "" {
      QuotedSplits(s[1..], t[1..], x, y);
      assert s == [s[0]] + s[1..] && t == [t[0]] + t[1..];
    }
  }

  function Tag(v: Value): char {
    match v
    case Str(_) => '"'
    case Number(_) => '#'
    case Json(_) => ':'
  }

  function TextOf(v: Value): string {
    match v
    case Str(s) => s
    case Number(text) => text
    case Json(text) => text
  }

  lemma TagAndTextTell(v: Value, w: Value)
    requires Tag(v) == Tag(w) && TextOf(v) == TextOf(w)
    ensures v == w
  {
  }

  /** One field of an entry, and whatever follows it. */
  function WithItem(k: string, v: Value, rest: string): string {
    Quoted(k) + ([Tag(v)] + (Quoted(TextOf(v)) + rest))
  }

  lemma ItemSplits(k: string, v: Value, x: string, l: string, w: Value, y: string)
    requires WithItem(k, v, x) == WithItem(l, w, y)
    ensures k == l && v == w && x == y
  {
    var a, b := [Tag(v)] + (Quoted(TextOf(v)) + x), [Tag(w)] + (Quoted(TextOf(w)) + y);
    QuotedSplits(k, l, a, b);
    assert a[0] == Tag(v) && b[0] == Tag(w) && a[1..] == Quoted(TextOf(v)) + x && b[1..] == Quoted(TextOf(w)) + y;
    QuotedSplits(TextOf(v), TextOf(w), x, y);
    TagAndTextTell(v, w);
  }

  ghost function Pick(e: Entry): (k: string)
    requires e != map[]
    ensures k in e
  {
    var k :| k in e;
    k
  }

  /** The fields of an entry, one after the other. */
  ghost function Listed(e: Entry): string
    decreases |e|
  {
    if e == map[] then "}"
    else
      var k := Pick(e);
      assert |e - {k}| < |e| by {
        FewerFields(e, k);
      }
      "," + WithItem(k, e[k], Listed(e - {k}))
  }

  lemma FewerFields(e: Entry, k: string)
    requires k in e
    ensures |e - {k}| < |e|
  {
    assert (e - {k}).Keys == e.Keys - {k};
  }

  lemma {:induction false} ListedIsInjective(e: Entry, f: Entry)
    requires Listed(e) == Listed(f)
    ensures e == f
    decreases |e|
  {
    assert e == map[] <==> Listed(e)[0] == '}';
    assert f == map[] <==> Listed(f)[0] == '}';
    if e != map[] && f != map[] {
      var k, l := Pick(e), Pick(f);
      var x, y := Listed(e - {k}), Listed(f - {l});
      assert Listed(e)[1..] == WithItem(k, e[k], x) && Listed(f)[1..] == WithItem(l, f[l], y);
      ItemSplits(k, e[k], x, l, f[l], y);
      FewerFields(e, k);
      ListedIsInjective(e - {k}, f - {k});
      FieldsTell(e, f, k);
    }
  }

  lemma FieldsTell(e: Entry, f: Entry, k: string)
    requires k in e && k in f && e[k] == f[k] && e - {k} == f - {k}
    ensures e == f
  {
    assert e == (e - {k})[k := e[k]] && f == (f - {k})[k := f[k]];
  }

  /** A digest with everything that is asked of one. */
  lemma ProperDigestExists() returns (d: Digest)
    ensures Proper(d)
  {
    d := Digest(x => "h" + Masked(x), e => "{" + Listed(e));
    forall x, y | d.sha(x) == d.sha(y) ensures x == y {
      assert d.sha(x)[1..] == Masked(x) && d.sha(y)[1..] == Masked(y);
      MaskedIsInjective(x, y);
    }
    forall e, f | d.canonical(e) == d.canonical(f) ensures e == f {
      assert d.canonical(e)[1..] == Listed(e) && d.canonical(f)[1..] == Listed(f);
      ListedIsInjective(e, f);
    }
    forall x ensures '{' !in d.sha(x) && d.sha(x) != GENESIS_HASH {
      MaskedHasNoBrace(x);
      assert d.sha(x)[0] == 'h' && GENESIS_HASH[0] == 'G';
    }
  }
}
