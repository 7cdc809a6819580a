/** The document store: transactions that join the one already open, and what that means for the
    two documents a reconciliation writes -- the change's ledger and its story's evidence log. */
module Store {
  import opened Wrappers
  import Evidence

  datatype Ledger = Ledger(story: string, reconciled: seq<string>)

  datatype Docs = Docs(ledgers: map<string, Ledger>, logs: map<string, seq<Evidence.Entry>>)

  /** A piece of code that uses the store. A statement computes the new documents from what it reads,
      or raises. `Try` is a handler for whatever its body raises. */
  datatype Prog =
    | Do(update: Docs -> Option<Docs>)
    | Then(first: Prog, second: Prog)
    | If(test: Docs -> bool, yes: Prog, no: Prog)
    | Try(body: Prog, handler: Prog)
    | Transaction(body: Prog)

  datatype Result = Result(docs: Docs, raised: bool)

  // ---------------------------------------------------------------------------------------------
  // What a program means
  // ---------------------------------------------------------------------------------------------

  /** Inside an open transaction. */
  function Meaning(p: Prog, d: Docs): Result {
    match p
    case Do(update) => if update(d).Some? then Result(update(d).value, false) else Result(d, true)
    case Then(first, second) =>
      var r := Meaning(first, d);
      if r.raised then r else Meaning(second, r.docs)
    case If(test, yes, no) => if test(d) then Meaning(yes, d) else Meaning(no, d)
    case Try(body, handler) =>
      var r := Meaning(body, d);
      if r.raised then Meaning(handler, r.docs) else r
    case Transaction(body) => Meaning(body, d)
  }

  /** All of it, or nothing. */
  function Atomic(r: Result, d: Docs): Result {
    if r.raised then Result(d, true) else r
  }

  /** With no transaction open. A statement on its own is a transaction of its own. */
  function Top(p: Prog, d: Docs): Result {
    match p
    case Do(_) => Atomic(Meaning(p, d), d)
    case Then(first, second) =>
      var r := Top(first, d);
      if r.raised then r else Top(second, r.docs)
    case If(test, yes, no) => if test(d) then Top(yes, d) else Top(no, d)
    case Try(body, handler) =>
      var r := Top(body, d);
      if r.raised then Top(handler, r.docs) else r
    case Transaction(body) => Atomic(Meaning(body, d), d)
  }

  /** The session: the committed documents, and the working copy of the transaction open in it. */
  class Session {
    var committed: Docs
    var current: Option<Docs>

    constructor ()
      ensures committed == Docs(map[], map[]) && current == None
    {
      committed, current := Docs(map[], map[]), None;
    }

    /** One statement on the open transaction. */
    method Statement(update: Docs -> Option<Docs>) returns (raised: bool)
      requires current.Some?
      modifies this`current
      ensures current.Some? && Result(current.value, raised) == Meaning(Do(update), old(current).value)
    {
      var after := update(current.value);
      if after.None? {
        return true;
      }
      current := after;
      return false;
    }

    method Begin()
      requires current.None?
      modifies this`current
      ensures current == Some(committed)
    {
      current := Some(committed);
    }

    /** Commits, or rolls back what raised; either way no transaction is open afterwards. */
    method End(raised: bool)
      requires current.Some?
      modifies this
      ensures current.None?
      ensures committed == if raised then old(committed) else old(current).value
    {
      if !raised {
        committed := current.value;
      }
      current := None;
    }

    method Execute(p: Prog) returns (raised: bool)
      modifies this
      ensures current.Some? == old(current).Some?
      ensures old(current).Some? ==>
                committed == old(committed) && Result(current.value, raised) == Meaning(p, old(current).value)
      ensures old(current).None? ==> Result(committed, raised) == Top(p, old(committed))
      decreases p
    {
      var document := if current.Some? then current.value else committed;
      match p
      case Do(update) =>
        if current.Some? {
          raised := Statement(update);
        } else {
          Begin();
          raised := Statement(update);
          End(raised);
        }
      case Then(first, second) =>
        raised := Execute(first);
        if !raised {
          raised := Execute(second);
        }
      case If(test, yes, no) =>
        if test(document) {
          raised := Execute(yes);
        } else {
          raised := Execute(no);
        }
      case Try(body, handler) =>
        raised := Execute(body);
        if raised {
          raised := Execute(handler);
        }
      case Transaction(body) =>
        if current.Some? {
          raised := Execute(body);
        } else {
          Begin();
          raised := Execute(body);
          End(raised);
        }
    }
  }

  // ---------------------------------------------------------------------------------------------
  // Nested transactions join
  // ---------------------------------------------------------------------------------------------

  /** The program without its transaction brackets. */
  function Flat(p: Prog): Prog {
    match p
    case Do(_) => p
    case Then(first, second) => Then(Flat(first), Flat(second))
    case If(test, yes, no) => If(test, Flat(yes), Flat(no))
    case Try(body, handler) => Try(Flat(body), Flat(handler))
    case Transaction(body) => Flat(body)
  }

  lemma {:induction false} FlatMeansTheSame(p: Prog, d: Docs)
    ensures Meaning(Flat(p), d) == Meaning(p, d)
    decreases p
  {
    match p
    case Do(_) =>
    case Then(first, second) =>
      FlatMeansTheSame(first, d);
      FlatMeansTheSame(second, Meaning(first, d).docs);
    case If(test, yes, no) =>
      FlatMeansTheSame(yes, d);
      FlatMeansTheSame(no, d);
    case Try(body, handler) =>
      FlatMeansTheSame(body, d);
      FlatMeansTheSame(handler, Meaning(body, d).docs);
    case Transaction(body) => FlatMeansTheSame(body, d);
  }

  /** Brackets inside a transaction change nothing: it commits or rolls back as one. */
  lemma NestedTransactionsJoin(p: Prog, d: Docs)
    ensures Top(Transaction(p), d) == Top(Transaction(Flat(p)), d)
    ensures Top(Transaction(p), d).raised ==> Top(Transaction(p), d).docs == d
  {
    FlatMeansTheSame(p, d);
  }

  /** What the program would mean if every bracket undid its own work when it raised. */
  function EachAtomic(p: Prog, d: Docs): Result {
    match p
    case Do(_) => Meaning(p, d)
    case Then(first, second) =>
      var r := EachAtomic(first, d);
      if r.raised then r else EachAtomic(second, r.docs)
    case If(test, yes, no) => if test(d) then EachAtomic(yes, d) else EachAtomic(no, d)
    case Try(body, handler) =>
      var r := EachAtomic(body, d);
      if r.raised then EachAtomic(handler, r.docs) else r
    case Transaction(body) => Atomic(EachAtomic(body, d), d)
  }

  predicate Uncaught(p: Prog) {
    match p
    case Do(_) => true
    case Then(first, second) => Uncaught(first) && Uncaught(second)
    case If(_, yes, no) => Uncaught(yes) && Uncaught(no)
    case Try(_, _) => false
    case Transaction(body) => Uncaught(body)
  }

  /** What a program that raises would leave if every bracket undid its own work: the documents as the
      outermost bracket it raises in found them. */
  function Undone(p: Prog, d: Docs): Docs {
    match p
    case Do(_) => d
    case Then(first, second) =>
      var r := Meaning(first, d);
      if r.raised then Undone(first, d) else Undone(second, r.docs)
    case If(test, yes, no) => if test(d) then Undone(yes, d) else Undone(no, d)
    case Try(body, handler) => Undone(handler, Meaning(body, d).docs)
    case Transaction(_) => d
  }

  /** Wherever a raise is caught, the brackets it came through left the documents as they found them. */
  predicate Clean(p: Prog, d: Docs) {
    match p
    case Do(_) => true
    case Then(first, second) =>
      var r := Meaning(first, d);
      Clean(first, d) && (r.raised || Clean(second, r.docs))
    case If(test, yes, no) => if test(d) then Clean(yes, d) else Clean(no, d)
    case Try(body, handler) =>
      var r := Meaning(body, d);
      Clean(body, d) && (r.raised ==> r.docs == Undone(body, d) && Clean(handler, r.docs))
    case Transaction(body) => Clean(body, d)
  }

  lemma {:induction false} CleanMeansTheSame(p: Prog, d: Docs)
    requires Clean(p, d)
    ensures EachAtomic(p, d) == if Meaning(p, d).raised then Result(Undone(p, d), true) else Meaning(p, d)
    decreases p
  {
    match p
    case Do(_) =>
    case Then(first, second) =>
      CleanMeansTheSame(first, d);
      if !Meaning(first, d).raised {
        CleanMeansTheSame(second, Meaning(first, d).docs);
      }
    case If(test, yes, no) =>
      if test(d) {
        CleanMeansTheSame(yes, d);
      } else {
        CleanMeansTheSame(no, d);
      }
    case Try(body, handler) =>
      CleanMeansTheSame(body, d);
      if Meaning(body, d).raised {
        CleanMeansTheSame(handler, Meaning(body, d).docs);
      }
    case Transaction(body) => CleanMeansTheSame(body, d);
  }

  /** Where every catch is clean, joining is as good as making every bracket atomic. */
  lemma JoiningIsAtomicClean(p: Prog, d: Docs)
    requires Clean(p, d)
    ensures Top(Transaction(p), d) == EachAtomic(Transaction(p), d)
  {
    CleanMeansTheSame(p, d);
  }

  /** The documents each handler starts from, in the order in which they run. */
  function Catches(p: Prog, d: Docs): seq<Docs> {
    match p
    case Do(_) => []
    case Then(first, second) =>
      var r := Meaning(first, d);
      Catches(first, d) + (if r.raised then [] else Catches(second, r.docs))
    case If(test, yes, no) => if test(d) then Catches(yes, d) else Catches(no, d)
    case Try(body, handler) =>
      var r := Meaning(body, d);
      Catches(body, d) + (if r.raised then [r.docs] + Catches(handler, r.docs) else [])
    case Transaction(body) => Catches(body, d)
  }

  /** The same, if every bracket undid its own work. */
  function AtomicCatches(p: Prog, d: Docs): seq<Docs> {
    match p
    case Do(_) => []
    case Then(first, second) =>
      var r := EachAtomic(first, d);
      AtomicCatches(first, d) + (if r.raised then [] else AtomicCatches(second, r.docs))
    case If(test, yes, no) => if test(d) then AtomicCatches(yes, d) else AtomicCatches(no, d)
    case Try(body, handler) =>
      var r := EachAtomic(body, d);
      AtomicCatches(body, d) + (if r.raised then [r.docs] + AtomicCatches(handler, r.docs) else [])
    case Transaction(body) => AtomicCatches(body, d)
  }

  ghost predicate Differ(xs: seq<Docs>, ys: seq<Docs>) {
    exists i :: 0 <= i < |xs| && i < |ys| && xs[i] != ys[i]
  }

  lemma DifferOn(xs: seq<Docs>, ys: seq<Docs>, more: seq<Docs>, others: seq<Docs>)
    requires Differ(xs, ys) || (xs == ys && Differ(more, others))
    ensures Differ(xs + more, ys + others)
  {
    if Differ(xs, ys) {
      var i :| 0 <= i < |xs| && i < |ys| && xs[i] != ys[i];
      assert (xs + more)[i] != (ys + others)[i];
    } else {
      var i :| 0 <= i < |more| && i < |others| && more[i] != others[i];
      assert (xs + more)[|xs| + i] != (ys + others)[|ys| + i];
    }
  }

  /** Up to the first catch that is not clean the two run alike, and its handler starts from other documents. */
  lemma {:induction false} CatchesAre(p: Prog, d: Docs)
    ensures Clean(p, d) ==> Catches(p, d) == AtomicCatches(p, d)
    ensures !Clean(p, d) ==> Differ(Catches(p, d), AtomicCatches(p, d))
    decreases p
  {
    match p
    case Do(_) =>
    case Then(first, second) =>
      var r, a := Meaning(first, d), EachAtomic(first, d);
      CatchesAre(first, d);
      if !Clean(first, d) {
        DifferOn(Catches(first, d), AtomicCatches(first, d), if r.raised then [] else Catches(second, r.docs),
                 if a.raised then [] else AtomicCatches(second, a.docs));
      } else {
        CleanMeansTheSame(first, d);
        if !r.raised {
          CatchesAre(second, r.docs);
          if !Clean(second, r.docs) {
            DifferOn(Catches(first, d), AtomicCatches(first, d), Catches(second, r.docs), AtomicCatches(second, r.docs));
          }
        }
      }
    case If(test, yes, no) =>
      if test(d) {
        CatchesAre(yes, d);
      } else {
        CatchesAre(no, d);
      }
    case Try(body, handler) => TryCatchesAre(body, handler, d);
    case Transaction(body) => CatchesAre(body, d);
  }

  lemma {:induction false} TryCatchesAre(body: Prog, handler: Prog, d: Docs)
    ensures var p := Try(body, handler);
            && (Clean(p, d) ==> Catches(p, d) == AtomicCatches(p, d))
            && (!Clean(p, d) ==> Differ(Catches(p, d), AtomicCatches(p, d)))
    decreases Try(body, handler), 0
  {
    var r, a := Meaning(body, d), EachAtomic(body, d);
    var more := if r.raised then [r.docs] + Catches(handler, r.docs) else [];
    var others := if a.raised then [a.docs] + AtomicCatches(handler, a.docs) else [];
    CatchesAre(body, d);
    if !Clean(body, d) {
      DifferOn(Catches(body, d), AtomicCatches(body, d), more, others);
    } else {
      CleanMeansTheSame(body, d);
      if r.raised {
        CatchesAre(handler, r.docs);
        if r.docs != a.docs {
          assert more[0] != others[0];
          DifferOn(Catches(body, d), AtomicCatches(body, d), more, others);
        } else if !Clean(handler, r.docs) {
          DifferOn([r.docs], [a.docs], Catches(handler, r.docs), AtomicCatches(handler, r.docs));
          DifferOn(Catches(body, d), AtomicCatches(body, d), more, others);
        }
      }
    }
  }

  /** Every handler of a program, wherever it stands, starts from the documents it would start from if every
      bracket undid its own work, if and only if every catch is clean. */
  lemma HandlersSeeUndoneExactly(p: Prog, d: Docs)
    ensures Catches(p, d) == AtomicCatches(p, d) <==> Clean(p, d)
  {
    CatchesAre(p, d);
  }

  lemma {:induction false} UncaughtIsClean(p: Prog, d: Docs)
    requires Uncaught(p)
    ensures Clean(p, d)
    decreases p
  {
    match p
    case Do(_) =>
    case Then(first, second) =>
      UncaughtIsClean(first, d);
      UncaughtIsClean(second, Meaning(first, d).docs);
    case If(test, yes, no) =>
      UncaughtIsClean(yes, d);
      UncaughtIsClean(no, d);
    case Transaction(body) => UncaughtIsClean(body, d);
  }

  /** Where nothing is caught on the way out, joining is as good as making every bracket atomic. */
  lemma JoiningIsAtomicUncaught(p: Prog, d: Docs)
    requires Uncaught(p)
    ensures Top(Transaction(p), d) == EachAtomic(Transaction(p), d)
  {
    UncaughtIsClean(p, d);
    JoiningIsAtomicClean(p, d);
  }

  /** A statement that raises if it is told to. */
  function FailIf(fault: bool): Docs -> Option<Docs> {
    (d: Docs) => if fault then None else Some(d)
  }

  /** Where the raise of an inner bracket is caught and passed over, the two end alike if and only if the inner
      bracket did not raise, or had written nothing when it did. */
  lemma CaughtBracketIsUndoneExactly(body: Prog, d: Docs)
    requires Clean(body, d)
    ensures var p := Transaction(Try(Transaction(body), Do(FailIf(false))));
            Top(p, d) == EachAtomic(p, d) <==> (!Meaning(body, d).raised || Meaning(body, d).docs == d)
  {
    CleanMeansTheSame(body, d);
    var handler := Do(FailIf(false));
    var p := Try(Transaction(body), handler);
    assert forall s :: Meaning(handler, s) == Result(s, false) == EachAtomic(handler, s);
    assert Meaning(Transaction(body), d) == Meaning(body, d);
    assert EachAtomic(Transaction(body), d) == Atomic(EachAtomic(body, d), d);
    assert Meaning(p, d) == Result(Meaning(body, d).docs, false);
    assert EachAtomic(p, d) == if Meaning(body, d).raised then Result(d, false) else Meaning(body, d);
  }

  function Add(change: string): Docs -> Option<Docs> {
    (d: Docs) => Some(d.(ledgers := d.ledgers[change := Ledger("S1", [])]))
  }

  /** An inner transaction whose raise is caught leaves its writes behind. */
  lemma InnerRaiseIsNotUndone()
    ensures var nothing := Docs(map[], map[]);
            var inner := Then(Do(Add("CH1")), Do(FailIf(true)));
            var r := Top(Transaction(Try(Transaction(inner), Do(FailIf(false)))), nothing);
            !r.raised && "CH1" in r.docs.ledgers
  {
  }

  // ---------------------------------------------------------------------------------------------
  // Ledger and log
  // ---------------------------------------------------------------------------------------------

  function LogAt(d: Docs, story: string): seq<Evidence.Entry> {
    if story in d.logs then d.logs[story] else []
  }

  /** Appends one entry to a story's log; raises where there is no hash to chain onto. */
  function Captured(d: Docs, dg: Evidence.Digest, story: string, payload: Evidence.Entry, now: string): Option<Docs> {
    var log := LogAt(d, story);
    var prev := Evidence.LastHash(log);
    if prev.None? then None
    else Some(d.(logs := d.logs[story := log + [Evidence.NewEntry(dg, story, prev.value, payload, now)]]))
  }

  /** Puts the hash of the entry just captured on the change's ledger. */
  function Attached(d: Docs, change: string): Option<Docs> {
    if change !in d.ledgers then None
    else
      var ledger := d.ledgers[change];
      var hash := Evidence.LastHash(LogAt(d, ledger.story));
      if hash.None? then None
      else Some(d.(ledgers := d.ledgers[change := ledger.(reconciled := ledger.reconciled + [hash.value])]))
  }

  function CaptureFor(dg: Evidence.Digest, change: string, payload: Evidence.Entry, now: string): Docs -> Option<Docs> {
    (d: Docs) => if change in d.ledgers then Captured(d, dg, d.ledgers[change].story, payload, now) else None
  }

  function AttachTo(change: string): Docs -> Option<Docs> {
    (d: Docs) => Attached(d, change)
  }

  /** A reconciliation: refused unless the block is of unknown outcome; then the capture, which is a
      transaction of its own, and the save of the change. It may raise after every statement. */
  function Reconciliation(dg: Evidence.Digest, change: string, payload: Evidence.Entry, now: string,
                          faults: (bool, bool, bool)): Prog {
    Transaction(
      Then(Do(FailIf(faults.0)),
      Then(Transaction(Then(Do(CaptureFor(dg, change, payload, now)), Do(FailIf(faults.1)))),
      Then(Do(AttachTo(change)), Do(FailIf(faults.2))))))
  }

  /** Both documents, or neither. */
  function ReconciledDocs(d: Docs, dg: Evidence.Digest, change: string, payload: Evidence.Entry, now: string): Option<Docs> {
    if change !in d.ledgers then None
    else
      var captured := Captured(d, dg, d.ledgers[change].story, payload, now);
      if captured.None? then None else Attached(captured.value, change)
  }

  /** Capture and save, inside the open transaction. */
  lemma CaptureAndSave(d: Docs, dg: Evidence.Digest, change: string, payload: Evidence.Entry, now: string,
                       afterCapture: bool, afterSave: bool)
    ensures var capture := Then(Do(CaptureFor(dg, change, payload, now)), Do(FailIf(afterCapture)));
            var r := Meaning(Then(Transaction(capture), Then(Do(AttachTo(change)), Do(FailIf(afterSave)))), d);
            var done := ReconciledDocs(d, dg, change, payload, now);
            && (r.raised <==> afterCapture || afterSave || done.None?)
            && (!r.raised ==> r.docs == done.value)
  {
    var capture := Then(Do(CaptureFor(dg, change, payload, now)), Do(FailIf(afterCapture)));
    var save := Then(Do(AttachTo(change)), Do(FailIf(afterSave)));
    var captured := CaptureFor(dg, change, payload, now)(d);
    assert forall f, s :: Meaning(Do(FailIf(f)), s) == Result(s, f);
    assert Meaning(Transaction(capture), d) == Meaning(capture, d)
        == if captured.None? then Result(d, true) else Result(captured.value, afterCapture);
    if captured.Some? {
      var attached := Attached(captured.value, change);
      assert Meaning(save, captured.value)
          == if attached.None? then Result(captured.value, true) else Result(attached.value, afterSave);
    }
  }

  /** A reconciliation leaves both documents with it, or -- wherever it raises -- neither. */
  lemma ReconciliationIsWhole(d: Docs, dg: Evidence.Digest, change: string, payload: Evidence.Entry, now: string,
                              faults: (bool, bool, bool))
    ensures var r := Top(Reconciliation(dg, change, payload, now, faults), d);
            var done := ReconciledDocs(d, dg, change, payload, now);
            r == if faults.0 || faults.1 || faults.2 || done.None? then Result(d, true) else Result(done.value, false)
  {
    CaptureAndSave(d, dg, change, payload, now, faults.1, faults.2);
    assert Meaning(Do(FailIf(faults.0)), d) == Result(d, faults.0);
  }

  /** Every reconciliation on a ledger carries the hash of an entry of its story's log. */
  ghost predicate Agree(d: Docs) {
    forall change, h :: change in d.ledgers && h in d.ledgers[change].reconciled ==>
      Recorded(LogAt(d, d.ledgers[change].story), h)
  }

  ghost predicate Recorded(log: seq<Evidence.Entry>, hash: string) {
    exists i :: 0 <= i < |log| && Evidence.Field(log[i], "entry_hash") == Some(Evidence.Str(hash))
  }

  /** Transactions on the two documents, in any order. */
  datatype Act =
    | Propose(change: string, story: string)
    | Capture(story: string, payload: Evidence.Entry, now: string)
    | Reconcile(change: string, payload: Evidence.Entry, now: string, faults: (bool, bool, bool))

  function Proposed(change: string, story: string): Docs -> Option<Docs> {
    (d: Docs) => if change in d.ledgers then None else Some(d.(ledgers := d.ledgers[change := Ledger(story, [])]))
  }

  function Program(dg: Evidence.Digest, act: Act): Prog {
    match act
    case Propose(change, story) => Transaction(Do(Proposed(change, story)))
    case Capture(story, payload, now) => Transaction(Do((d: Docs) => Captured(d, dg, story, payload, now)))
    case Reconcile(change, payload, now, faults) => Reconciliation(dg, change, payload, now, faults)
  }

  function Run(dg: Evidence.Digest, acts: seq<Act>): Docs {
    if acts == [] then Docs(map[], map[])
    else Top(Program(dg, acts[|acts| - 1]), Run(dg, acts[..|acts| - 1])).docs
  }

  lemma CaptureGrowsLog(d: Docs, dg: Evidence.Digest, story: string, payload: Evidence.Entry, now: string)
    requires Captured(d, dg, story, payload, now).Some?
    ensures var r := Captured(d, dg, story, payload, now).value;
            && r.ledgers == d.ledgers
            && (forall s :: LogAt(d, s) <= LogAt(r, s))
            && Evidence.LastHash(LogAt(r, story)).Some?
            && Recorded(LogAt(r, story), Evidence.LastHash(LogAt(r, story)).value)
  {
  }

  lemma AgreeGrows(d: Docs, r: Docs)
    requires Agree(d) && r.ledgers == d.ledgers && forall s :: LogAt(d, s) <= LogAt(r, s)
    ensures Agree(r)
  {
  }

  lemma ReconciledAgrees(d: Docs, dg: Evidence.Digest, change: string, payload: Evidence.Entry, now: string)
    requires Agree(d) && ReconciledDocs(d, dg, change, payload, now).Some?
    ensures Agree(ReconciledDocs(d, dg, change, payload, now).value)
  {
    var story := d.ledgers[change].story;
    var captured := Captured(d, dg, story, payload, now).value;
    CaptureGrowsLog(d, dg, story, payload, now);
    AgreeGrows(d, captured);
    var r := Attached(captured, change).value;
    forall c, h | c in r.ledgers && h in r.ledgers[c].reconciled ensures Recorded(LogAt(r, r.ledgers[c].story), h) {
      assert LogAt(r, r.ledgers[c].story) == LogAt(captured, r.ledgers[c].story);
      if c != change || h in captured.ledgers[c].reconciled {
        assert Recorded(LogAt(captured, captured.ledgers[c].story), h);
      }
    }
  }

  lemma ActAgrees(d: Docs, dg: Evidence.Digest, act: Act)
    requires Agree(d)
    ensures Agree(Top(Program(dg, act), d).docs)
  {
    match act
    case Propose(change, story) =>
      var r := Top(Program(dg, act), d).docs;
      forall c, h | c in r.ledgers && h in r.ledgers[c].reconciled ensures Recorded(LogAt(r, r.ledgers[c].story), h) {
        assert c in d.ledgers && h in d.ledgers[c].reconciled;
        assert LogAt(r, r.ledgers[c].story) == LogAt(d, d.ledgers[c].story);
      }
    case Capture(story, payload, now) =>
      if Captured(d, dg, story, payload, now).Some? {
        CaptureGrowsLog(d, dg, story, payload, now);
        AgreeGrows(d, Captured(d, dg, story, payload, now).value);
      }
    case Reconcile(change, payload, now, faults) =>
      ReconciliationIsWhole(d, dg, change, payload, now, faults);
      if ReconciledDocs(d, dg, change, payload, now).Some? {
        ReconciledAgrees(d, dg, change, payload, now);
      }
  }

  /** In every committed state, whatever was reconciled, captured, proposed or aborted before, ledger
      and log agree. */
  lemma {:induction false} LedgerAndLogAgree(dg: Evidence.Digest, acts: seq<Act>)
    ensures Agree(Run(dg, acts))
  {
    if acts != [] {
      LedgerAndLogAgree(dg, acts[..|acts| - 1]);
      ActAgrees(Run(dg, acts[..|acts| - 1]), dg, acts[|acts| - 1]);
    }
  }
}
