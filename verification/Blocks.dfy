/** One attempt block of a change record: the write, build or test of the change, or one
    item of a configuration change set.

    Every function below is total. Where the program raises, its transaction rolls back and the
    record keeps its old content, so a refused step returns the block it was given. A run is any
    finite sequence of steps; the theorems quantify over all of them. */
module Blocks {
  import opened Wrappers

  const STALE_AFTER_SECONDS: int := 15 * 60

  type AttemptId = nat

  datatype Kind = Write | Build | Test | Item

  datatype State = Ready | InProgress | Applied | Completed | Built | Failed | Unknown | Diverged

  datatype Outcome = AsApplied | AsCompleted | AsBuilt | AsFailed | NotSent | Unclear

  /** `recorded` marks a step a person performed: it was never open in the system. */
  datatype Attempt = Attempt(id: AttemptId, startedAt: int, finishedAt: Option<int>,
                             before: Option<string>, outcome: Option<Outcome>, recorded: bool)

  /** What a reconciliation found: applied / completed, not_applied / not_run, or diverged. */
  datatype Verdict = Confirmed | NotDone | Neither

  datatype Reconciliation = Reconciliation(verdict: Verdict, settles: Option<AttemptId>, at: int)

  datatype Block = Block(state: State, attempts: seq<Attempt>, reconciliations: seq<Reconciliation>)

  const FRESH := Block(Ready, [], [])

  // ---------------------------------------------------------------------------------------------
  // The operations on a block
  // ---------------------------------------------------------------------------------------------

  /** The state readers see: an attempt in progress for too long counts as unknown. */
  function Effective(b: Block, now: int): State {
    if b.state != InProgress then b.state
    else
      var started := if b.attempts == [] then 0 else b.attempts[|b.attempts| - 1].startedAt;
      if now - started > STALE_AFTER_SECONDS then Unknown else InProgress
  }

  /** The outcome table: which state a current close leads to; None where the pair has no entry. */
  function OutcomeState(kind: Kind, outcome: Outcome): Option<State> {
    match outcome
    case NotSent => Some(Ready)
    case Unclear => Some(Unknown)
    case AsApplied => if kind == Write || kind == Item then Some(Applied) else None
    case AsCompleted => if kind == Test then Some(Completed) else None
    case AsBuilt => if kind == Build then Some(Built) else None
    case AsFailed => if kind == Build then Some(Failed) else None
  }

  predicate Recordable(kind: Kind, outcome: Outcome) {
    kind != Item && outcome != NotSent && outcome != Unclear && OutcomeState(kind, outcome).Some?
  }

  /** A build has no reconciliation, and a test is only attested as run or not run. */
  predicate Reconcilable(kind: Kind, verdict: Verdict) {
    kind != Build && (kind == Test ==> verdict != Neither)
  }

  function VerdictState(kind: Kind, verdict: Verdict): State {
    match verdict
    case Confirmed => if kind == Test then Completed else Applied
    case NotDone => Ready
    case Neither => Diverged
  }

  predicate HasAttempt(b: Block, id: AttemptId) {
    exists i :: 0 <= i < |b.attempts| && b.attempts[i].id == id
  }

  /** The position of the first attempt with this id, or the number of attempts. */
  function Find(attempts: seq<Attempt>, id: AttemptId): (i: nat)
    ensures i <= |attempts|
    ensures i < |attempts| ==> attempts[i].id == id
    ensures forall j :: 0 <= j < i ==> attempts[j].id != id
  {
    if attempts == [] then 0
    else if attempts[0].id == id then 0
    else 1 + Find(attempts[1..], id)
  }

  predicate IsCurrent(b: Block, id: AttemptId) {
    b.state == InProgress && b.attempts != [] && b.attempts[|b.attempts| - 1].id == id
  }

  function Opened(b: Block, id: AttemptId, now: int, before: Option<string>): Block {
    Block(InProgress, b.attempts + [Attempt(id, now, None, before, None, false)], b.reconciliations)
  }

  /** A close is refused where the attempt is unknown, where the outcome is none of an item's, and where a
      current close has no entry in the table. */
  predicate Closable(kind: Kind, b: Block, id: AttemptId, outcome: Outcome) {
    HasAttempt(b, id) && (kind == Item || IsCurrent(b, id) ==> OutcomeState(kind, outcome).Some?)
  }

  function Closed(kind: Kind, b: Block, id: AttemptId, outcome: Outcome, now: int): Block {
    var i := Find(b.attempts, id);
    if i == |b.attempts| then b
    else
      var attempts := b.attempts[i := b.attempts[i].(finishedAt := Some(now), outcome := Some(outcome))];
      if IsCurrent(b, id) then
        match OutcomeState(kind, outcome)
        case Some(state) => Block(state, attempts, b.reconciliations)
        case None => b
      else if kind == Item && OutcomeState(kind, outcome).None? then b
      else Block(if b.state == Diverged then Diverged else Unknown, attempts, b.reconciliations)
  }

  function Recorded(kind: Kind, b: Block, id: AttemptId, outcome: Outcome, now: int, before: Option<string>): Block
    requires Recordable(kind, outcome)
  {
    Block(OutcomeState(kind, outcome).value,
          b.attempts + [Attempt(id, now, Some(now), before, Some(outcome), true)], b.reconciliations)
  }

  /** The attempt a reconciliation settles: the latest one whose outcome is open or unknown. */
  function Unsettled(attempts: seq<Attempt>): Option<AttemptId> {
    if attempts == [] then None
    else
      var last := attempts[|attempts| - 1];
      if last.outcome == None || last.outcome == Some(Unclear) then Some(last.id)
      else Unsettled(attempts[..|attempts| - 1])
  }

  function Reconciled(kind: Kind, b: Block, verdict: Verdict, now: int): Block {
    Block(VerdictState(kind, verdict), b.attempts,
          b.reconciliations + [Reconciliation(verdict, Unsettled(b.attempts), now)])
  }

  // ---------------------------------------------------------------------------------------------
  // Steps and runs
  // ---------------------------------------------------------------------------------------------

  /** `TakeEffect` is not a step of the program: it is the target system acting on an attempt. */
  datatype Step =
    | Begin(id: AttemptId, now: int, before: Option<string>)
    | Finish(id: AttemptId, outcome: Outcome, now: int)
    | Record(id: AttemptId, outcome: Outcome, now: int, before: Option<string>)
    | Reconcile(verdict: Verdict, now: int)
    | Interrupt
    | TakeEffect(id: AttemptId)

  /** One step of the block. Attempt ids are fresh when an attempt is appended. */
  function Apply(kind: Kind, b: Block, s: Step): Block {
    match s
    case Begin(id, now, before) => if b.state == Ready && !HasAttempt(b, id) then Opened(b, id, now, before) else b
    case Finish(id, outcome, now) => Closed(kind, b, id, outcome, now)
    case Record(id, outcome, now, before) =>
      if b.state == Ready && !HasAttempt(b, id) && Recordable(kind, outcome)
      then Recorded(kind, b, id, outcome, now, before) else b
    case Reconcile(verdict, now) =>
      if Effective(b, now) == Unknown && Reconcilable(kind, verdict) then Reconciled(kind, b, verdict, now) else b
    case Interrupt => if b.state == InProgress then b.(state := Unknown) else b
    case TakeEffect(_) => b
  }

  function ApplyAll(kind: Kind, b: Block, steps: seq<Step>): Block {
    if steps == [] then b
    else Apply(kind, ApplyAll(kind, b, steps[..|steps| - 1]), steps[|steps| - 1])
  }

  /** What history must tell apart: appended attempts and the two events that make a block ready again. */
  datatype Event = Attempted(id: AttemptId) | ClosedNotSent(id: AttemptId) | FoundNotDone

  /** A block with its history and the target system beside it. `effects` lists the attempts that
      took effect, in order; `spent` are the attempts reported never to have an effect. */
  datatype Traced = Traced(block: Block, log: seq<Event>, effects: seq<AttemptId>, spent: set<AttemptId>)

  const START := Traced(FRESH, [], [], {})

  /** The attempt was begun by the system, not recorded by a person. */
  predicate WasBegun(b: Block, id: AttemptId) {
    exists i :: 0 <= i < |b.attempts| && b.attempts[i].id == id && !b.attempts[i].recorded
  }

  predicate MayTakeEffect(t: Traced, id: AttemptId) {
    id !in t.spent && id !in t.effects && WasBegun(t.block, id)
  }

  function EventsOf(kind: Kind, b: Block, s: Step): seq<Event> {
    match s
    case Begin(id, _, _) => if Apply(kind, b, s) != b then [Attempted(id)] else []
    case Record(id, _, _, _) => if Apply(kind, b, s) != b then [Attempted(id)] else []
    case Finish(id, outcome, _) => if IsCurrent(b, id) && outcome == NotSent then [ClosedNotSent(id)] else []
    case Reconcile(verdict, _) => if Apply(kind, b, s) != b && verdict == NotDone then [FoundNotDone] else []
    case _ => []
  }

  function SpentBy(kind: Kind, b: Block, s: Step): set<AttemptId> {
    match s
    case Finish(id, NotSent, _) => if HasAttempt(b, id) then {id} else {}
    case Reconcile(NotDone, _) =>
      if Apply(kind, b, s) != b then set i | 0 <= i < |b.attempts| :: b.attempts[i].id else {}
    case _ => {}
  }

  function Advance(kind: Kind, t: Traced, s: Step): Traced {
    Traced(Apply(kind, t.block, s), t.log + EventsOf(kind, t.block, s),
           if s.TakeEffect? && MayTakeEffect(t, s.id) then t.effects + [s.id] else t.effects,
           t.spent + SpentBy(kind, t.block, s))
  }

  function Run(kind: Kind, steps: seq<Step>): Traced {
    if steps == [] then START
    else Advance(kind, Run(kind, steps[..|steps| - 1]), steps[|steps| - 1])
  }

  /** A step reports truthfully when every attempt it reports as without effect has had none. */
  predicate HonestStep(kind: Kind, t: Traced, s: Step) {
    forall id :: id in SpentBy(kind, t.block, s) ==> id !in t.effects
  }

  predicate Honest(kind: Kind, steps: seq<Step>) {
    forall k :: 0 <= k < |steps| ==> HonestStep(kind, Run(kind, steps[..k]), steps[k])
  }

  // ---------------------------------------------------------------------------------------------
  // The block keeps its identity under every step
  // ---------------------------------------------------------------------------------------------

  predicate SameAttempt(a: Attempt, b: Attempt) {
    a.id == b.id && a.recorded == b.recorded && a.startedAt == b.startedAt && a.before == b.before
  }

  /** No step removes, reorders or re-identifies an attempt; at most one is appended, and only
      to a block that was ready. */
  lemma AttemptsAreKept(kind: Kind, b: Block, s: Step)
    ensures |b.attempts| <= |Apply(kind, b, s).attempts| <= |b.attempts| + 1
    ensures forall i :: 0 <= i < |b.attempts| ==> SameAttempt(b.attempts[i], Apply(kind, b, s).attempts[i])
    ensures |Apply(kind, b, s).attempts| > |b.attempts| ==>
              b.state == Ready && (s.Begin? || s.Record?) && !HasAttempt(b, s.id)
              && Apply(kind, b, s).attempts[|b.attempts|].id == s.id
              && Apply(kind, b, s).attempts[|b.attempts|].recorded == s.Record?
  {
  }

  // ---------------------------------------------------------------------------------------------
  // No blind retry
  // ---------------------------------------------------------------------------------------------

  predicate Releases(e: Event) {
    e.ClosedNotSent? || e.FoundNotDone?
  }

  function Attempts(log: seq<Event>): nat {
    if log == [] then 0 else Attempts(log[..|log| - 1]) + (if log[|log| - 1].Attempted? then 1 else 0)
  }

  function NotSentCloses(log: seq<Event>): nat {
    if log == [] then 0 else NotSentCloses(log[..|log| - 1]) + (if log[|log| - 1].ClosedNotSent? then 1 else 0)
  }

  function NotDoneFindings(rs: seq<Reconciliation>): nat {
    if rs == [] then 0 else NotDoneFindings(rs[..|rs| - 1]) + (if rs[|rs| - 1].verdict == NotDone then 1 else 0)
  }

  /** Between any two attempts of the log one event released the block. */
  ghost predicate Alternates(log: seq<Event>) {
    forall i, j :: 0 <= i < j < |log| && log[i].Attempted? && log[j].Attempted? ==>
      exists k :: i < k < j && Releases(log[k])
  }

  /** Nothing was attempted since the last release. */
  ghost predicate Released(log: seq<Event>) {
    forall i :: 0 <= i < |log| && log[i].Attempted? ==> exists k :: i < k < |log| && Releases(log[k])
  }

  ghost predicate RetryInv(t: Traced) {
    var spare := if t.block.state == Ready then 0 else 1;
    && Alternates(t.log)
    && (t.block.state == Ready ==> Released(t.log))
    && |t.block.attempts| == Attempts(t.log)
    && Attempts(t.log) <= spare + NotSentCloses(t.log) + NotDoneFindings(t.block.reconciliations)
  }

  lemma ExtendLog(log: seq<Event>, e: Event)
    requires Alternates(log)
    requires e.Attempted? ==> Released(log)
    ensures Alternates(log + [e])
    ensures Releases(e) ==> Released(log + [e])
    ensures Attempts(log + [e]) == Attempts(log) + (if e.Attempted? then 1 else 0)
    ensures NotSentCloses(log + [e]) == NotSentCloses(log) + (if e.ClosedNotSent? then 1 else 0)
  {
    var l := log + [e];
    assert l[..|l| - 1] == log;
    forall i, j | 0 <= i < j < |l| && l[i].Attempted? && l[j].Attempted?
      ensures exists k :: i < k < j && Releases(l[k])
    {
      var k :| i < k < j && k < |log| && Releases(log[k]);
      assert Releases(l[k]);
    }
    if Releases(e) {
      assert Releases(l[|log|]);
    }
  }

  /** What one step adds to the history, and what that says about the block. */
  lemma EventFacts(kind: Kind, b: Block, s: Step)
    ensures var b', es := Apply(kind, b, s), EventsOf(kind, b, s);
            && |es| <= 1
            && |b'.attempts| == |b.attempts| + (if es != [] && es[0].Attempted? then 1 else 0)
            && NotDoneFindings(b'.reconciliations)
               == NotDoneFindings(b.reconciliations) + (if es != [] && es[0].FoundNotDone? then 1 else 0)
            && (es != [] && es[0].Attempted? ==> b.state == Ready != b'.state)
            && (es != [] && !es[0].Attempted? ==> b.state != Ready == b'.state)
            && (es == [] ==> b'.state == Ready ==> b.state == Ready)
  {
    var b' := Apply(kind, b, s);
    if s.Reconcile? && b' != b {
      assert b'.reconciliations[..|b'.reconciliations| - 1] == b.reconciliations;
    }
  }

  lemma RetryStep(kind: Kind, t: Traced, s: Step)
    requires RetryInv(t)
    ensures RetryInv(Advance(kind, t, s))
  {
    EventFacts(kind, t.block, s);
    var es := EventsOf(kind, t.block, s);
    if es == [] {
      assert t.log + es == t.log;
    } else {
      assert es == [es[0]];
      ExtendLog(t.log, es[0]);
    }
  }

  /** In every run the attempts number at most one more than the current closes as not_sent plus
      the reconciliations as not_applied or not_run, and between any two attempts one of those
      two happened. */
  lemma {:induction false} NoBlindRetry(kind: Kind, steps: seq<Step>)
    ensures var t := Run(kind, steps);
            && |t.block.attempts| <= 1 + NotSentCloses(t.log) + NotDoneFindings(t.block.reconciliations)
            && Alternates(t.log)
            && |t.block.attempts| == Attempts(t.log)
    ensures RetryInv(Run(kind, steps))
  {
    if steps != [] {
      NoBlindRetry(kind, steps[..|steps| - 1]);
      RetryStep(kind, Run(kind, steps[..|steps| - 1]), steps[|steps| - 1]);
    }
  }

  // ---------------------------------------------------------------------------------------------
  // At most one effect
  // ---------------------------------------------------------------------------------------------

  /** Attempts that can still act on the target: only the last one, and none while the block is ready. */
  ghost predicate EffectInv(t: Traced) {
    var a := t.block.attempts;
    && (forall i, j :: 0 <= i < j < |a| ==> a[i].id != a[j].id)
    && (forall i :: 0 <= i < |a| - (if t.block.state == Ready then 0 else 1) ==> a[i].recorded || a[i].id in t.spent)
    && (forall e :: e in t.effects ==> e !in t.spent)
    && (forall e :: e in t.effects ==> WasBegun(t.block, e))
    && (forall k, l :: 0 <= k < l < |t.effects| ==> t.effects[k] != t.effects[l])
  }

  lemma BegunStaysBegun(kind: Kind, b: Block, s: Step, e: AttemptId)
    requires WasBegun(b, e)
    ensures WasBegun(Apply(kind, b, s), e)
  {
    AttemptsAreKept(kind, b, s);
    var i :| 0 <= i < |b.attempts| && b.attempts[i].id == e && !b.attempts[i].recorded;
    assert SameAttempt(b.attempts[i], Apply(kind, b, s).attempts[i]);
  }

  /** A block becomes ready only by a report that its attempts have no effect. */
  lemma ReadyMeansSpent(kind: Kind, b: Block, s: Step, i: nat)
    requires forall i, j :: 0 <= i < j < |b.attempts| ==> b.attempts[i].id != b.attempts[j].id
    requires b.state != Ready && Apply(kind, b, s).state == Ready && i + 1 == |b.attempts|
    ensures b.attempts[i].id in SpentBy(kind, b, s)
  {
  }

  lemma SpentStep(kind: Kind, t: Traced, s: Step)
    requires EffectInv(t)
    ensures var t' := Advance(kind, t, s);
            forall i :: 0 <= i < |t'.block.attempts| - (if t'.block.state == Ready then 0 else 1) ==>
              t'.block.attempts[i].recorded || t'.block.attempts[i].id in t'.spent
  {
    AttemptsAreKept(kind, t.block, s);
    var t' := Advance(kind, t, s);
    var a, a' := t.block.attempts, t'.block.attempts;
    forall i | 0 <= i < |a'| - (if t'.block.state == Ready then 0 else 1)
      ensures a'[i].recorded || a'[i].id in t'.spent
    {
      assert i < |a|;
      assert SameAttempt(a[i], a'[i]);
      if i == |a| - 1 && t.block.state != Ready {
        ReadyMeansSpent(kind, t.block, s, i);
      }
    }
  }

  lemma EffectStep(kind: Kind, t: Traced, s: Step)
    requires EffectInv(t) && HonestStep(kind, t, s)
    ensures EffectInv(Advance(kind, t, s))
  {
    AttemptsAreKept(kind, t.block, s);
    SpentStep(kind, t, s);
    var t' := Advance(kind, t, s);
    forall e | e in t'.effects ensures WasBegun(t'.block, e) {
      BegunStaysBegun(kind, t.block, s, e);
    }
    EffectParts(t, t', SpentBy(kind, t.block, s));
  }

  lemma EffectParts(t: Traced, t': Traced, spent: set<AttemptId>)
    requires EffectInv(t) && (forall id :: id in spent ==> id !in t.effects) && t'.spent == t.spent + spent
    requires t'.effects == t.effects
             || (spent == {} && exists id :: MayTakeEffect(t, id) && t'.effects == t.effects + [id])
    requires forall e :: e in t'.effects ==> WasBegun(t'.block, e)
    requires var a' := t'.block.attempts;
             && (forall i, j :: 0 <= i < j < |a'| ==> a'[i].id != a'[j].id)
             && (forall i :: 0 <= i < |a'| - (if t'.block.state == Ready then 0 else 1) ==> a'[i].recorded || a'[i].id in t'.spent)
    ensures EffectInv(t')
  {
  }

  lemma OneLiveAttempt(t: Traced)
    requires EffectInv(t)
    ensures |t.effects| <= 1
  {
    if |t.effects| > 1 {
      LastActs(t, 0);
      LastActs(t, 1);
      assert false;
    }
  }

  /** Whatever acted on the target is the block's last attempt. */
  lemma LastActs(t: Traced, k: nat)
    requires EffectInv(t) && k < |t.effects|
    ensures t.block.attempts != [] && t.effects[k] == t.block.attempts[|t.block.attempts| - 1].id
  {
    assert t.effects[k] in t.effects;
  }

  lemma {:induction false} EffectRun(kind: Kind, steps: seq<Step>)
    requires Honest(kind, steps)
    ensures EffectInv(Run(kind, steps))
  {
    if steps != [] {
      var front := steps[..|steps| - 1];
      forall k | 0 <= k < |front| ensures HonestStep(kind, Run(kind, front[..k]), front[k]) {
        assert front[..k] == steps[..k];
      }
      EffectRun(kind, front);
      EffectStep(kind, Run(kind, front), steps[|steps| - 1]);
    }
  }

  /** Every interleaving of begin, finish (late or repeated), record, reconcile, staleness and
      restart lets at most one attempt act on the target, provided only attempts without an
      effect are reported as not_sent, not_applied or not_run. */
  lemma {:induction false} AtMostOneEffect(kind: Kind, steps: seq<Step>)
    requires Honest(kind, steps)
    ensures |Run(kind, steps).effects| <= 1
  {
    EffectRun(kind, steps);
    OneLiveAttempt(Run(kind, steps));
  }

  /** The proviso is needed: one untrue not_applied report lets a second attempt act. */
  lemma UntrueReportAllowsTwoEffects(kind: Kind)
    requires kind != Build
    ensures exists steps :: Run(kind, steps).effects == [1, 2]
  {
    var s0 := FirstAttempt(kind);
    var t0 := Run(kind, s0);
    assert t0.block.attempts[0].id == 1;
    var s1 := RunSnoc(kind, s0, TakeEffect(1));
    assert Run(kind, s1).effects == [1];
    var s2 := RunSnoc(kind, s1, Interrupt);
    SecondAttempt(kind, s2);
  }

  lemma FirstAttempt(kind: Kind) returns (steps: seq<Step>)
    ensures Run(kind, steps) == Traced(Opened(FRESH, 1, 0, None), [Attempted(1)], [], {})
  {
    steps := RunSnoc(kind, [], Begin(1, 0, None));
    assert !HasAttempt(FRESH, 1);
  }

  lemma SecondAttempt(kind: Kind, s2: seq<Step>)
    requires kind != Build
    requires var t := Run(kind, s2); t.block.state == Unknown && t.effects == [1] && 2 !in t.spent
    requires var a := Run(kind, s2).block.attempts; |a| == 1 && a[0].id == 1
    ensures exists steps :: Run(kind, steps).effects == [1, 2]
  {
    var s3 := RunSnoc(kind, s2, Reconcile(NotDone, 1));
    ReadyAgain(kind, Run(kind, s2));
    var s4 := RunSnoc(kind, s3, Begin(2, 2, None));
    BegunAgain(kind, Run(kind, s3));
    var s5 := RunSnoc(kind, s4, TakeEffect(2));
    assert Run(kind, s5).effects == [1, 2];
  }

  lemma ReadyAgain(kind: Kind, t: Traced)
    requires kind != Build && t.block.state == Unknown && t.effects == [1] && 2 !in t.spent
    requires |t.block.attempts| == 1 && t.block.attempts[0].id == 1
    ensures var r := Advance(kind, t, Reconcile(NotDone, 1));
            r.block.state == Ready && r.effects == [1] && 2 !in r.spent && r.block.attempts == t.block.attempts
  {
  }

  lemma BegunAgain(kind: Kind, t: Traced)
    requires t.block.state == Ready && t.effects == [1] && 2 !in t.spent
    requires |t.block.attempts| == 1 && t.block.attempts[0].id == 1
    ensures var r := Advance(kind, t, Begin(2, 2, None)); r.effects == [1] && MayTakeEffect(r, 2)
  {
    var r := Advance(kind, t, Begin(2, 2, None));
    assert !HasAttempt(t.block, 2);
    assert r.block.attempts[1].id == 2;
  }

  lemma RunSnoc(kind: Kind, front: seq<Step>, s: Step) returns (steps: seq<Step>)
    ensures steps == front + [s] && Run(kind, steps) == Advance(kind, Run(kind, front), s)
  {
    steps := front + [s];
    assert steps[..|front|] == front;
  }

  // ---------------------------------------------------------------------------------------------
  // Divergence is final and late news is conservative
  // ---------------------------------------------------------------------------------------------

  /** From any block that has diverged, no sequence of steps changes the state or adds an attempt. */
  lemma {:induction false} DivergedIsFinal(kind: Kind, b: Block, steps: seq<Step>)
    requires b.state == Diverged
    ensures ApplyAll(kind, b, steps).state == Diverged
    ensures |ApplyAll(kind, b, steps).attempts| == |b.attempts|
  {
    if steps != [] {
      DivergedIsFinal(kind, b, steps[..|steps| - 1]);
    }
  }

  /** A finish that finds its attempt but is not current leaves the block unknown or diverged. */
  lemma LateFinishIsConservative(kind: Kind, b: Block, id: AttemptId, outcome: Outcome, now: int)
    requires HasAttempt(b, id) && !IsCurrent(b, id)
    requires kind == Item ==> OutcomeState(kind, outcome).Some?
    ensures Apply(kind, b, Finish(id, outcome, now)).state == (if b.state == Diverged then Diverged else Unknown)
  {
  }

  /** From unknown, only a reconciliation moves a block on: every run without one keeps the state
      and appends nothing. */
  lemma {:induction false} UnknownWaitsForReconciliation(kind: Kind, b: Block, steps: seq<Step>)
    requires b.state == Unknown
    requires forall k :: 0 <= k < |steps| ==> !steps[k].Reconcile?
    ensures ApplyAll(kind, b, steps).state == Unknown
    ensures |ApplyAll(kind, b, steps).attempts| == |b.attempts|
  {
    if steps != [] {
      UnknownWaitsForReconciliation(kind, b, steps[..|steps| - 1]);
    }
  }

  /** `applied` is not absorbing: of all steps, a further finish of any of its attempts -- and nothing
      else -- withdraws it, to unknown. */
  lemma AppliedIsWithdrawnExactly(kind: Kind, b: Block, s: Step)
    requires b.state == Applied
    ensures var b' := Apply(kind, b, s);
            && (b'.state != Applied <==>
                  s.Finish? && HasAttempt(b, s.id) && (kind == Item ==> OutcomeState(kind, s.outcome).Some?))
            && (b'.state != Applied ==> b'.state == Unknown)
  {
  }
}
