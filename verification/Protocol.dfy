/** The delivery protocol of one change: approval, agents, persons, tests, technical milestones,
    reconciliation, invalidation and restarts, interleaved in any order.

    Each act is one transaction. A caller that checks something before it takes the change's lock
    is split in two acts; the first leaves an intent saying what it saw, the second uses it.
    Intents are never withdrawn: any number of callers may have passed the same check and may
    still act on it much later. Each act reads its own instant of the world. */
module Protocol {
  import opened Wrappers
  import opened Changes
  import Blocks

  /** What a caller saw before it took the lock. A verification carries whether an activation was required
      when it was checked. */
  datatype Intent =
    | Completing | Recording(item: string, observed: Observed) | Optioning | Testing | Resulting
    | CheckingIn | Building | Activating | Verifying(required: bool)

  datatype Sys = Sys(change: Change, nextId: nat, intents: set<Intent>)

  datatype Act =
    // Approval
    | Approve(user: string, company: string, sessionRoles: set<string>)
    | Reject(company: string, note: string)
    | Invalidate(why: string)
    // Functional delivery
    | BeginItem(item: string)
    | FinishItem(item: string, id: Blocks.AttemptId, outcome: Blocks.Outcome, seen: Option<Observed>)
    | CheckPerson(item: string, live: Option<Observed>, statement: Statement)
    | StorePerson(item: string, observed: Observed)
    | CheckComplete
    | RecordCompletion
    | CheckOption(value: string)
    | RecordOption
    | BeginWrite
    | CheckTest
    | BeginTest
    | FinishAttempt(target: Target, id: Blocks.AttemptId, outcome: Blocks.Outcome)
    | CheckResult
    | RecordTest
    // Reconciliation and restart
    | ReconcileItem(item: string, observed: Observed)
    | ReconcileWrite(value: string)
    | ReconcileTest(ran: bool)
    | Restart
    // Technical milestones
    | CheckPackage
    | CheckIn
    | CheckBuild
    | RecordBuild(succeeded: bool)
    | CheckActivation
    | RecordActivation
    | CheckVerification
    | RecordVerification(required: bool)
    // The target system
    | TakeEffect(target: Target, id: Blocks.AttemptId)

  datatype Step = Step(act: Act, world: World)

  // ---------------------------------------------------------------------------------------------
  // What each act does
  // ---------------------------------------------------------------------------------------------

  function ItemIn(c: Change, id: string): Option<Item> {
    ItemOf(c.proposal.items, id)
  }

  predicate IsAgentItem(c: Change, id: string) {
    ItemIn(c, id).Some? && ItemIn(c, id).value.executor == Agent
  }

  /** The check of a person's recording, made before the lock is taken. */
  predicate MayRecordItem(c: Change, w: World, id: string) {
    && FunctionalGate(c, w) && w.recorder && c.proposal.sort == ChangeSet
    && ItemIn(c, id).Some? && id !in c.delivery
    && (IsAgentItem(c, id) ==> Blocks.Effective(BlockAt(c, OfItem(id)), w.now) == Blocks.Ready && HandedOver(c, w, id))
  }

  /** No agent can apply the item now: the last attempt stopped before anything was saved, or agent
      execution is not available. */
  predicate HandedOver(c: Change, w: World, id: string) {
    var a := BlockAt(c, OfItem(id)).attempts;
    !w.agentAvailable || (a != [] && a[|a| - 1].outcome == Some(Blocks.NotSent))
  }

  /** A finish as its caller makes it: applied only with an observation that shows the approved values. */
  predicate TruthfulFinish(c: Change, id: string, outcome: Blocks.Outcome, seen: Option<Observed>) {
    outcome == Blocks.AsApplied ==> ItemIn(c, id).Some? && seen.Some? && MatchesApproved(ItemIn(c, id).value, seen.value)
  }

  function ItemVerdict(c: Change, id: string, o: Observed): Blocks.Verdict
    requires ItemIn(c, id).Some?
  {
    if MatchesApproved(ItemIn(c, id).value, o) then Blocks.Confirmed
    else if c.decision.binding.Some? && id in c.decision.binding.value.itemsBefore && c.decision.binding.value.itemsBefore[id] == o
    then Blocks.NotDone
    else Blocks.Neither
  }

  function OptionValue(c: Change): Option<string> {
    if c.proposal.items != [] && c.proposal.items[0].content.ProcessingOption? then Some(c.proposal.items[0].content.value) else None
  }

  /** The latest before-value an attempt of the write recorded. */
  function BeforeWrite(attempts: seq<Blocks.Attempt>): Option<string> {
    if attempts == [] then None
    else if attempts[|attempts| - 1].before.Some? then attempts[|attempts| - 1].before
    else BeforeWrite(attempts[..|attempts| - 1])
  }

  function WriteVerdict(c: Change, value: string): Blocks.Verdict {
    if OptionValue(c) == Some(value) then Blocks.Confirmed
    else if BeforeWrite(c.execution.write.attempts) == Some(value) then Blocks.NotDone
    else Blocks.Neither
  }

  function BoundBefore(c: Change): Option<string> {
    if c.decision.binding.Some? then c.decision.binding.value.before else None
  }

  /** The block step an act performs; None when it is refused or concerns no block. */
  function Move(s: Sys, step: Step): Option<(Target, Blocks.Step)> {
    var c, w := s.change, step.world;
    match step.act
    case BeginItem(id) =>
      if !w.paused && FunctionalGate(c, w) && w.recorder && c.proposal.sort == ChangeSet && IsAgentItem(c, id)
         && id !in c.delivery
      then Some((OfItem(id), Blocks.Begin(s.nextId, w.now, None))) else None
    case FinishItem(id, attempt, outcome, seen) =>
      if TruthfulFinish(c, id, outcome, seen)
      then Some((OfItem(id), Blocks.Finish(attempt, outcome, w.now))) else None
    case RecordCompletion =>
      if Completing in s.intents && !w.paused && FunctionalGate(c, w)
      then Some((OfWrite, Blocks.Record(s.nextId, Blocks.AsApplied, w.now, None))) else None
    case RecordOption =>
      if Optioning in s.intents && !w.paused && FunctionalGate(c, w)
      then Some((OfWrite, Blocks.Record(s.nextId, Blocks.AsApplied, w.now, BoundBefore(c)))) else None
    case BeginWrite =>
      if c.proposal.sort == SingleOption && !w.paused && FunctionalGate(c, w)
      then Some((OfWrite, Blocks.Begin(s.nextId, w.now, BoundBefore(c)))) else None
    case BeginTest =>
      if Testing in s.intents && !w.paused && TestGate(c, w) && w.testWithinScope
      then Some((OfTest, Blocks.Begin(s.nextId, w.now, None))) else None
    case FinishAttempt(t, attempt, outcome) =>
      if c.proposal.sort != Technical && !t.OfItem? then Some((t, Blocks.Finish(attempt, outcome, w.now))) else None
    case RecordTest =>
      if Resulting in s.intents && !w.paused && TestGate(c, w)
      then Some((OfTest, Blocks.Record(s.nextId, Blocks.AsCompleted, w.now, None))) else None
    case ReconcileItem(id, o) =>
      if c.proposal.sort == ChangeSet && ItemIn(c, id).Some?
      then Some((OfItem(id), Blocks.Reconcile(ItemVerdict(c, id, o), w.now))) else None
    case ReconcileWrite(value) =>
      if c.proposal.sort == SingleOption then Some((OfWrite, Blocks.Reconcile(WriteVerdict(c, value), w.now))) else None
    case ReconcileTest(ran) =>
      Some((OfTest, Blocks.Reconcile(if ran then Blocks.Confirmed else Blocks.NotDone, w.now)))
    case CheckIn =>
      if CheckingIn in s.intents && !w.paused && TechnicalGate(c, w, true)
      then Some((OfWrite, Blocks.Record(s.nextId, Blocks.AsApplied, w.now, BoundBefore(c)))) else None
    case RecordBuild(succeeded) =>
      if Building in s.intents && !w.paused && TechnicalGate(c, w, false)
      then Some((OfBuild, Blocks.Record(s.nextId, if succeeded then Blocks.AsBuilt else Blocks.AsFailed, w.now, None)))
      else None
    case RecordVerification(required) =>
      if Verifying(required) in s.intents && !w.paused && TechnicalGate(c, w, false)
      then Some((OfTest, Blocks.Record(s.nextId, Blocks.AsCompleted, w.now, None))) else None
    case TakeEffect(t, id) => Some((t, Blocks.TakeEffect(id)))
    case _ => None
  }

  function After(c: Change, t: Target, m: Blocks.Step): Blocks.Block {
    Blocks.Apply(KindOf(t), BlockAt(c, t), m)
  }

  function Touched(c: Change, t: Target, m: Blocks.Step): Change {
    if After(c, t, m) == BlockAt(c, t) then c else WithBlock(c, t, After(c, t, m))
  }

  function Interrupted(c: Change): Change {
    c.(execution := Execution(After(c, OfWrite, Blocks.Interrupt), After(c, OfBuild, Blocks.Interrupt),
                              After(c, OfTest, Blocks.Interrupt),
                              InterruptedItems(c.execution.items)))
  }

  function InterruptedItems(items: map<string, Blocks.Block>): map<string, Blocks.Block> {
    map id | id in items :: Blocks.Apply(Blocks.Item, items[id], Blocks.Interrupt)
  }

  function Delivered(c: Change, id: string, o: Observed, executor: Executor): Change {
    c.(delivery := c.delivery[id := Delivery(o, executor)])
  }

  /** What an act does to the record beside its block step. */
  function Note(c: Change, step: Step): Change {
    var w := step.world;
    match step.act
    case Approve(user, company, sessionRoles) =>
      if c.decision.status == Pending && company == c.proposal.company && w.policy.Some?
         && sessionRoles * RolesNow(w, user) * w.policy.value != {} && Snapshot(c, w).Some?
      then c.(decision := Decision(
                Approved, Some(Approval(user, sessionRoles * RolesNow(w, user) * w.policy.value, w.now + w.validSeconds)),
                Snapshot(c, w), c.decision.invalidations))
      else c
    case Reject(company, note) =>
      if c.decision.status == Pending && company == c.proposal.company && note != "" then c.(decision := c.decision.(status := Rejected)) else c
    case Invalidate(why) =>
      if c.decision.status == Rejected then c else c.(decision := c.decision.(invalidations := c.decision.invalidations + [why]))
    case FinishItem(id, attempt, outcome, seen) =>
      if outcome == Blocks.AsApplied && TruthfulFinish(c, id, outcome, seen)
         && Blocks.IsCurrent(BlockAt(c, OfItem(id)), attempt)
      then Delivered(c, id, seen.value, Agent) else c
    case ReconcileItem(id, o) =>
      if c.proposal.sort == ChangeSet && ItemIn(c, id).Some? && ItemVerdict(c, id, o) == Blocks.Confirmed
         && Blocks.Effective(BlockAt(c, OfItem(id)), w.now) == Blocks.Unknown
      then Delivered(c, id, o, Agent) else c
    case Restart => Interrupted(c)
    case _ => c
  }

  /** The intent a check leaves; the empty set when it fails. */
  function Seen(c: Change, step: Step): set<Intent> {
    var w := step.world;
    match step.act
    case CheckPerson(id, live, statement) =>
      if MayRecordItem(c, w, id) && PersonObservation(ItemIn(c, id).value, live, statement).Some?
      then {Recording(id, PersonObservation(ItemIn(c, id).value, live, statement).value)} else {}
    case CheckComplete =>
      if c.proposal.sort == ChangeSet && c.proposal.items != [] && AllDelivered(c) && Blocks.Effective(c.execution.write, w.now) != Blocks.Applied
      then {Completing} else {}
    case CheckOption(value) =>
      if c.proposal.sort == SingleOption && FunctionalGate(c, w) && w.recorder && OptionValue(c) == Some(value)
      then {Optioning} else {}
    case CheckTest =>
      if c.proposal.sort != Technical && TestGate(c, w) && w.testWithinScope && w.recorder then {Testing} else {}
    case CheckResult => if TestGate(c, w) && w.recorder then {Resulting} else {}
    case CheckPackage => if TechnicalGate(c, w, true) && w.recorder then {CheckingIn} else {}
    case CheckBuild =>
      if TechnicalGate(c, w, false) && Blocks.Effective(c.execution.write, w.now) == Blocks.Applied && w.recorder
      then {Building} else {}
    case CheckActivation => if TechnicalGate(c, w, false) && w.cnc then {Activating} else {}
    case CheckVerification =>
      if TechnicalGate(c, w, false) && VerificationReady(c, w) && w.recorder then {Verifying(w.cncRequired)} else {}
    case _ => {}
  }

  predicate VerificationReady(c: Change, w: World) {
    Blocks.Effective(c.execution.build, w.now) == Blocks.Built && (w.cncRequired ==> c.cncActivated)
  }

  /** Acts that use an intent to change the record rather than a block. */
  function Use(s: Sys, c: Change, step: Step): Change {
    match step.act
    case StorePerson(id, o) =>
      if Recording(id, o) in s.intents && id !in c.delivery then Delivered(c, id, o, Person) else c
    case RecordActivation =>
      if Activating in s.intents && Blocks.Effective(c.execution.build, step.world.now) == Blocks.Built && !c.cncActivated
      then c.(cncActivated := true) else c
    case _ => c
  }

  /** Acts that only look, and acts that only append an attempt. */
  predicate OnlyLooks(act: Act) {
    act.CheckPerson? || act.CheckComplete? || act.CheckOption? || act.CheckTest? || act.CheckResult? || act.CheckPackage?
    || act.CheckBuild? || act.CheckActivation? || act.CheckVerification?
  }

  predicate OnlyAppends(act: Act) {
    act.BeginItem? || act.RecordCompletion? || act.RecordOption? || act.BeginWrite? || act.BeginTest? || act.RecordTest?
    || act.CheckIn? || act.RecordBuild? || act.RecordVerification?
  }

  function Moved(c: Change, m: Option<(Target, Blocks.Step)>): Change {
    if m.None? then c else Touched(c, m.value.0, m.value.1)
  }

  function Advance(s: Sys, step: Step): Sys {
    if OnlyLooks(step.act) then s.(intents := s.intents + Seen(s.change, step))
    else if OnlyAppends(step.act) then
      var m := Move(s, step);
      Sys(Moved(s.change, m), if m.None? then s.nextId else s.nextId + 1, s.intents)
    else
      s.(change := Moved(Use(s, Note(s.change, step), step), Move(s, step)))
  }

  function Run(s: Sys, steps: seq<Step>): Sys {
    if steps == [] then s
    else Advance(Run(s, steps[..|steps| - 1]), steps[|steps| - 1])
  }

  function Fold(f: (Sys, Step) -> Sys, s: Sys, steps: seq<Step>): Sys {
    if steps == [] then s else f(Fold(f, s, steps[..|steps| - 1]), steps[|steps| - 1])
  }

  lemma {:induction false} FoldAppend(f: (Sys, Step) -> Sys, s: Sys, xs: seq<Step>, ys: seq<Step>)
    ensures Fold(f, s, xs + ys) == Fold(f, Fold(f, s, xs), ys)
  {
    if ys == [] {
      assert xs + ys == xs;
    } else {
      FoldAppend(f, s, xs, ys[..|ys| - 1]);
      assert (xs + ys)[..|xs + ys| - 1] == xs + ys[..|ys| - 1];
    }
  }

  lemma {:induction false} RunIsFold(s: Sys, steps: seq<Step>)
    ensures Run(s, steps) == Fold(Advance, s, steps)
  {
    if steps != [] {
      RunIsFold(s, steps[..|steps| - 1]);
    }
  }

  lemma RunAppend(s: Sys, xs: seq<Step>, ys: seq<Step>)
    ensures Run(s, xs + ys) == Run(Run(s, xs), ys)
  {
    RunIsFold(s, xs + ys);
    RunIsFold(s, xs);
    RunIsFold(Run(s, xs), ys);
    FoldAppend(Advance, s, xs, ys);
  }

  lemma RunLast(s: Sys, front: seq<Step>, last: Step)
    ensures Run(s, front + [last]) == Advance(Run(s, front), last)
  {
    assert (front + [last])[..|front|] == front;
  }

  lemma RunOfOne(s: Sys, a: Step)
    ensures Run(s, [a]) == Advance(s, a)
  {
    assert [a][..0] == [];
  }

  lemma RunOfTwo(s: Sys, a: Step, b: Step)
    ensures Run(s, [a, b]) == Advance(Advance(s, a), b)
  {
    assert [a, b][..1] == [a] && [a][..0] == [];
    assert Run(s, [a]) == Advance(Run(s, []), a);
  }

  lemma RunOfFour(s: Sys, a: Step, b: Step, c: Step, d: Step)
    ensures Run(s, [a, b, c, d]) == Advance(Advance(Advance(Advance(s, a), b), c), d)
  {
    RunOfTwo(s, a, b);
    RunOfTwo(Run(s, [a, b]), c, d);
    RunAppend(s, [a, b], [c, d]);
    assert [a, b] + [c, d] == [a, b, c, d];
  }

  /** A change as it is proposed. */
  predicate Proposed(c: Change) {
    && c.decision == Decision(Pending, None, None, [])
    && c.execution == Execution(Blocks.FRESH, Blocks.FRESH, Blocks.FRESH, map[])
    && c.delivery == map[] && !c.cncActivated
    && (forall i, j :: 0 <= i < j < |c.proposal.items| ==> c.proposal.items[i].id != c.proposal.items[j].id)
    && (c.proposal.sort == SingleOption ==> |c.proposal.items| == 1 && c.proposal.items[0].content.ProcessingOption?)
  }

  function Begun(c: Change): Sys {
    Sys(c, 0, {})
  }

  // ---------------------------------------------------------------------------------------------
  // The block view: every step of the protocol is at most one step of each block
  // ---------------------------------------------------------------------------------------------

  /** What a step of the protocol is for one block. */
  function StepOn(s: Sys, step: Step, t: Target): seq<Blocks.Step> {
    if step.act.Restart? then [Blocks.Interrupt]
    else
      var m := Move(s, step);
      if m.Some? && m.value.0 == t then [m.value.1] else []
  }

  function StepsOn(s: Sys, steps: seq<Step>, t: Target): seq<Blocks.Step> {
    if steps == [] then []
    else
      var front := steps[..|steps| - 1];
      StepsOn(s, front, t) + StepOn(Run(s, front), steps[|steps| - 1], t)
  }

  /** What an act writes beside its block step touches no block, except a restart. */
  lemma NotesKeepBlocks(s: Sys, step: Step, t: Target)
    requires !step.act.Restart?
    ensures BlockAt(Use(s, Note(s.change, step), step), t) == BlockAt(s.change, t)
  {
  }

  lemma TouchedOnlyThere(c: Change, u: Target, m: Blocks.Step, t: Target)
    ensures BlockAt(Touched(c, u, m), t) == if t == u then After(c, u, m) else BlockAt(c, t)
  {
  }

  lemma ApplyOne(kind: Blocks.Kind, b: Blocks.Block, m: Blocks.Step)
    ensures Blocks.ApplyAll(kind, b, [m]) == Blocks.Apply(kind, b, m)
    ensures Blocks.ApplyAll(kind, b, []) == b
  {
  }

  lemma MovedFollows(c: Change, m: Option<(Target, Blocks.Step)>, t: Target)
    ensures BlockAt(Moved(c, m), t) ==
              Blocks.ApplyAll(KindOf(t), BlockAt(c, t), if m.Some? && m.value.0 == t then [m.value.1] else [])
  {
    if m.Some? {
      TouchedOnlyThere(c, m.value.0, m.value.1, t);
      ApplyOne(KindOf(t), BlockAt(c, t), m.value.1);
    }
  }

  lemma BlockFollows(s: Sys, step: Step, t: Target)
    ensures BlockAt(Advance(s, step).change, t) == Blocks.ApplyAll(KindOf(t), BlockAt(s.change, t), StepOn(s, step, t))
  {
    if step.act.Restart? {
      ApplyOne(KindOf(t), BlockAt(s.change, t), Blocks.Interrupt);
    } else if OnlyAppends(step.act) {
      MovedFollows(s.change, Move(s, step), t);
    } else if !OnlyLooks(step.act) {
      NotesKeepBlocks(s, step, t);
      MovedFollows(Use(s, Note(s.change, step), step), Move(s, step), t);
    }
  }

  lemma {:induction false} TracedIsRun(kind: Blocks.Kind, steps: seq<Blocks.Step>)
    ensures Blocks.Run(kind, steps).block == Blocks.ApplyAll(kind, Blocks.FRESH, steps)
  {
    if steps != [] {
      TracedIsRun(kind, steps[..|steps| - 1]);
    }
  }

  lemma {:induction false} ApplyAllAppend(kind: Blocks.Kind, b: Blocks.Block, xs: seq<Blocks.Step>, ys: seq<Blocks.Step>)
    requires |ys| <= 1
    ensures Blocks.ApplyAll(kind, b, xs + ys) == Blocks.ApplyAll(kind, Blocks.ApplyAll(kind, b, xs), ys)
  {
    if ys == [] {
      assert xs + ys == xs;
    } else {
      assert (xs + ys)[..|xs + ys| - 1] == xs && ys[..0] == [];
    }
  }

  lemma {:induction false} BlockRun(s: Sys, steps: seq<Step>, t: Target)
    ensures BlockAt(Run(s, steps).change, t) == Blocks.ApplyAll(KindOf(t), BlockAt(s.change, t), StepsOn(s, steps, t))
  {
    if steps != [] {
      var front := steps[..|steps| - 1];
      BlockRun(s, front, t);
      BlockFollows(Run(s, front), steps[|steps| - 1], t);
      ApplyAllAppend(KindOf(t), BlockAt(s.change, t), StepsOn(s, front, t),
                     StepOn(Run(s, front), steps[|steps| - 1], t));
    }
  }

  /** The history of one block of a change in a run of the whole protocol. */
  function History(c: Change, steps: seq<Step>, t: Target): Blocks.Traced {
    Blocks.Run(KindOf(t), StepsOn(Begun(c), steps, t))
  }

  lemma {:induction false} HistoryIsOfTheBlock(c: Change, steps: seq<Step>, t: Target)
    requires Proposed(c)
    ensures History(c, steps, t).block == BlockAt(Run(Begun(c), steps).change, t)
  {
    BlockRun(Begun(c), steps, t);
    TracedIsRun(KindOf(t), StepsOn(Begun(c), steps, t));
  }

  /** No blind retry, for the write, the build, the test and every item of every change, whatever
      is interleaved. */
  lemma {:induction false} NoBlindRetryAnywhere(c: Change, steps: seq<Step>, t: Target)
    requires Proposed(c)
    ensures var h := History(c, steps, t);
            var b := BlockAt(Run(Begun(c), steps).change, t);
            && |b.attempts| <= 1 + Blocks.NotSentCloses(h.log) + Blocks.NotDoneFindings(b.reconciliations)
            && Blocks.Attempts(h.log) == |b.attempts|
            && Blocks.Alternates(h.log)
  {
    HistoryIsOfTheBlock(c, steps, t);
    Blocks.NoBlindRetry(KindOf(t), StepsOn(Begun(c), steps, t));
  }

  /** At most one attempt on the write, and at most one on each item, ever acts on the target. */
  lemma {:induction false} AtMostOneEffectAnywhere(c: Change, steps: seq<Step>, t: Target)
    requires Proposed(c)
    requires Blocks.Honest(KindOf(t), StepsOn(Begun(c), steps, t))
    ensures |History(c, steps, t).effects| <= 1
  {
    Blocks.AtMostOneEffect(KindOf(t), StepsOn(Begun(c), steps, t));
  }
}
