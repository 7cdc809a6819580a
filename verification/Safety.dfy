/** What holds in every state the protocol can reach. */
module Safety {
  import opened Wrappers
  import opened Changes
  import opened Protocol
  import Blocks

  // ---------------------------------------------------------------------------------------------
  // The invariant
  // ---------------------------------------------------------------------------------------------

  /** Whatever is delivered, or is about to be recorded by a person, shows the approved values. */
  ghost predicate DeliveredInv(s: Sys) {
    && (forall id :: id in s.change.delivery ==> Shows(s.change.proposal.items, id, s.change.delivery[id].observed))
    && (forall id, o :: Recording(id, o) in s.intents ==> Shows(s.change.proposal.items, id, o))
  }

  /** The observed state shows exactly the approved values of the item with this id. */
  predicate Shows(items: seq<Item>, id: string, o: Observed) {
    ItemOf(items, id).Some? && MatchesApproved(ItemOf(items, id).value, o)
  }

  /** A change set whose write was ever recorded has every item delivered. */
  ghost predicate CompletionInv(s: Sys) {
    && (Completing in s.intents ==> s.change.proposal.sort == ChangeSet && AllDelivered(s.change))
    && (Optioning in s.intents ==> s.change.proposal.sort == SingleOption)
    && (CheckingIn in s.intents ==> s.change.proposal.sort == Technical)
    && (s.change.proposal.sort == ChangeSet && s.change.execution.write.attempts != [] ==> AllDelivered(s.change))
    && (s.change.execution.write.state != Blocks.Ready ==> s.change.execution.write.attempts != [])
  }

  /** The technical pipeline, up to its verification. */
  ghost predicate PipelineInv(s: Sys) {
    var c, e := s.change, s.change.execution;
    && (c.proposal.sort != Technical ==>
          && CheckingIn !in s.intents && Building !in s.intents && Activating !in s.intents
          && Verifying(true) !in s.intents && Verifying(false) !in s.intents)
    && (c.proposal.sort == Technical ==>
          && Completing !in s.intents && Optioning !in s.intents && Testing !in s.intents
          && Milestones(e, Building in s.intents)
          && (c.cncActivated ==> e.build.state == Blocks.Built)
          && (Verifying(true) in s.intents ==> e.build.state == Blocks.Built && c.cncActivated)
          && (Verifying(false) in s.intents ==> e.build.state == Blocks.Built))
  }

  /** Check-in, build and test only ever hold a recorded outcome, each after the one before it. */
  ghost predicate Milestones(e: Execution, building: bool) {
    && (e.write.state == Blocks.Ready || e.write.state == Blocks.Applied)
    && (e.build.state == Blocks.Ready || e.build.state == Blocks.Built || e.build.state == Blocks.Failed)
    && (e.test.state == Blocks.Ready || e.test.state == Blocks.Completed)
    && (building ==> e.write.state == Blocks.Applied)
    && (e.build.state != Blocks.Ready ==> e.write.state == Blocks.Applied)
  }

  ghost predicate FreshInv(s: Sys) {
    forall t: Target, i :: 0 <= i < |BlockAt(s.change, t).attempts| ==> BlockAt(s.change, t).attempts[i].id < s.nextId
  }

  ghost predicate Inv(s: Sys) {
    DeliveredInv(s) && CompletionInv(s) && PipelineInv(s) && FreshInv(s)
  }

  lemma BegunIsSafe(c: Change)
    requires Proposed(c)
    ensures Inv(Begun(c))
  {
  }

  /** What only ever grows: deliveries, invalidations, a recorded activation, attempts, intents. */
  ghost predicate Grows(s: Sys, r: Sys) {
    && s.change.proposal == r.change.proposal
    && (forall id :: id in s.change.delivery ==> id in r.change.delivery)
    && s.change.decision.invalidations <= r.change.decision.invalidations
    && (s.change.cncActivated ==> r.change.cncActivated)
    && s.intents <= r.intents
    && s.nextId <= r.nextId
    && (s.change.decision.status == Rejected ==> r.change.decision.status == Rejected)
  }

  /** What the parts of a step may write. */
  ghost predicate Extends(c: Change, d: Change) {
    && c.proposal == d.proposal
    && (forall id :: id in c.delivery ==> id in d.delivery)
    && c.decision.invalidations <= d.decision.invalidations
    && (c.cncActivated ==> d.cncActivated)
    && (c.decision.status == Rejected ==> d.decision.status == Rejected)
  }

  lemma NoteExtends(c: Change, step: Step)
    ensures Extends(c, Note(c, step))
  {
  }

  lemma UseExtends(s: Sys, c: Change, step: Step)
    ensures Extends(c, Use(s, c, step))
  {
  }

  lemma TouchExtends(c: Change, t: Target, m: Blocks.Step)
    ensures Extends(c, Touched(c, t, m)) && Touched(c, t, m).delivery == c.delivery
  {
  }

  lemma StepGrows(s: Sys, step: Step)
    ensures Grows(s, Advance(s, step))
  {
    NoteExtends(s.change, step);
    UseExtends(s, Note(s.change, step), step);
    var m := Move(s, step);
    if m.Some? {
      TouchExtends(Use(s, Note(s.change, step), step), m.value.0, m.value.1);
    }
  }

  /** `d` is `c` with at most one more delivery, which shows the approved values. */
  ghost predicate DeliversOnly(c: Change, d: Change) {
    d.delivery == c.delivery
    || exists id, o, e :: Shows(c.proposal.items, id, o) && d.delivery == c.delivery[id := Delivery(o, e)]
  }

  lemma NoteDelivers(c: Change, step: Step)
    ensures DeliversOnly(c, Note(c, step))
  {
    var d := Note(c, step);
    if d.delivery != c.delivery {
      assert step.act.FinishItem? || step.act.ReconcileItem?;
      var id := step.act.item;
      assert Shows(c.proposal.items, id, d.delivery[id].observed);
      assert d.delivery == c.delivery[id := Delivery(d.delivery[id].observed, Agent)];
    }
  }

  lemma UseDelivers(s: Sys, c: Change, step: Step)
    requires DeliveredInv(s) && c.proposal == s.change.proposal
    ensures DeliversOnly(c, Use(s, c, step))
  {
  }

  lemma SeenShows(c: Change, step: Step)
    ensures forall id, o :: Recording(id, o) in Seen(c, step) ==> Shows(c.proposal.items, id, o)
    ensures Completing in Seen(c, step) ==> c.proposal.sort == ChangeSet && AllDelivered(c)
    ensures Optioning in Seen(c, step) ==> c.proposal.sort == SingleOption
    ensures CheckingIn in Seen(c, step) ==> c.proposal.sort == Technical
  {
  }

  lemma MovedDelivers(c: Change, m: Option<(Target, Blocks.Step)>)
    ensures Moved(c, m).delivery == c.delivery && Moved(c, m).proposal == c.proposal && Moved(c, m).cncActivated == c.cncActivated
  {
    if m.Some? {
      TouchExtends(c, m.value.0, m.value.1);
    }
  }

  lemma DeliveredNote(s: Sys, step: Step)
    requires DeliveredInv(s) && !OnlyLooks(step.act) && !OnlyAppends(step.act)
    ensures DeliveredInv(Advance(s, step))
  {
    var noted := Note(s.change, step);
    NoteExtends(s.change, step);
    NoteDelivers(s.change, step);
    UseExtends(s, noted, step);
    UseDelivers(s, noted, step);
    MovedDelivers(Use(s, noted, step), Move(s, step));
    DeliveredParts(s, noted, Use(s, noted, step), Advance(s, step), {});
  }

  lemma DeliveredStep(s: Sys, step: Step)
    requires DeliveredInv(s)
    ensures DeliveredInv(Advance(s, step))
  {
    if OnlyLooks(step.act) {
      SeenShows(s.change, step);
      DeliveredParts(s, s.change, s.change, Advance(s, step), Seen(s.change, step));
    } else if OnlyAppends(step.act) {
      MovedDelivers(s.change, Move(s, step));
      DeliveredParts(s, s.change, s.change, Advance(s, step), {});
    } else {
      DeliveredNote(s, step);
    }
  }

  lemma DeliveredParts(s: Sys, c1: Change, c2: Change, r: Sys, seen: set<Intent>)
    requires DeliveredInv(s)
    requires DeliversOnly(s.change, c1) && c1.proposal == s.change.proposal
    requires DeliversOnly(c1, c2) && c2.proposal == s.change.proposal
    requires r.change.delivery == c2.delivery && r.change.proposal == s.change.proposal
    requires r.intents == s.intents + seen
    requires forall id, o :: Recording(id, o) in seen ==> Shows(s.change.proposal.items, id, o)
    ensures DeliveredInv(r)
  {
  }

  /** Attempts are appended one at a time, to the block the act moves, while that block is ready. */
  lemma BlockStep(s: Sys, step: Step, t: Target)
    ensures var b, b' := BlockAt(s.change, t), BlockAt(Advance(s, step).change, t);
            && |b.attempts| <= |b'.attempts| <= |b.attempts| + 1
            && (forall i :: 0 <= i < |b.attempts| ==> b.attempts[i].id == b'.attempts[i].id)
            && (|b'.attempts| > |b.attempts| ==>
                  && Move(s, step).Some? && Move(s, step).value.0 == t
                  && (Move(s, step).value.1.Begin? || Move(s, step).value.1.Record?)
                  && Move(s, step).value.1.id == b'.attempts[|b.attempts|].id
                  && b.state == Blocks.Ready)
  {
    BlockFollows(s, step, t);
    var es := StepOn(s, step, t);
    ApplyOne(KindOf(t), BlockAt(s.change, t), if es == [] then Blocks.Interrupt else es[0]);
    if es != [] {
      assert es == [es[0]];
      Blocks.AttemptsAreKept(KindOf(t), BlockAt(s.change, t), es[0]);
    }
  }

  lemma FreshAt(s: Sys, step: Step, t: Target, i: nat)
    requires FreshInv(s) && i < |BlockAt(Advance(s, step).change, t).attempts|
    ensures BlockAt(Advance(s, step).change, t).attempts[i].id < Advance(s, step).nextId
  {
    BlockStep(s, step, t);
    if i < |BlockAt(s.change, t).attempts| {
      assert BlockAt(s.change, t).attempts[i].id < s.nextId;
    } else {
      MoveIsFresh(s, step);
    }
  }

  lemma MoveIsFresh(s: Sys, step: Step)
    requires Move(s, step).Some? && (Move(s, step).value.1.Begin? || Move(s, step).value.1.Record?)
    ensures Move(s, step).value.1.id == s.nextId && Advance(s, step).nextId == s.nextId + 1
  {
  }

  lemma FreshStep(s: Sys, step: Step)
    requires FreshInv(s)
    ensures FreshInv(Advance(s, step))
  {
    forall t: Target, i | 0 <= i < |BlockAt(Advance(s, step).change, t).attempts|
      ensures BlockAt(Advance(s, step).change, t).attempts[i].id < Advance(s, step).nextId
    {
      FreshAt(s, step, t, i);
    }
  }

  /** Only a caller that saw every item delivered appends to the write of a change set. */
  lemma WriteOfSetNeedsCompletion(s: Sys, step: Step)
    requires CompletionInv(s) && s.change.proposal.sort == ChangeSet
    requires Move(s, step).Some? && Move(s, step).value.0 == OfWrite
    ensures Move(s, step).value.1.Record? || Move(s, step).value.1.Begin? ==> Completing in s.intents
  {
  }

  lemma ReadyUntilAttempted(kind: Blocks.Kind, b: Blocks.Block, m: Blocks.Step)
    requires b.state != Blocks.Ready ==> b.attempts != []
    ensures Blocks.Apply(kind, b, m).state != Blocks.Ready ==> Blocks.Apply(kind, b, m).attempts != []
  {
  }

  lemma CompletionStep(s: Sys, step: Step)
    requires CompletionInv(s)
    ensures CompletionInv(Advance(s, step))
  {
    StepGrows(s, step);
    SeenShows(s.change, step);
    BlockStep(s, step, OfWrite);
    BlockFollows(s, step, OfWrite);
    var es := StepOn(s, step, OfWrite);
    ApplyOne(Blocks.Write, s.change.execution.write, if es == [] then Blocks.Interrupt else es[0]);
    if es != [] {
      assert es == [es[0]];
      ReadyUntilAttempted(Blocks.Write, s.change.execution.write, es[0]);
    }
    if s.change.proposal.sort == ChangeSet && Move(s, step).Some? && Move(s, step).value.0 == OfWrite {
      WriteOfSetNeedsCompletion(s, step);
    }
    CompletionParts(s, Advance(s, step), Seen(s.change, step));
  }

  lemma CompletionParts(s: Sys, r: Sys, seen: set<Intent>)
    requires CompletionInv(s) && Grows(s, r) && r.intents == s.intents + seen
    requires Completing in seen ==> s.change.proposal.sort == ChangeSet && AllDelivered(s.change)
    requires Optioning in seen ==> s.change.proposal.sort == SingleOption
    requires CheckingIn in seen ==> s.change.proposal.sort == Technical
    requires s.change.proposal.sort == ChangeSet && |r.change.execution.write.attempts| > |s.change.execution.write.attempts|
             ==> Completing in s.intents
    requires |r.change.execution.write.attempts| >= |s.change.execution.write.attempts|
    requires r.change.execution.write.state != Blocks.Ready ==> r.change.execution.write.attempts != []
    ensures CompletionInv(r)
  {
  }

  /** On a technical change a block only ever moves from ready to a recorded outcome, each after
      the milestone before it. The one act outside the pipeline that appends to a block is the
      recording of a test result. */
  predicate PipelineMove(s: Sys, t: Target, m: Blocks.Step) {
    match m
    case Record(_, outcome, _, _) =>
      (match t
       case OfWrite => outcome == Blocks.AsApplied
       case OfBuild => (outcome == Blocks.AsBuilt || outcome == Blocks.AsFailed) && Building in s.intents
       case OfTest => outcome == Blocks.AsCompleted
       case OfItem(_) => false)
    case Reconcile(_, _) => t == OfTest
    case TakeEffect(_) => true
    case _ => t.OfItem?
  }

  lemma TechnicalMoves(s: Sys, step: Step)
    requires s.change.proposal.sort == Technical && Completing !in s.intents && Optioning !in s.intents && Testing !in s.intents
    requires Move(s, step).Some?
    ensures PipelineMove(s, Move(s, step).value.0, Move(s, step).value.1)
  {
  }

  /** A block that is settled stays settled, in the same state, whatever move concerns it. */
  lemma SettledStays(s: Sys, step: Step, t: Target)
    requires s.change.proposal.sort == Technical && PipelineInv(s) && !t.OfItem?
    ensures var b, b' := BlockAt(s.change, t), BlockAt(Advance(s, step).change, t);
            && (b.state != Blocks.Ready ==> b' == b)
            && (b'.state != b.state ==>
                  Move(s, step).Some? && Move(s, step).value.0 == t && Move(s, step).value.1.Record?
                  && PipelineMove(s, t, Move(s, step).value.1)
                  && Some(b'.state) == Blocks.OutcomeState(KindOf(t), Move(s, step).value.1.outcome))
  {
    BlockFollows(s, step, t);
    var b, m := BlockAt(s.change, t), Move(s, step);
    ApplyOne(KindOf(t), b, Blocks.Interrupt);
    if !step.act.Restart? && m.Some? {
      ApplyOne(KindOf(t), b, m.value.1);
      TechnicalMoves(s, step);
    }
  }

  /** What the checks of the pipeline saw. */
  predicate SawInOrder(c: Change, seen: set<Intent>) {
    && (CheckingIn in seen || Building in seen || Activating in seen || Verifying(true) in seen || Verifying(false) in seen
        ==> c.proposal.sort == Technical)
    && (Completing in seen || Optioning in seen || Testing in seen ==> c.proposal.sort != Technical)
    && (Building in seen ==> c.execution.write.state == Blocks.Applied)
    && (Verifying(true) in seen ==> c.execution.build.state == Blocks.Built && c.cncActivated)
    && (Verifying(false) in seen ==> c.execution.build.state == Blocks.Built)
  }

  lemma PipelineSeen(c: Change, step: Step)
    ensures SawInOrder(c, Seen(c, step))
  {
  }

  lemma ActivationUsed(s: Sys, step: Step)
    ensures var r := Advance(s, step);
            r.change.cncActivated && !s.change.cncActivated ==>
              Activating in s.intents && s.change.execution.build.state == Blocks.Built
  {
  }

  lemma PipelineStep(s: Sys, step: Step)
    requires PipelineInv(s)
    ensures PipelineInv(Advance(s, step))
  {
    StepGrows(s, step);
    PipelineSeen(s.change, step);
    SeenShows(s.change, step);
    ActivationUsed(s, step);
    if s.change.proposal.sort == Technical {
      SettledStays(s, step, OfWrite);
      SettledStays(s, step, OfBuild);
      SettledStays(s, step, OfTest);
    }
    PipelineParts(s, Advance(s, step), Seen(s.change, step), Move(s, step));
  }

  lemma PipelineParts(s: Sys, r: Sys, seen: set<Intent>, m: Option<(Target, Blocks.Step)>)
    requires PipelineInv(s) && Grows(s, r) && r.intents == s.intents + seen
    requires SawInOrder(s.change, seen)
    requires r.change.cncActivated && !s.change.cncActivated ==>
               Activating in s.intents && s.change.execution.build.state == Blocks.Built
    requires s.change.proposal.sort == Technical ==>
               forall t: Target :: !t.OfItem? ==>
                 var b, b' := BlockAt(s.change, t), BlockAt(r.change, t);
                 && (b.state != Blocks.Ready ==> b' == b)
                 && (b'.state != b.state ==>
                       m.Some? && m.value.0 == t && m.value.1.Record? && PipelineMove(s, t, m.value.1)
                       && Some(b'.state) == Blocks.OutcomeState(KindOf(t), m.value.1.outcome))
    ensures PipelineInv(r)
  {
    if s.change.proposal.sort == Technical {
      assert BlockAt(r.change, OfWrite) == r.change.execution.write;
      assert BlockAt(r.change, OfBuild) == r.change.execution.build;
      assert BlockAt(r.change, OfTest) == r.change.execution.test;
    }
  }

  lemma {:induction false} Safe(c: Change, steps: seq<Step>)
    requires Proposed(c)
    ensures Inv(Run(Begun(c), steps))
  {
    if steps == [] {
      BegunIsSafe(c);
    } else {
      var s, last := Run(Begun(c), steps[..|steps| - 1]), steps[|steps| - 1];
      Safe(c, steps[..|steps| - 1]);
      DeliveredStep(s, last);
      CompletionStep(s, last);
      PipelineStep(s, last);
      FreshStep(s, last);
    }
  }
}
