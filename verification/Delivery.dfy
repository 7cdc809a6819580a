/** What the delivery protocol promises, for every change, every interleaving and every world. */
module Delivery {
  import opened Wrappers
  import opened Changes
  import opened Protocol
  import opened Safety
  import Blocks

  function AttemptsAt(s: Sys, t: Target): nat {
    |BlockAt(s.change, t).attempts|
  }

  /** The step appends an attempt to the block. */
  predicate Appends(s: Sys, step: Step, t: Target) {
    AttemptsAt(Advance(s, step), t) > AttemptsAt(s, t)
  }

  // ---------------------------------------------------------------------------------------------
  // Delivered means approved; recorded means complete
  // ---------------------------------------------------------------------------------------------

  /** Every delivered item was seen with exactly its approved values, whether by an agent's
      read-back, a person's live read, a person's statement or a reconciliation. */
  lemma DeliveredMeansApproved(c: Change, steps: seq<Step>, id: string)
    requires Proposed(c)
    requires id in Run(Begun(c), steps).change.delivery
    ensures Shows(c.proposal.items, id, Run(Begun(c), steps).change.delivery[id].observed)
  {
    Safe(c, steps);
    Growth(Begun(c), steps);
  }

  /** A change set whose write counts as applied has every item delivered. */
  lemma AppliedSetIsComplete(c: Change, steps: seq<Step>)
    requires Proposed(c) && c.proposal.sort == ChangeSet
    requires Run(Begun(c), steps).change.execution.write.state == Blocks.Applied
    ensures AllDelivered(Run(Begun(c), steps).change)
  {
    Safe(c, steps);
    Growth(Begun(c), steps);
  }

  lemma {:induction false} Growth(s: Sys, steps: seq<Step>)
    ensures Grows(s, Run(s, steps))
  {
    if steps != [] {
      Growth(s, steps[..|steps| - 1]);
      StepGrows(Run(s, steps[..|steps| - 1]), steps[|steps| - 1]);
    }
  }

  lemma DeliveredItemRests(s: Sys, step: Step, id: string)
    requires id in s.change.delivery
    ensures !Appends(s, step, OfItem(id))
  {
    BlockStep(s, step, OfItem(id));
  }

  /** A delivered item stays delivered and never gets another attempt. */
  lemma {:induction false} DeliveryIsFinal(s: Sys, steps: seq<Step>, id: string)
    requires id in s.change.delivery
    ensures id in Run(s, steps).change.delivery
    ensures AttemptsAt(Run(s, steps), OfItem(id)) == AttemptsAt(s, OfItem(id))
  {
    if steps != [] {
      var front := steps[..|steps| - 1];
      DeliveryIsFinal(s, front, id);
      DeliveredItemRests(Run(s, front), steps[|steps| - 1], id);
      BlockStep(Run(s, front), steps[|steps| - 1], OfItem(id));
      StepGrows(Run(s, front), steps[|steps| - 1]);
    }
  }

  // ---------------------------------------------------------------------------------------------
  // The gate at the instant of every attempt
  // ---------------------------------------------------------------------------------------------

  /** What must hold of the record and the world for any attempt. */
  predicate MayRun(c: Change, w: World) {
    && !w.paused && LiveApproval(c, w) && c.decision.invalidations == [] && DesignHolds(c, w)
  }

  /** What must hold beside that, block by block and, for a test, act by act: an orchestration within its
      boundary, the verification of an intact package, or a recorded result. */
  predicate MayRunOn(c: Change, w: World, t: Target, act: Act) {
    match t
    case OfWrite =>
      && w.withinScope && (c.proposal.sort == ChangeSet ==> !AnyDiverged(c) && AllDelivered(c))
      && (c.proposal.sort == Technical ==> w.packageIntact && w.target == Some(c.proposal.preparedFrom))
    case OfBuild => c.proposal.sort == Technical && w.packageIntact && w.withinScope && c.execution.write.state == Blocks.Applied
    case OfTest =>
      && c.execution.write.state == Blocks.Applied
      && (act.BeginTest? || act.RecordTest? || act.RecordVerification?)
      && (act.BeginTest? ==> c.proposal.sort != Technical && w.testWithinScope)
      && (act.RecordVerification? ==> c.proposal.sort == Technical && w.packageIntact && w.withinScope)
    case OfItem(id) =>
      && c.proposal.sort == ChangeSet && !AnyDiverged(c) && w.withinScope && w.recorder
      && IsAgentItem(c, id) && id !in c.delivery && c.execution.write.state == Blocks.Ready
  }

  lemma GateOfTheMove(s: Sys, step: Step)
    requires Move(s, step).Some? && (Move(s, step).value.1.Begin? || Move(s, step).value.1.Record?)
    ensures MayRun(s.change, step.world)
  {
  }

  lemma GateOfTheBlock(s: Sys, step: Step)
    requires CompletionInv(s) && PipelineInv(s)
    requires Move(s, step).Some? && (Move(s, step).value.1.Begin? || Move(s, step).value.1.Record?)
    ensures MayRunOn(s.change, step.world, Move(s, step).value.0, step.act)
  {
  }

  /** The transaction that appends an attempt runs in a state where the approval is live,
      unexpired, still authorised, for the same company, un-invalidated and bound to the story's
      current design, whatever changed since the caller's own checks. */
  lemma {:induction false} EveryAttemptPassesTheGate(s: Sys, step: Step, t: Target)
    requires Inv(s) && Appends(s, step, t)
    ensures MayRun(s.change, step.world)
    ensures MayRunOn(s.change, step.world, t, step.act)
  {
    BlockStep(s, step, t);
    GateOfTheMove(s, step);
    GateOfTheBlock(s, step);
  }

  /** While no instant allows an attempt, none is appended. */
  lemma {:induction false} NothingRunsUngated(c: Change, done: seq<Step>, steps: seq<Step>, t: Target)
    requires Proposed(c)
    requires forall k :: 0 <= k < |steps| ==>
               !MayRun(Run(Run(Begun(c), done), steps[..k]).change, steps[k].world)
    ensures AttemptsAt(Run(Run(Begun(c), done), steps), t) == AttemptsAt(Run(Begun(c), done), t)
  {
    if steps != [] {
      var s := Run(Begun(c), done);
      var front, last := steps[..|steps| - 1], steps[|steps| - 1];
      forall k | 0 <= k < |front| ensures !MayRun(Run(s, front[..k]).change, front[k].world) {
        assert front[..k] == steps[..k];
      }
      NothingRunsUngated(c, done, front, t);
      RunAppend(Begun(c), done, front);
      Safe(c, done + front);
      BlockStep(Run(s, front), last, t);
      if Appends(Run(s, front), last, t) {
        EveryAttemptPassesTheGate(Run(s, front), last, t);
      }
    }
  }

  /** After one invalidation, or once rejected, no attempt is ever appended again. */
  lemma {:induction false} InvalidatedNeverRuns(c: Change, done: seq<Step>, steps: seq<Step>, t: Target)
    requires Proposed(c)
    requires var d := Run(Begun(c), done).change.decision; d.invalidations != [] || d.status == Rejected
    ensures AttemptsAt(Run(Run(Begun(c), done), steps), t) == AttemptsAt(Run(Begun(c), done), t)
  {
    var s := Run(Begun(c), done);
    forall k | 0 <= k < |steps| ensures !MayRun(Run(s, steps[..k]).change, steps[k].world) {
      Growth(s, steps[..k]);
    }
    NothingRunsUngated(c, done, steps, t);
  }

  // ---------------------------------------------------------------------------------------------
  // Divergence stops a change set
  // ---------------------------------------------------------------------------------------------

  predicate ItemDiverged(c: Change, i: nat) {
    i < |c.proposal.items| && BlockAt(c, OfItem(c.proposal.items[i].id)).state == Blocks.Diverged
  }

  lemma DivergedStays(s: Sys, step: Step, i: nat)
    requires ItemDiverged(s.change, i)
    ensures ItemDiverged(Advance(s, step).change, i)
  {
    var t := OfItem(s.change.proposal.items[i].id);
    StepGrows(s, step);
    BlockFollows(s, step, t);
    Blocks.DivergedIsFinal(KindOf(t), BlockAt(s.change, t), StepOn(s, step, t));
  }

  /** Once an item has diverged it stays diverged, no agent attempt begins on any item, and the
      write is never newly recorded, in every continuation. */
  lemma {:induction false} DivergenceStopsTheSet(c: Change, done: seq<Step>, steps: seq<Step>, i: nat, t: Target)
    requires Proposed(c) && c.proposal.sort == ChangeSet && (t.OfItem? || t.OfWrite?)
    requires ItemDiverged(Run(Begun(c), done).change, i)
    ensures ItemDiverged(Run(Run(Begun(c), done), steps).change, i)
    ensures AttemptsAt(Run(Run(Begun(c), done), steps), t) == AttemptsAt(Run(Begun(c), done), t)
  {
    if steps != [] {
      var s := Run(Begun(c), done);
      var front, last := steps[..|steps| - 1], steps[|steps| - 1];
      DivergenceStopsTheSet(c, done, front, i, t);
      DivergedStays(Run(s, front), last, i);
      RunAppend(Begun(c), done, front);
      Safe(c, done + front);
      Growth(Begun(c), done + front);
      BlockStep(Run(s, front), last, t);
      assert AnyDiverged(Run(s, front).change);
      if Appends(Run(s, front), last, t) {
        EveryAttemptPassesTheGate(Run(s, front), last, t);
      }
    }
  }

  // ---------------------------------------------------------------------------------------------
  // Tests follow the write
  // ---------------------------------------------------------------------------------------------

  /** Step `k` appends a test attempt, in a state where the write is known to be applied. */
  predicate TestedAfterWrite(c: Change, steps: seq<Step>, k: nat)
    requires k < |steps|
  {
    var s := Run(Begun(c), steps[..k]);
    s.change.execution.write.state == Blocks.Applied && Appends(s, steps[k], OfTest)
  }

  lemma TestedBefore(c: Change, steps: seq<Step>, k: nat)
    requires k + 1 < |steps| && TestedAfterWrite(c, steps[..|steps| - 1], k)
    ensures TestedAfterWrite(c, steps, k)
  {
    assert steps[..|steps| - 1][..k] == steps[..k];
  }

  lemma FirstTest(c: Change, steps: seq<Step>)
    requires Proposed(c) && steps != []
    requires AttemptsAt(Run(Begun(c), steps[..|steps| - 1]), OfTest) == 0 < AttemptsAt(Run(Begun(c), steps), OfTest)
    ensures TestedAfterWrite(c, steps, |steps| - 1)
  {
    Safe(c, steps[..|steps| - 1]);
    EveryAttemptPassesTheGate(Run(Begun(c), steps[..|steps| - 1]), steps[|steps| - 1], OfTest);
  }

  /** A test was only ever attempted after a state in which the write was known to be applied. */
  lemma {:induction false} TestsFollowTheWrite(c: Change, steps: seq<Step>)
    requires Proposed(c) && AttemptsAt(Run(Begun(c), steps), OfTest) > 0
    ensures exists k :: 0 <= k < |steps| && TestedAfterWrite(c, steps, k)
  {
    if steps != [] {
      var front := steps[..|steps| - 1];
      if AttemptsAt(Run(Begun(c), front), OfTest) > 0 {
        TestsFollowTheWrite(c, front);
        var k :| 0 <= k < |front| && TestedAfterWrite(c, front, k);
        TestedBefore(c, steps, k);
      } else {
        FirstTest(c, steps);
      }
    }
  }

  // ---------------------------------------------------------------------------------------------
  // Who writes what
  // ---------------------------------------------------------------------------------------------

  /** A delivery is only ever written by the finish of an attempt, by a reconciliation, or by storing a
      person's recording. */
  lemma WhoDelivers(s: Sys, step: Step)
    ensures Advance(s, step).change.delivery != s.change.delivery ==>
              step.act.FinishItem? || step.act.ReconcileItem? || step.act.StorePerson?
    ensures Advance(s, step).change.cncActivated != s.change.cncActivated ==> step.act.RecordActivation?
  {
    if OnlyAppends(step.act) {
      MovedDelivers(s.change, Move(s, step));
    } else if !OnlyLooks(step.act) {
      MovedDelivers(Use(s, Note(s.change, step), step), Move(s, step));
    }
  }
}
