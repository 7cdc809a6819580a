/** The technical pipeline: check-in, build, activation, verification. Its prerequisites are
    checked outside the lock, so their use is sound only because each of them is permanent.

    One act of the program lies outside the pipeline: a test result may be recorded on any applied
    change, a technical one included, without looking at its build or activation. The order
    therefore holds exactly when that act is never taken out of turn. */
module Pipeline {
  import opened Wrappers
  import opened Changes
  import opened Protocol
  import opened Safety
  import opened Delivery
  import Blocks

  /** Checked in, built and, where required, activated. */
  predicate InOrder(c: Change, required: bool) {
    && c.execution.write.state == Blocks.Applied
    && c.execution.build.state == Blocks.Built
    && (required ==> c.cncActivated)
  }

  /** Whether a verification needs an activation: as it was when a verification was checked, and as it is when
      a test result is recorded. */
  function Required(step: Step): bool {
    match step.act
    case RecordVerification(required) => required
    case _ => step.world.cncRequired
  }

  lemma OrderStays(s: Sys, step: Step, required: bool)
    requires Inv(s) && s.change.proposal.sort == Technical && InOrder(s.change, required)
    ensures InOrder(Advance(s, step).change, required)
  {
    StepGrows(s, step);
    SettledStays(s, step, OfWrite);
    SettledStays(s, step, OfBuild);
  }

  /** A verification attempt is either a verification, which is in order, or a test result. */
  lemma WhoVerifies(s: Sys, step: Step)
    requires Inv(s) && s.change.proposal.sort == Technical && Appends(s, step, OfTest)
    ensures step.act.RecordTest? || (step.act.RecordVerification? && InOrder(s.change, Required(step)))
  {
    BlockStep(s, step, OfTest);
  }

  /** If the step verifies the package, the package is in order. */
  predicate VerifiesInOrder(s: Sys, step: Step) {
    Appends(s, step, OfTest) ==> InOrder(s.change, Required(step))
  }

  /** The guard of recording a test result: nothing about the build or the activation. */
  predicate AcceptsTestResult(s: Sys, step: Step) {
    step.act.RecordTest? && Resulting in s.intents && !step.world.paused && TestGate(s.change, step.world)
  }

  lemma RecordAppends(b: Blocks.Block, m: Blocks.Step)
    requires m.Record? && m.outcome == Blocks.AsCompleted && !Blocks.HasAttempt(b, m.id) && b.state == Blocks.Ready
    ensures |Blocks.ApplyAll(Blocks.Test, b, [m]).attempts| == |b.attempts| + 1
  {
    ApplyOne(Blocks.Test, b, m);
  }

  lemma ResultMoves(s: Sys, step: Step)
    requires step.act.RecordTest?
    ensures StepOn(s, step, OfTest) ==
              if AcceptsTestResult(s, step) then [Blocks.Record(s.nextId, Blocks.AsCompleted, step.world.now, None)] else []
  {
  }

  lemma TestResultAppendsExactly(s: Sys, step: Step)
    requires Inv(s) && step.act.RecordTest?
    ensures Appends(s, step, OfTest) <==> AcceptsTestResult(s, step)
  {
    BlockFollows(s, step, OfTest);
    ResultMoves(s, step);
    var m := Blocks.Record(s.nextId, Blocks.AsCompleted, step.world.now, None);
    if AcceptsTestResult(s, step) {
      NewIdIsFresh(s, OfTest);
      RecordAppends(s.change.execution.test, m);
    } else {
      ApplyOne(Blocks.Test, s.change.execution.test, m);
    }
  }

  lemma NewIdIsFresh(s: Sys, t: Target)
    requires FreshInv(s)
    ensures !Blocks.HasAttempt(BlockAt(s.change, t), s.nextId)
  {
  }

  /** The k-th step of a run records no test result out of turn: where it records one at all, the
      package is already checked in, built and, where required, activated. */
  predicate TestResultInTurn(c: Change, steps: seq<Step>, k: nat)
    requires k < |steps|
  {
    AcceptsTestResult(Run(Begun(c), steps[..k]), steps[k]) ==>
      InOrder(Run(Begun(c), steps[..k]).change, steps[k].world.cncRequired)
  }

  /** In a run of a technical change every verification attempt is in order if and only if no test
      result is recorded while the package is out of order -- which the recording does not look at. */
  lemma {:induction false} VerificationOrderExactly(c: Change, steps: seq<Step>)
    requires Proposed(c) && c.proposal.sort == Technical
    ensures (forall k :: 0 <= k < |steps| ==> VerifiesInOrder(Run(Begun(c), steps[..k]), steps[k]))
            <==>
            (forall k :: 0 <= k < |steps| ==> TestResultInTurn(c, steps, k))
  {
    forall k | 0 <= k < |steps|
      ensures VerifiesInOrder(Run(Begun(c), steps[..k]), steps[k]) <==> TestResultInTurn(c, steps, k)
    {
      Safe(c, steps[..k]);
      Growth(Begun(c), steps[..k]);
      InTurnExactly(Run(Begun(c), steps[..k]), steps[k]);
    }
  }

  lemma InTurnExactly(s: Sys, step: Step)
    requires Inv(s) && s.change.proposal.sort == Technical
    ensures VerifiesInOrder(s, step) <==> (AcceptsTestResult(s, step) ==> InOrder(s.change, step.world.cncRequired))
  {
    if step.act.RecordTest? {
      TestResultAppendsExactly(s, step);
    } else if Appends(s, step, OfTest) {
      WhoVerifies(s, step);
    }
  }

  /** Without test results recorded on it, a verified package is checked in and built, and activated where
      every verification was checked while that was required. */
  lemma {:induction false} VerifiedMeansInOrder(c: Change, steps: seq<Step>, required: bool)
    requires Proposed(c) && c.proposal.sort == Technical
    requires forall k :: 0 <= k < |steps| ==> !steps[k].act.RecordTest?
    requires required ==> forall k :: 0 <= k < |steps| && steps[k].act.RecordVerification? ==> steps[k].act.required
    requires AttemptsAt(Run(Begun(c), steps), OfTest) > 0
    ensures InOrder(Run(Begun(c), steps).change, required)
  {
    if steps != [] {
      var front, last := steps[..|steps| - 1], steps[|steps| - 1];
      var s := Run(Begun(c), front);
      Safe(c, front);
      Growth(Begun(c), front);
      if AttemptsAt(s, OfTest) > 0 {
        VerifiedMeansInOrder(c, front, required);
      } else {
        WhoVerifies(s, last);
      }
      OrderStays(s, last, required);
    }
  }

  ghost predicate FailedIn(s: Sys) {
    s.change.execution.build.state == Blocks.Failed && !s.change.cncActivated
  }

  lemma FailedStays(s: Sys, step: Step)
    requires Inv(s) && s.change.proposal.sort == Technical && FailedIn(s)
    ensures FailedIn(Advance(s, step))
    ensures Appends(s, step, OfTest) ==> step.act.RecordTest?
    ensures AttemptsAt(Advance(s, step), OfTest) >= AttemptsAt(s, OfTest)
  {
    SettledStays(s, step, OfBuild);
    ActivationUsed(s, step);
    BlockStep(s, step, OfTest);
    if Appends(s, step, OfTest) {
      WhoVerifies(s, step);
    }
  }

  /** A failed build is final: never built, never activated, and verified only by a test result. */
  lemma {:induction false} FailedBuildIsFinal(c: Change, done: seq<Step>, steps: seq<Step>)
    requires Proposed(c) && c.proposal.sort == Technical
    requires Run(Begun(c), done).change.execution.build.state == Blocks.Failed
    ensures FailedIn(Run(Run(Begun(c), done), steps))
    ensures (forall k :: 0 <= k < |steps| ==> !steps[k].act.RecordTest?) ==>
              AttemptsAt(Run(Run(Begun(c), done), steps), OfTest) == AttemptsAt(Run(Begun(c), done), OfTest)
  {
    var s := Run(Begun(c), done);
    if steps == [] {
      Safe(c, done);
      Growth(Begun(c), done);
    } else {
      var front := steps[..|steps| - 1];
      FailedBuildIsFinal(c, done, front);
      RunAppend(Begun(c), done, front);
      Safe(c, done + front);
      Growth(Begun(c), done + front);
      FailedStays(Run(s, front), steps[|steps| - 1]);
    }
  }

  // ---------------------------------------------------------------------------------------------
  // The order really can be broken
  // ---------------------------------------------------------------------------------------------

  const PACKAGE := Change(Proposal("CH1", Technical, "acme", [], 1, "src"), Decision(Pending, None, None, []),
                          Execution(Blocks.FRESH, Blocks.FRESH, Blocks.FRESH, map[]), map[], false)

  const MONDAY := World(100, false, "acme", Some({"manager"}), 3600, map["ann" := {"manager"}], true,
                        Some(Handoff("acme", 1, "CH1", Some(1), false)), true, true, true, true, true, true, true,
                        Some("src"), map[])

  const APPROVING := Step(Approve("ann", "acme", {"manager"}), MONDAY)

  /** Approved, checked in, and a test result checked -- which asks for no build. */
  const UNBUILT := [APPROVING, Step(CheckPackage, MONDAY), Step(CheckIn, MONDAY), Step(CheckResult, MONDAY)]

  lemma ApprovedPackage() returns (s: Sys)
    ensures s == Advance(Begun(PACKAGE), APPROVING)
    ensures s.change == PACKAGE.(decision := Decision(Approved, Some(Approval("ann", {"manager"}, 3700)),
                                                      Some(Binding(Some(1), Some("src"), map[])), []))
    ensures LiveApproval(s.change, MONDAY)
  {
    s := Advance(Begun(PACKAGE), APPROVING);
    assert RolesNow(MONDAY, "ann") == {"manager"};
    assert "manager" in {"manager"} * {"manager"} * {"manager"};
    assert {"manager"} * {"manager"} * {"manager"} == {"manager"};
    assert "manager" in {"manager"} * {"manager"};
  }

  lemma CheckInIsChecked(s: Sys, w: World)
    requires TechnicalGate(s.change, w, true) && w.recorder
    ensures Advance(s, Step(CheckPackage, w)) == s.(intents := s.intents + {CheckingIn})
  {
  }

  lemma CheckInIsRecorded(s: Sys, w: World)
    requires TechnicalGate(s.change, w, true) && !w.paused && s.change.execution.write == Blocks.FRESH
    requires CheckingIn in s.intents
    ensures var r := Advance(s, Step(CheckIn, w)).change;
            r == s.change.(execution := s.change.execution.(write := r.execution.write)) && r.execution.write.state == Blocks.Applied
  {
  }

  lemma CheckedInPackage() returns (s: Sys)
    ensures s == Advance(Advance(Advance(Begun(PACKAGE), APPROVING), Step(CheckPackage, MONDAY)), Step(CheckIn, MONDAY))
    ensures s.change.execution.test == Blocks.FRESH && s.change.execution.build == Blocks.FRESH
    ensures TestGate(s.change, MONDAY) && TechnicalGate(s.change, MONDAY, false) && !s.change.cncActivated
  {
    var approved := ApprovedPackage();
    assert Problems(approved.change, MONDAY, true, true) == [];
    CheckInIsChecked(approved, MONDAY);
    var checked := Advance(approved, Step(CheckPackage, MONDAY));
    CheckInIsRecorded(checked, MONDAY);
    s := Advance(checked, Step(CheckIn, MONDAY));
    assert Problems(s.change, MONDAY, false, false) == [] && Problems(s.change, MONDAY, false, true) == [];
  }

  lemma ResultIsChecked(s: Sys, w: World)
    requires TestGate(s.change, w) && w.recorder
    ensures Advance(s, Step(CheckResult, w)) == s.(intents := s.intents + {Resulting})
  {
  }

  /** Recording a checked test result asks for nothing beyond the gate of a test. */
  lemma ResultIsRecorded(s: Sys, w: World)
    requires TestGate(s.change, w) && !w.paused && s.change.execution.test == Blocks.FRESH && Resulting in s.intents
    ensures Appends(s, Step(RecordTest, w), OfTest)
  {
  }

  /** A package that is checked in but neither built nor activated can be recorded as tested. */
  lemma TestResultSkipsTheBuild()
    ensures var s := Run(Begun(PACKAGE), UNBUILT);
            Appends(s, Step(RecordTest, MONDAY), OfTest) && !VerifiesInOrder(s, Step(RecordTest, MONDAY))
  {
    var s := CheckedInPackage();
    ResultIsChecked(s, MONDAY);
    ResultIsRecorded(Advance(s, Step(CheckResult, MONDAY)), MONDAY);
    RunOfFour(Begun(PACKAGE), UNBUILT[0], UNBUILT[1], UNBUILT[2], UNBUILT[3]);
    assert UNBUILT == [UNBUILT[0], UNBUILT[1], UNBUILT[2], UNBUILT[3]];
  }
}
