/** Three things are stored under the lock without the check that was made before it: a person's recording
    and an activation without the gate, and a verification without asking again whether it needs an
    activation. Each is stated exactly over all runs, and each really happens. */
module Ungated {
  import opened Wrappers
  import opened Changes
  import opened Protocol
  import opened Safety
  import opened Delivery
  import opened Pipeline
  import Blocks

  // ---------------------------------------------------------------------------------------------
  // What callers saw
  // ---------------------------------------------------------------------------------------------

  /** Something that a step may be, after the steps before it. */
  type Event = (seq<Step>, Step) -> bool

  predicate Ever(event: Event, steps: seq<Step>) {
    steps != []
    && (Ever(event, steps[..|steps| - 1]) || event(steps[..|steps| - 1], steps[|steps| - 1]))
  }

  lemma FrontAt(steps: seq<Step>, k: nat)
    requires k + 1 < |steps|
    ensures var front := steps[..|steps| - 1]; front[..k] == steps[..k] && front[k] == steps[k]
  {
  }

  lemma {:induction false} EverExactly(event: Event, steps: seq<Step>)
    ensures Ever(event, steps) <==> exists k :: 0 <= k < |steps| && event(steps[..k], steps[k])
  {
    if steps != [] {
      var front, n := steps[..|steps| - 1], |steps| - 1;
      EverExactly(event, front);
      if k :| 0 <= k < |front| && event(front[..k], front[k]) {
        FrontAt(steps, k);
        assert event(steps[..k], steps[k]);
      } else if k :| 0 <= k < |steps| && event(steps[..k], steps[k]) {
        if k < n {
          FrontAt(steps, k);
        }
      }
    }
  }

  /** The step is a check that saw this. */
  ghost function Seeing(c: Change, i: Intent): Event {
    (front, step) => i in Seen(Run(Begun(c), front).change, step)
  }

  lemma IntentsStep(s: Sys, step: Step)
    ensures Advance(s, step).intents == s.intents + Seen(s.change, step)
  {
  }

  /** Whatever a caller may act on was seen by a check of the run. */
  lemma {:induction false} IntentsAreSeen(c: Change, steps: seq<Step>, i: Intent)
    ensures i in Run(Begun(c), steps).intents <==> Ever(Seeing(c, i), steps)
  {
    if steps != [] {
      IntentsAreSeen(c, steps[..|steps| - 1], i);
      IntentsStep(Run(Begun(c), steps[..|steps| - 1]), steps[|steps| - 1]);
    }
  }

  // ---------------------------------------------------------------------------------------------
  // A person's recording
  // ---------------------------------------------------------------------------------------------

  /** The k-th step checks a person's recording of the item, with the gate holding, and lets this be stored. */
  predicate CheckedAt(c: Change, steps: seq<Step>, k: nat, id: string, o: Observed) {
    k < |steps| && ChecksPerson(Run(Begun(c), steps[..k]).change, steps[k], id, o)
  }

  predicate ChecksPerson(c: Change, step: Step, id: string, o: Observed) {
    && step.act.CheckPerson? && step.act.item == id && MayRecordItem(c, step.world, id)
    && PersonObservation(ItemIn(c, id).value, step.act.live, step.act.statement) == Some(o)
  }

  lemma SeenByPerson(c: Change, step: Step, id: string, o: Observed)
    ensures Recording(id, o) in Seen(c, step) <==> ChecksPerson(c, step, id, o)
  {
  }

  lemma StoreStep(s: Sys, id: string, o: Observed, w: World)
    ensures Advance(s, Step(StorePerson(id, o), w)).change.delivery ==
              if Recording(id, o) in s.intents && id !in s.change.delivery then s.change.delivery[id := Changes.Delivery(o, Person)]
              else s.change.delivery
  {
  }

  /** After any run and in any world, storing a person's recording delivers the item if and only if some
      earlier step checked it, with the gate holding then, and nobody delivered it since. Whether the gate
      still holds does not matter. */
  lemma StoredExactly(c: Change, steps: seq<Step>, id: string, o: Observed, w: World)
    ensures var s := Run(Begun(c), steps);
            Advance(s, Step(StorePerson(id, o), w)).change.delivery != s.change.delivery
            <==> id !in s.change.delivery && exists k :: CheckedAt(c, steps, k, id, o)
  {
    IntentsAreSeen(c, steps, Recording(id, o));
    EverExactly(Seeing(c, Recording(id, o)), steps);
    forall k | 0 <= k < |steps|
      ensures Seeing(c, Recording(id, o))(steps[..k], steps[k]) <==> CheckedAt(c, steps, k, id, o)
    {
      SeenByPerson(Run(Begun(c), steps[..k]).change, steps[k], id, o);
    }
    StoreStep(Run(Begun(c), steps), id, o, w);
  }

  /** If the step delivers by a person, the gate holds as it does. */
  predicate StoredInGate(s: Sys, step: Step) {
    step.act.StorePerson? && Advance(s, step).change.delivery != s.change.delivery ==> FunctionalGate(s.change, step.world)
  }

  /** The k-th step stores what was checked of an undelivered item although the gate no longer holds. */
  ghost predicate StoredTooLate(c: Change, steps: seq<Step>, k: nat)
    requires k < |steps|
  {
    var s, act := Run(Begun(c), steps[..k]), steps[k].act;
    && act.StorePerson? && act.item !in s.change.delivery && !FunctionalGate(s.change, steps[k].world)
    && exists j :: CheckedAt(c, steps[..k], j, act.item, act.observed)
  }

  /** In a run every person's delivery is stored with the gate holding if and only if nothing checked is
      stored after it stopped holding. */
  lemma StoringIsGatedExactly(c: Change, steps: seq<Step>)
    ensures (forall k :: 0 <= k < |steps| ==> StoredInGate(Run(Begun(c), steps[..k]), steps[k]))
            <==> (forall k :: 0 <= k < |steps| ==> !StoredTooLate(c, steps, k))
  {
    forall k | 0 <= k < |steps| ensures StoredInGate(Run(Begun(c), steps[..k]), steps[k]) <==> !StoredTooLate(c, steps, k) {
      if steps[k].act.StorePerson? {
        StoredExactly(c, steps[..k], steps[k].act.item, steps[k].act.observed, steps[k].world);
      }
    }
  }

  // A run in which it happens.

  const ONE_ITEM := Change(Proposal("CH1", ChangeSet, "acme", [Item("I1", ProcessingOption("P4210", "ACME1", "1", "X"), Person)],
                                    1, "src"),
                           Decision(Pending, None, None, []),
                           Execution(Blocks.FRESH, Blocks.FRESH, Blocks.FRESH, map[]), map[], false)

  const SHOWN := Changes.Text(Some("X"))

  const CHECKING := Step(CheckPerson("I1", Some(SHOWN), Statement("", None, [], false)), MONDAY)
  const INVALIDATING := Step(Invalidate("redesigned"), MONDAY)
  const STORING := Step(StorePerson("I1", SHOWN), MONDAY)

  /** Approved, checked, and then invalidated. */
  const OVERTAKEN := [APPROVING] + [CHECKING] + [INVALIDATING]

  lemma ApprovedItem() returns (s: Sys)
    ensures s == Advance(Begun(ONE_ITEM), APPROVING) && FunctionalGate(s.change, MONDAY)
    ensures s.change.proposal == ONE_ITEM.proposal && s.change.execution == ONE_ITEM.execution && s.change.delivery == map[]
  {
    s := Advance(Begun(ONE_ITEM), APPROVING);
    assert RolesNow(MONDAY, "ann") == {"manager"};
    assert "manager" in {"manager"} * {"manager"} * {"manager"};
    assert {"manager"} * {"manager"} * {"manager"} == {"manager"};
    assert "manager" in {"manager"} * {"manager"};
    assert Problems(s.change, MONDAY, false, false) == [];
  }

  lemma PersonIsChecked(s: Sys, step: Step, id: string, o: Observed)
    requires ChecksPerson(s.change, step, id, o)
    ensures Advance(s, step) == s.(intents := s.intents + {Recording(id, o)})
  {
  }

  lemma InvalidationIsRecorded(s: Sys, why: string, w: World)
    requires s.change.decision.status != Rejected
    ensures var r := Advance(s, Step(Invalidate(why), w));
            && r.intents == s.intents && r.change.delivery == s.change.delivery && r.change.execution == s.change.execution
            && r.change.cncActivated == s.change.cncActivated && r.change.decision.invalidations != []
  {
  }

  lemma InvalidatedFailsTheGates(c: Change, w: World)
    requires c.decision.invalidations != []
    ensures !FunctionalGate(c, w) && !TechnicalGate(c, w, false)
  {
    if c.decision.binding.Some? {
      assert Problems(c, w, false, false)[0] == Invalidated(c.decision.invalidations[0]);
      assert Problems(c, w, false, true)[0] == Invalidated(c.decision.invalidations[0]);
    }
  }

  lemma ItemIsShown(c: Change)
    requires c.proposal == ONE_ITEM.proposal && c.execution == ONE_ITEM.execution && c.delivery == map[]
    requires FunctionalGate(c, MONDAY)
    ensures ChecksPerson(c, CHECKING, "I1", SHOWN)
  {
  }

  lemma OvertakenRecording() returns (s: Sys)
    ensures s == Run(Begun(ONE_ITEM), OVERTAKEN) && Recording("I1", SHOWN) in s.intents
    ensures s.change.delivery == map[] && s.change.decision.invalidations != []
  {
    var approved := ApprovedItem();
    ItemIsShown(approved.change);
    PersonIsChecked(approved, CHECKING, "I1", SHOWN);
    var checked := Advance(approved, CHECKING);
    InvalidationIsRecorded(checked, "redesigned", MONDAY);
    s := Advance(checked, INVALIDATING);
    RunOfOne(Begun(ONE_ITEM), APPROVING);
    RunLast(Begun(ONE_ITEM), [APPROVING], CHECKING);
    RunLast(Begun(ONE_ITEM), [APPROVING] + [CHECKING], INVALIDATING);
  }

  lemma StoreKeepsDecision(s: Sys, id: string, o: Observed, w: World)
    ensures Advance(s, Step(StorePerson(id, o), w)).change.decision == s.change.decision
  {
  }

  /** Approved, checked, invalidated, stored: the item is delivered although the gate no longer holds. */
  lemma StoredAfterInvalidation()
    ensures StoredTooLate(ONE_ITEM, OVERTAKEN + [STORING], 3)
    ensures var r := Run(Begun(ONE_ITEM), OVERTAKEN + [STORING]).change;
            "I1" in r.delivery && r.decision.invalidations != []
  {
    var s := OvertakenRecording();
    InvalidatedFailsTheGates(s.change, MONDAY);
    StoreStep(s, "I1", SHOWN, MONDAY);
    StoreKeepsDecision(s, "I1", SHOWN, MONDAY);
    StoredExactly(ONE_ITEM, OVERTAKEN, "I1", SHOWN, MONDAY);
    RunLast(Begun(ONE_ITEM), OVERTAKEN, STORING);
    assert (OVERTAKEN + [STORING])[..3] == OVERTAKEN && (OVERTAKEN + [STORING])[3] == STORING;
    assert "I1" in Advance(s, STORING).change.delivery;
  }

  // ---------------------------------------------------------------------------------------------
  // An activation
  // ---------------------------------------------------------------------------------------------

  /** The k-th step checks an activation, with the gate and the activation role holding. */
  predicate ActivationCheckedAt(c: Change, steps: seq<Step>, k: nat) {
    && k < |steps| && steps[k].act.CheckActivation? && steps[k].world.cnc
    && TechnicalGate(Run(Begun(c), steps[..k]).change, steps[k].world, false)
  }

  lemma SeenForActivation(c: Change, step: Step)
    ensures Activating in Seen(c, step) <==> step.act.CheckActivation? && TechnicalGate(c, step.world, false) && step.world.cnc
  {
  }

  lemma ActivationStep(s: Sys, w: World)
    ensures Advance(s, Step(RecordActivation, w)).change.cncActivated <==>
              s.change.cncActivated || (Activating in s.intents && s.change.execution.build.state == Blocks.Built)
  {
  }

  /** After any run and in any world, recording an activation activates the package if and only if some
      earlier step checked one, with the gate and the role holding then, the package is built and none is
      recorded yet. */
  lemma ActivatedExactly(c: Change, steps: seq<Step>, w: World)
    ensures var s := Run(Begun(c), steps);
            Advance(s, Step(RecordActivation, w)).change.cncActivated && !s.change.cncActivated
            <==> !s.change.cncActivated && s.change.execution.build.state == Blocks.Built
                 && exists k :: ActivationCheckedAt(c, steps, k)
  {
    IntentsAreSeen(c, steps, Activating);
    EverExactly(Seeing(c, Activating), steps);
    forall k | 0 <= k < |steps| ensures Seeing(c, Activating)(steps[..k], steps[k]) <==> ActivationCheckedAt(c, steps, k) {
      SeenForActivation(Run(Begun(c), steps[..k]).change, steps[k]);
    }
    ActivationStep(Run(Begun(c), steps), w);
  }

  /** If the step activates the package, the gate holds as it does. */
  predicate ActivatedInGate(s: Sys, step: Step) {
    step.act.RecordActivation? && Advance(s, step).change.cncActivated && !s.change.cncActivated ==>
      TechnicalGate(s.change, step.world, false)
  }

  /** The k-th step records a checked activation of a built package although the gate no longer holds. */
  ghost predicate ActivatedTooLate(c: Change, steps: seq<Step>, k: nat)
    requires k < |steps|
  {
    var s := Run(Begun(c), steps[..k]);
    && steps[k].act.RecordActivation? && !s.change.cncActivated && s.change.execution.build.state == Blocks.Built
    && !TechnicalGate(s.change, steps[k].world, false) && exists j :: ActivationCheckedAt(c, steps[..k], j)
  }

  /** In a run every activation is recorded with the gate holding if and only if none that was checked is
      recorded after it stopped holding. */
  lemma ActivationIsGatedExactly(c: Change, steps: seq<Step>)
    ensures (forall k :: 0 <= k < |steps| ==> ActivatedInGate(Run(Begun(c), steps[..k]), steps[k]))
            <==> (forall k :: 0 <= k < |steps| ==> !ActivatedTooLate(c, steps, k))
  {
    forall k | 0 <= k < |steps|
      ensures ActivatedInGate(Run(Begun(c), steps[..k]), steps[k]) <==> !ActivatedTooLate(c, steps, k)
    {
      if steps[k].act.RecordActivation? {
        ActivatedExactly(c, steps[..k], steps[k].world);
      }
    }
  }

  // A run in which it happens.

  /** Approved, checked in and built. */
  const BUILT := [APPROVING] + [Step(CheckPackage, MONDAY)] + [Step(CheckIn, MONDAY)]
                 + [Step(CheckBuild, MONDAY)] + [Step(RecordBuild(true), MONDAY)]

  lemma BuildIsChecked(s: Sys, w: World)
    requires TechnicalGate(s.change, w, false) && s.change.execution.write.state == Blocks.Applied && w.recorder
    ensures Advance(s, Step(CheckBuild, w)) == s.(intents := s.intents + {Building})
  {
  }

  lemma BuildIsRecorded(s: Sys, w: World)
    requires TechnicalGate(s.change, w, false) && !w.paused && Building in s.intents
    requires s.change.execution.build == Blocks.FRESH
    ensures var r := Advance(s, Step(RecordBuild(true), w)).change;
            r == s.change.(execution := s.change.execution.(build := r.execution.build)) && r.execution.build.state == Blocks.Built
  {
  }

  lemma CheckedInRun()
    ensures Run(Begun(PACKAGE), [APPROVING] + [Step(CheckPackage, MONDAY)] + [Step(CheckIn, MONDAY)])
            == Advance(Advance(Advance(Begun(PACKAGE), APPROVING), Step(CheckPackage, MONDAY)), Step(CheckIn, MONDAY))
  {
    RunOfOne(Begun(PACKAGE), APPROVING);
    RunLast(Begun(PACKAGE), [APPROVING], Step(CheckPackage, MONDAY));
    RunLast(Begun(PACKAGE), [APPROVING] + [Step(CheckPackage, MONDAY)], Step(CheckIn, MONDAY));
  }

  /** The gate of a milestone reads nothing of the delivery. */
  lemma GateOfTheRecord(c: Change, d: Change, w: World)
    requires c.proposal == d.proposal && c.decision == d.decision
    ensures TechnicalGate(c, w, false) == TechnicalGate(d, w, false)
  {
  }

  lemma BuiltPackage() returns (s: Sys)
    ensures s == Run(Begun(PACKAGE), BUILT) && TechnicalGate(s.change, MONDAY, false)
    ensures s.change.execution.build.state == Blocks.Built && s.change.execution.test == Blocks.FRESH && !s.change.cncActivated
    ensures s.change.decision.status == Approved
  {
    var checkedIn := CheckedInPackage();
    assert Problems(checkedIn.change, MONDAY, false, true) == [];
    CheckedInRun();
    var front := [APPROVING] + [Step(CheckPackage, MONDAY)] + [Step(CheckIn, MONDAY)];
    BuildIsChecked(checkedIn, MONDAY);
    var checked := Advance(checkedIn, Step(CheckBuild, MONDAY));
    BuildIsRecorded(checked, MONDAY);
    s := Advance(checked, Step(RecordBuild(true), MONDAY));
    GateOfTheRecord(checkedIn.change, s.change, MONDAY);
    RunLast(Begun(PACKAGE), front, Step(CheckBuild, MONDAY));
    RunLast(Begun(PACKAGE), front + [Step(CheckBuild, MONDAY)], Step(RecordBuild(true), MONDAY));
  }

  /** Built, an activation checked, and then invalidated. */
  const OVERTAKEN_BUILD := BUILT + [Step(CheckActivation, MONDAY)] + [INVALIDATING]

  lemma ActivationIsChecked(s: Sys, w: World)
    requires TechnicalGate(s.change, w, false) && w.cnc
    ensures Advance(s, Step(CheckActivation, w)) == s.(intents := s.intents + {Activating})
  {
  }

  lemma OvertakenActivation() returns (s: Sys)
    ensures s == Run(Begun(PACKAGE), OVERTAKEN_BUILD) && Activating in s.intents
    ensures s.change.execution.build.state == Blocks.Built && !s.change.cncActivated && s.change.decision.invalidations != []
  {
    var built := BuiltPackage();
    ActivationIsChecked(built, MONDAY);
    var checked := Advance(built, Step(CheckActivation, MONDAY));
    InvalidationIsRecorded(checked, "redesigned", MONDAY);
    s := Advance(checked, INVALIDATING);
    RunLast(Begun(PACKAGE), BUILT, Step(CheckActivation, MONDAY));
    RunLast(Begun(PACKAGE), BUILT + [Step(CheckActivation, MONDAY)], INVALIDATING);
  }

  /** Built, checked, invalidated, recorded: the package is activated although the gate no longer holds. */
  lemma ActivatedAfterInvalidation()
    ensures ActivatedTooLate(PACKAGE, OVERTAKEN_BUILD + [Step(RecordActivation, MONDAY)], 7)
    ensures Run(Begun(PACKAGE), OVERTAKEN_BUILD + [Step(RecordActivation, MONDAY)]).change.cncActivated
  {
    var s := OvertakenActivation();
    InvalidatedFailsTheGates(s.change, MONDAY);
    ActivationStep(s, MONDAY);
    ActivatedExactly(PACKAGE, OVERTAKEN_BUILD, MONDAY);
    var recording := Step(RecordActivation, MONDAY);
    RunLast(Begun(PACKAGE), OVERTAKEN_BUILD, recording);
    assert (OVERTAKEN_BUILD + [recording])[..7] == OVERTAKEN_BUILD && (OVERTAKEN_BUILD + [recording])[7] == recording;
  }

  // ---------------------------------------------------------------------------------------------
  // A verification
  // ---------------------------------------------------------------------------------------------

  /** The world before activations were required. */
  const SUNDAY := MONDAY.(cncRequired := false)

  lemma VerificationIsChecked(s: Sys, w: World)
    requires TechnicalGate(s.change, w, false) && VerificationReady(s.change, w) && w.recorder
    ensures Advance(s, Step(CheckVerification, w)) == s.(intents := s.intents + {Verifying(w.cncRequired)})
  {
  }

  lemma VerificationIsRecorded(s: Sys, w: World, required: bool)
    requires TechnicalGate(s.change, w, false) && !w.paused && Verifying(required) in s.intents
    requires s.change.execution.test == Blocks.FRESH
    ensures Appends(s, Step(RecordVerification(required), w), OfTest)
  {
  }

  lemma GateOnSunday(c: Change)
    ensures TechnicalGate(c, SUNDAY, false) == TechnicalGate(c, MONDAY, false)
  {
  }

  /** Checked while no activation was required, the verification is recorded while one is, and is missing. */
  lemma VerifiedWithoutActivation()
    ensures var s := Run(Begun(PACKAGE), BUILT + [Step(CheckVerification, SUNDAY)]);
            MONDAY.cncRequired && !s.change.cncActivated && Appends(s, Step(RecordVerification(false), MONDAY), OfTest)
  {
    var built := BuiltPackage();
    GateOnSunday(built.change);
    VerificationIsChecked(built, SUNDAY);
    RunLast(Begun(PACKAGE), BUILT, Step(CheckVerification, SUNDAY));
    VerificationIsRecorded(Advance(built, Step(CheckVerification, SUNDAY)), MONDAY, false);
  }
}
