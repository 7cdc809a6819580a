/** A company's connection profile: numbered revisions, the credential, the checks, and enabling --
    which evaluates its blockers in one transaction and stores the result in another. */
module Profile {
  import opened Wrappers

  datatype Config = Config(settings: string, contacts: string)

  /** What a material hash is taken of: the settings without the contacts, and the credential's revision. */
  datatype Material = Material(settings: string, credential: nat)

  datatype Probe = Reachability | Authentication | Environment | ApprovedRead | Information(name: string)

  const HEALTH_CHECKS := [Reachability, Authentication, Environment, ApprovedRead]

  /** A profile as somebody read it: its revision and material. */
  datatype Seen = Seen(revision: nat, material: Material)

  /** A check as recorded: stamped with the profile as it was when the check was recorded. `tested` is the
      profile the check really ran against. */
  datatype Check = Check(ok: bool, stamp: Seen, tested: Seen)

  /** `basis` is what the blockers were evaluated on when the profile was last enabled. */
  datatype Row = Row(revision: nat, config: Config, material: Material, credential: nat, enabled: bool,
                     enabledMaterial: Option<Material>, disabled: bool, health: map<Probe, Check>,
                     basis: Option<Evaluation>)

  datatype Revision = Revision(number: nat, config: Config, material: Material, credential: nat)

  /** An evaluation that found no blocker: the revision and material it looked at, and how many times
      the connection had been disabled by then. */
  datatype Evaluation = Evaluation(revision: nat, material: Material, disables: nat)

  /** `started` are the profiles checks were started on; a check is recorded at any later time. */
  datatype Conn = Conn(row: Option<Row>, history: seq<Revision>, started: set<Seen>, asked: bool, found: set<Evaluation>,
                       disables: nat)

  const UNCONFIGURED := Conn(None, [], {}, false, {}, 0)

  // ---------------------------------------------------------------------------------------------
  // Operations
  // ---------------------------------------------------------------------------------------------

  /** The revision a saved record will carry; None where the save is refused. */
  function NextRevision(current: Option<nat>, expected: Option<int>): Option<nat> {
    match current
    case None => if expected == None || expected == Some(0) then Some(1) else None
    case Some(n) => if expected == Some(n) then Some(n + 1) else None
  }

  function CurrentRevision(s: Conn): Option<nat> {
    if s.row.None? then None else Some(s.row.value.revision)
  }

  function MaterialOf(config: Config, credential: nat): Material {
    Material(config.settings, credential)
  }

  predicate Passes(row: Row, probe: Probe) {
    probe in row.health && row.health[probe].ok && row.health[probe].stamp.material == row.material
  }

  /** No blocker: everything outside the checks is in order, every check passed for these settings, and
      the connection is not disabled. */
  predicate Ready(row: Row, otherwise: bool) {
    otherwise && (forall i :: 0 <= i < |HEALTH_CHECKS| ==> Passes(row, HEALTH_CHECKS[i])) && !row.disabled
  }

  predicate IsActive(row: Row) {
    row.enabled && !row.disabled && row.enabledMaterial == Some(row.material)
  }

  datatype Step =
    | Save(config: Config, expected: Option<int>)
    | SaveCredential(expected: Option<int>)
    | StartCheck
    | RecordCheck(probe: Probe, ok: bool, tested: Seen)
    | AskEnable(expected: Option<int>)
    | Evaluate(otherwise: bool)
    | StoreEnabled(found: Evaluation)
    | Disable
    | ClearDisabled

  function Saved(s: Conn, config: Config, revision: nat): Conn {
    var credential := if s.row.Some? then s.row.value.credential else 0;
    var material := MaterialOf(config, credential);
    var row :=
      match s.row
      case None => Row(revision, config, material, 0, false, None, false, map[], None)
      case Some(was) =>
        var changed := material != was.material;
        was.(revision := revision, config := config, material := material,
             enabled := was.enabled && !changed, enabledMaterial := if changed then None else was.enabledMaterial);
    s.(row := Some(row), history := s.history + [Revision(revision, config, material, credential)])
  }

  function CredentialSaved(s: Conn, revision: nat): Conn
    requires s.row.Some?
  {
    var was := s.row.value;
    var material := MaterialOf(was.config, was.credential + 1);
    s.(row := Some(was.(revision := revision, material := material, credential := was.credential + 1,
                        enabled := false, enabledMaterial := None)),
       history := s.history + [Revision(revision, was.config, material, was.credential + 1)])
  }

  function Next(s: Conn, step: Step): Conn {
    match step
    case Save(config, expected) =>
      var n := NextRevision(CurrentRevision(s), expected);
      if n.None? then s else Saved(s, config, n.value)
    case SaveCredential(expected) =>
      var n := NextRevision(CurrentRevision(s), expected);
      if s.row.None? || n.None? then s else CredentialSaved(s, n.value)
    case AskEnable(expected) =>
      if s.row.Some? && (expected.None? || expected == Some(s.row.value.revision)) then s.(asked := true) else s
    case Evaluate(otherwise) =>
      if s.asked && s.row.Some? && Ready(s.row.value, otherwise)
      then s.(found := s.found + {Found(s)}) else s
    case _ => if s.row.None? then s else OnRow(s, step)
  }

  function OnRow(s: Conn, step: Step): Conn
    requires s.row.Some?
  {
    var row := s.row.value;
    match step
    case StartCheck => s.(started := s.started + {Seen(row.revision, row.material)})
    case RecordCheck(probe, ok, tested) =>
      if tested in s.started
      then s.(row := Some(row.(health := row.health[probe := Check(ok, Seen(row.revision, row.material), tested)]))) else s
    case StoreEnabled(e) =>
      if e in s.found && row.revision == e.revision
      then s.(row := Some(row.(enabled := true, enabledMaterial := Some(row.material), basis := Some(e)))) else s
    case Disable =>
      s.(row := Some(row.(disabled := true, enabled := false, enabledMaterial := None, health := map[])),
         disables := s.disables + 1)
    case ClearDisabled => s.(row := Some(row.(disabled := false)))
    case _ => s
  }

  function Run(s: Conn, steps: seq<Step>): Conn {
    if steps == [] then s else Next(Run(s, steps[..|steps| - 1]), steps[|steps| - 1])
  }

  // ---------------------------------------------------------------------------------------------
  // The invariant
  // ---------------------------------------------------------------------------------------------

  /** Revisions are numbered without a gap, and the row is the last of them. */
  ghost predicate HistoryInv(s: Conn) {
    && (forall k :: 0 <= k < |s.history| ==> s.history[k].number == k + 1)
    && (s.row.None? <==> s.history == [])
    && (s.row.Some? ==> var row, last := s.row.value, s.history[|s.history| - 1];
                        Revision(row.revision, row.config, row.material, row.credential) == last)
  }

  /** Every evaluation is of a revision in the history, with that revision's material. */
  ghost predicate FoundInv(s: Conn) {
    forall e :: e in s.found ==>
      1 <= e.revision <= |s.history| && s.history[e.revision - 1].material == e.material && e.disables <= s.disables
  }

  /** What was seen is a revision of the history. */
  ghost predicate Of(history: seq<Revision>, seen: Seen) {
    1 <= seen.revision <= |history| && history[seen.revision - 1].material == seen.material
  }

  /** Checks are started on revisions of the history, and recorded against that revision or a later one. */
  ghost predicate ChecksInv(s: Conn) {
    && (forall seen :: seen in s.started ==> Of(s.history, seen))
    && (s.row.Some? ==> forall p :: p in s.row.value.health ==>
          var c := s.row.value.health[p];
          Of(s.history, c.tested) && Of(s.history, c.stamp) && c.tested.revision <= c.stamp.revision)
  }

  ghost predicate EnabledInv(s: Conn) {
    s.row.Some? && s.row.value.enabled ==>
      var row := s.row.value;
      row.enabledMaterial == Some(row.material) && row.basis.Some? && row.basis.value.material == row.material
      && row.basis.value in s.found
  }

  ghost predicate Inv(s: Conn) {
    HistoryInv(s) && FoundInv(s) && ChecksInv(s) && EnabledInv(s)
  }

  lemma HistoryStep(s: Conn, step: Step)
    requires HistoryInv(s)
    ensures HistoryInv(Next(s, step)) && s.history <= Next(s, step).history
    ensures s.found <= Next(s, step).found && s.disables <= Next(s, step).disables
  {
  }

  lemma FoundStep(s: Conn, step: Step)
    requires HistoryInv(s) && FoundInv(s)
    ensures FoundInv(Next(s, step))
  {
  }

  lemma ChecksStep(s: Conn, step: Step)
    requires HistoryInv(s) && ChecksInv(s)
    ensures ChecksInv(Next(s, step))
  {
  }

  lemma EnabledStep(s: Conn, step: Step)
    requires Inv(s)
    ensures EnabledInv(Next(s, step))
  {
  }

  lemma {:induction false} Reachable(steps: seq<Step>)
    ensures Inv(Run(UNCONFIGURED, steps))
  {
    if steps != [] {
      var s, last := Run(UNCONFIGURED, steps[..|steps| - 1]), steps[|steps| - 1];
      Reachable(steps[..|steps| - 1]);
      HistoryStep(s, last);
      FoundStep(s, last);
      ChecksStep(s, last);
      EnabledStep(s, last);
    }
  }

  // ---------------------------------------------------------------------------------------------
  // Theorems
  // ---------------------------------------------------------------------------------------------

  lemma {:induction false} HistoryGrows(s: Conn, steps: seq<Step>)
    requires HistoryInv(s)
    ensures HistoryInv(Run(s, steps)) && s.history <= Run(s, steps).history
  {
    if steps != [] {
      HistoryGrows(s, steps[..|steps| - 1]);
      HistoryStep(Run(s, steps[..|steps| - 1]), steps[|steps| - 1]);
    }
  }

  predicate SavesFrom(step: Step, expected: Option<int>) {
    match step
    case Save(_, e) => e == expected
    case SaveCredential(e) => e == expected
    case _ => false
  }

  /** A save made from a loaded profile is accepted if and only if nothing was saved since it was loaded. */
  lemma AcceptedExactly(done: seq<Step>, steps: seq<Step>, save: Step)
    requires var s := Run(UNCONFIGURED, done); SavesFrom(save, Some(|s.history|)) && (s.row.Some? || save.Save?)
    ensures var s := Run(UNCONFIGURED, done);
            var r := Run(s, steps);
            && (s.row.Some? ==> s.row.value.revision == |s.history|)
            && (Next(r, save) != r <==> r.history == s.history)
  {
    Reachable(done);
    HistoryGrows(Run(UNCONFIGURED, done), steps);
    SaveAppends(Run(Run(UNCONFIGURED, done), steps), save);
  }

  /** A save that is accepted appends one revision; it is accepted over exactly the one expected. */
  lemma SaveAppends(s: Conn, save: Step)
    requires HistoryInv(s) && (save.Save? || save.SaveCredential?)
    ensures save.Save? && save.expected.Some? ==>
              (Next(s, save) != s <==> save.expected.value == |s.history|)
    ensures save.SaveCredential? && save.expected.Some? ==>
              (Next(s, save) != s <==> s.row.Some? && save.expected.value == |s.history|)
  {
    if Next(s, save) != s {
      assert |Next(s, save).history| == |s.history| + 1;
    } else {
      assert Next(s, save).history == s.history;
    }
  }

  /** No lost update: once a save made from a revision is accepted, no other save made from that same
      revision ever is, in any continuation; and what was saved stays in the history. */
  lemma NoLostUpdate(done: seq<Step>, winner: Step, steps: seq<Step>, loser: Step, expected: nat)
    requires SavesFrom(winner, Some(expected)) && SavesFrom(loser, Some(expected))
    requires Next(Run(UNCONFIGURED, done), winner) != Run(UNCONFIGURED, done)
    ensures var won := Next(Run(UNCONFIGURED, done), winner);
            var r := Run(won, steps);
            && Next(r, loser) == r
            && |won.history| == expected + 1 && won.history[expected].number == expected + 1
            && won.history <= r.history
  {
    var s := Run(UNCONFIGURED, done);
    Reachable(done);
    HistoryStep(s, winner);
    AcceptedSaveAppends(s, winner, expected);
    HistoryGrows(Next(s, winner), steps);
  }

  lemma AcceptedSaveAppends(s: Conn, step: Step, expected: nat)
    requires HistoryInv(s) && SavesFrom(step, Some(expected)) && Next(s, step) != s
    ensures |s.history| == expected && |Next(s, step).history| == expected + 1
  {
  }

  /** While the connection is active, its material settings and credential revision are exactly those
      its blockers were last evaluated on, whatever was saved, checked, enabled or disabled in between. */
  lemma ActiveMeansEvaluated(steps: seq<Step>)
    requires var s := Run(UNCONFIGURED, steps); s.row.Some? && IsActive(s.row.value)
    ensures var row := Run(UNCONFIGURED, steps).row.value;
            && row.basis.Some?
            && row.basis.value.material == row.material == MaterialOf(row.config, row.credential)
  {
    Reachable(steps);
    MaterialIsOfTheRow(steps);
  }

  lemma MaterialStep(s: Conn, step: Step)
    requires s.row.Some? ==> s.row.value.material == MaterialOf(s.row.value.config, s.row.value.credential)
    ensures var r := Next(s, step);
            r.row.Some? ==> r.row.value.material == MaterialOf(r.row.value.config, r.row.value.credential)
  {
  }

  lemma {:induction false} MaterialIsOfTheRow(steps: seq<Step>)
    ensures var s := Run(UNCONFIGURED, steps);
            s.row.Some? ==> s.row.value.material == MaterialOf(s.row.value.config, s.row.value.credential)
  {
    if steps != [] {
      MaterialIsOfTheRow(steps[..|steps| - 1]);
      MaterialStep(Run(UNCONFIGURED, steps[..|steps| - 1]), steps[|steps| - 1]);
    }
  }

  /** The evaluation behind an enabled profile was made since the connection was last disabled. */
  predicate EvaluatedSince(s: Conn) {
    s.row.Some? && s.row.value.enabled ==> s.row.value.basis.Some? && s.row.value.basis.value.disables == s.disables
  }

  /** The step enables the profile on an evaluation made before the connection was last disabled. */
  predicate StoresStale(s: Conn, step: Step) {
    step.StoreEnabled? && step.found in s.found && CurrentRevision(s) == Some(step.found.revision)
    && step.found.disables != s.disables
  }

  /** A disabled connection needs a fresh evaluation -- except that enabling stores an evaluation by
      its revision only, and disabling makes no new one. */
  lemma StaleEvaluationIsStoredExactly(s: Conn, step: Step)
    requires EvaluatedSince(s)
    ensures !EvaluatedSince(Next(s, step)) <==> StoresStale(s, step)
  {
  }

  /** In a run every state has its enabling evaluated since the connection was last disabled if and only if no
      step stores an evaluation from before a disable. */
  lemma EnabledOnFreshExactly(steps: seq<Step>)
    ensures (forall k :: 0 <= k <= |steps| ==> EvaluatedSince(Run(UNCONFIGURED, steps[..k])))
            <==> (forall k :: 0 <= k < |steps| ==> !StoresStale(Run(UNCONFIGURED, steps[..k]), steps[k]))
  {
    var holds := (front: seq<Step>) => EvaluatedSince(Run(UNCONFIGURED, front));
    var ends := (front: seq<Step>, last: Step) => StoresStale(Run(UNCONFIGURED, front), last);
    forall front, last | holds(front) ensures !holds(front + [last]) <==> ends(front, last) {
      RunLast(UNCONFIGURED, front, last);
      StaleEvaluationIsStoredExactly(Run(UNCONFIGURED, front), last);
    }
    ThroughoutExactly(holds, ends, steps);
    assert forall k :: 0 <= k <= |steps| ==> holds(steps[..k]) == EvaluatedSince(Run(UNCONFIGURED, steps[..k]));
    assert forall k :: 0 <= k < |steps| ==> ends(steps[..k], steps[k]) == StoresStale(Run(UNCONFIGURED, steps[..k]), steps[k]);
  }

  /** Every health check of the profile is passed. */
  function AllPassed(seen: Seen): seq<Step> {
    [RecordCheck(Reachability, true, seen), RecordCheck(Authentication, true, seen),
     RecordCheck(Environment, true, seen), RecordCheck(ApprovedRead, true, seen)]
  }

  /** The profile is checked and evaluated; before the result is stored the connection is disabled, and the
      disable is cleared. */
  function Reviving(s: Conn): seq<Step>
    requires s.row.Some?
  {
    [ClearDisabled, StartCheck] + AllPassed(Seen(s.row.value.revision, s.row.value.material))
    + [AskEnable(None), Evaluate(true)] + [Disable, ClearDisabled] + [StoreEnabled(Found(s))]
  }

  predicate AsSeen(s: Conn, seen: Seen) {
    s.row.Some? && !s.row.value.disabled && Seen(s.row.value.revision, s.row.value.material) == seen && seen in s.started
  }

  lemma OnePassed(s: Conn, seen: Seen, probe: Probe)
    requires AsSeen(s, seen)
    ensures var r := Next(s, RecordCheck(probe, true, seen));
            && r == s.(row := r.row) && AsSeen(r, seen)
            && forall p :: Passes(r.row.value, p) <==> p == probe || Passes(s.row.value, p)
  {
  }

  lemma AllPassedMeansReady(s: Conn, seen: Seen)
    requires AsSeen(s, seen)
    ensures var r := Run(s, AllPassed(seen));
            r == s.(row := r.row) && AsSeen(r, seen) && Ready(r.row.value, true)
  {
    var first, second := RecordCheck(Reachability, true, seen), RecordCheck(Authentication, true, seen);
    var third, fourth := RecordCheck(Environment, true, seen), RecordCheck(ApprovedRead, true, seen);
    RunOfFour(s, first, second, third, fourth);
    var one := Next(s, first);
    OnePassed(s, seen, Reachability);
    var two := Next(one, second);
    OnePassed(one, seen, Authentication);
    var three := Next(two, third);
    OnePassed(two, seen, Environment);
    OnePassed(three, seen, ApprovedRead);
  }

  lemma EvaluatedAndDisabled(s: Conn)
    requires s.row.Some? && Ready(s.row.value, true)
    ensures var r := Run(Run(s, [AskEnable(None), Evaluate(true)]), [Disable, ClearDisabled]);
            && r.row.Some? && Found(s) in r.found && r.row.value.revision == s.row.value.revision
            && r.row.value.health == map[] && !r.row.value.disabled && r.disables == s.disables + 1
  {
    RunOfTwo(s, AskEnable(None), Evaluate(true));
    RunOfTwo(Run(s, [AskEnable(None), Evaluate(true)]), Disable, ClearDisabled);
  }

  lemma RevivingInParts(s: Conn, seen: Seen)
    requires s.row.Some? && seen == Seen(s.row.value.revision, s.row.value.material)
    ensures var ready := Run(Run(s, [ClearDisabled, StartCheck]), AllPassed(seen));
            Run(s, Reviving(s))
            == Next(Run(Run(ready, [AskEnable(None), Evaluate(true)]), [Disable, ClearDisabled]), StoreEnabled(Found(s)))
  {
    var upToReady := [ClearDisabled, StartCheck] + AllPassed(seen);
    RunAppend(s, [ClearDisabled, StartCheck], AllPassed(seen));
    RunAppend(s, upToReady, [AskEnable(None), Evaluate(true)]);
    RunAppend(s, upToReady + [AskEnable(None), Evaluate(true)], [Disable, ClearDisabled]);
    RunLast(s, upToReady + [AskEnable(None), Evaluate(true)] + [Disable, ClearDisabled], StoreEnabled(Found(s)));
  }

  /** Wherever a profile was saved, these steps leave the connection active, on an evaluation from before the
      disable and with every check cleared. */
  lemma StaleEvaluationRevives(s: Conn)
    requires s.row.Some?
    ensures var r := Run(s, Reviving(s));
            && r.row.Some? && IsActive(r.row.value) && r.row.value.health == map[] && !Ready(r.row.value, true)
            && !EvaluatedSince(r) && r.disables == s.disables + 1
  {
    var seen := Seen(s.row.value.revision, s.row.value.material);
    var begun := Run(s, [ClearDisabled, StartCheck]);
    RunOfTwo(s, ClearDisabled, StartCheck);
    AllPassedMeansReady(begun, seen);
    EvaluatedAndDisabled(Run(begun, AllPassed(seen)));
    RevivingInParts(s, seen);
    assert HEALTH_CHECKS[0] == Reachability;
    assert !Passes(Run(s, Reviving(s)).row.value, HEALTH_CHECKS[0]);
  }

  /** The shortest such run: a first profile is saved, checked and evaluated, and its connection disabled. */
  lemma SavedAndRevived(config: Config)
    ensures var saved := Run(UNCONFIGURED, [Save(config, None)]);
            && saved.row.Some?
            && var r := Run(UNCONFIGURED, [Save(config, None)] + Reviving(saved));
               r.row.Some? && IsActive(r.row.value) && r.disables == 1 && r.row.value.health == map[]
  {
    RunLast(UNCONFIGURED, [], Save(config, None));
    assert [] + [Save(config, None)] == [Save(config, None)];
    var saved := Run(UNCONFIGURED, [Save(config, None)]);
    StaleEvaluationRevives(saved);
    RunAppend(UNCONFIGURED, [Save(config, None)], Reviving(saved));
  }

  /** Every check is stamped with the material it ran against. */
  ghost predicate StampedAsTested(s: Conn) {
    s.row.Some? ==> forall p :: p in s.row.value.health ==> s.row.value.health[p].stamp.material == s.row.value.health[p].tested.material
  }

  /** The step records a check that was started on other material than the profile has by now. */
  predicate RecordsOther(s: Conn, step: Step) {
    step.RecordCheck? && s.row.Some? && step.tested in s.started && step.tested.material != s.row.value.material
  }

  /** A check is stamped when it is recorded, not when it is run. */
  lemma WrongStampExactly(s: Conn, step: Step)
    requires StampedAsTested(s)
    ensures !StampedAsTested(Next(s, step)) <==> RecordsOther(s, step)
  {
    if RecordsOther(s, step) {
      var r := Next(s, step).row.value;
      assert step.probe in r.health && r.health[step.probe].tested == step.tested;
    }
  }

  /** A property of runs that a step ends in exactly one way holds throughout a run if and only if no step
      of it is one of those. */
  lemma {:induction false} ThroughoutExactly(holds: seq<Step> -> bool, ends: (seq<Step>, Step) -> bool, steps: seq<Step>)
    requires holds([])
    requires forall front, last :: holds(front) ==> (!holds(front + [last]) <==> ends(front, last))
    ensures (forall k :: 0 <= k <= |steps| ==> holds(steps[..k])) <==> (forall k :: 0 <= k < |steps| ==> !ends(steps[..k], steps[k]))
  {
    if steps == [] {
      assert steps[..0] == [];
    } else {
      var n := |steps| - 1;
      var front := steps[..n];
      ThroughoutExactly(holds, ends, front);
      assert forall k :: 0 <= k <= n ==> front[..k] == steps[..k];
      assert forall k :: 0 <= k < n ==> front[k] == steps[k];
      assert front + [steps[n]] == steps == steps[..|steps|] && front[..n] == front;
    }
  }

  /** In a run every state has its checks stamped with what they ran against if and only if no check is ever
      recorded after the settings it was started on were changed. */
  lemma StampsAreRightExactly(steps: seq<Step>)
    ensures (forall k :: 0 <= k <= |steps| ==> StampedAsTested(Run(UNCONFIGURED, steps[..k])))
            <==> (forall k :: 0 <= k < |steps| ==> !RecordsOther(Run(UNCONFIGURED, steps[..k]), steps[k]))
  {
    var holds := (front: seq<Step>) => StampedAsTested(Run(UNCONFIGURED, front));
    var ends := (front: seq<Step>, last: Step) => RecordsOther(Run(UNCONFIGURED, front), last);
    forall front, last | holds(front) ensures !holds(front + [last]) <==> ends(front, last) {
      RunLast(UNCONFIGURED, front, last);
      WrongStampExactly(Run(UNCONFIGURED, front), last);
    }
    ThroughoutExactly(holds, ends, steps);
    assert forall k :: 0 <= k <= |steps| ==> holds(steps[..k]) == StampedAsTested(Run(UNCONFIGURED, steps[..k]));
    assert forall k :: 0 <= k < |steps| ==> ends(steps[..k], steps[k]) == RecordsOther(Run(UNCONFIGURED, steps[..k]), steps[k]);
  }

  lemma StampIsLater(s: Conn, p: Probe)
    requires ChecksInv(s) && s.row.Some? && p in s.row.value.health
    ensures var c := s.row.value.health[p];
            && Of(s.history, c.tested) && Of(s.history, c.stamp) && c.tested.revision <= c.stamp.revision
            && (c.stamp.material != c.tested.material ==> c.tested.revision < c.stamp.revision)
  {
  }

  /** In every reachable state a check was run against a revision of the history and stamped with that one or
      a later one: a wrong stamp means that the settings were saved in between. */
  lemma WrongStampMeansSaved(steps: seq<Step>, p: Probe)
    requires var s := Run(UNCONFIGURED, steps); s.row.Some? && p in s.row.value.health
    ensures var s := Run(UNCONFIGURED, steps);
            var c := s.row.value.health[p];
            && Of(s.history, c.tested) && Of(s.history, c.stamp) && c.tested.revision <= c.stamp.revision
            && (c.stamp.material != c.tested.material ==> c.tested.revision < c.stamp.revision)
  {
    Reachable(steps);
    StampIsLater(Run(UNCONFIGURED, steps), p);
  }

  /** And such a check counts: started, overtaken by a change of the settings, and recorded as passed, it
      passes for settings nobody tried. */
  lemma OvertakenCheckPasses(s: Conn, config: Config, probe: Probe)
    requires HistoryInv(s) && s.row.Some? && config.settings != s.row.value.material.settings
    ensures var seen := Seen(s.row.value.revision, s.row.value.material);
            var saved := Next(Next(s, StartCheck), Save(config, Some(s.row.value.revision)));
            var r := Next(saved, RecordCheck(probe, true, seen));
            && r.row.Some? && Passes(r.row.value, probe) && r.row.value.material.settings == config.settings
            && r.row.value.health[probe].tested.material.settings != config.settings
  {
  }

  // ---------------------------------------------------------------------------------------------
  // The stored profile
  // ---------------------------------------------------------------------------------------------

  class ProfileStore {
    var row: Option<Row>
    var history: seq<Revision>
    var started: set<Seen>
    var asked: bool
    var found: set<Evaluation>
    var disables: nat

    function View(): Conn
      reads this
    {
      Conn(row, history, started, asked, found, disables)
    }

    constructor ()
      ensures View() == UNCONFIGURED
    {
      row, history, started, asked, found, disables := None, [], {}, false, {}, 0;
    }

    static method RevisionAfter(current: Option<nat>, expected: Option<int>) returns (r: Option<nat>)
      ensures r == NextRevision(current, expected)
    {
      if current.None? {
        if expected.Some? && expected.value != 0 {
          return None;
        }
        return Some(1);
      }
      if expected.None? || expected.value != current.value {
        return None;
      }
      return Some(current.value + 1);
    }

    method SaveConfig(config: Config, expected: Option<int>) returns (ok: bool)
      modifies this
      ensures View() == Next(old(View()), Save(config, expected))
      ensures ok ==> row.Some? && row.value.config == config && |history| == old(|history|) + 1
      ensures !ok ==> View() == old(View())
    {
      var revision := RevisionAfter(if row.Some? then Some(row.value.revision) else None, expected);
      if revision.None? {
        return false;
      }
      var credential := 0;
      if row.Some? {
        credential := row.value.credential;
      }
      var material := MaterialOf(config, credential);
      if row.None? {
        row := Some(Row(revision.value, config, material, 0, false, None, false, map[], None));
      } else {
        var changed := material != row.value.material;
        row := Some(row.value.(revision := revision.value, config := config, material := material));
        if changed {
          row := Some(row.value.(enabled := false, enabledMaterial := None));
        }
      }
      history := history + [Revision(revision.value, config, material, credential)];
      return true;
    }

    method SaveNewCredential(expected: Option<int>) returns (ok: bool)
      modifies this
      ensures View() == Next(old(View()), SaveCredential(expected))
      ensures ok ==> row.Some? && !row.value.enabled && |history| == old(|history|) + 1
      ensures !ok ==> View() == old(View())
    {
      if row.None? {
        return false;
      }
      var revision := RevisionAfter(Some(row.value.revision), expected);
      if revision.None? {
        return false;
      }
      var credential := row.value.credential + 1;
      var material := MaterialOf(row.value.config, credential);
      row := Some(row.value.(revision := revision.value, material := material, credential := credential,
                             enabled := false, enabledMaterial := None));
      history := history + [Revision(revision.value, row.value.config, material, credential)];
      return true;
    }

    /** What other sessions do meanwhile. */
    method Meanwhile(steps: seq<Step>)
      modifies this
      ensures View() == Run(old(View()), steps)
    {
      for i := 0 to |steps|
        invariant View() == Run(old(View()), steps[..i])
      {
        assert steps[..i + 1][..i] == steps[..i];
        var s := Next(View(), steps[i]);
        row, history, started := s.row, s.history, s.started;
        asked, found, disables := s.asked, s.found, s.disables;
      }
      assert steps[..|steps|] == steps;
    }

    /** Reads the profile for a check. */
    method BeginCheck() returns (seen: Option<Seen>)
      modifies this`started
      ensures View() == Next(old(View()), StartCheck)
      ensures seen == if row.Some? then Some(Seen(row.value.revision, row.value.material)) else None
      ensures seen.Some? ==> seen.value in started
    {
      if row.None? {
        return None;
      }
      seen := Some(Seen(row.value.revision, row.value.material));
      started := started + {seen.value};
    }

    /** Records a check, in a transaction of its own: what is stamped is the profile as it is now. */
    method RecordResult(probe: Probe, ok: bool, seen: Seen) returns (recorded: bool)
      requires seen in started
      modifies this`row
      ensures View() == Next(old(View()), RecordCheck(probe, ok, seen))
      ensures recorded ==> row.Some? && (Passes(row.value, probe) <==> ok)
    {
      if row.None? {
        return false;
      }
      var entry := Check(ok, Seen(row.value.revision, row.value.material), seen);
      row := Some(row.value.(health := row.value.health[probe := entry]));
      return true;
    }

    /** Enables the connection: the expected revision, the blockers and the store are three
        transactions, and `between` is what other sessions do before the second and the third.
        Nothing is stored over a revision other than the one the blockers were evaluated on. */
    method SetEnabled(expected: Option<int>, otherwise: bool, between: (seq<Step>, seq<Step>)) returns (ok: bool)
      modifies this
      ensures old(row).None? || (expected.Some? && expected != Some(old(row).value.revision)) ==>
                !ok && View() == old(View())
      ensures old(row).Some? && (expected.Some? ==> expected == Some(old(row).value.revision)) ==>
                var seen := Run(old(View()), [AskEnable(expected)] + between.0);
                && seen.row.Some? && ok == Ready(seen.row.value, otherwise)
                && View() == if ok then Run(old(View()), Enabling(expected, otherwise, between, Found(seen))) else seen
    {
      ghost var s0 := View();
      if row.None? || (expected.Some? && expected.value != row.value.revision) {
        return false;
      }
      asked := true;
      RunLast(s0, [], AskEnable(expected));
      assert [] + [AskEnable(expected)] == [AskEnable(expected)];
      RunAppend(s0, [AskEnable(expected)], between.0);
      RunKeeps(View(), between.0);
      Meanwhile(between.0);
      var profile := row.value;
      if !Ready(profile, otherwise) {
        return false;
      }
      ghost var seen := View();
      var e := Evaluation(profile.revision, profile.material, disables);
      found := found + {e};
      assert View() == Next(seen, Evaluate(otherwise));
      RunKeeps(View(), between.1);
      Meanwhile(between.1);
      if row.value.revision == profile.revision {
        row := Some(row.value.(enabled := true, enabledMaterial := Some(row.value.material), basis := Some(e)));
      }
      assert View() == Next(Run(Next(seen, Evaluate(otherwise)), between.1), StoreEnabled(e));
      EnablingInParts(s0, expected, otherwise, between, e);
      return true;
    }

    /** The kill switch: nothing is enabled, and every check is cleared. */
    method SetDisabled() returns (ok: bool)
      modifies this
      ensures View() == Next(old(View()), Disable)
      ensures ok ==> row.Some? && !IsActive(row.value) && row.value.health == map[]
    {
      if row.None? {
        return false;
      }
      row := Some(row.value.(disabled := true, enabled := false, enabledMaterial := None, health := map[]));
      disables := disables + 1;
      return true;
    }
  }

  function Found(s: Conn): Evaluation
    requires s.row.Some?
  {
    Evaluation(s.row.value.revision, s.row.value.material, s.disables)
  }

  /** One call of SetEnabled among the steps of other sessions. */
  function Enabling(expected: Option<int>, otherwise: bool, between: (seq<Step>, seq<Step>), e: Evaluation): seq<Step> {
    [AskEnable(expected)] + between.0 + [Evaluate(otherwise)] + between.1 + [StoreEnabled(e)]
  }

  lemma EnablingInParts(s: Conn, expected: Option<int>, otherwise: bool, between: (seq<Step>, seq<Step>), e: Evaluation)
    ensures Run(s, Enabling(expected, otherwise, between, e))
         == Next(Run(Next(Run(s, [AskEnable(expected)] + between.0), Evaluate(otherwise)), between.1), StoreEnabled(e))
  {
    var asking := [AskEnable(expected)] + between.0;
    RunLast(s, asking, Evaluate(otherwise));
    RunAppend(s, asking + [Evaluate(otherwise)], between.1);
    RunLast(s, asking + [Evaluate(otherwise)] + between.1, StoreEnabled(e));
  }

  lemma {:induction false} RunKeeps(s: Conn, steps: seq<Step>)
    ensures var r := Run(s, steps);
            (s.asked ==> r.asked) && s.found <= r.found && (s.row.Some? ==> r.row.Some?)
  {
    if steps != [] {
      RunKeeps(s, steps[..|steps| - 1]);
    }
  }

  lemma RunLast(s: Conn, front: seq<Step>, last: Step)
    ensures Run(s, front + [last]) == Next(Run(s, front), last)
  {
  }

  lemma RunOfTwo(s: Conn, a: Step, b: Step)
    ensures Run(s, [a, b]) == Next(Next(s, a), b)
  {
    RunLast(s, [], a);
    RunLast(s, [a], b);
    assert [] + [a] == [a] && [a] + [b] == [a, b];
  }

  lemma RunOfFour(s: Conn, a: Step, b: Step, c: Step, d: Step)
    ensures Run(s, [a, b, c, d]) == Next(Next(Next(Next(s, a), b), c), d)
  {
    RunOfTwo(s, a, b);
    RunLast(s, [a, b], c);
    RunLast(s, [a, b, c], d);
    assert [a, b] + [c] == [a, b, c] && [a, b, c] + [d] == [a, b, c, d];
  }

  lemma {:induction false} RunAppend(s: Conn, xs: seq<Step>, ys: seq<Step>)
    ensures Run(s, xs + ys) == Run(Run(s, xs), ys)
  {
    if ys == [] {
      assert xs + ys == xs;
    } else {
      RunAppend(s, xs, ys[..|ys| - 1]);
      assert (xs + ys)[..|xs + ys| - 1] == xs + ys[..|ys| - 1];
    }
  }
}
