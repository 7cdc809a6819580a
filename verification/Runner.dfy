/** The agent runner: it delivers the items of a change set in order, each by an attempt begun before
    and closed after the change is made, while everybody else goes on using the same record.

    What a run does is a function of the record it finds, of what the world answers, and of what
    everybody else does in between: the runner's own steps and everybody else's, in their order. */
module Runner {
  import opened Wrappers
  import opened Changes
  import opened Protocol
  import opened Desk
  import AisDriver
  import AisForms
  import AisGuard
  import AisPlan
  import Blocks
  import Delivery
  import Safety

  // ---------------------------------------------------------------------------------------------
  // What an item is waiting for
  // ---------------------------------------------------------------------------------------------

  datatype Status = IsDelivered | Stuck(state: Blocks.State) | WaitingForPerson | CouldNotApply | Unavailable | WaitingForAgent

  /** The item's last attempt stopped before anything was saved. */
  predicate LastNotSent(c: Change, id: string) {
    var a := BlockAt(c, OfItem(id)).attempts;
    a != [] && a[|a| - 1].outcome == Some(Blocks.NotSent)
  }

  function ItemStatus(c: Change, item: Item, w: World): Status {
    var state := Blocks.Effective(BlockAt(c, OfItem(item.id)), w.now);
    if item.id in c.delivery then IsDelivered
    else if state == Blocks.Unknown || state == Blocks.Diverged || state == Blocks.InProgress then Stuck(state)
    else if item.executor == Person then WaitingForPerson
    else if LastNotSent(c, item.id) then CouldNotApply
    else if !w.agentAvailable then Unavailable
    else WaitingForAgent
  }

  /** A person may record an agent's item exactly when the runner says that no agent can apply it now. */
  lemma HandoverExactly(c: Change, item: Item, w: World)
    requires ItemIn(c, item.id) == Some(item) && item.executor == Agent && item.id !in c.delivery
    requires Blocks.Effective(BlockAt(c, OfItem(item.id)), w.now) == Blocks.Ready
    ensures HandedOver(c, w, item.id) <==> ItemStatus(c, item, w) == CouldNotApply || ItemStatus(c, item, w) == Unavailable
  {
  }

  // ---------------------------------------------------------------------------------------------
  // Making the change
  // ---------------------------------------------------------------------------------------------

  /** A live read of the item: it raised, it cannot be known, or it shows a state. */
  datatype Read = ReadRaised | NotKnown | Known(observed: Observed)

  /** The browser executor, as its outcomes: it stopped before the save, it raised, or it saved and
      perhaps saw the result. */
  datatype BrowserRun = BrowserStopped | BrowserRaised | BrowserSaved(seen: Option<Observed>)

  datatype Route = Ais(server: AisDriver.Server, connection: AisDriver.Connection) | Browser(run: BrowserRun) | NoRoute

  datatype Effect = NothingSent | MaybeSent | Sent(seen: Option<Observed>)

  /** What the caller is told of a change made by the item's route. */
  function EffectOf(item: Item, route: Route): Effect {
    match route
    case Ais(server, connection) =>
      (match AisDriver.Applied(server, connection, item.content).result
       case Done(_) => Sent(None)
       case Stopped(why) => if why == AisForms.Broken then MaybeSent else NothingSent)
    case Browser(BrowserStopped) => NothingSent
    case Browser(BrowserRaised) => MaybeSent
    case Browser(BrowserSaved(seen)) => Sent(seen)
    case NoRoute => NothingSent
  }

  function RequestsOf(item: Item, route: Route): seq<AisPlan.Dispatch> {
    if route.Ais? then AisDriver.Applied(route.server, route.connection, item.content).trace else []
  }

  method MakeChange(item: Item, route: Route) returns (e: Effect, trace: seq<AisPlan.Dispatch>)
    ensures e == EffectOf(item, route) && trace == RequestsOf(item, route)
  {
    trace := [];
    match route {
      case Ais(server, connection) =>
        var r, sent := AisDriver.ApplyItem(server, connection, item.content);
        trace := sent;
        match r {
          case Done(_) => e := Sent(None);
          case Stopped(Broken) => e := MaybeSent;
          case Stopped(_) => e := NothingSent;
        }
      case Browser(BrowserStopped) => e := NothingSent;
      case Browser(BrowserRaised) => e := MaybeSent;
      case Browser(BrowserSaved(seen)) => e := Sent(seen);
      case NoRoute => e := NothingSent;
    }
  }

  /** What is reported as not sent was not: through the form service nothing but the approach was made, and
      what is reported as sent carries the item. */
  lemma NotSentSavesNothing(item: Item, route: Route)
    ensures var e, trace, fm := EffectOf(item, route), RequestsOf(item, route), AisGuard.FormMapFor(item.content);
            && (e == NothingSent && trace != [] ==> fm.Some? && AisDriver.StoppedOn(trace, item.content, fm.value))
            && (route.Ais? && e.Sent? ==> fm.Some? && AisDriver.AppliedTrace(trace, item.content, fm.value))
            && (route.Ais? && e == MaybeSent ==> trace == [])
  {
    if route.Ais? {
      AisDriver.WhatWasSent(route.server, route.connection, item.content);
    }
  }

  // ---------------------------------------------------------------------------------------------
  // The runner's steps and everybody else's
  // ---------------------------------------------------------------------------------------------

  datatype Deed = Deed(own: bool, step: Step)

  function Steps(deeds: seq<Deed>): seq<Step> {
    seq(|deeds|, i requires 0 <= i < |deeds| => deeds[i].step)
  }

  function Others(steps: seq<Step>): seq<Deed> {
    seq(|steps|, i requires 0 <= i < |steps| => Deed(false, steps[i]))
  }

  /** The record after these deeds. */
  function Later(s: Sys, deeds: seq<Deed>): Sys {
    Run(s, Steps(deeds))
  }

  lemma LaterAppend(s: Sys, a: seq<Deed>, b: seq<Deed>)
    ensures Later(s, a + b) == Later(Later(s, a), b)
  {
    assert Steps(a + b) == Steps(a) + Steps(b);
    RunAppend(s, Steps(a), Steps(b));
  }

  lemma LaterOthers(s: Sys, steps: seq<Step>)
    ensures Later(s, Others(steps)) == Run(s, steps)
  {
    assert Steps(Others(steps)) == steps;
  }

  lemma LaterOne(s: Sys, d: Deed)
    ensures Later(s, [d]) == Advance(s, d.step)
  {
    assert Steps([d]) == [d.step] && [d.step][..0] == [];
    assert Run(s, [d.step]) == Advance(Run(s, []), d.step);
  }

  lemma LaterNothing(s: Sys)
    ensures Later(s, []) == s
  {
    assert Steps([]) == [];
  }

  /** One step of the runner, after what everybody else did. */
  lemma LaterStep(s: Sys, steps: seq<Step>, d: Deed)
    ensures Later(s, Others(steps) + [d]) == Advance(Run(s, steps), d.step)
  {
    LaterAppend(s, Others(steps), [d]);
    LaterOthers(s, steps);
    LaterOne(Run(s, steps), d);
  }

  // ---------------------------------------------------------------------------------------------
  // One item
  // ---------------------------------------------------------------------------------------------

  /** What the world does around one item: the instants at which the runner reads it, what its reads
      and its route come back with, and what everybody else does before and during the attempt. */
  datatype Script = Script(idle: seq<Step>, look: World, pause: seq<Step>, begin: World, before: Read, route: Route,
                           after: Read, during: seq<Step>, finish: World)

  /** Refused: no attempt was begun. Raised: it is left open. */
  datatype ItemRun =
    | Refused
    | Raised(attempt: Blocks.AttemptId)
    | Closed(attempt: Blocks.AttemptId, outcome: Blocks.Outcome, seen: Option<Observed>)

  /** Whether the read before the change lets it go ahead: the item can be read, unless its kind never
      can, and shows what the approval was bound to, where that is known. */
  predicate MayProceed(item: Item, bound: Option<Observed>, before: Read) {
    match before
    case ReadRaised => false
    case NotKnown => item.content.VersionText?
    case Known(observed) => bound.Some? ==> bound.value == observed
  }

  function AttemptOf(item: Item, bound: Option<Observed>, script: Script): Effect {
    if MayProceed(item, bound, script.before) then EffectOf(item, script.route) else NothingSent
  }

  /** How the attempt is closed, from what is known after the change; None where the read-back raised. */
  function Closing(item: Item, e: Effect, after: Read): (r: Option<(Blocks.Outcome, Option<Observed>)>)
    ensures r.None? <==> e.Sent? && after.ReadRaised?
    ensures r.Some? && r.value.0 == Blocks.AsApplied ==> r.value.1.Some? && MatchesApproved(item, r.value.1.value)
    ensures r.Some? && r.value.0 == Blocks.NotSent ==> e == NothingSent
  {
    match e
    case NothingSent => Some((Blocks.NotSent, None))
    case MaybeSent => Some((Blocks.Unclear, None))
    case Sent(seen) =>
      if after.ReadRaised? then None
      else
        var observed := if after.Known? then Some(after.observed) else seen;
        if observed.Some? && MatchesApproved(item, observed.value) then Some((Blocks.AsApplied, observed))
        else Some((Blocks.Unclear, observed))
  }

  function BeginOf(item: Item, script: Script): Step {
    Step(BeginItem(item.id), script.begin)
  }

  /** What becomes of an item attempted in this state of the record. */
  function RunOf(s: Sys, item: Item, script: Script): ItemRun {
    if !MayBegin(s.change, script.begin, item.id) then Refused
    else
      var bound := BoundState(Advance(s, BeginOf(item, script)).change, item.id);
      var closing := Closing(item, AttemptOf(item, bound, script), script.after);
      if closing.None? then Raised(s.nextId) else Closed(s.nextId, closing.value.0, closing.value.1)
  }

  /** What an attempt in this state of the record hands to the form service. */
  function SentBy(s: Sys, item: Item, script: Script): seq<AisPlan.Dispatch> {
    if !MayBegin(s.change, script.begin, item.id) then []
    else
      var bound := BoundState(Advance(s, BeginOf(item, script)).change, item.id);
      if MayProceed(item, bound, script.before) then RequestsOf(item, script.route) else []
  }

  /** An attempt that is closed as not sent handed over nothing that saves. */
  lemma ClosedAsNotSent(s: Sys, item: Item, script: Script)
    requires RunOf(s, item, script).Closed? && RunOf(s, item, script).outcome == Blocks.NotSent
    ensures var trace, fm := SentBy(s, item, script), AisGuard.FormMapFor(item.content);
            trace != [] ==> fm.Some? && AisDriver.StoppedOn(trace, item.content, fm.value)
  {
    NotSentSavesNothing(item, script.route);
  }

  function FinishOf(item: Item, script: Script, r: ItemRun): Step
    requires r.Closed?
  {
    Step(FinishItem(item.id, r.attempt, r.outcome, r.seen), script.finish)
  }

  function AfterBegin(item: Item, script: Script, r: ItemRun): seq<Deed> {
    match r
    case Refused => []
    case Raised(_) => Others(script.during)
    case Closed(_, _, _) => Others(script.during) + [Deed(true, FinishOf(item, script, r))]
  }

  /** The runner's steps of one attempt, and everybody else's meanwhile. */
  function DeedsOf(item: Item, script: Script, r: ItemRun): seq<Deed> {
    [Deed(true, BeginOf(item, script))] + AfterBegin(item, script, r)
  }

  /** The change, if the read before it lets it go ahead. */
  method Attempt(item: Item, bound: Option<Observed>, script: Script) returns (e: Effect, trace: seq<AisPlan.Dispatch>)
    ensures e == AttemptOf(item, bound, script)
    ensures trace == if MayProceed(item, bound, script.before) then RequestsOf(item, script.route) else []
  {
    if !MayProceed(item, bound, script.before) {
      return NothingSent, [];
    }
    e, trace := MakeChange(item, script.route);
  }

  /** Closes the attempt with what is known after the change; left open where the read-back raised. */
  method CloseAttempt(desk: ChangeDesk, item: Item, script: Script, attempt: Blocks.AttemptId, e: Effect)
    returns (r: ItemRun)
    requires desk.Valid() && ItemIn(desk.Record(), item.id) == Some(item)
    modifies desk
    ensures desk.Valid() && desk.View() == Later(old(desk.View()), AfterBegin(item, script, r))
    ensures var closing := Closing(item, e, script.after);
            r == if closing.None? then Raised(attempt) else Closed(attempt, closing.value.0, closing.value.1)
  {
    ghost var s := desk.View();
    LaterOthers(s, script.during);
    Delivery.Growth(s, script.during);
    desk.Meanwhile(script.during);
    var closing := Closing(item, e, script.after);
    if closing.None? {
      return Raised(attempt);
    }
    var (outcome, seen) := closing.value;
    r := Closed(attempt, outcome, seen);
    LaterStep(s, script.during, Deed(true, FinishOf(item, script, r)));
    var _ := desk.FinishItem(item.id, attempt, outcome, seen, script.finish);
  }

  /** One attempt: begun before anything is sent, closed with what is known afterwards. */
  method RunItem(desk: ChangeDesk, item: Item, script: Script) returns (r: ItemRun, trace: seq<AisPlan.Dispatch>)
    requires desk.Valid() && ItemIn(desk.Record(), item.id) == Some(item)
    modifies desk
    ensures desk.Valid() && r == RunOf(old(desk.View()), item, script)
    ensures desk.View() == Later(old(desk.View()), DeedsOf(item, script, r))
    ensures trace == SentBy(old(desk.View()), item, script)
  {
    ghost var s := desk.View();
    var begun := desk.BeginItem(item.id, script.begin);
    ghost var begin := [Deed(true, BeginOf(item, script))];
    LaterOne(s, begin[0]);
    if begun.None? {
      r, trace := Refused, [];
      assert DeedsOf(item, script, r) == begin;
      return;
    }
    var e, requests := Attempt(item, BoundState(desk.Record(), item.id), script);
    trace := requests;
    Safety.StepGrows(s, BeginOf(item, script));
    r := CloseAttempt(desk, item, script, begun.value, e);
    LaterAppend(s, begin, AfterBegin(item, script, r));
  }

  // ---------------------------------------------------------------------------------------------
  // One round of the loop
  // ---------------------------------------------------------------------------------------------

  /** What became of one item: already delivered, waiting for something else, or attempted. */
  datatype Turn = Skipped | Halted(status: Status) | Ran(run: ItemRun, retried: bool)

  /** A round: its turn, its deeds, and whether the deliberate retry is still to be used. */
  datatype Round = Round(turn: Turn, deeds: seq<Deed>, mayRetry: bool)

  function RoundOf(s: Sys, item: Item, script: Script, mayRetry: bool): Round {
    var looked := Run(s, script.idle);
    var status := ItemStatus(looked.change, item, script.look);
    var retried := status == CouldNotApply && mayRetry;
    if status == IsDelivered then Round(Skipped, Others(script.idle), mayRetry)
    else if retried && !script.look.agentAvailable then Round(Halted(Unavailable), Others(script.idle), false)
    else if !retried && status != WaitingForAgent then Round(Halted(status), Others(script.idle), mayRetry)
    else
      var r := RunOf(Run(looked, script.pause), item, script);
      Round(Ran(r, retried), Others(script.idle + script.pause) + DeedsOf(item, script, r), mayRetry && !retried)
  }

  /** Waits and runs the item. */
  method Go(desk: ChangeDesk, item: Item, script: Script) returns (r: ItemRun)
    requires desk.Valid() && ItemIn(desk.Record(), item.id) == Some(item)
    modifies desk
    ensures desk.Valid() && r == RunOf(Run(old(desk.View()), script.pause), item, script)
    ensures desk.View() == Later(Run(old(desk.View()), script.pause), DeedsOf(item, script, r))
  {
    Delivery.Growth(desk.View(), script.pause);
    desk.Meanwhile(script.pause);
    var trace;
    r, trace := RunItem(desk, item, script);
  }

  lemma GoDeeds(s: Sys, item: Item, script: Script, r: ItemRun)
    ensures Later(s, Others(script.idle + script.pause) + DeedsOf(item, script, r)) ==
              Later(Run(Run(s, script.idle), script.pause), DeedsOf(item, script, r))
  {
    LaterAppend(s, Others(script.idle + script.pause), DeedsOf(item, script, r));
    LaterOthers(s, script.idle + script.pause);
    RunAppend(s, script.idle, script.pause);
  }

  /** An item whose last attempt stopped before anything was saved is attempted again only as the one
      deliberate retry, which the first item that needs it uses up. */
  method TakeRound(desk: ChangeDesk, item: Item, script: Script, mayRetry: bool) returns (turn: Turn, left: bool, deeds: seq<Deed>)
    requires desk.Valid() && ItemIn(desk.Record(), item.id) == Some(item)
    modifies desk
    ensures desk.Valid() && Round(turn, deeds, left) == RoundOf(old(desk.View()), item, script, mayRetry)
    ensures desk.View() == Later(old(desk.View()), deeds)
  {
    ghost var s := desk.View();
    Delivery.Growth(s, script.idle);
    LaterOthers(s, script.idle);
    desk.Meanwhile(script.idle);
    left, deeds := mayRetry, Others(script.idle);
    var status := ItemStatus(desk.Record(), item, script.look);
    var retried := false;
    if status == IsDelivered {
      return Skipped, left, deeds;
    }
    if status == CouldNotApply && mayRetry {
      status := if script.look.agentAvailable then WaitingForAgent else Unavailable;
      left, retried := false, true;
    }
    if status != WaitingForAgent {
      return Halted(status), left, deeds;
    }
    var r := Go(desk, item, script);
    GoDeeds(s, item, script, r);
    return Ran(r, retried), left, Others(script.idle + script.pause) + DeedsOf(item, script, r);
  }

  // ---------------------------------------------------------------------------------------------
  // Completing the change set
  // ---------------------------------------------------------------------------------------------

  /** The check of completeness, the record, and what everybody else does in between. */
  datatype Ending = Ending(look: World, pause: seq<Step>, record: World)

  /** Items are missing; the write was recorded before; it is recorded now; or the gate refuses it. */
  datatype Completion = Missing | Before | Now(attempt: Blocks.AttemptId) | Barred

  function CompletionOf(s: Sys, ending: Ending): (Completion, seq<Deed>) {
    var check := Deed(true, Step(CheckComplete, ending.look));
    match CompletenessOf(s.change)
    case Incomplete => (Missing, [check])
    case AlreadyRecorded => (Before, [check])
    case ToRecord =>
      var at := Run(Advance(s, check.step), ending.pause);
      var id := CompletionId(at, ending.record);
      (if id.Some? then Now(id.value) else Barred,
       [check] + (Others(ending.pause) + [Deed(true, Step(RecordCompletion, ending.record))]))
  }

  /** Completes the change set where every item is delivered: checked first, recorded under the lock. */
  method CompleteIfAllRecorded(desk: ChangeDesk, ending: Ending) returns (r: Completion, deeds: seq<Deed>)
    requires desk.Valid()
    modifies desk
    ensures desk.Valid() && (r, deeds) == CompletionOf(old(desk.View()), ending)
    ensures desk.View() == Later(old(desk.View()), deeds)
  {
    ghost var s := desk.View();
    var check := Deed(true, Step(CheckComplete, ending.look));
    var record := Deed(true, Step(RecordCompletion, ending.record));
    LaterOne(s, check);
    var c := desk.CheckComplete(ending.look);
    if c == Incomplete {
      return Missing, [check];
    }
    if c == AlreadyRecorded {
      return Before, [check];
    }
    LaterStep(desk.View(), ending.pause, record);
    LaterAppend(s, [check], Others(ending.pause) + [record]);
    Delivery.Growth(desk.View(), ending.pause);
    desk.Meanwhile(ending.pause);
    var id := desk.RecordCompletion(ending.record);
    return if id.Some? then Now(id.value) else Barred, [check] + (Others(ending.pause) + [record]);
  }

  // ---------------------------------------------------------------------------------------------
  // The run over the items
  // ---------------------------------------------------------------------------------------------

  /** The instant at which the run is authorised, one script per item, and the ending. */
  datatype Plan = Plan(authorise: World, scripts: seq<Script>, ending: Ending)

  datatype Finish = NotAllowed | Ended(completion: Completion) | StoppedAt(index: nat) | RaisedAt(index: nat)

  /** What a run did: the turns of the items in order, its deeds and everybody else's, and how it ended. */
  datatype Story = Story(turns: seq<Turn>, deeds: seq<Deed>, finish: Finish)

  predicate GoesOn(turn: Turn) {
    turn.Skipped? || (turn.Ran? && turn.run.Closed? && turn.run.outcome == Blocks.AsApplied)
  }

  function HaltOf(turn: Turn, k: nat): Finish {
    if turn.Ran? && !turn.run.Closed? then RaisedAt(k) else StoppedAt(k)
  }

  function Then(turns: seq<Turn>, deeds: seq<Deed>, rest: Story): Story {
    Story(turns + rest.turns, deeds + rest.deeds, rest.finish)
  }

  /** The run from item `k` on. */
  function Play(s: Sys, items: seq<Item>, plan: Plan, k: nat, mayRetry: bool): Story
    requires k <= |items| == |plan.scripts|
    decreases |items| - k
  {
    if k == |items| then
      var c := CompletionOf(s, plan.ending);
      Story([], c.1, Ended(c.0))
    else
      var r := RoundOf(s, items[k], plan.scripts[k], mayRetry);
      if GoesOn(r.turn) then Then([r.turn], r.deeds, Play(Later(s, r.deeds), items, plan, k + 1, r.mayRetry))
      else Story([r.turn], r.deeds, HaltOf(r.turn, k))
  }

  predicate Authorised(c: Change, w: World) {
    FunctionalGate(c, w) && w.recorder && c.proposal.sort == ChangeSet
  }

  function Played(s: Sys, plan: Plan, retryNotSent: bool): Story
    requires |plan.scripts| == |s.change.proposal.items|
  {
    if Authorised(s.change, plan.authorise) then Play(s, s.change.proposal.items, plan, 0, retryNotSent)
    else Story([], [], NotAllowed)
  }

  predicate UniqueItems(items: seq<Item>) {
    forall i, j :: 0 <= i < j < |items| ==> items[i].id != items[j].id
  }

  lemma {:induction false} ItemIsFound(items: seq<Item>, k: nat)
    requires k < |items| && UniqueItems(items)
    ensures ItemOf(items, items[k].id) == Some(items[k])
  {
    if k > 0 {
      ItemIsFound(items[1..], k - 1);
    }
  }

  lemma ThenThen(turns: seq<Turn>, deeds: seq<Deed>, turn: Turn, more: seq<Deed>, rest: Story)
    ensures Then(turns, deeds, Then([turn], more, rest)) == Then(turns + [turn], deeds + more, rest)
  {
    assert turns + ([turn] + rest.turns) == turns + [turn] + rest.turns;
    assert deeds + (more + rest.deeds) == deeds + more + rest.deeds;
  }

  /** One round more of a run. */
  lemma PlayNext(turns: seq<Turn>, deeds: seq<Deed>, s: Sys, items: seq<Item>, plan: Plan, k: nat, mayRetry: bool, r: Round)
    requires k < |items| == |plan.scripts| && r == RoundOf(s, items[k], plan.scripts[k], mayRetry)
    ensures Then(turns, deeds, Play(s, items, plan, k, mayRetry)) ==
              if GoesOn(r.turn) then Then(turns + [r.turn], deeds + r.deeds, Play(Later(s, r.deeds), items, plan, k + 1, r.mayRetry))
              else Story(turns + [r.turn], deeds + r.deeds, HaltOf(r.turn, k))
  {
    if GoesOn(r.turn) {
      ThenThen(turns, deeds, r.turn, r.deeds, Play(Later(s, r.deeds), items, plan, k + 1, r.mayRetry));
    }
  }

  /** What is left of a run after some rounds: `whole` is the run, from the record `s`. */
  ghost predicate Left(whole: Story, s: Sys, turns: seq<Turn>, deeds: seq<Deed>, now: Sys, items: seq<Item>, plan: Plan, k: nat,
                       mayRetry: bool)
    requires k <= |items| == |plan.scripts|
  {
    now == Later(s, deeds) && whole == Then(turns, deeds, Play(now, items, plan, k, mayRetry))
  }

  lemma LeftNext(whole: Story, s: Sys, turns: seq<Turn>, deeds: seq<Deed>, now: Sys, items: seq<Item>, plan: Plan, k: nat,
                 mayRetry: bool, r: Round)
    requires k < |items| == |plan.scripts| && Left(whole, s, turns, deeds, now, items, plan, k, mayRetry)
    requires r == RoundOf(now, items[k], plan.scripts[k], mayRetry)
    ensures Later(now, r.deeds) == Later(s, deeds + r.deeds)
    ensures if GoesOn(r.turn) then
              Left(whole, s, turns + [r.turn], deeds + r.deeds, Later(now, r.deeds), items, plan, k + 1, r.mayRetry)
            else whole == Story(turns + [r.turn], deeds + r.deeds, HaltOf(r.turn, k))
  {
    PlayNext(turns, deeds, now, items, plan, k, mayRetry, r);
    LaterAppend(s, deeds, r.deeds);
  }

  lemma LeftEnds(whole: Story, s: Sys, turns: seq<Turn>, deeds: seq<Deed>, now: Sys, items: seq<Item>, plan: Plan, mayRetry: bool)
    requires |items| == |plan.scripts| && Left(whole, s, turns, deeds, now, items, plan, |items|, mayRetry)
    ensures var c := CompletionOf(now, plan.ending);
            && whole == Story(turns, deeds + c.1, Ended(c.0))
            && Later(now, c.1) == Later(s, deeds + c.1)
  {
    LaterAppend(s, deeds, CompletionOf(now, plan.ending).1);
  }

  /** One more round of the run `whole`, which may stop it. */
  method NextRound(desk: ChangeDesk, k: nat, plan: Plan, mayRetry: bool, turns: seq<Turn>, deeds: seq<Deed>,
                   ghost whole: Story, ghost s: Sys)
    returns (turn: Turn, allDeeds: seq<Deed>, left: bool)
    requires desk.Valid() && UniqueItems(desk.proposal.items) && k < |desk.proposal.items| == |plan.scripts|
    requires Left(whole, s, turns, deeds, desk.View(), desk.proposal.items, plan, k, mayRetry)
    modifies desk
    ensures desk.Valid() && desk.View() == Later(s, allDeeds)
    ensures GoesOn(turn) ==> Left(whole, s, turns + [turn], allDeeds, desk.View(), desk.proposal.items, plan, k + 1, left)
    ensures !GoesOn(turn) ==> whole == Story(turns + [turn], allDeeds, HaltOf(turn, k))
  {
    ItemIsFound(desk.proposal.items, k);
    ghost var now := desk.View();
    var more;
    turn, left, more := TakeRound(desk, desk.proposal.items[k], plan.scripts[k], mayRetry);
    LeftNext(whole, s, turns, deeds, now, desk.proposal.items, plan, k, mayRetry, Round(turn, more, left));
    allDeeds := deeds + more;
  }

  /** The rounds, until one of them stops the run. */
  method RunRounds(desk: ChangeDesk, plan: Plan, retryNotSent: bool, ghost whole: Story)
    returns (turns: seq<Turn>, deeds: seq<Deed>, halted: bool, left: bool)
    requires desk.Valid() && UniqueItems(desk.proposal.items) && |plan.scripts| == |desk.proposal.items|
    requires whole == Play(desk.View(), desk.proposal.items, plan, 0, retryNotSent)
    modifies desk
    ensures desk.Valid() && desk.View() == Later(old(desk.View()), deeds)
    ensures halted ==> turns != [] && whole == Story(turns, deeds, HaltOf(turns[|turns| - 1], |turns| - 1))
    ensures !halted ==> Left(whole, old(desk.View()), turns, deeds, desk.View(), desk.proposal.items, plan, |desk.proposal.items|, left)
  {
    turns, deeds, halted, left := [], [], false, retryNotSent;
    LaterNothing(desk.View());
    for k := 0 to |desk.proposal.items|
      invariant desk.Valid() && |turns| == k
      invariant Left(whole, old(desk.View()), turns, deeds, desk.View(), desk.proposal.items, plan, k, left)
    {
      var turn;
      turn, deeds, left := NextRound(desk, k, plan, left, turns, deeds, whole, old(desk.View()));
      turns := turns + [turn];
      if !GoesOn(turn) {
        halted := true;
        return;
      }
    }
  }

  /** The items one by one, and the completion after them. */
  method RunItems(desk: ChangeDesk, plan: Plan, retryNotSent: bool) returns (story: Story)
    requires desk.Valid() && UniqueItems(desk.proposal.items) && |plan.scripts| == |desk.proposal.items|
    modifies desk
    ensures desk.Valid() && story == Play(old(desk.View()), desk.proposal.items, plan, 0, retryNotSent)
    ensures desk.View() == Later(old(desk.View()), story.deeds)
  {
    ghost var s := desk.View();
    ghost var whole := Play(s, desk.proposal.items, plan, 0, retryNotSent);
    var turns, deeds, halted, left := RunRounds(desk, plan, retryNotSent, whole);
    if halted {
      return Story(turns, deeds, HaltOf(turns[|turns| - 1], |turns| - 1));
    }
    LeftEnds(whole, s, turns, deeds, desk.View(), desk.proposal.items, plan, left);
    var completion, more := CompleteIfAllRecorded(desk, plan.ending);
    return Story(turns, deeds + more, Ended(completion));
  }

  /** Runs the agents over the change set until it is complete or an item stops it: authorised first,
      completed at the end. The record goes through exactly the deeds of the story. */
  method RunAgents(desk: ChangeDesk, plan: Plan, retryNotSent: bool) returns (story: Story)
    requires desk.Valid() && UniqueItems(desk.proposal.items) && |plan.scripts| == |desk.proposal.items|
    modifies desk
    ensures desk.Valid() && story == Played(old(desk.View()), plan, retryNotSent)
    ensures desk.View() == Later(old(desk.View()), story.deeds)
  {
    if !Authorised(desk.Record(), plan.authorise) {
      return Story([], [], NotAllowed);
    }
    story := RunItems(desk, plan, retryNotSent);
  }
}
