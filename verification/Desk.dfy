/** The stored change record, updated in place. Every method is one transaction and performs
    exactly the protocol step its contract names: a caller-visible refusal leaves the record as it
    was. What the protocol promises for all runs therefore holds for all sequences of calls. */
module Desk {
  import opened Wrappers
  import opened Changes
  import opened Protocol
  import Blocks
  import Safety

  datatype Completeness = Incomplete | AlreadyRecorded | ToRecord

  /** How far a change set is: items missing, the write recorded already, or ready to be recorded. */
  function CompletenessOf(c: Change): Completeness {
    if c.proposal.sort != ChangeSet || c.proposal.items == [] || !AllDelivered(c) then Incomplete
    else if c.execution.write.state == Blocks.Applied then AlreadyRecorded
    else ToRecord
  }

  class ChangeDesk {
    const proposal: Proposal
    var decision: Decision
    var write: Blocks.Block
    var build: Blocks.Block
    var test: Blocks.Block
    var items: map<string, Blocks.Block>
    var delivery: map<string, Delivery>
    var cncActivated: bool
    var nextId: nat
    var intents: set<Intent>

    function Record(): Change
      reads this
    {
      Change(proposal, decision, Execution(write, build, test, items), delivery, cncActivated)
    }

    function View(): Sys
      reads this
    {
      Sys(Record(), nextId, intents)
    }

    ghost predicate Valid()
      reads this
    {
      Safety.FreshInv(View())
    }

    constructor (c: Change)
      requires Proposed(c)
      ensures Valid() && View() == Begun(c)
    {
      proposal, decision := c.proposal, c.decision;
      write, build, test, items := c.execution.write, c.execution.build, c.execution.test, c.execution.items;
      delivery, cncActivated, nextId, intents := c.delivery, c.cncActivated, 0, {};
    }

    method SetBlock(t: Target, b: Blocks.Block)
      modifies this
      ensures Record() == WithBlock(old(Record()), t, b) && nextId == old(nextId) && intents == old(intents)
    {
      match t
      case OfWrite => write := b;
      case OfBuild => build := b;
      case OfTest => test := b;
      case OfItem(id) => items := items[id := b];
    }

    /** Appends an attempt to a ready block: open, or already closed by the person who records it. */
    method Append(t: Target, now: int, before: Option<string>, closedAs: Option<Blocks.Outcome>)
      returns (r: Option<Blocks.AttemptId>)
      requires Valid()
      requires closedAs.Some? ==> Blocks.Recordable(KindOf(t), closedAs.value)
      modifies this
      ensures intents == old(intents) && nextId == old(nextId) + 1
      ensures var m := if closedAs.Some? then Blocks.Record(old(nextId), closedAs.value, now, before)
                       else Blocks.Begin(old(nextId), now, before);
              Record() == Touched(old(Record()), t, m)
      ensures r == if old(Blocks.Effective(BlockAt(Record(), t), now)) == Blocks.Ready then Some(old(nextId)) else None
      ensures r.Some? ==> BlockAt(Record(), t).state
                          == if closedAs.Some? then Blocks.OutcomeState(KindOf(t), closedAs.value).value else Blocks.InProgress
    {
      var block := BlockAt(Record(), t);
      var id := nextId;
      nextId := nextId + 1;
      assert forall i :: 0 <= i < |block.attempts| ==> old(BlockAt(View().change, t)).attempts[i].id < id;
      if Blocks.Effective(block, now) != Blocks.Ready {
        return None;
      }
      var finishedAt := if closedAs.Some? then Some(now) else None;
      block := block.(attempts := block.attempts
                                  + [Blocks.Attempt(id, now, finishedAt, before, closedAs, closedAs.Some?)]);
      block := block.(state := if closedAs.Some? then Blocks.OutcomeState(KindOf(t), closedAs.value).value
                               else Blocks.InProgress);
      SetBlock(t, block);
      return Some(id);
    }

    static method FindAttempt(attempts: seq<Blocks.Attempt>, id: Blocks.AttemptId) returns (i: nat)
      ensures i == Blocks.Find(attempts, id)
      ensures i < |attempts| <==> exists j :: 0 <= j < |attempts| && attempts[j].id == id
    {
      i := 0;
      while i < |attempts| && attempts[i].id != id
        invariant 0 <= i <= |attempts|
        invariant forall j :: 0 <= j < i ==> attempts[j].id != id
      {
        i := i + 1;
      }
    }

    /** The block with the attempt closed; None where the call is refused, which leaves it as it was.
        Only a current close sets the state its outcome stands for. */
    static method CloseIn(kind: Blocks.Kind, block: Blocks.Block, id: Blocks.AttemptId, outcome: Blocks.Outcome, now: int)
      returns (r: Option<Blocks.Block>)
      ensures Blocks.Closed(kind, block, id, outcome, now) == if r.Some? then r.value else block
      ensures r.Some? <==> Blocks.Closable(kind, block, id, outcome)
    {
      var state := Blocks.OutcomeState(kind, outcome);
      if kind == Blocks.Item && state.None? {
        return None;
      }
      var i := FindAttempt(block.attempts, id);
      if i == |block.attempts| {
        return None;
      }
      var isCurrent := Blocks.IsCurrent(block, id);
      if isCurrent && state.None? {
        return None;
      }
      var attempt := block.attempts[i].(finishedAt := Some(now), outcome := Some(outcome));
      var attempts := block.attempts[i := attempt];
      if isCurrent {
        return Some(block.(attempts := attempts, state := state.value));
      }
      return Some(block.(attempts := attempts, state := if block.state == Blocks.Diverged then Blocks.Diverged else Blocks.Unknown));
    }

    method Close(t: Target, id: Blocks.AttemptId, outcome: Blocks.Outcome, now: int) returns (ok: bool)
      modifies this
      ensures Record() == Touched(old(Record()), t, Blocks.Finish(id, outcome, now))
      ensures nextId == old(nextId) && intents == old(intents)
      ensures ok == old(Blocks.Closable(KindOf(t), BlockAt(Record(), t), id, outcome))
    {
      var closed := CloseIn(KindOf(t), BlockAt(Record(), t), id, outcome, now);
      assert After(Record(), t, Blocks.Finish(id, outcome, now)) == if closed.Some? then closed.value else BlockAt(Record(), t);
      if closed.None? {
        return false;
      }
      if closed.value != BlockAt(Record(), t) {
        SetBlock(t, closed.value);
      }
      return true;
    }

    /** Settles a block of unknown outcome; None where it is not unknown. */
    method Settle(t: Target, verdict: Blocks.Verdict, now: int) returns (r: Option<Blocks.State>)
      requires Blocks.Reconcilable(KindOf(t), verdict)
      modifies this
      ensures Record() == Touched(old(Record()), t, Blocks.Reconcile(verdict, now))
      ensures nextId == old(nextId) && intents == old(intents)
      ensures r == if old(Blocks.Effective(BlockAt(Record(), t), now)) == Blocks.Unknown
                   then Some(Blocks.VerdictState(KindOf(t), verdict)) else None
    {
      var block := BlockAt(Record(), t);
      if Blocks.Effective(block, now) != Blocks.Unknown {
        return None;
      }
      var i := |block.attempts|;
      assert block.attempts[..i] == block.attempts;
      while i > 0 && block.attempts[i - 1].outcome != None && block.attempts[i - 1].outcome != Some(Blocks.Unclear)
        invariant 0 <= i <= |block.attempts|
        invariant Blocks.Unsettled(block.attempts) == Blocks.Unsettled(block.attempts[..i])
      {
        assert block.attempts[..i][..i - 1] == block.attempts[..i - 1];
        i := i - 1;
      }
      var settles := if i == 0 then None else Some(block.attempts[i - 1].id);
      assert Blocks.Unsettled(block.attempts[..i]) == settles;
      block := block.(reconciliations := block.reconciliations + [Blocks.Reconciliation(verdict, settles, now)]);
      block := block.(state := Blocks.VerdictState(KindOf(t), verdict));
      SetBlock(t, block);
      return Some(block.state);
    }

    /** A step that may append an attempt, where its checks allow it. */
    method AppendIf(ghost step: Step, allowed: bool, t: Target, now: int, before: Option<string>, closedAs: Option<Blocks.Outcome>)
      returns (r: Option<Blocks.AttemptId>)
      requires Valid() && OnlyAppends(step.act)
      requires closedAs.Some? ==> Blocks.Recordable(KindOf(t), closedAs.value)
      requires Move(View(), step) == if !allowed then None
               else Some((t, if closedAs.Some? then Blocks.Record(nextId, closedAs.value, now, before)
                             else Blocks.Begin(nextId, now, before)))
      modifies this
      ensures Valid() && View() == Advance(old(View()), step)
      ensures r == if allowed && old(Blocks.Effective(BlockAt(Record(), t), now)) == Blocks.Ready then Some(old(nextId)) else None
      ensures r.Some? ==> BlockAt(Record(), t).state
                          == if closedAs.Some? then Blocks.OutcomeState(KindOf(t), closedAs.value).value else Blocks.InProgress
    {
      Safety.FreshStep(View(), step);
      if !allowed {
        return None;
      }
      r := Append(t, now, before, closedAs);
    }

    /** A step that only looks, and leaves what it saw. */
    method Leave(ghost step: Step, seen: set<Intent>)
      requires Valid() && OnlyLooks(step.act) && seen == Seen(Record(), step)
      modifies this`intents
      ensures Valid() && View() == Advance(old(View()), step)
    {
      Safety.FreshStep(View(), step);
      intents := intents + seen;
    }

    /** Every act of a caller that appends an attempt behind its checks: beginning or recording the write, a test
        or a milestone. Accepted exactly if its checks pass and the block is ready; the attempt is then the
        block's last, under a new id, open or closed as what was recorded. */
    method Perform(act: Act, w: World) returns (r: Option<Blocks.AttemptId>)
      requires Valid() && OnlyAppends(act)
      modifies this
      ensures Valid() && View() == Advance(old(View()), Step(act, w))
      ensures var m := old(Move(View(), Step(act, w)));
              && (r.Some? <==> m.Some? && old(Blocks.Effective(BlockAt(Record(), m.value.0), w.now)) == Blocks.Ready)
              && (r.Some? ==> r.value == old(nextId) && BlockAt(Record(), m.value.0).state == EndsIn(m.value.0, m.value.1))
    {
      var m := Move(View(), Step(act, w));
      if m.None? {
        r := AppendIf(Step(act, w), false, OfWrite, w.now, None, None);
      } else {
        AppendingMoves(View(), Step(act, w));
        var (t, step) := m.value;
        r := AppendIf(Step(act, w), true, t, w.now, step.before, if step.Record? then Some(step.outcome) else None);
      }
    }

    /** Every check a caller makes before it takes the lock; what it saw is left for the act that uses it. */
    method Look(act: Act, w: World) returns (seen: set<Intent>)
      requires Valid() && OnlyLooks(act)
      modifies this`intents
      ensures Valid() && View() == Advance(old(View()), Step(act, w))
      ensures seen <= intents && seen == Seen(Record(), Step(act, w)) && Safety.SawInOrder(Record(), seen)
    {
      seen := Seen(Record(), Step(act, w));
      Safety.PipelineSeen(Record(), Step(act, w));
      Leave(Step(act, w), seen);
    }

    // -------------------------------------------------------------------------------------------
    // Items
    // -------------------------------------------------------------------------------------------

    method BeginItem(id: string, w: World) returns (r: Option<Blocks.AttemptId>)
      requires Valid()
      modifies this
      ensures Valid() && View() == Advance(old(View()), Step(Act.BeginItem(id), w))
      ensures r.Some? ==> Appended(old(Record()), Record(), OfItem(id), r.value) && r.value == old(nextId)
      ensures r.Some? <==> MayBegin(old(Record()), w, id)
    {
      r := AppendIf(Step(Act.BeginItem(id), w), !w.paused && FunctionalGate(Record(), w) && w.recorder
                    && proposal.sort == ChangeSet && IsAgentItem(Record(), id) && id !in delivery,
                    OfItem(id), w.now, None, None);
    }

    /** Closes an item's attempt; the observation, where one is given, becomes the item's delivery if the close
        is current and as applied. Whether it shows the approved values is the caller's to know: where it
        does, this is the protocol's finish. */
    method FinishItem(id: string, attempt: Blocks.AttemptId, outcome: Blocks.Outcome, seen: Option<Observed>, w: World)
      returns (ok: bool)
      requires Valid()
      modifies this
      ensures Valid() && View() == old(View()).(change := ItemFinished(old(Record()), id, attempt, outcome, seen, w.now))
      ensures ok == old(Blocks.Closable(Blocks.Item, BlockAt(Record(), OfItem(id)), attempt, outcome))
      ensures old(TruthfulFinish(Record(), id, outcome, seen)) ==>
                View() == Advance(old(View()), Step(Act.FinishItem(id, attempt, outcome, seen), w))
    {
      ghost var before := View();
      if TruthfulFinish(Record(), id, outcome, seen) {
        FinishAdvances(before, id, attempt, outcome, seen, w);
      }
      FinishKeepsIds(before, id, attempt, outcome, seen, w.now);
      var isCurrent := Blocks.IsCurrent(BlockAt(Record(), OfItem(id)), attempt);
      ok := Close(OfItem(id), attempt, outcome, w.now);
      if outcome == Blocks.AsApplied && isCurrent && seen.Some? {
        delivery := delivery[id := Delivery(seen.value, Agent)];
      }
    }

    /** Settles an item of unknown outcome: it is delivered, ready again, or diverged, by what was observed. */
    method ReconcileItem(id: string, observed: Observed, w: World) returns (r: Option<Blocks.State>)
      requires Valid() && proposal.sort == ChangeSet && ItemIn(Record(), id).Some?
      modifies this
      ensures Valid() && View() == Advance(old(View()), Step(Act.ReconcileItem(id, observed), w))
      ensures r.Some? <==> old(Blocks.Effective(BlockAt(Record(), OfItem(id)), w.now)) == Blocks.Unknown
      ensures r.Some? ==> (r.value == Blocks.Applied <==> Safety.Shows(proposal.items, id, observed))
      ensures r == Some(Blocks.Applied) ==> id in delivery && delivery[id].observed == observed
      ensures r == Some(Blocks.Ready) ==> BoundState(Record(), id) == Some(observed)
    {
      ghost var before := View();
      Safety.FreshStep(before, Step(Act.ReconcileItem(id, observed), w));
      ReconcileAdvances(before, id, observed, w);
      var verdict := ItemVerdict(Record(), id, observed);
      r := Settle(OfItem(id), verdict, w.now);
      if r == Some(Blocks.Applied) {
        delivery := delivery[id := Delivery(observed, Agent)];
      }
    }

    /** A person's recording, stored under the lock: only that nobody recorded the item meanwhile is
        checked again. */
    method StorePerson(id: string, observed: Observed, w: World) returns (ok: bool)
      requires Valid() && Recording(id, observed) in intents
      modifies this
      ensures Valid() && View() == Advance(old(View()), Step(Act.StorePerson(id, observed), w))
      ensures ok == old(id !in delivery) && id in delivery
    {
      ghost var before := View();
      Safety.FreshStep(before, Step(Act.StorePerson(id, observed), w));
      ok := id !in delivery;
      if ok {
        delivery := delivery[id := Delivery(observed, Person)];
      }
    }

    // -------------------------------------------------------------------------------------------
    // The write, the build and the test
    // -------------------------------------------------------------------------------------------

    method RecordCompletion(w: World) returns (r: Option<Blocks.AttemptId>)
      requires Valid() && Completing in intents
      modifies this
      ensures Valid() && View() == Advance(old(View()), Step(Act.RecordCompletion, w))
      ensures r == old(CompletionId(View(), w))
      ensures r.Some? ==> write.state == Blocks.Applied
    {
      r := AppendIf(Step(Act.RecordCompletion, w), !w.paused && FunctionalGate(Record(), w),
                    OfWrite, w.now, None, Some(Blocks.AsApplied));
    }

    /** Closes an attempt of the write, build or test; refused only where the attempt is unknown or a current
        close has an outcome its kind does not know. */
    method FinishAttempt(t: Target, attempt: Blocks.AttemptId, outcome: Blocks.Outcome, w: World) returns (ok: bool)
      requires Valid() && !t.OfItem?
      modifies this
      ensures Valid() && View() == old(View()).(change := Touched(old(Record()), t, Blocks.Finish(attempt, outcome, w.now)))
      ensures ok == old(Blocks.Closable(KindOf(t), BlockAt(Record(), t), attempt, outcome))
      ensures proposal.sort != Technical ==> View() == Advance(old(View()), Step(Act.FinishAttempt(t, attempt, outcome), w))
    {
      ghost var before := View();
      TouchKeepsIds(before, t, Blocks.Finish(attempt, outcome, w.now));
      if proposal.sort != Technical {
        AttemptAdvances(before, t, attempt, outcome, w);
      }
      ok := Close(t, attempt, outcome, w.now);
    }

    /** The latest before-value an attempt recorded. */
    static method LatestBefore(attempts: seq<Blocks.Attempt>) returns (r: Option<string>)
      ensures r == BeforeWrite(attempts)
    {
      var i := |attempts|;
      assert attempts[..i] == attempts;
      while i > 0 && attempts[i - 1].before.None?
        invariant 0 <= i <= |attempts|
        invariant BeforeWrite(attempts) == BeforeWrite(attempts[..i])
      {
        assert attempts[..i][..i - 1] == attempts[..i - 1];
        i := i - 1;
      }
      r := if i == 0 then None else attempts[i - 1].before;
      assert BeforeWrite(attempts[..i]) == r;
    }

    method ReconcileWrite(value: string, w: World) returns (r: Option<Blocks.State>)
      requires Valid() && proposal.sort == SingleOption
      modifies this
      ensures Valid() && View() == Advance(old(View()), Step(Act.ReconcileWrite(value), w))
      ensures r.Some? <==> old(Blocks.Effective(write, w.now)) == Blocks.Unknown
      ensures r.Some? ==> (r.value == Blocks.Applied <==> OptionValue(Record()) == Some(value))
      ensures r.Some? ==> (r.value == Blocks.Ready <==>
                             OptionValue(Record()) != Some(value) && BeforeWrite(write.attempts) == Some(value))
    {
      ghost var before := View();
      Safety.FreshStep(before, Step(Act.ReconcileWrite(value), w));
      var bound := LatestBefore(write.attempts);
      var verdict := if OptionValue(Record()) == Some(value) then Blocks.Confirmed
                     else if bound.Some? && bound == Some(value) then Blocks.NotDone
                     else Blocks.Neither;
      r := Settle(OfWrite, verdict, w.now);
    }

    method ReconcileTest(ran: bool, w: World) returns (r: Option<Blocks.State>)
      requires Valid()
      modifies this
      ensures Valid() && View() == Advance(old(View()), Step(Act.ReconcileTest(ran), w))
      ensures r == if old(Blocks.Effective(test, w.now)) != Blocks.Unknown then None
                   else Some(if ran then Blocks.Completed else Blocks.Ready)
    {
      ghost var before := View();
      Safety.FreshStep(before, Step(Act.ReconcileTest(ran), w));
      r := Settle(OfTest, if ran then Blocks.Confirmed else Blocks.NotDone, w.now);
    }

    // -------------------------------------------------------------------------------------------
    // Approval
    // -------------------------------------------------------------------------------------------

    /** Approves against the basis of this instant, in the name of the roles the approver really holds. */
    method ApproveChange(user: string, company: string, sessionRoles: set<string>, w: World) returns (ok: bool)
      requires Valid()
      modifies this`decision
      ensures Valid() && View() == Advance(old(View()), Step(Approve(user, company, sessionRoles), w))
      ensures ok ==> decision.status == Approved && decision.invalidations == [] && DesignHolds(Record(), w)
      ensures ok ==> decision.approval.Some? && decision.approval.value.roles <= RolesNow(w, user)
                     && decision.approval.value.roles != {} && decision.approval.value.expiresAt == w.now + w.validSeconds
    {
      ghost var before := View();
      Safety.FreshStep(before, Step(Approve(user, company, sessionRoles), w));
      if decision.status != Pending || company != proposal.company || w.policy.None? {
        return false;
      }
      var held := sessionRoles * RolesNow(w, user) * w.policy.value;
      if held == {} {
        return false;
      }
      var binding := Snapshot(Record(), w);
      if binding.None? {
        return false;
      }
      decision := Decision(Approved, Some(Approval(user, held, w.now + w.validSeconds)), binding, decision.invalidations);
      return true;
    }

    method RejectChange(company: string, note: string, w: World) returns (ok: bool)
      requires Valid()
      modifies this`decision
      ensures Valid() && View() == Advance(old(View()), Step(Reject(company, note), w))
      ensures ok ==> decision.status == Rejected && old(decision.status) == Pending && note != ""
    {
      ghost var before := View();
      Safety.FreshStep(before, Step(Reject(company, note), w));
      if decision.status != Pending || company != proposal.company || note == "" {
        return false;
      }
      decision := decision.(status := Rejected);
      return true;
    }

    // -------------------------------------------------------------------------------------------
    // Activation
    // -------------------------------------------------------------------------------------------

    /** The activation, stored under the lock: only the build and an earlier activation are looked at. */
    method RecordActivation(w: World) returns (ok: bool)
      requires Valid() && Activating in intents
      modifies this`cncActivated
      ensures Valid() && View() == Advance(old(View()), Step(Act.RecordActivation, w))
      ensures ok ==> cncActivated && !old(cncActivated) && build.state == Blocks.Built
    {
      ghost var before := View();
      Safety.FreshStep(before, Step(Act.RecordActivation, w));
      if Blocks.Effective(build, w.now) != Blocks.Built || cncActivated {
        return false;
      }
      cncActivated := true;
      return true;
    }

    // -------------------------------------------------------------------------------------------
    // Checks made before the lock is taken
    // -------------------------------------------------------------------------------------------

    /** The check of a person's recording; what it lets the person store is the observed state. */
    method CheckPerson(id: string, live: Option<Observed>, statement: Statement, w: World) returns (r: Option<Observed>)
      requires Valid()
      modifies this`intents
      ensures Valid() && View() == Advance(old(View()), Step(Act.CheckPerson(id, live, statement), w))
      ensures r.Some? ==> Recording(id, r.value) in intents && Safety.Shows(proposal.items, id, r.value)
    {
      r := if !MayRecordItem(Record(), w, id) then None
           else PersonObservation(ItemIn(Record(), id).value, live, statement);
      Leave(Step(Act.CheckPerson(id, live, statement), w), if r.Some? then {Recording(id, r.value)} else {});
    }

    /** Is every item delivered, and is the write recorded already? */
    method CheckComplete(w: World) returns (r: Completeness)
      requires Valid()
      modifies this`intents
      ensures Valid() && View() == Advance(old(View()), Step(Act.CheckComplete, w))
      ensures r == CompletenessOf(Record())
      ensures r == ToRecord ==> Completing in intents
    {
      r := if proposal.sort == ChangeSet && |proposal.items| > 0 then ToRecord else Incomplete;
      for i := 0 to |proposal.items|
        invariant r == ToRecord || r == Incomplete
        invariant r == ToRecord <==> proposal.sort == ChangeSet && |proposal.items| > 0
                                     && forall j :: 0 <= j < i ==> proposal.items[j].id in delivery
      {
        if proposal.items[i].id !in delivery {
          r := Incomplete;
        }
      }
      if r == ToRecord && Blocks.Effective(write, w.now) == Blocks.Applied {
        r := AlreadyRecorded;
      }
      Leave(Step(Act.CheckComplete, w), if r == ToRecord then {Completing} else {});
    }

    /** What everybody else does meanwhile. */
    method Meanwhile(steps: seq<Step>)
      requires Valid()
      modifies this
      ensures Valid() && View() == Run(old(View()), steps)
    {
      for i := 0 to |steps|
        invariant Valid() && View() == Run(old(View()), steps[..i])
      {
        assert steps[..i + 1][..i] == steps[..i];
        Safety.FreshStep(View(), steps[i]);
        Safety.StepGrows(View(), steps[i]);
        Take(Advance(View(), steps[i]));
      }
      assert steps[..|steps|] == steps;
    }

    method Take(s: Sys)
      requires s.change.proposal == proposal
      modifies this
      ensures View() == s
    {
      var e := s.change.execution;
      decision, delivery, cncActivated := s.change.decision, s.change.delivery, s.change.cncActivated;
      write, build, test, items := e.write, e.build, e.test, e.items;
      nextId, intents := s.nextId, s.intents;
    }

    // -------------------------------------------------------------------------------------------
    // Restart and invalidation
    // -------------------------------------------------------------------------------------------

    method InterruptItems() returns (count: nat)
      modifies this`items
      ensures items == InterruptedItems(old(items))
      ensures count == |set id | id in old(items) && old(items)[id].state == Blocks.InProgress|
    {
      count := 0;
      var todo := items.Keys;
      ghost var was := items;
      ghost var marked: set<string> := {};
      while todo != {}
        invariant todo <= was.Keys == items.Keys
        invariant forall id :: id in was ==>
                    items[id] == if id in todo then was[id] else Blocks.Apply(Blocks.Item, was[id], Blocks.Interrupt)
        invariant marked == set id | id in was && id !in todo && was[id].state == Blocks.InProgress
        invariant count == |marked|
        decreases todo
      {
        var id :| id in todo;
        if items[id].state == Blocks.InProgress {
          items := items[id := items[id].(state := Blocks.Unknown)];
          count := count + 1;
          marked := marked + {id};
        }
        todo := todo - {id};
      }
      assert marked == set id | id in was && was[id].state == Blocks.InProgress;
    }

    method InterruptBlocks() returns (count: nat)
      modifies this`write, this`build, this`test
      ensures write == Blocks.Apply(Blocks.Write, old(write), Blocks.Interrupt)
      ensures build == Blocks.Apply(Blocks.Build, old(build), Blocks.Interrupt)
      ensures test == Blocks.Apply(Blocks.Test, old(test), Blocks.Interrupt)
      ensures count == old(Running(write) + Running(build) + Running(test))
    {
      count := 0;
      if write.state == Blocks.InProgress {
        write := write.(state := Blocks.Unknown);
        count := count + 1;
      }
      if build.state == Blocks.InProgress {
        build := build.(state := Blocks.Unknown);
        count := count + 1;
      }
      if test.state == Blocks.InProgress {
        test := test.(state := Blocks.Unknown);
        count := count + 1;
      }
    }

    /** At start-up nothing can still be running: every attempt in progress becomes unknown. */
    method MarkInterrupted(w: World) returns (count: nat)
      requires Valid()
      modifies this
      ensures Valid() && View() == Advance(old(View()), Step(Restart, w))
      ensures count == |set id | id in old(items) && old(items)[id].state == Blocks.InProgress|
                       + old(Running(write) + Running(build) + Running(test))
    {
      ghost var before := View();
      Safety.FreshStep(before, Step(Restart, w));
      RestartOnly(before, w);
      var inItems := InterruptItems();
      var inBlocks := InterruptBlocks();
      return inItems + inBlocks;
    }

    method RecordInvalidation(why: string, w: World) returns (ok: bool)
      requires Valid()
      modifies this
      ensures Valid() && View() == Advance(old(View()), Step(Invalidate(why), w))
      ensures ok ==> decision.invalidations == old(decision.invalidations) + [why]
    {
      ghost var before := View();
      Safety.FreshStep(before, Step(Invalidate(why), w));
      if decision.status == Rejected {
        return false;
      }
      decision := decision.(invalidations := decision.invalidations + [why]);
      return true;
    }
  }

  /** What an act that appends does to its block: one new attempt, open, or closed as what is recorded. */
  lemma AppendingMoves(s: Sys, step: Step)
    requires OnlyAppends(step.act) && Move(s, step).Some?
    ensures var (t, m) := Move(s, step).value;
            m == (if m.Record? then Blocks.Record(s.nextId, m.outcome, step.world.now, m.before)
                  else Blocks.Begin(s.nextId, step.world.now, m.before))
            && (m.Record? ==> Blocks.Recordable(KindOf(t), m.outcome))
  {
  }

  function EndsIn(t: Target, m: Blocks.Step): Blocks.State {
    if m.Record? && Blocks.Recordable(KindOf(t), m.outcome) then Blocks.OutcomeState(KindOf(t), m.outcome).value
    else Blocks.InProgress
  }

  /** What the approval was bound to for an item. */
  function BoundState(c: Change, id: string): Option<Observed> {
    if c.decision.binding.Some? && id in c.decision.binding.value.itemsBefore
    then Some(c.decision.binding.value.itemsBefore[id]) else None
  }

  /** The record after the close of an item's attempt. */
  function ItemFinished(c: Change, id: string, attempt: Blocks.AttemptId, outcome: Blocks.Outcome, seen: Option<Observed>,
                        now: int): Change {
    var touched := Touched(c, OfItem(id), Blocks.Finish(attempt, outcome, now));
    if outcome == Blocks.AsApplied && Blocks.IsCurrent(BlockAt(c, OfItem(id)), attempt) && seen.Some?
    then Delivered(touched, id, seen.value, Agent) else touched
  }

  lemma FinishAdvances(s: Sys, id: string, attempt: Blocks.AttemptId, outcome: Blocks.Outcome, seen: Option<Observed>, w: World)
    requires TruthfulFinish(s.change, id, outcome, seen)
    ensures Advance(s, Step(Act.FinishItem(id, attempt, outcome, seen), w)) ==
              s.(change := ItemFinished(s.change, id, attempt, outcome, seen, w.now))
  {
  }

  lemma AttemptAdvances(s: Sys, t: Target, attempt: Blocks.AttemptId, outcome: Blocks.Outcome, w: World)
    requires s.change.proposal.sort != Technical && !t.OfItem?
    ensures Advance(s, Step(Act.FinishAttempt(t, attempt, outcome), w)) ==
              s.(change := Touched(s.change, t, Blocks.Finish(attempt, outcome, w.now)))
  {
  }

  lemma TouchKeepsIds(s: Sys, t: Target, m: Blocks.Step)
    requires Safety.FreshInv(s) && !m.Begin? && !m.Record?
    ensures Safety.FreshInv(s.(change := Touched(s.change, t, m)))
  {
    Blocks.AttemptsAreKept(KindOf(t), BlockAt(s.change, t), m);
    var r := s.(change := Touched(s.change, t, m));
    forall u: Target, i | 0 <= i < |BlockAt(r.change, u).attempts| ensures BlockAt(r.change, u).attempts[i].id < r.nextId {
      TouchedOnlyThere(s.change, t, m, u);
      assert BlockAt(s.change, u).attempts[i].id < s.nextId;
    }
  }

  lemma DeliveredKeepsIds(s: Sys, id: string, o: Observed, executor: Executor)
    requires Safety.FreshInv(s)
    ensures Safety.FreshInv(s.(change := Delivered(s.change, id, o, executor)))
  {
    var r := s.(change := Delivered(s.change, id, o, executor));
    forall u: Target, i | 0 <= i < |BlockAt(r.change, u).attempts| ensures BlockAt(r.change, u).attempts[i].id < r.nextId {
      assert BlockAt(r.change, u) == BlockAt(s.change, u);
    }
  }

  lemma FinishKeepsIds(s: Sys, id: string, attempt: Blocks.AttemptId, outcome: Blocks.Outcome, seen: Option<Observed>, now: int)
    requires Safety.FreshInv(s)
    ensures Safety.FreshInv(s.(change := ItemFinished(s.change, id, attempt, outcome, seen, now)))
  {
    var m := Blocks.Finish(attempt, outcome, now);
    TouchKeepsIds(s, OfItem(id), m);
    if outcome == Blocks.AsApplied && seen.Some? {
      DeliveredKeepsIds(s.(change := Touched(s.change, OfItem(id), m)), id, seen.value, Agent);
    }
  }

  lemma ReconcileAdvances(s: Sys, id: string, o: Observed, w: World)
    requires s.change.proposal.sort == ChangeSet && ItemIn(s.change, id).Some?
    ensures var c, verdict := s.change, ItemVerdict(s.change, id, o);
            var unknown := Blocks.Effective(BlockAt(c, OfItem(id)), w.now) == Blocks.Unknown;
            var touched := Touched(c, OfItem(id), Blocks.Reconcile(verdict, w.now));
            Advance(s, Step(Act.ReconcileItem(id, o), w))
            == Sys(if verdict == Blocks.Confirmed && unknown then Delivered(touched, id, o, Agent) else touched, s.nextId, s.intents)
  {
  }

  lemma RestartOnly(s: Sys, w: World)
    ensures Advance(s, Step(Restart, w)) == s.(change := Interrupted(s.change))
  {
  }

  function Running(b: Blocks.Block): nat {
    if b.state == Blocks.InProgress then 1 else 0
  }

  /** An attempt on the item may begin: nothing paused, the gate passed, the item the agents' and not
      delivered, and its block ready. */
  predicate MayBegin(c: Change, w: World, id: string) {
    && !w.paused && FunctionalGate(c, w) && w.recorder && c.proposal.sort == ChangeSet
    && IsAgentItem(c, id) && id !in c.delivery && Blocks.Effective(BlockAt(c, OfItem(id)), w.now) == Blocks.Ready
  }

  /** The id under which the write of a complete set is recorded, where the gate lets it be. */
  function CompletionId(s: Sys, w: World): Option<Blocks.AttemptId> {
    if !w.paused && FunctionalGate(s.change, w) then Some(s.nextId) else None
  }

  /** The block got exactly one more attempt, open, with this id. */
  predicate Appended(c: Change, d: Change, t: Target, id: Blocks.AttemptId) {
    var b, b' := BlockAt(c, t), BlockAt(d, t);
    && |b'.attempts| == |b.attempts| + 1 && b'.attempts[..|b.attempts|] == b.attempts
    && b'.attempts[|b.attempts|].id == id && b'.state == Blocks.InProgress
  }
}
