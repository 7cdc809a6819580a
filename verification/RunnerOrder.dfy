/** What a run of the agents promises, whatever everybody else does meanwhile. Every statement is about
    the deeds of the run, which are the steps the record really went through. */
module RunnerOrder {
  import opened Wrappers
  import opened Changes
  import opened Protocol
  import opened Runner
  import Blocks
  import Delivery
  import Safety

  // ---------------------------------------------------------------------------------------------
  // A run as its rounds
  // ---------------------------------------------------------------------------------------------

  /** The rounds of a run from item `k` on. */
  function Rounds(s: Sys, items: seq<Item>, plan: Plan, k: nat, mayRetry: bool): seq<Round>
    requires k <= |items| == |plan.scripts|
    decreases |items| - k
  {
    if k == |items| then []
    else
      var r := RoundOf(s, items[k], plan.scripts[k], mayRetry);
      [r] + if GoesOn(r.turn) then Rounds(Later(s, r.deeds), items, plan, k + 1, r.mayRetry) else []
  }

  function DeedsIn(rounds: seq<Round>): seq<Deed> {
    if rounds == [] then [] else rounds[0].deeds + DeedsIn(rounds[1..])
  }

  function TurnsIn(rounds: seq<Round>): seq<Turn> {
    seq(|rounds|, i requires 0 <= i < |rounds| => rounds[i].turn)
  }

  lemma TurnsOfRest(rounds: seq<Round>)
    requires rounds != []
    ensures TurnsIn(rounds)[1..] == TurnsIn(rounds[1..]) && TurnsIn(rounds)[0] == rounds[0].turn
  {
  }

  predicate OwnBegin(d: Deed) {
    d.own && d.step.act.BeginItem?
  }

  predicate BeginsNothing(deeds: seq<Deed>) {
    forall i :: 0 <= i < |deeds| ==> !OwnBegin(deeds[i])
  }

  predicate AllGoOn(rounds: seq<Round>) {
    rounds == [] || (GoesOn(rounds[0].turn) && AllGoOn(rounds[1..]))
  }

  /** The run consists of these rounds and, where it ends, of the completion, which begins nothing. */
  ghost predicate MadeOf(story: Story, rounds: seq<Round>, left: nat) {
    && story.turns == TurnsIn(rounds) && DeedsIn(rounds) <= story.deeds && BeginsNothing(story.deeds[|DeedsIn(rounds)|..])
    && |rounds| <= left
    && (story.finish.Ended? ==> |rounds| == left && AllGoOn(rounds))
  }

  lemma MadeOfOne(r: Round, k: nat)
    requires !GoesOn(r.turn)
    ensures MadeOf(Story([r.turn], r.deeds, HaltOf(r.turn, k)), [r], 1)
  {
    assert [r][1..] == [];
  }

  lemma MadeOfMore(r: Round, story: Story, rounds: seq<Round>, left: nat)
    requires GoesOn(r.turn) && MadeOf(story, rounds, left)
    ensures MadeOf(Then([r.turn], r.deeds, story), [r] + rounds, left + 1)
  {
    assert ([r] + rounds)[1..] == rounds;
    var more := Then([r.turn], r.deeds, story);
    assert more.deeds[|DeedsIn([r] + rounds)|..] == story.deeds[|DeedsIn(rounds)|..];
  }

  lemma CompletionBegins(s: Sys, ending: Ending)
    ensures BeginsNothing(CompletionOf(s, ending).1)
  {
  }

  lemma MadeOfNone(s: Sys, ending: Ending)
    ensures var c := CompletionOf(s, ending); MadeOf(Story([], c.1, Ended(c.0)), [], 0)
  {
    CompletionBegins(s, ending);
    var c := CompletionOf(s, ending);
    assert c.1[0..] == c.1;
  }

  lemma {:induction false} PlayIsRounds(s: Sys, items: seq<Item>, plan: Plan, k: nat, mayRetry: bool)
    requires k <= |items| == |plan.scripts|
    ensures MadeOf(Play(s, items, plan, k, mayRetry), Rounds(s, items, plan, k, mayRetry), |items| - k)
    decreases |items| - k
  {
    if k == |items| {
      MadeOfNone(s, plan.ending);
    } else {
      var r := RoundOf(s, items[k], plan.scripts[k], mayRetry);
      if GoesOn(r.turn) {
        PlayIsRounds(Later(s, r.deeds), items, plan, k + 1, r.mayRetry);
        MadeOfMore(r, Play(Later(s, r.deeds), items, plan, k + 1, r.mayRetry),
                   Rounds(Later(s, r.deeds), items, plan, k + 1, r.mayRetry), |items| - k - 1);
      } else {
        MadeOfOne(r, k);
      }
    }
  }

  // ---------------------------------------------------------------------------------------------
  // The attempts a run begins are its turns
  // ---------------------------------------------------------------------------------------------

  /** The items on which the run itself began, or asked to begin, an attempt, in order. */
  function Begun(deeds: seq<Deed>): seq<string> {
    if deeds == [] then []
    else
      var last, front := deeds[|deeds| - 1], Begun(deeds[..|deeds| - 1]);
      if OwnBegin(last) then front + [last.step.act.item] else front
  }

  /** The items whose turn was to be attempted; `k` is the first item's number. */
  function Attempted(items: seq<Item>, turns: seq<Turn>, k: nat): seq<string>
    requires k + |turns| <= |items|
  {
    if turns == [] then []
    else (if turns[0].Ran? then [items[k].id] else []) + Attempted(items, turns[1..], k + 1)
  }

  lemma {:induction false} BegunAppend(a: seq<Deed>, b: seq<Deed>)
    ensures Begun(a + b) == Begun(a) + Begun(b)
  {
    if b == [] {
      assert a + b == a;
    } else {
      BegunAppend(a, b[..|b| - 1]);
      assert (a + b)[..|a + b| - 1] == a + b[..|b| - 1];
    }
  }

  lemma BegunOne(d: Deed)
    ensures Begun([d]) == if OwnBegin(d) then [d.step.act.item] else []
  {
    assert [d][..0] == [];
  }

  lemma {:induction false} NothingBegun(deeds: seq<Deed>)
    requires BeginsNothing(deeds)
    ensures Begun(deeds) == []
  {
    if deeds != [] {
      NothingBegun(deeds[..|deeds| - 1]);
    }
  }

  lemma BeginsOnce(front: seq<Deed>, begin: Deed, rest: seq<Deed>)
    requires BeginsNothing(front) && BeginsNothing(rest) && OwnBegin(begin)
    ensures Begun(front + ([begin] + rest)) == [begin.step.act.item]
    ensures forall i :: 0 <= i < |front + ([begin] + rest)| && OwnBegin((front + ([begin] + rest))[i]) ==>
              (front + ([begin] + rest))[i] == begin
  {
    NothingBegun(front);
    NothingBegun(rest);
    BegunOne(begin);
    BegunAppend([begin], rest);
    BegunAppend(front, [begin] + rest);
  }

  /** A round begins an attempt on its item, or none. */
  predicate BeginsFor(r: Round, item: Item) {
    && Begun(r.deeds) == (if r.turn.Ran? then [item.id] else [])
    && forall i :: 0 <= i < |r.deeds| && OwnBegin(r.deeds[i]) ==> r.deeds[i].step.act == BeginItem(item.id)
  }

  lemma RanBegins(front: seq<Step>, item: Item, script: Script, run: ItemRun)
    ensures var deeds := Others(front) + DeedsOf(item, script, run);
            && Begun(deeds) == [item.id]
            && forall i :: 0 <= i < |deeds| && OwnBegin(deeds[i]) ==> deeds[i].step.act == BeginItem(item.id)
  {
    BeginsOnce(Others(front), Deed(true, BeginOf(item, script)), AfterBegin(item, script, run));
  }

  lemma RoundBegins(s: Sys, item: Item, script: Script, mayRetry: bool)
    ensures BeginsFor(RoundOf(s, item, script, mayRetry), item)
  {
    var r := RoundOf(s, item, script, mayRetry);
    if r.turn.Ran? {
      RanBegins(script.idle + script.pause, item, script, r.turn.run);
    } else {
      NothingBegun(r.deeds);
    }
  }

  predicate RoundsBegin(rounds: seq<Round>, items: seq<Item>, k: nat) {
    k + |rounds| <= |items|
    && (rounds == [] || (BeginsFor(rounds[0], items[k]) && RoundsBegin(rounds[1..], items, k + 1)))
  }

  lemma RoundsBeginMore(r: Round, rounds: seq<Round>, items: seq<Item>, k: nat)
    requires k < |items| && BeginsFor(r, items[k]) && RoundsBegin(rounds, items, k + 1)
    ensures RoundsBegin([r] + rounds, items, k)
  {
    assert ([r] + rounds)[1..] == rounds;
  }

  lemma {:induction false} AllRoundsBegin(s: Sys, items: seq<Item>, plan: Plan, k: nat, mayRetry: bool)
    requires k <= |items| == |plan.scripts|
    ensures RoundsBegin(Rounds(s, items, plan, k, mayRetry), items, k)
    decreases |items| - k
  {
    if k < |items| {
      var r := RoundOf(s, items[k], plan.scripts[k], mayRetry);
      RoundBegins(s, items[k], plan.scripts[k], mayRetry);
      if GoesOn(r.turn) {
        AllRoundsBegin(Later(s, r.deeds), items, plan, k + 1, r.mayRetry);
        RoundsBeginMore(r, Rounds(Later(s, r.deeds), items, plan, k + 1, r.mayRetry), items, k);
      } else {
        RoundsBeginMore(r, [], items, k);
      }
    }
  }

  lemma {:induction false} BegunInRounds(rounds: seq<Round>, items: seq<Item>, k: nat)
    requires RoundsBegin(rounds, items, k)
    ensures Begun(DeedsIn(rounds)) == Attempted(items, TurnsIn(rounds), k)
  {
    if rounds != [] {
      BegunInRounds(rounds[1..], items, k + 1);
      BegunAppend(rounds[0].deeds, DeedsIn(rounds[1..]));
      TurnsOfRest(rounds);
    }
  }

  lemma StoryBegins(story: Story, rounds: seq<Round>, items: seq<Item>)
    requires MadeOf(story, rounds, |items|) && RoundsBegin(rounds, items, 0)
    ensures |story.turns| <= |items| && Begun(story.deeds) == Attempted(items, story.turns, 0)
  {
    var tail := story.deeds[|DeedsIn(rounds)|..];
    BegunInRounds(rounds, items, 0);
    NothingBegun(tail);
    BegunAppend(DeedsIn(rounds), tail);
    assert story.deeds == DeedsIn(rounds) + tail;
  }

  /** The attempts a run asks for are exactly those its turns report, in the order of the items, each item at
      most once -- and it does nothing at all where it is not authorised. */
  lemma BeginsAreTheTurns(s: Sys, plan: Plan, retry: bool)
    requires |plan.scripts| == |s.change.proposal.items|
    ensures var story := Played(s, plan, retry);
            && |story.turns| <= |s.change.proposal.items|
            && Begun(story.deeds) == Attempted(s.change.proposal.items, story.turns, 0)
            && (!Authorised(s.change, plan.authorise) ==> story.deeds == [])
  {
    if Authorised(s.change, plan.authorise) {
      var items := s.change.proposal.items;
      PlayIsRounds(s, items, plan, 0, retry);
      AllRoundsBegin(s, items, plan, 0, retry);
      StoryBegins(Play(s, items, plan, 0, retry), Rounds(s, items, plan, 0, retry), items);
    }
  }

  // ---------------------------------------------------------------------------------------------
  // Each attempt begins when every earlier item is done
  // ---------------------------------------------------------------------------------------------

  /** The record before the p-th deed. */
  function At(s: Sys, deeds: seq<Deed>, p: nat): Sys
    requires p <= |deeds|
  {
    Later(s, deeds[..p])
  }

  /** The q-th deed is the run's own close of the item as applied, and it is late: the attempt is no longer
      the current one. */
  predicate LateAt(s: Sys, deeds: seq<Deed>, q: nat, id: string) {
    && q < |deeds| && deeds[q].own && deeds[q].step.act.FinishItem? && deeds[q].step.act.item == id
    && deeds[q].step.act.outcome == Blocks.AsApplied
    && !Blocks.IsCurrent(BlockAt(At(s, deeds, q).change, OfItem(id)), deeds[q].step.act.id)
  }

  /** After these deeds the item is delivered, or the run itself had closed it late. */
  ghost predicate DoneBy(s: Sys, deeds: seq<Deed>, id: string) {
    id in Later(s, deeds).change.delivery || exists q: nat :: LateAt(s, deeds, q, id)
  }

  /** A finding about an item after some deeds that no further deed undoes. */
  type Finding = (seq<Deed>, string) -> bool

  ghost function DoneIn(s: Sys): Finding {
    (deeds, id) => DoneBy(s, deeds, id)
  }

  ghost predicate Lasting(done: Finding) {
    forall deeds, more, id :: done(deeds, id) ==> done(deeds + more, id)
  }

  /** The p-th deed begins an attempt on an item, and every item before it in the set is done. */
  ghost predicate InOrder(done: Finding, deeds: seq<Deed>, p: nat, items: seq<Item>)
    requires p < |deeds|
  {
    exists k :: 0 <= k < |items| && deeds[p].step.act == BeginItem(items[k].id) && DoneUpTo(done, deeds[..p], items, k)
  }

  ghost predicate DoneUpTo(done: Finding, deeds: seq<Deed>, items: seq<Item>, k: nat)
    requires k <= |items|
  {
    forall j :: 0 <= j < k ==> done(deeds, items[j].id)
  }

  lemma LateStays(s: Sys, deeds: seq<Deed>, more: seq<Deed>, q: nat, id: string)
    requires q < |deeds|
    ensures LateAt(s, deeds + more, q, id) <==> LateAt(s, deeds, q, id)
  {
    assert (deeds + more)[..q] == deeds[..q];
  }

  lemma DeliveredStays(s: Sys, deeds: seq<Deed>, more: seq<Deed>, id: string)
    requires id in Later(s, deeds).change.delivery
    ensures id in Later(s, deeds + more).change.delivery
  {
    LaterAppend(s, deeds, more);
    Delivery.Growth(Later(s, deeds), Steps(more));
  }

  lemma DoneStays(s: Sys, deeds: seq<Deed>, more: seq<Deed>, id: string)
    requires DoneBy(s, deeds, id)
    ensures DoneBy(s, deeds + more, id)
  {
    if id in Later(s, deeds).change.delivery {
      DeliveredStays(s, deeds, more, id);
    } else {
      var q: nat :| LateAt(s, deeds, q, id);
      LateStays(s, deeds, more, q, id);
    }
  }

  lemma DoneLasts(s: Sys)
    ensures Lasting(DoneIn(s))
  {
    forall deeds, more, id | DoneIn(s)(deeds, id) ensures DoneIn(s)(deeds + more, id) {
      DoneStays(s, deeds, more, id);
    }
  }

  lemma AllStayDone(done: Finding, deeds: seq<Deed>, more: seq<Deed>, items: seq<Item>, k: nat)
    requires Lasting(done) && k <= |items| && DoneUpTo(done, deeds, items, k)
    ensures DoneUpTo(done, deeds + more, items, k)
  {
  }

  lemma CurrentDelivers(s: Sys, step: Step)
    requires step.act.FinishItem? && step.act.outcome == Blocks.AsApplied
    requires TruthfulFinish(s.change, step.act.item, step.act.outcome, step.act.seen)
    requires Blocks.IsCurrent(BlockAt(s.change, OfItem(step.act.item)), step.act.id)
    ensures step.act.item in Advance(s, step).change.delivery
  {
    Safety.MovedDelivers(Use(s, Note(s.change, step), step), Move(s, step));
  }

  /** The close of an attempt as applied leaves the item delivered, or was late. */
  lemma CloseIsDone(s: Sys, deeds: seq<Deed>, d: Deed)
    requires d.own && d.step.act.FinishItem? && d.step.act.outcome == Blocks.AsApplied
    requires TruthfulFinish(Later(s, deeds).change, d.step.act.item, d.step.act.outcome, d.step.act.seen)
    ensures DoneBy(s, deeds + [d], d.step.act.item)
  {
    var id := d.step.act.item;
    LaterAppend(s, deeds, [d]);
    LaterOne(Later(s, deeds), d);
    if Blocks.IsCurrent(BlockAt(Later(s, deeds).change, OfItem(id)), d.step.act.id) {
      CurrentDelivers(Later(s, deeds), d.step);
    } else {
      assert (deeds + [d])[..|deeds|] == deeds;
      assert LateAt(s, deeds + [d], |deeds|, id);
    }
  }

  lemma RanIsDone(s0: Sys, front: seq<Deed>, item: Item, script: Script, r: ItemRun)
    requires ItemIn(s0.change, item.id) == Some(item) && r.Closed? && r.outcome == Blocks.AsApplied
    requires r.seen.Some? && MatchesApproved(item, r.seen.value)
    ensures DoneBy(s0, front + (Others(script.idle + script.pause) + DeedsOf(item, script, r)), item.id)
  {
    var begun := Others(script.idle + script.pause) + [Deed(true, BeginOf(item, script))] + Others(script.during);
    var d := Deed(true, FinishOf(item, script, r));
    Delivery.Growth(s0, Steps(front + begun));
    CloseIsDone(s0, front + begun, d);
    assert front + begun + [d] == front + (Others(script.idle + script.pause) + DeedsOf(item, script, r));
  }

  lemma SkippedIsDone(s0: Sys, front: seq<Deed>, item: Item, idle: seq<Step>)
    requires item.id in Run(Later(s0, front), idle).change.delivery
    ensures DoneBy(s0, front + Others(idle), item.id)
  {
    LaterAppend(s0, front, Others(idle));
    LaterOthers(Later(s0, front), idle);
  }

  /** An item the run goes on from is done. */
  lemma RoundIsDone(s0: Sys, front: seq<Deed>, item: Item, script: Script, mayRetry: bool)
    requires ItemIn(s0.change, item.id) == Some(item)
    ensures var r := RoundOf(Later(s0, front), item, script, mayRetry);
            GoesOn(r.turn) ==> DoneBy(s0, front + r.deeds, item.id)
  {
    var r := RoundOf(Later(s0, front), item, script, mayRetry);
    if r.turn.Skipped? {
      SkippedIsDone(s0, front, item, script.idle);
    } else if GoesOn(r.turn) {
      RanIsDone(s0, front, item, script, r.turn.run);
    }
  }

  /** The rounds, from item `k` on and after `front`, each begin only on their item and leave it done. */
  ghost predicate Fits(done: Finding, front: seq<Deed>, items: seq<Item>, k: nat, rounds: seq<Round>)
    requires k + |rounds| <= |items|
    decreases |rounds|
  {
    rounds == []
    || (&& BeginsFor(rounds[0], items[k])
        && (GoesOn(rounds[0].turn) ==> done(front + rounds[0].deeds, items[k].id))
        && (|rounds| > 1 ==> GoesOn(rounds[0].turn))
        && Fits(done, front + rounds[0].deeds, items, k + 1, rounds[1..]))
  }

  lemma FitsMore(done: Finding, front: seq<Deed>, items: seq<Item>, k: nat, r: Round, rounds: seq<Round>)
    requires k + 1 + |rounds| <= |items| && BeginsFor(r, items[k])
    requires GoesOn(r.turn) ==> done(front + r.deeds, items[k].id)
    requires rounds != [] ==> GoesOn(r.turn)
    requires Fits(done, front + r.deeds, items, k + 1, rounds)
    ensures Fits(done, front, items, k, [r] + rounds)
  {
    assert ([r] + rounds)[1..] == rounds;
  }

  lemma {:induction false} RoundsFit(s0: Sys, front: seq<Deed>, items: seq<Item>, plan: Plan, k: nat, mayRetry: bool)
    requires k <= |items| == |plan.scripts| && items == s0.change.proposal.items && UniqueItems(items)
    ensures var rounds := Rounds(Later(s0, front), items, plan, k, mayRetry);
            k + |rounds| <= |items| && Fits(DoneIn(s0), front, items, k, rounds)
    decreases |items| - k
  {
    var s := Later(s0, front);
    if k < |items| {
      var r := RoundOf(s, items[k], plan.scripts[k], mayRetry);
      ItemIsFound(items, k);
      RoundBegins(s, items[k], plan.scripts[k], mayRetry);
      RoundIsDone(s0, front, items[k], plan.scripts[k], mayRetry);
      if GoesOn(r.turn) {
        LaterAppend(s0, front, r.deeds);
        RoundsFit(s0, front + r.deeds, items, plan, k + 1, r.mayRetry);
        FitsMore(DoneIn(s0), front, items, k, r, Rounds(Later(s, r.deeds), items, plan, k + 1, r.mayRetry));
      } else {
        FitsMore(DoneIn(s0), front, items, k, r, []);
      }
    }
  }

  /** A begin within a round is in order if everything before the round is done. */
  lemma BeginInOrder(done: Finding, front: seq<Deed>, items: seq<Item>, k: nat, r: Round, rest: seq<Deed>, p: nat)
    requires Lasting(done) && k < |items| && BeginsFor(r, items[k]) && DoneUpTo(done, front, items, k)
    requires |front| <= p < |front + r.deeds| && OwnBegin((front + r.deeds + rest)[p])
    ensures InOrder(done, front + r.deeds + rest, p, items)
  {
    var deeds := front + r.deeds + rest;
    assert deeds[p] == r.deeds[p - |front|];
    assert deeds[..p] == front + deeds[|front|..p];
    AllStayDone(done, front, deeds[|front|..p], items, k);
  }

  lemma BeginIsNotInTail(deeds: seq<Deed>, tail: seq<Deed>, p: nat)
    requires BeginsNothing(tail) && p < |deeds + tail|
    ensures OwnBegin((deeds + tail)[p]) ==> p < |deeds|
  {
    if p >= |deeds| {
      assert (deeds + tail)[p] == tail[p - |deeds|];
    }
  }

  lemma FourParts(front: seq<Deed>, a: seq<Deed>, b: seq<Deed>, tail: seq<Deed>)
    ensures front + (a + b) + tail == front + a + (b + tail) == front + a + b + tail
    ensures front + (a + b) == front + a + b
  {
    assert front + (a + b) == front + a + b;
    assert front + a + b + tail == front + a + (b + tail);
  }

  lemma DeedsOfFirst(front: seq<Deed>, rounds: seq<Round>, tail: seq<Deed>)
    requires rounds != []
    ensures front + DeedsIn(rounds) + tail == front + rounds[0].deeds + (DeedsIn(rounds[1..]) + tail)
    ensures front + DeedsIn(rounds) + tail == front + rounds[0].deeds + DeedsIn(rounds[1..]) + tail
    ensures front + DeedsIn(rounds) == front + rounds[0].deeds + DeedsIn(rounds[1..])
  {
    FourParts(front, rounds[0].deeds, DeedsIn(rounds[1..]), tail);
  }

  lemma {:induction false} RoundsInOrder(done: Finding, front: seq<Deed>, items: seq<Item>, k: nat, rounds: seq<Round>,
                                         tail: seq<Deed>, p: nat)
    requires Lasting(done) && k + |rounds| <= |items|
    requires Fits(done, front, items, k, rounds) && DoneUpTo(done, front, items, k)
    requires BeginsNothing(tail) && |front| <= p < |front + DeedsIn(rounds) + tail|
    requires OwnBegin((front + DeedsIn(rounds) + tail)[p])
    ensures InOrder(done, front + DeedsIn(rounds) + tail, p, items)
    decreases |rounds|
  {
    BeginIsNotInTail(front + DeedsIn(rounds), tail, p);
    if rounds != [] {
      var r := rounds[0];
      DeedsOfFirst(front, rounds, tail);
      if p < |front + r.deeds| {
        BeginInOrder(done, front, items, k, r, DeedsIn(rounds[1..]) + tail, p);
      } else if |rounds| > 1 {
        AllStayDone(done, front, r.deeds, items, k);
        RoundsInOrder(done, front + r.deeds, items, k + 1, rounds[1..], tail, p);
      }
    }
  }

  lemma StoryInOrder(done: Finding, story: Story, rounds: seq<Round>, items: seq<Item>, p: nat)
    requires Lasting(done) && MadeOf(story, rounds, |items|) && Fits(done, [], items, 0, rounds)
    requires p < |story.deeds| && OwnBegin(story.deeds[p])
    ensures InOrder(done, story.deeds, p, items)
  {
    var tail := story.deeds[|DeedsIn(rounds)|..];
    assert story.deeds == [] + DeedsIn(rounds) + tail;
    RoundsInOrder(done, [], items, 0, rounds, tail, p);
  }

  /** A run is rounds that fit. */
  lemma StoryFits(s: Sys, plan: Plan, retry: bool) returns (rounds: seq<Round>)
    requires |plan.scripts| == |s.change.proposal.items| && UniqueItems(s.change.proposal.items)
    requires Authorised(s.change, plan.authorise)
    ensures MadeOf(Played(s, plan, retry), rounds, |s.change.proposal.items|)
    ensures Fits(DoneIn(s), [], s.change.proposal.items, 0, rounds)
  {
    LaterNothing(s);
    rounds := Rounds(s, s.change.proposal.items, plan, 0, retry);
    PlayIsRounds(s, s.change.proposal.items, plan, 0, retry);
    RoundsFit(s, [], s.change.proposal.items, plan, 0, retry);
  }

  /** Whenever the run begins an attempt, every earlier item of the set is delivered in that very state of
      the record, or the run itself had closed it as applied too late to count. */
  lemma EveryBeginIsInOrder(s: Sys, plan: Plan, retry: bool, p: nat)
    requires |plan.scripts| == |s.change.proposal.items| && UniqueItems(s.change.proposal.items)
    requires p < |Played(s, plan, retry).deeds| && OwnBegin(Played(s, plan, retry).deeds[p])
    ensures InOrder(DoneIn(s), Played(s, plan, retry).deeds, p, s.change.proposal.items)
  {
    var rounds := StoryFits(s, plan, retry);
    DoneLasts(s);
    StoryInOrder(DoneIn(s), Played(s, plan, retry), rounds, s.change.proposal.items, p);
  }

  lemma NoneLateBefore(s: Sys, deeds: seq<Deed>, p: nat, id: string)
    requires p <= |deeds| && (forall q: nat, id :: !LateAt(s, deeds, q, id)) && DoneBy(s, deeds[..p], id)
    ensures id in At(s, deeds, p).change.delivery
  {
    forall q: nat ensures !LateAt(s, deeds[..p], q, id) {
      if q < p {
        LateStays(s, deeds[..p], deeds[p..], q, id);
        assert deeds == deeds[..p] + deeds[p..];
        assert !LateAt(s, deeds, q, id);
      }
    }
  }

  /** Where none of its closes was late, every item before the one it begins -- a person's included -- is
      delivered in that state, however many runners and persons are at work. */
  lemma BeginsFollowDeliveries(s: Sys, plan: Plan, retry: bool, p: nat, k: nat, j: nat)
    requires |plan.scripts| == |s.change.proposal.items| && UniqueItems(s.change.proposal.items)
    requires j < k < |s.change.proposal.items| && p < |Played(s, plan, retry).deeds|
    requires Played(s, plan, retry).deeds[p].own
    requires Played(s, plan, retry).deeds[p].step.act == BeginItem(s.change.proposal.items[k].id)
    requires forall q: nat, id :: !LateAt(s, Played(s, plan, retry).deeds, q, id)
    ensures s.change.proposal.items[j].id in At(s, Played(s, plan, retry).deeds, p).change.delivery
  {
    var deeds, items := Played(s, plan, retry).deeds, s.change.proposal.items;
    EveryBeginIsInOrder(s, plan, retry, p);
    FollowsInOrder(DoneIn(s), deeds, p, items, k, j);
    NoneLateBefore(s, deeds, p, items[j].id);
  }

  lemma FollowsInOrder(done: Finding, deeds: seq<Deed>, p: nat, items: seq<Item>, k: nat, j: nat)
    requires UniqueItems(items) && j < k < |items| && p < |deeds| && InOrder(done, deeds, p, items)
    requires deeds[p].step.act == BeginItem(items[k].id)
    ensures done(deeds[..p], items[j].id)
  {
    var i :| 0 <= i < |items| && deeds[p].step.act == BeginItem(items[i].id) && DoneUpTo(done, deeds[..p], items, i);
    assert i == k;
  }

  // ---------------------------------------------------------------------------------------------
  // Completion and the deliberate retry
  // ---------------------------------------------------------------------------------------------

  lemma {:induction false} RoundsComplete(done: Finding, front: seq<Deed>, items: seq<Item>, k: nat, rounds: seq<Round>)
    requires Lasting(done) && k + |rounds| == |items|
    requires Fits(done, front, items, k, rounds) && DoneUpTo(done, front, items, k)
    requires AllGoOn(rounds)
    ensures DoneUpTo(done, front + DeedsIn(rounds), items, |items|)
    decreases |rounds|
  {
    if rounds == [] {
      assert front + DeedsIn(rounds) == front;
    } else {
      AllStayDone(done, front, rounds[0].deeds, items, k);
      RoundsComplete(done, front + rounds[0].deeds, items, k + 1, rounds[1..]);
      DeedsOfFirst(front, rounds, []);
    }
  }

  lemma StoryCompletes(done: Finding, story: Story, rounds: seq<Round>, items: seq<Item>)
    requires Lasting(done) && MadeOf(story, rounds, |items|) && Fits(done, [], items, 0, rounds) && story.finish.Ended?
    ensures DoneUpTo(done, story.deeds, items, |items|)
  {
    RoundsComplete(done, [], items, 0, rounds);
    var tail := story.deeds[|DeedsIn(rounds)|..];
    assert [] + DeedsIn(rounds) == DeedsIn(rounds);
    AllStayDone(done, DeedsIn(rounds), tail, items, |items|);
    assert story.deeds == DeedsIn(rounds) + tail;
  }

  /** A run that reports the set as applied leaves every item delivered, or had closed it late itself. */
  lemma EndedMeansDone(s: Sys, plan: Plan, retry: bool)
    requires |plan.scripts| == |s.change.proposal.items| && UniqueItems(s.change.proposal.items)
    requires Played(s, plan, retry).finish.Ended?
    ensures DoneUpTo(DoneIn(s), Played(s, plan, retry).deeds, s.change.proposal.items, |s.change.proposal.items|)
  {
    var rounds := StoryFits(s, plan, retry);
    DoneLasts(s);
    StoryCompletes(DoneIn(s), Played(s, plan, retry), rounds, s.change.proposal.items);
  }

  function Retries(turns: seq<Turn>): nat {
    if turns == [] then 0 else (if turns[0].Ran? && turns[0].retried then 1 else 0) + Retries(turns[1..])
  }

  lemma RoundRetries(s: Sys, item: Item, script: Script, mayRetry: bool)
    ensures var r := RoundOf(s, item, script, mayRetry);
            (r.mayRetry ==> mayRetry) && (r.turn.Ran? && r.turn.retried ==> mayRetry && !r.mayRetry)
  {
  }

  /** Each round keeps to the retries that are left. */
  predicate RetriesKept(rounds: seq<Round>, mayRetry: bool) {
    rounds == []
    || (&& (rounds[0].mayRetry ==> mayRetry)
        && (rounds[0].turn.Ran? && rounds[0].turn.retried ==> mayRetry && !rounds[0].mayRetry)
        && RetriesKept(rounds[1..], rounds[0].mayRetry))
  }

  lemma KeptMore(r: Round, rounds: seq<Round>, mayRetry: bool)
    requires (r.mayRetry ==> mayRetry) && (r.turn.Ran? && r.turn.retried ==> mayRetry && !r.mayRetry)
    requires RetriesKept(rounds, r.mayRetry)
    ensures RetriesKept([r] + rounds, mayRetry)
  {
    assert ([r] + rounds)[1..] == rounds;
  }

  lemma {:induction false} RoundsKeepRetries(s: Sys, items: seq<Item>, plan: Plan, k: nat, mayRetry: bool)
    requires k <= |items| == |plan.scripts|
    ensures RetriesKept(Rounds(s, items, plan, k, mayRetry), mayRetry)
    decreases |items| - k
  {
    if k < |items| {
      var r := RoundOf(s, items[k], plan.scripts[k], mayRetry);
      RoundRetries(s, items[k], plan.scripts[k], mayRetry);
      if GoesOn(r.turn) {
        RoundsKeepRetries(Later(s, r.deeds), items, plan, k + 1, r.mayRetry);
        KeptMore(r, Rounds(Later(s, r.deeds), items, plan, k + 1, r.mayRetry), mayRetry);
      } else {
        KeptMore(r, [], mayRetry);
      }
    }
  }

  lemma {:induction false} KeptMeansOne(rounds: seq<Round>, mayRetry: bool)
    requires RetriesKept(rounds, mayRetry)
    ensures Retries(TurnsIn(rounds)) <= if mayRetry then 1 else 0
  {
    if rounds != [] {
      KeptMeansOne(rounds[1..], rounds[0].mayRetry);
      TurnsOfRest(rounds);
    }
  }

  /** A run retries at most one item, and none unless it was asked to. */
  lemma AtMostOneRetry(s: Sys, plan: Plan, retry: bool)
    requires |plan.scripts| == |s.change.proposal.items|
    ensures Retries(Played(s, plan, retry).turns) <= if retry then 1 else 0
  {
    if Authorised(s.change, plan.authorise) {
      PlayIsRounds(s, s.change.proposal.items, plan, 0, retry);
      RoundsKeepRetries(s, s.change.proposal.items, plan, 0, retry);
      KeptMeansOne(Rounds(s, s.change.proposal.items, plan, 0, retry), retry);
    }
  }

  /** An item is attempted as a retry exactly if its last attempt had stopped before anything was saved when
      the run looked; a person's item, an unsettled or a delivered one is never attempted. */
  lemma RetriedExactly(s: Sys, item: Item, script: Script, mayRetry: bool)
    ensures var r, looked := RoundOf(s, item, script, mayRetry), Run(s, script.idle).change;
            r.turn.Ran? ==>
              && (r.turn.retried <==> LastNotSent(looked, item.id))
              && item.executor == Agent && item.id !in looked.delivery && script.look.agentAvailable
              && BlockAt(looked, OfItem(item.id)).state !in {Blocks.Unknown, Blocks.Diverged, Blocks.InProgress}
  {
  }
}
