/** The advisory lock: a row per section naming its holder and when it was acquired. Any number of
    processes take it, leave it, crash in it, or overstay and are taken over. Each transaction on
    the rows is one step; between the transactions of one process anything may happen. */
module AdvisoryLock {
  datatype Row = Row(holder: string, acquiredAt: int)

  /** Where a process is: in the section since it acquired the row, past it but not yet released, or
      gone, by releasing or by a crash. A process that never acquired is in no phase. */
  datatype Phase = Inside(name: string, since: int) | Leaving(name: string) | Gone

  datatype Locks = Locks(now: int, rows: map<string, Row>, procs: map<string, Phase>)

  datatype Step =
    | Tick(seconds: nat)
    | Try(holder: string, name: string)
    | Leave(holder: string)
    | Release(holder: string)
    | Crash(holder: string)

  const NO_LOCKS := Locks(0, map[], map[])

  /** The row keeps others out: it is there, and not stale. */
  predicate Blocked(s: Locks, name: string, stale: int) {
    name in s.rows && s.now - s.rows[name].acquiredAt <= stale
  }

  predicate IsInside(s: Locks, holder: string, name: string) {
    holder in s.procs && s.procs[holder].Inside? && s.procs[holder].name == name
  }

  /** A holder's name is made for one acquisition: a process that has a phase does not try again. */
  function Next(s: Locks, step: Step, stale: int): Locks {
    match step
    case Tick(seconds) => s.(now := s.now + seconds)
    case Try(h, name) =>
      if h in s.procs || Blocked(s, name, stale) then s
      else s.(rows := s.rows[name := Row(h, s.now)], procs := s.procs[h := Inside(name, s.now)])
    case Leave(h) =>
      if h in s.procs && s.procs[h].Inside? then s.(procs := s.procs[h := Leaving(s.procs[h].name)]) else s
    case Release(h) =>
      if h in s.procs && s.procs[h].Leaving? then
        var name := s.procs[h].name;
        s.(rows := if name in s.rows && s.rows[name].holder == h then s.rows - {name} else s.rows,
           procs := s.procs[h := Gone])
      else s
    case Crash(h) => if h in s.procs then s.(procs := s.procs[h := Gone]) else s
  }

  function Run(s: Locks, steps: seq<Step>, stale: int): Locks {
    if steps == [] then s else Next(Run(s, steps[..|steps| - 1], stale), steps[|steps| - 1], stale)
  }

  // ---------------------------------------------------------------------------------------------
  // Mutual exclusion
  // ---------------------------------------------------------------------------------------------

  predicate Overstays(s: Locks, holder: string, stale: int) {
    holder in s.procs && s.procs[holder].Inside? && s.now - s.procs[holder].since > stale
  }

  /** Whoever is inside a section holds its row, unless the section was overstayed; and a row is
      held by a process that acquired it. */
  ghost predicate Inv(s: Locks, stale: int) {
    && (forall h, name :: IsInside(s, h, name) && !Overstays(s, h, stale) ==>
          name in s.rows && s.rows[name] == Row(h, s.procs[h].since))
    && (forall name :: name in s.rows ==> s.rows[name].holder in s.procs)
  }

  ghost predicate Exclusive(s: Locks) {
    forall h, g, name :: IsInside(s, h, name) && IsInside(s, g, name) ==> h == g
  }

  lemma InvStep(s: Locks, step: Step, stale: int)
    requires Inv(s, stale)
    ensures Inv(Next(s, step, stale), stale)
  {
  }

  lemma {:induction false} Reachable(steps: seq<Step>, stale: int)
    ensures Inv(Run(NO_LOCKS, steps, stale), stale)
  {
    if steps != [] {
      Reachable(steps[..|steps| - 1], stale);
      InvStep(Run(NO_LOCKS, steps[..|steps| - 1], stale), steps[|steps| - 1], stale);
    }
  }

  /** If no holder overstays, two processes are never inside the same section at once: in every state
      of every run, of two that are, at least one has overstayed the stale limit. */
  lemma TimelyMeansExclusive(steps: seq<Step>, stale: int)
    requires var s := Run(NO_LOCKS, steps, stale); forall h :: h in s.procs ==> !Overstays(s, h, stale)
    ensures Exclusive(Run(NO_LOCKS, steps, stale))
  {
    Reachable(steps, stale);
  }

  lemma OnlyTryEnters(s: Locks, step: Step, stale: int, holder: string, name: string)
    requires IsInside(Next(s, step, stale), holder, name) && !IsInside(s, holder, name)
    ensures step == Try(holder, name) && holder !in s.procs && !Blocked(s, name, stale)
  {
  }

  /** A step ends mutual exclusion if and only if it takes a section over while somebody is inside;
      whoever is inside then has overstayed. */
  lemma ExclusionEndsExactly(steps: seq<Step>, step: Step, stale: int)
    requires Exclusive(Run(NO_LOCKS, steps, stale))
    ensures var s := Run(NO_LOCKS, steps, stale);
            !Exclusive(Next(s, step, stale)) <==>
              step.Try? && step.holder !in s.procs && !Blocked(s, step.name, stale)
              && exists g :: IsInside(s, g, step.name) && Overstays(s, g, stale)
  {
    Reachable(steps, stale);
    var s := Run(NO_LOCKS, steps, stale);
    var r := Next(s, step, stale);
    if !Exclusive(r) {
      var h, g, name :| IsInside(r, h, name) && IsInside(r, g, name) && h != g;
      if IsInside(s, h, name) {
        OnlyTryEnters(s, step, stale, g, name);
        assert Overstays(s, h, stale);
      } else {
        OnlyTryEnters(s, step, stale, h, name);
        assert IsInside(s, g, name) && Overstays(s, g, stale);
      }
    }
    if step.Try? && step.holder !in s.procs && !Blocked(s, step.name, stale)
       && exists g :: IsInside(s, g, step.name) && Overstays(s, g, stale) {
      var g :| IsInside(s, g, step.name) && Overstays(s, g, stale);
      assert IsInside(r, g, step.name) && IsInside(r, step.holder, step.name);
    }
  }

  lemma RunLast(s: Locks, front: seq<Step>, last: Step, stale: int)
    ensures Run(s, front + [last], stale) == Next(Run(s, front, stale), last, stale)
  {
  }

  /** One overstay is enough: a second process enters while the first is still inside. */
  lemma OverstayingBreaksExclusion()
    ensures !Exclusive(Run(NO_LOCKS, [Try("a", "x"), Tick(901), Try("b", "x")], 900))
  {
    var first := [Try("a", "x")];
    RunLast(NO_LOCKS, [], Try("a", "x"), 900);
    RunLast(NO_LOCKS, first, Tick(901), 900);
    RunLast(NO_LOCKS, first + [Tick(901)], Try("b", "x"), 900);
    assert [] + [Try("a", "x")] == first;
    assert first + [Tick(901)] + [Try("b", "x")] == [Try("a", "x"), Tick(901), Try("b", "x")];
    var s3 := Run(NO_LOCKS, [Try("a", "x"), Tick(901), Try("b", "x")], 900);
    assert "a"[0] != "b"[0];
    assert IsInside(s3, "a", "x") && IsInside(s3, "b", "x");
  }

  // ---------------------------------------------------------------------------------------------
  // Releasing
  // ---------------------------------------------------------------------------------------------

  /** A row that is in place changes only by its own holder's release or, once it is stale, by a
      takeover: a process that was taken over never frees its successor. */
  lemma RowsAreOwned(s: Locks, step: Step, stale: int, name: string)
    requires name in s.rows
    requires var r := Next(s, step, stale); name !in r.rows || r.rows[name] != s.rows[name]
    ensures step == Release(s.rows[name].holder) || (step.Try? && !Blocked(s, name, stale))
  {
  }

  /** Once gone, a process is never a holder again that it was not. */
  lemma {:induction false} GoneStaysGone(s: Locks, steps: seq<Step>, stale: int, holder: string)
    requires holder in s.procs && s.procs[holder].Gone?
    ensures var r := Run(s, steps, stale); r.now >= s.now && holder in r.procs && r.procs[holder].Gone?
    ensures var r := Run(s, steps, stale);
            forall name :: name in r.rows && r.rows[name].holder == holder ==> name in s.rows && r.rows[name] == s.rows[name]
  {
    if steps != [] {
      GoneStaysGone(s, steps[..|steps| - 1], stale, holder);
    }
  }

  /** A crashed holder keeps others out for at most the stale limit after it acquired: in every later
      state in which its row still blocks, that much time has not passed. */
  lemma CrashBlocksNoLonger(s: Locks, steps: seq<Step>, stale: int, holder: string, name: string, other: string)
    requires name in s.rows && s.rows[name].holder == holder && holder in s.procs && s.procs[holder].Gone?
    requires var r := Run(s, steps, stale); r.now > s.rows[name].acquiredAt + stale && other !in r.procs
    requires var r := Run(s, steps, stale); name in r.rows ==> r.rows[name].holder == holder
    ensures IsInside(Next(Run(s, steps, stale), Try(other, name), stale), other, name)
  {
    GoneStaysGone(s, steps, stale, holder);
  }

  // ---------------------------------------------------------------------------------------------
  // The table and its waiting loop
  // ---------------------------------------------------------------------------------------------

  function Joined(rounds: seq<seq<Step>>): seq<Step> {
    if rounds == [] then [] else Joined(rounds[..|rounds| - 1]) + rounds[|rounds| - 1]
  }

  lemma {:induction false} RunAppend(s: Locks, xs: seq<Step>, ys: seq<Step>, stale: int)
    ensures Run(s, xs + ys, stale) == Run(Run(s, xs, stale), ys, stale)
  {
    if ys == [] {
      assert xs + ys == xs;
    } else {
      RunAppend(s, xs, ys[..|ys| - 1], stale);
      assert (xs + ys)[..|xs + ys| - 1] == xs + ys[..|ys| - 1];
    }
  }

  lemma {:induction false} StaysOut(s: Locks, steps: seq<Step>, stale: int, holder: string)
    requires holder !in s.procs && forall s: Step :: s in steps ==> !s.Tick? ==> s.holder != holder
    ensures holder !in Run(s, steps, stale).procs
  {
    if steps != [] {
      assert steps[|steps| - 1] in steps;
      StaysOut(s, steps[..|steps| - 1], stale, holder);
    }
  }

  class LockTable {
    const stale: int
    var rows: map<string, Row>
    var now: int
    var procs: map<string, Phase>

    function View(): Locks
      reads this
    {
      Locks(now, rows, procs)
    }

    constructor (stale: int)
      ensures this.stale == stale && View() == NO_LOCKS
    {
      this.stale, rows, now, procs := stale, map[], 0, map[];
    }

    /** One poll, in one transaction. */
    method TryOnce(holder: string, name: string) returns (entered: bool)
      requires holder !in procs
      modifies this
      ensures entered == !old(Blocked(View(), name, stale))
      ensures View() == Next(old(View()), Try(holder, name), stale)
    {
      if name in rows && now - rows[name].acquiredAt <= stale {
        return false;
      }
      rows := rows[name := Row(holder, now)];
      procs := procs[holder := Inside(name, now)];
      return true;
    }

    /** What others do, and the clock, between two polls. */
    method Interfere(steps: seq<Step>)
      modifies this
      ensures View() == Run(old(View()), steps, stale)
    {
      for i := 0 to |steps|
        invariant View() == Run(old(View()), steps[..i], stale)
      {
        assert steps[..i + 1][..i] == steps[..i];
        var s := Next(View(), steps[i], stale);
        now, rows, procs := s.now, s.rows, s.procs;
      }
      assert steps[..|steps|] == steps;
    }

    /** Polls until the row is free or stale, or the deadline passes; `rounds` is what happens before
        each poll. It enters at the first poll that is not blocked, and gives up only when all were. */
    method Acquire(holder: string, name: string, rounds: seq<seq<Step>>) returns (entered: bool, polls: nat)
      requires forall p :: p in rounds ==> forall s: Step :: s in p ==> !s.Tick? ==> s.holder != holder
      requires holder !in procs && rounds != []
      modifies this
      ensures 0 < polls <= |rounds| && (!entered ==> polls == |rounds|)
      ensures forall k :: 0 < k < polls ==> Blocked(Run(old(View()), Joined(rounds[..k]), stale), name, stale)
      ensures var last := Run(old(View()), Joined(rounds[..polls]), stale);
              entered == !Blocked(last, name, stale) && View() == Next(last, Try(holder, name), stale)
    {
      polls := 0;
      entered := false;
      ghost var s := View();
      assert rounds[..0] == [];
      while true
        invariant 0 <= polls < |rounds| && !entered && holder !in procs
        invariant View() == Run(s, Joined(rounds[..polls]), stale)
        invariant forall k :: 0 < k <= polls ==> Blocked(Run(s, Joined(rounds[..k]), stale), name, stale)
        decreases |rounds| - polls
      {
        assert rounds[..polls + 1][..polls] == rounds[..polls];
        assert rounds[polls] in rounds;
        RunAppend(s, Joined(rounds[..polls]), rounds[polls], stale);
        StaysOut(View(), rounds[polls], stale, holder);
        Interfere(rounds[polls]);
        polls := polls + 1;
        entered := TryOnce(holder, name);
        if entered || polls == |rounds| {
          return;
        }
      }
    }

    /** Leaves the section and frees the row, if it is still this holder's. */
    method Free(holder: string, name: string)
      requires IsInside(View(), holder, name)
      modifies this
      ensures View() == Run(old(View()), [Leave(holder), Release(holder)], stale)
      ensures forall n :: n in old(rows) && old(rows)[n].holder != holder ==> n in rows && rows[n] == old(rows)[n]
    {
      ghost var s, steps := View(), [Leave(holder), Release(holder)];
      assert steps[..1][..0] == [] && steps[..1] == [Leave(holder)];
      assert Run(s, steps[..1], stale) == Next(s, Leave(holder), stale);
      assert Run(s, steps, stale) == Next(Run(s, steps[..1], stale), Release(holder), stale);
      procs := procs[holder := Gone];
      if name in rows && rows[name].holder == holder {
        rows := rows - {name};
      }
    }
  }
}
