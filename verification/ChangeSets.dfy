/** How a proposed change set is normalised as a whole. */
module ChangeSets {
  import opened Wrappers
  import opened ConfigItems
  import opened Targets

  const MAX_ITEMS := 30

  function TargetsOf(items: seq<NormalItem>): seq<string> {
    seq(|items|, i requires 0 <= i < |items| => TargetOf(items[i].kind, items[i].content))
  }

  predicate Distinct(targets: seq<string>) {
    forall i, j :: 0 <= i < j < |targets| ==> targets[i] != targets[j]
  }

  method AreDistinct(targets: seq<string>) returns (ok: bool)
    ensures ok == Distinct(targets)
  {
    for j := 0 to |targets|
      invariant Distinct(targets[..j])
    {
      for i := 0 to j
        invariant forall k :: 0 <= k < i ==> targets[k] != targets[j]
      {
        if targets[i] == targets[j] {
          return false;
        }
      }
    }
    assert targets[..|targets|] == targets;
    return true;
  }

  ghost predicate NormalSet(raws: seq<RawItem>, items: seq<NormalItem>) {
    |items| == |raws| && forall i :: 0 <= i < |items| ==> NormalOf(raws[i], i, items[i])
  }

  /** The set people approve: each item normalised, in order, with an id of its own, and no target
      named twice. It is refused for nothing else. */
  method NormaliseChangeSet(raws: seq<RawItem>) returns (r: Option<seq<NormalItem>>)
    ensures r.Some? ==> 0 < |raws| <= MAX_ITEMS && NormalSet(raws, r.value) && Distinct(TargetsOf(r.value))
    ensures r.None? ==>
              || raws == [] || |raws| > MAX_ITEMS || (exists i :: 0 <= i < |raws| && !Accepted(raws[i]))
              || exists items :: NormalSet(raws, items) && !Distinct(TargetsOf(items))
  {
    if raws == [] || |raws| > MAX_ITEMS {
      return None;
    }
    var items: seq<NormalItem> := [];
    for i := 0 to |raws|
      invariant |items| == i && forall j :: 0 <= j < i ==> NormalOf(raws[j], j, items[j])
    {
      var item := NormaliseItem(raws[i], i);
      if item.None? {
        return None;
      }
      items := items + [item.value];
    }
    assert NormalSet(raws, items);
    var distinct := AreDistinct(TargetsOf(items));
    return if distinct then Some(items) else None;
  }

  /** In a normalised set ids are unique, and no two items change the same thing. */
  lemma SetsAreSound(raws: seq<RawItem>, items: seq<NormalItem>, i: nat, j: nat)
    requires NormalSet(raws, items) && Distinct(TargetsOf(items)) && i < j < |items|
    ensures items[i].id != items[j].id
    ensures !SameThing(items[i].kind, items[i].content, items[j].kind, items[j].content)
  {
    assert NormalOf(raws[i], i, items[i]) && NormalOf(raws[j], j, items[j]);
    if items[i].id == items[j].id {
      IdsAreUnique(i, j);
    }
    assert TargetsOf(items)[i] != TargetsOf(items)[j];
    if SameThing(items[i].kind, items[i].content, items[j].kind, items[j].content) {
      SameHasOneTarget(items[i].kind, items[i].content, items[j].kind, items[j].content);
    }
  }
}
