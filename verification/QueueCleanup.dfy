/** Removal of components from the queue list by the config controller (internal/config/controller.go)
    and by the stable component controller (internal/stablecomponent/controller.go). */
module QueueCleanup {
  import opened QueueTypes
  import opened QueueList
  import opened QueueRewriting
  import opened QueueController

  /** Queues only lost components, and a queue that lost all of them is gone. */
  ghost predicate Thinned(m: map<string, Queue>, m': map<string, Queue>) {
    forall n :: n in m' ==> n in m && (m'[n] == m[n] || ThinnedQueue(m[n], m'[n]))
  }

  ghost predicate ThinnedQueue(q: Queue, q': Queue) {
    && q'.name == q.name && q'.bundle == q.bundle && q'.components != []
    && (DistinctNames(q.components) ==> DistinctNames(q'.components))
    && (forall c :: c in q'.components ==> c in q.components)
    && q'.state == q.state && q'.conditions == q.conditions && q'.qtype == q.qtype && q'.noOfOrder == q.noOfOrder
    && (q'.nextProcessAt == q.nextProcessAt || q'.nextProcessAt.None?)
  }

  lemma ThinnedInv(m: map<string, Queue>, m': map<string, Queue>)
    requires Thinned(m, m')
    ensures OneQueueEach(m) ==> OneQueueEach(m')
    ensures NoneEmpty(m) ==> NoneEmpty(m')
  {
    if OneQueueEach(m) {
      forall n, n', c, c' | n in m' && n' in m' && n != n' && c in m'[n].components && c' in m'[n'].components
        ensures c.name != c'.name
      {
        assert c in m[n].components && c' in m[n'].components;
      }
    }
  }

  lemma ThinnedKeeps(m: map<string, Queue>, m': map<string, Queue>, bundles: set<string>)
    requires OneQueueEach(m) && WellNamed(m, bundles) && Thinned(m, m')
    ensures OneQueueEach(m') && WellNamed(m', bundles) && (NoneEmpty(m) ==> NoneEmpty(m'))
  {
    ThinnedInv(m, m');
    forall n | n in m' ensures NamedByScheme(m'[n], bundles) {
      assert NamedByScheme(m[n], bundles);
    }
  }

  // ----- detectRemovedQueues

  function KnownOnly(cs: seq<Component>, comps: set<string>): seq<Component> {
    if cs == [] then []
    else
      var k := |cs| - 1;
      if cs[k].name in comps then KnownOnly(cs[..k], comps) + [cs[k]] else KnownOnly(cs[..k], comps)
  }

  lemma {:induction false} KnownOnlyFacts(cs: seq<Component>, comps: set<string>)
    ensures var r := KnownOnly(cs, comps);
            && (forall c :: c in r <==> c in cs && c.name in comps)
            && (forall c :: multiset(r)[c] <= multiset(cs)[c])
            && |r| <= |cs| && (|r| == |cs| <==> forall c :: c in cs ==> c.name in comps)
  {
    if cs != [] {
      var k := |cs| - 1;
      KnownOnlyFacts(cs[..k], comps);
      assert cs == cs[..k] + [cs[k]];
    }
  }

  lemma LeftIff(cs: seq<Component>, comps: set<string>)
    ensures KnownOnly(cs, comps) != [] <==> exists c :: c in cs && c.name in comps
  {
    KnownOnlyFacts(cs, comps);
    if KnownOnly(cs, comps) != [] {
      assert KnownOnly(cs, comps)[0] in KnownOnly(cs, comps);
    }
  }

  lemma DistinctSubset(cs: seq<Component>, left: seq<Component>)
    requires DistinctNames(cs) && (forall c :: c in left ==> c in cs) && (forall c :: multiset(left)[c] <= multiset(cs)[c])
    ensures DistinctNames(left)
  {
  }

  lemma KeepsListWithFewer(m: map<string, Queue>, n: string, q: Queue)
    requires OneQueueEach(m) && n in m && q.name == n && DistinctNames(q.components)
    requires forall c :: c in q.components ==> c in m[n].components
    ensures OneQueueEach(m[n := q])
    ensures NoneEmpty(m) && q.components != [] ==> NoneEmpty(m[n := q])
  {
  }

  /** Saving only the configured components of one queue, as the staging controller does before it deploys,
      keeps the list invariant exactly when one of them is still configured. */
  lemma KeepsListIffSomethingIsLeft(m: map<string, Queue>, n: string, comps: set<string>, rv: nat)
    requires ListInv(m) && n in m
    ensures var q := m[n].(components := KnownOnly(m[n].components, comps), rv := rv);
            ListInv(m[n := q]) <==> exists c :: c in m[n].components && c.name in comps
  {
    var cs := m[n].components;
    var q := m[n].(components := KnownOnly(cs, comps), rv := rv);
    LeftIff(cs, comps);
    if q.components != [] {
      KnownOnlyFacts(cs, comps);
      DistinctSubset(cs, q.components);
      KeepsListWithFewer(m, n, q);
    } else {
      assert m[n := q][n].components == [];
    }
  }

  method FilterKnown(cs: seq<Component>, comps: set<string>) returns (newComps: seq<Component>)
    ensures newComps == KnownOnly(cs, comps)
  {
    newComps := [];
    for j := 0 to |cs|
      invariant newComps == KnownOnly(cs[..j], comps)
    {
      assert cs[..j + 1][..j] == cs[..j];
      if cs[j].name in comps {
        newComps := newComps + [cs[j]];
      }
    }
    assert cs[..|cs|] == cs;
  }

  /** What is left of one queue when only the components in `comps` stay. */
  ghost predicate Pruned(q: Queue, m': map<string, Queue>, comps: set<string>) {
    if forall c :: c in q.components ==> c.name !in comps then q.name !in m'
    else
      && q.name in m' && (m'[q.name] == q || ThinnedQueue(q, m'[q.name]))
      && (forall c :: c in m'[q.name].components <==> c in q.components && c.name in comps)
      && (m'[q.name] == q || (m'[q.name].nextProcessAt.None? && m'[q.name].noOfRetry == 0))
  }

  lemma PrunedBy(q: Queue, m': map<string, Queue>, comps: set<string>)
    requires var left := KnownOnly(q.components, comps);
             if left == [] then q.name !in m'
             else if |left| == |q.components| then q.name in m' && m'[q.name] == q
             else q.name in m' && m'[q.name] == q.(components := left, noOfRetry := 0, nextProcessAt := None, rv := m'[q.name].rv)
    ensures Pruned(q, m', comps)
  {
    KnownOnlyFacts(q.components, comps);
    var left := KnownOnly(q.components, comps);
    assert left != [] ==> left[0] in left;
    if DistinctNames(q.components) {
      DistinctSubset(q.components, left);
    }
  }

  /** The queues listed from place i on are pruned, the others still as listed. */
  ghost predicate PrunedFrom(m: map<string, Queue>, m': map<string, Queue>, list: seq<Queue>, i: nat, comps: set<string>) {
    && (forall j :: 0 <= j < i && j < |list| ==> list[j].name in m' && m'[list[j].name] == list[j])
    && (forall j :: i <= j < |list| ==> Pruned(list[j], m', comps))
    && (forall n :: n in m' ==> n in m)
  }

  lemma PrunedIsThinned(m: map<string, Queue>, m': map<string, Queue>, list: seq<Queue>, i: nat, comps: set<string>)
    requires IsListing(m, list) && PrunedFrom(m, m', list, i, comps)
    ensures Thinned(m, m')
  {
    forall n | n in m' ensures n in m && (m'[n] == m[n] || ThinnedQueue(m[n], m'[n])) {
      assert m[n] in list;
      var j :| 0 <= j < |list| && list[j] == m[n];
      if j >= i {
        assert Pruned(list[j], m', comps);
      }
    }
  }

  lemma PrunedStep(m: map<string, Queue>, m1: map<string, Queue>, m2: map<string, Queue>, list: seq<Queue>, i: nat,
                   comps: set<string>)
    requires IsListing(m, list) && PrunedFrom(m, m1, list, i + 1, comps) && i < |list|
    requires Pruned(list[i], m2, comps) && m2.Keys <= m1.Keys
    requires forall n :: n in m1 && n != list[i].name ==> n in m2 && m2[n] == m1[n]
    ensures PrunedFrom(m, m2, list, i, comps)
  {
    ListingPlaces(m, list);
    forall j | i <= j < |list| ensures Pruned(list[j], m2, comps) {
      if j > i {
        assert Pruned(list[j], m1, comps) && list[i].name != list[j].name;
      }
    }
  }

  lemma AllPruned(m: map<string, Queue>, m': map<string, Queue>, list: seq<Queue>, comps: set<string>)
    requires IsListing(m, list) && PrunedFrom(m, m', list, 0, comps)
    ensures forall n :: n in m ==> Pruned(m[n], m', comps)
    ensures Entries(m') == set e | e in Entries(m) && e.1.name in comps
  {
    forall n | n in m ensures Pruned(m[n], m', comps) && m[n].name == n {
      assert m[n] in list;
    }
    forall n, c ensures (n, c) in Entries(m') <==> (n, c) in Entries(m) && c.name in comps {
      if n in m {
        assert Pruned(m[n], m', comps);
      }
    }
  }

  /** Removes every component that is no longer configured. A running queue keeps running without it. */
  method DetectRemovedQueues(c: Controller, comps: set<string>) returns (ok: bool)
    requires c.Valid()
    modifies c`queues, c`nextRv, c`writesLeft
    ensures c.Valid() && Rewritten(old(c.queues), c.queues, old(c.nextRv), c.nextRv)
    ensures Thinned(old(c.queues), c.queues)
    ensures OneQueueEach(old(c.queues)) ==> OneQueueEach(c.queues)
    ensures NoneEmpty(old(c.queues)) || ok ==> NoneEmpty(c.queues)
    ensures old(c.writesLeft) >= |old(c.queues)| ==> ok
    ensures ok ==> forall n :: n in old(c.queues) ==> Pruned(old(c.queues)[n], c.queues, comps)
    ensures ok ==> Entries(c.queues) == set e | e in Entries(old(c.queues)) && e.1.name in comps
  {
    ghost var m, start := c.queues, c.nextRv;
    var list := c.List();
    var i := |list|;
    assert forall q :: q in list ==> q.name in m;
    PrunedIsThinned(m, c.queues, list, i, comps);
    ThinnedInv(m, c.queues);
    while i > 0
      invariant 0 <= i <= |list| && c.Valid() && Rewritten(m, c.queues, start, c.nextRv)
      invariant PrunedFrom(m, c.queues, list, i, comps) && Thinned(m, c.queues)
      invariant c.writesLeft + (|list| - i) >= old(c.writesLeft)
    {
      i := i - 1;
      assert list[i] in list;
      ghost var before, rv := c.queues, c.nextRv;
      ok := PruneOne(c, list[i], comps);
      RewrittenAgain(m, before, c.queues, start, rv, c.nextRv);
      if !ok {
        ThinnedInv(m, c.queues);
        return;
      }
      PrunedStep(m, before, c.queues, list, i, comps);
      PrunedIsThinned(m, c.queues, list, i, comps);
    }
    ok := true;
    ThinnedInv(m, c.queues);
    AllPruned(m, c.queues, list, comps);
  }

  method PruneOne(c: Controller, q: Queue, comps: set<string>) returns (ok: bool)
    requires c.Valid() && q.name in c.queues && c.queues[q.name] == q
    modifies c`queues, c`nextRv, c`writesLeft
    ensures c.Valid() && Rewritten(old(c.queues), c.queues, old(c.nextRv), c.nextRv)
    ensures !ok ==> c.queues == old(c.queues)
    ensures c.writesLeft + 1 >= old(c.writesLeft) && (old(c.writesLeft) > 0 ==> ok)
    ensures ok ==> Pruned(q, c.queues, comps) && c.queues.Keys <= old(c.queues).Keys
    ensures ok ==> forall n :: n in old(c.queues) && n != q.name ==> n in c.queues && c.queues[n] == old(c.queues)[n]
  {
    ok := true;
    var newComps := FilterKnown(q.components, comps);
    if newComps == [] {
      ok := c.Delete(q.name);
    } else if |newComps| != |q.components| {
      var saved;
      ok, saved := c.Update(q.(components := newComps, noOfRetry := 0, nextProcessAt := None));
    }
    if ok {
      PrunedBy(q, c.queues, comps);
    }
  }

  // ----- removeSameVersionQueue

  /** The first queue that holds the component or is empty, and what it would be left with. */
  method RemoveSameVersionQueue(list: seq<Queue>, compName: string) returns (k: int, valid: seq<Component>)
    ensures -1 <= k < |list|
    ensures forall j :: 0 <= j < (if k < 0 then |list| else k) ==> list[j].components != [] && !Holds(list[j], compName)
    ensures k >= 0 ==> (list[k].components == [] || Holds(list[k], compName)) && valid == Without(list[k].components, compName)
  {
    valid := [];
    for i := 0 to |list|
      invariant forall j :: 0 <= j < i ==> list[j].components != [] && !Holds(list[j], compName)
    {
      valid := Controller.FilterComponents(list[i].components, compName);
      if list[i].components != [] {
        LosesNothing(list[i], compName);
      }
      if valid == [] {
        return i, valid;
      } else if |valid| != |list[i].components| {
        return i, valid;
      }
    }
    k := -1;
  }

  lemma LosesNothing(q: Queue, compName: string)
    requires q.components != []
    ensures |Without(q.components, compName)| == |q.components| <==> !Holds(q, compName)
    ensures Without(q.components, compName) == [] ==> Holds(q, compName)
  {
    WithoutFacts(q.components, compName);
    assert q.components[0] in q.components;
  }

  /** One queue without components was deleted. */
  ghost predicate OneEmptyGone(m: map<string, Queue>, m': map<string, Queue>) {
    exists n :: n in m && m[n].components == [] && m' == m - {n}
  }

  /** A component whose stable version is already the desired one leaves the queue list, unless an empty queue
      is found first and deleted in its place. */
  method RemoveStable(c: Controller, comp: Component, desired: Component) returns (ok: bool)
    requires c.Valid()
    modifies c`queues, c`nextRv, c`writesLeft
    ensures c.Valid() && Rewritten(old(c.queues), c.queues, old(c.nextRv), c.nextRv)
    ensures Thinned(old(c.queues), c.queues)
    ensures OneQueueEach(old(c.queues)) ==> OneQueueEach(c.queues)
    ensures NoneEmpty(old(c.queues)) ==> NoneEmpty(c.queues)
    ensures old(c.writesLeft) > 0 ==> ok
    ensures ok && (comp.repository != desired.repository || comp.version != desired.version) ==> c.queues == old(c.queues)
    ensures ok && comp.repository == desired.repository && comp.version == desired.version && OneQueueEach(old(c.queues)) ==>
              || Entries(c.queues) == (set e | e in Entries(old(c.queues)) && e.1.name != comp.name)
              || OneEmptyGone(old(c.queues), c.queues)
  {
    ghost var m := c.queues;
    var list := c.List();
    ThinnedInv(m, m);
    if comp.repository != desired.repository || comp.version != desired.version {
      return true;
    }
    var k, valid := RemoveSameVersionQueue(list, comp.name);
    if k < 0 {
      ok := true;
      LeavesAll(m, list, comp.name);
    } else {
      assert list[k] in list;
      if valid == [] {
        ok := c.Delete(list[k].name);
      } else {
        var saved;
        ok, saved := c.Update(list[k].(components := valid));
      }
      if ok {
        LeavesOne(m, c.queues, list, k, comp.name, valid);
      }
    }
  }

  lemma LeavesAll(m: map<string, Queue>, list: seq<Queue>, compName: string)
    requires IsListing(m, list) && forall i :: 0 <= i < |list| ==> !Holds(list[i], compName)
    ensures Entries(m) == set e | e in Entries(m) && e.1.name != compName
  {
    forall n, c | n in m && c in m[n].components ensures c.name != compName {
      assert m[n] in list;
      var i :| 0 <= i < |list| && list[i] == m[n];
    }
  }

  lemma LeavesOne(m: map<string, Queue>, m': map<string, Queue>, list: seq<Queue>, k: nat, compName: string,
                  valid: seq<Component>)
    requires IsListing(m, list) && k < |list| && (list[k].components == [] || Holds(list[k], compName))
    requires valid == Without(list[k].components, compName)
    requires if valid == [] then m' == m - {list[k].name}
             else list[k].name in m' && m' == m[list[k].name := list[k].(components := valid, rv := m'[list[k].name].rv)]
    ensures Thinned(m, m') && (OneQueueEach(m) ==> OneQueueEach(m')) && (NoneEmpty(m) ==> NoneEmpty(m'))
    ensures OneQueueEach(m) ==>
              || Entries(m') == (set e | e in Entries(m) && e.1.name != compName)
              || OneEmptyGone(m, m')
  {
    assert list[k] in list;
    WithoutFacts(list[k].components, compName);
    LeavesOneThinned(m, m', list[k].name, compName, valid);
    ThinnedInv(m, m');
    if OneQueueEach(m) && list[k].components != [] {
      HeldOnlyIn(m, list, k, compName);
      LeavesOneEntries(m, m', list[k].name, compName, valid);
    }
  }

  lemma LeavesOneThinned(m: map<string, Queue>, m': map<string, Queue>, x: string, compName: string, valid: seq<Component>)
    requires x in m
    requires forall c :: c in valid <==> c in m[x].components && c.name != compName
    requires forall c :: multiset(valid)[c] <= multiset(m[x].components)[c]
    requires if valid == [] then m' == m - {x} else x in m' && m' == m[x := m[x].(components := valid, rv := m'[x].rv)]
    ensures Thinned(m, m')
  {
    if valid != [] && DistinctNames(m[x].components) {
      DistinctSubset(m[x].components, valid);
    }
    assert valid != [] ==> ThinnedQueue(m[x], m'[x]);
  }

  lemma LeavesOneEntries(m: map<string, Queue>, m': map<string, Queue>, x: string, compName: string, valid: seq<Component>)
    requires x in m && forall n :: n in m && n != x ==> !Holds(m[n], compName)
    requires forall c :: c in valid <==> c in m[x].components && c.name != compName
    requires if valid == [] then m' == m - {x} else x in m' && m' == m[x := m[x].(components := valid, rv := m'[x].rv)]
    ensures Entries(m') == set e | e in Entries(m) && e.1.name != compName
  {
    forall n, c ensures (n, c) in Entries(m') <==> (n, c) in Entries(m) && c.name != compName {
      if n in m && n != x {
        assert !Holds(m[n], compName);
      } else if n in m && c in m[x].components && c.name != compName {
        assert c in valid;
      }
    }
  }
}
