/** The queue list of a namespace: what holds of it between any two writes, and the
    list rewriting of the queue controller (internal/queue/controller.go). */
module QueueList {
  import opened QueueTypes
  import opened StringOrder

  // ----- Components of one queue

  /** Every component name occurs once. */
  ghost predicate DistinctNames(cs: seq<Component>) {
    && (forall c :: multiset(cs)[c] <= 1)
    && (forall c, d :: c in cs && d in cs && c.name == d.name ==> c == d)
  }

  predicate Holds(q: Queue, compName: string) {
    exists c :: c in q.components && c.name == compName
  }

  function InsertComponent(c: Component, cs: seq<Component>): (r: seq<Component>)
    ensures multiset(r) == multiset{c} + multiset(cs)
  {
    if cs == [] then [c]
    else if StringLess(cs[0].name, c.name) then
      assert cs == [cs[0]] + cs[1..];
      [cs[0]] + InsertComponent(c, cs[1..])
    else [c] + cs
  }

  /** QueueComponents.Sort. */
  function SortComponents(cs: seq<Component>): (r: seq<Component>)
    ensures multiset(r) == multiset(cs)
    ensures forall c :: c in r <==> c in cs
    ensures r == [] <==> cs == []
  {
    if cs == [] then []
    else
      assert cs == [cs[0]] + cs[1..];
      var r := InsertComponent(cs[0], SortComponents(cs[1..]));
      assert forall c :: c in r <==> c in multiset(r);
      assert forall c :: c in cs <==> c in multiset(cs);
      r
  }

  ghost predicate SortedByName(cs: seq<Component>) {
    forall i, j :: 0 <= i < j < |cs| ==> !StringLess(cs[j].name, cs[i].name)
  }

  lemma {:induction false} InsertedByName(c: Component, cs: seq<Component>)
    requires SortedByName(cs)
    ensures SortedByName(InsertComponent(c, cs))
  {
    if cs != [] {
      assert cs == [cs[0]] + cs[1..];
      var r := InsertComponent(c, cs);
      StringLessFacts(cs[0].name, c.name);
      if StringLess(cs[0].name, c.name) {
        InsertedByName(c, cs[1..]);
        forall j | 0 < j < |r| ensures !StringLess(r[j].name, r[0].name) {
          assert r[j] in multiset(InsertComponent(c, cs[1..]));
          assert r[j] == c || r[j] in cs[1..];
        }
      } else {
        forall j | 0 < j < |r| ensures !StringLess(r[j].name, c.name) {
          if StringLess(cs[j - 1].name, c.name) {
            NotBelow(cs, c.name, j - 1);
          }
        }
      }
    }
  }

  /** In a sorted list nothing is below what the first entry is not below. */
  lemma NotBelow(cs: seq<Component>, name: string, i: nat)
    requires SortedByName(cs) && i < |cs| && StringLess(cs[i].name, name)
    ensures StringLess(cs[0].name, name)
  {
    if i > 0 && cs[0].name != cs[i].name {
      StringLessFacts(cs[0].name, cs[i].name);
      StringLessTransitive(cs[0].name, cs[i].name, name);
    }
  }

  lemma {:induction false} SortedComponents(cs: seq<Component>)
    ensures SortedByName(SortComponents(cs))
  {
    if cs != [] {
      SortedComponents(cs[1..]);
      InsertedByName(cs[0], SortComponents(cs[1..]));
    }
  }

  /** The components whose name is not `compName`, in order. */
  function Without(cs: seq<Component>, compName: string): seq<Component> {
    if cs == [] then []
    else
      var k := |cs| - 1;
      if cs[k].name == compName then Without(cs[..k], compName)
      else Without(cs[..k], compName) + [cs[k]]
  }

  lemma {:induction false} WithoutFacts(cs: seq<Component>, compName: string)
    ensures var r := Without(cs, compName);
            && (forall c :: c in r <==> c in cs && c.name != compName)
            && (forall c :: multiset(r)[c] <= multiset(cs)[c])
            && |r| <= |cs|
            && (|r| == |cs| <==> forall c :: c in cs ==> c.name != compName)
            && ((forall c :: c in cs ==> c.name != compName) ==> r == cs)
  {
    if cs != [] {
      var k := |cs| - 1;
      WithoutFacts(cs[..k], compName);
      assert cs == cs[..k] + [cs[k]];
      assert multiset(cs) == multiset(cs[..k]) + multiset{cs[k]};
      assert forall c :: c in cs <==> c in cs[..k] || c == cs[k];
    }
  }

  // ----- The list as the cluster holds it

  /** Every component name is in at most one queue. */
  ghost predicate OneQueueEach(m: map<string, Queue>) {
    && (forall n :: n in m ==> m[n].name == n && DistinctNames(m[n].components))
    && (forall n, n', c, c' :: n in m && n' in m && n != n' && c in m[n].components && c' in m[n'].components
          ==> c.name != c'.name)
  }

  ghost predicate NoneEmpty(m: map<string, Queue>) {
    forall n :: n in m ==> m[n].components != []
  }

  ghost predicate ListInv(m: map<string, Queue>) {
    OneQueueEach(m) && NoneEmpty(m)
  }

  /** NewQueue's naming: a bundle queue is called after its bundle, any other after its one
      component; no bundle is called like a component. */
  ghost predicate WellNamed(m: map<string, Queue>, bundles: set<string>) {
    forall n :: n in m ==> NamedByScheme(m[n], bundles)
  }

  ghost predicate NamedByScheme(q: Queue, bundles: set<string>) {
    && (forall c :: c in q.components ==> c.name !in bundles)
    && (if q.bundle != "" then q.name == q.bundle && q.bundle in bundles
        else q.name !in bundles && forall c :: c in q.components ==> c.name == q.name)
  }

  /** Which component versions are queued, and in which queue. */
  ghost function Entries(m: map<string, Queue>): set<(string, Component)> {
    set n, c | n in m && c in m[n].components :: (n, c)
  }

  /** `items` is what a List call returns for the objects in `m`. */
  ghost predicate IsListing(m: map<string, Queue>, items: seq<Queue>) {
    && (forall q :: q in items ==> q.name in m && m[q.name] == q)
    && (forall n :: n in m ==> m[n].name == n && m[n] in items)
    && (forall q :: multiset(items)[q] <= 1)
  }

  // ----- Resource versions

  /** Every object of m' is one of m, or was written with a version handed out from `start` to before `next`. */
  ghost predicate Rewritten(m: map<string, Queue>, m': map<string, Queue>, start: nat, next: nat) {
    start <= next && forall n :: n in m' ==> (n in m && m'[n] == m[n]) || start <= m'[n].rv < next
  }

  lemma NothingRewritten(m: map<string, Queue>, start: nat)
    ensures Rewritten(m, m, start, start)
  {
  }

  lemma RewrittenAgain(m: map<string, Queue>, m1: map<string, Queue>, m2: map<string, Queue>, a: nat, b: nat, c: nat)
    requires Rewritten(m, m1, a, b) && Rewritten(m1, m2, b, c)
    ensures Rewritten(m, m2, a, c)
  {
  }

  /** A copy with the version of the stored object is that object. */
  ghost predicate UpToDate(m: map<string, Queue>, next: nat, q: Queue) {
    q.rv < next && (q.name in m && m[q.name].rv == q.rv ==> m[q.name] == q)
  }

  ghost predicate AllUpToDate(m: map<string, Queue>, next: nat, items: seq<Queue>) {
    forall q :: q in items ==> UpToDate(m, next, q)
  }

  lemma StaysUpToDate(m: map<string, Queue>, m': map<string, Queue>, start: nat, next: nat, q: Queue)
    requires Rewritten(m, m', start, next) && UpToDate(m, start, q)
    ensures UpToDate(m', next, q)
  {
  }

  lemma OnePlace<T>(s: seq<T>, i: nat, j: nat)
    requires i < j < |s| && forall x :: multiset(s)[x] <= 1
    ensures s[i] != s[j]
  {
    assert s == s[..j] + [s[j]] + s[j + 1..];
    assert s[..j][i] == s[i];
    assert s[i] in multiset(s[..j]);
    assert multiset(s)[s[i]] >= multiset(s[..j])[s[i]] + multiset{s[j]}[s[i]];
  }

  lemma EmptyListing(m: map<string, Queue>)
    requires IsListing(m, [])
    ensures m == map[]
  {
  }

  lemma ListingPlaces(m: map<string, Queue>, items: seq<Queue>)
    requires IsListing(m, items)
    ensures UniqueNames(items)
  {
    forall i, j | 0 <= i < j < |items| ensures items[i].name != items[j].name {
      OnePlace(items, i, j);
      assert items[i] in items && items[j] in items;
    }
  }

  lemma ListingPermuted(m: map<string, Queue>, s: seq<Queue>, t: seq<Queue>)
    requires IsListing(m, s) && multiset(s) == multiset(t)
    ensures IsListing(m, t)
  {
    SamePermutationMembers(s, t);
  }

  // ----- removeAndUpdateSimilarQueue

  predicate AnySame(items: seq<Queue>, name: string, comp: Component) {
    exists q :: q in items && q.ContainSameComponent(name, comp)
  }

  function Shrunk(q: Queue, comp: Component): Queue {
    q.(components := Without(q.components, comp.name))
  }

  /** Only the first queue that already holds exactly this component is left alone. */
  predicate Spared(before: seq<Queue>, q: Queue, name: string, comp: Component) {
    q.ContainSameComponent(name, comp) && !AnySame(before, name, comp)
  }

  function KeptSimilar(items: seq<Queue>, name: string, comp: Component): seq<Queue> {
    if items == [] then []
    else
      var before, q := items[..|items| - 1], items[|items| - 1];
      KeptSimilar(before, name, comp) +
      if Spared(before, q, name, comp) then [q]
      else if Shrunk(q, comp).components == [] then []
      else [Shrunk(q, comp)]
  }

  function RemovedSimilar(items: seq<Queue>, name: string, comp: Component): seq<Queue> {
    if items == [] then []
    else
      var before, q := items[..|items| - 1], items[|items| - 1];
      RemovedSimilar(before, name, comp) +
      if !Spared(before, q, name, comp) && Shrunk(q, comp).components == [] then [q] else []
  }

  /** Indexed like `items`, not like the kept list. */
  function UpdatedSimilar(items: seq<Queue>, name: string, comp: Component): (r: seq<Option<Queue>>)
    ensures |r| == |items|
  {
    if items == [] then []
    else
      var before, q := items[..|items| - 1], items[|items| - 1];
      var q' := Shrunk(q, comp);
      UpdatedSimilar(before, name, comp) +
      if !Spared(before, q, name, comp) && q'.components != [] && |q'.components| != |q.components| then [Some(q')]
      else [None]
  }

  lemma ShrunkSame(q: Queue, comp: Component)
    ensures !Holds(q, comp.name) ==> Shrunk(q, comp) == q
    ensures Holds(q, comp.name) ==> |Shrunk(q, comp).components| != |q.components|
  {
    WithoutFacts(q.components, comp.name);
    if Holds(q, comp.name) {
      var c :| c in q.components && c.name == comp.name;
    }
  }

  /** What the rewriting returns: the kept list, the queues to delete, the places to update. */
  ghost predicate SimilarIs(items: seq<Queue>, name: string, comp: Component,
                            kept: seq<Queue>, removed: seq<Queue>, updated: seq<Option<Queue>>) {
    && KeptSimilar(items, name, comp) == kept
    && RemovedSimilar(items, name, comp) == removed
    && UpdatedSimilar(items, name, comp) == updated
  }

  // ----- What happens to each queue, in a list without two queues of one name

  ghost predicate UniqueNames(items: seq<Queue>) {
    forall i, j :: 0 <= i < j < |items| ==> items[i].name != items[j].name
  }

  /** The queue is left with nothing, or was empty before: it is deleted. */
  predicate Removes(q: Queue, name: string, comp: Component) {
    !q.ContainSameComponent(name, comp) && Shrunk(q, comp).components == []
  }

  /** The queue loses the component and keeps others. */
  predicate Updates(q: Queue, name: string, comp: Component) {
    !q.ContainSameComponent(name, comp) && Shrunk(q, comp).components != [] && Holds(q, comp.name)
  }

  function KeptAs(q: Queue, name: string, comp: Component): Queue {
    if Updates(q, name, comp) then Shrunk(q, comp) else q
  }

  lemma SparedIff(items: seq<Queue>, name: string, comp: Component)
    requires items != [] && UniqueNames(items)
    ensures var before, q := items[..|items| - 1], items[|items| - 1];
            Spared(before, q, name, comp) <==> q.ContainSameComponent(name, comp)
  {
    var before, q := items[..|items| - 1], items[|items| - 1];
    forall p | p in before ensures p.name != q.name {
      var i :| 0 <= i < |before| && before[i] == p;
      assert items[i] == p;
    }
  }

  /** The last entry of the list. */
  lemma SimilarLast(items: seq<Queue>, name: string, comp: Component)
    requires items != [] && UniqueNames(items)
    ensures var before, q := items[..|items| - 1], items[|items| - 1];
            && UniqueNames(before)
            && KeptSimilar(items, name, comp) ==
                 KeptSimilar(before, name, comp) + (if Removes(q, name, comp) then [] else [KeptAs(q, name, comp)])
            && RemovedSimilar(items, name, comp) ==
                 RemovedSimilar(before, name, comp) + (if Removes(q, name, comp) then [q] else [])
            && UpdatedSimilar(items, name, comp) ==
                 UpdatedSimilar(before, name, comp) + [if Updates(q, name, comp) then Some(Shrunk(q, comp)) else None]
  {
    SparedIff(items, name, comp);
    ShrunkSame(items[|items| - 1], comp);
  }

  lemma {:induction false} UpdatedAt(items: seq<Queue>, i: nat, name: string, comp: Component)
    requires i < |items| && UniqueNames(items)
    ensures UpdatedSimilar(items, name, comp)[i] ==
            if Updates(items[i], name, comp) then Some(Shrunk(items[i], comp)) else None
  {
    SimilarLast(items, name, comp);
    if i < |items| - 1 {
      UpdatedAt(items[..|items| - 1], i, name, comp);
    }
  }

  lemma {:induction false} RemovedAre(items: seq<Queue>, name: string, comp: Component)
    requires UniqueNames(items)
    ensures forall q :: q in RemovedSimilar(items, name, comp) <==> q in items && Removes(q, name, comp)
  {
    if items != [] {
      var before, q := items[..|items| - 1], items[|items| - 1];
      SimilarLast(items, name, comp);
      RemovedAre(before, name, comp);
      assert items == before + [q];
    }
  }

  lemma {:induction false} KeptAre(items: seq<Queue>, name: string, comp: Component)
    requires UniqueNames(items)
    ensures forall p :: p in items && !Removes(p, name, comp) ==> KeptAs(p, name, comp) in KeptSimilar(items, name, comp)
    ensures forall q :: q in KeptSimilar(items, name, comp) ==>
              exists p :: p in items && !Removes(p, name, comp) && q == KeptAs(p, name, comp)
  {
    if items != [] {
      var before, last := items[..|items| - 1], items[|items| - 1];
      SimilarLast(items, name, comp);
      KeptAre(before, name, comp);
      assert items == before + [last];
      forall q | q in KeptSimilar(items, name, comp)
        ensures exists p :: p in items && !Removes(p, name, comp) && q == KeptAs(p, name, comp)
      {
        if q in KeptSimilar(before, name, comp) {
          var p :| p in before && !Removes(p, name, comp) && q == KeptAs(p, name, comp);
          assert p in items;
        } else {
          assert last in items && q == KeptAs(last, name, comp);
        }
      }
    }
  }

  lemma {:induction false} KeptOrRemoved(items: seq<Queue>, name: string, comp: Component)
    ensures |KeptSimilar(items, name, comp)| + |RemovedSimilar(items, name, comp)| == |items|
  {
    if items != [] {
      KeptOrRemoved(items[..|items| - 1], name, comp);
    }
  }

  lemma {:induction false} RemovedUnique(items: seq<Queue>, name: string, comp: Component)
    requires UniqueNames(items)
    ensures UniqueNames(RemovedSimilar(items, name, comp))
  {
    if items != [] {
      var before, q := items[..|items| - 1], items[|items| - 1];
      SimilarLast(items, name, comp);
      RemovedUnique(before, name, comp);
      RemovedAre(before, name, comp);
      var removed := RemovedSimilar(before, name, comp);
      forall i | 0 <= i < |removed| ensures removed[i].name != q.name {
        assert removed[i] in removed && removed[i] in before;
        var j :| 0 <= j < |before| && before[j] == removed[i];
        assert items[j] == before[j];
      }
    }
  }

  /** Without a removal every entry keeps its place. */
  lemma {:induction false} KeptInPlace(items: seq<Queue>, name: string, comp: Component)
    requires UniqueNames(items) && forall q :: q in items ==> !Removes(q, name, comp)
    ensures var kept := KeptSimilar(items, name, comp);
            |kept| == |items| && forall i :: 0 <= i < |items| ==> kept[i] == KeptAs(items[i], name, comp)
  {
    if items != [] {
      var before, q := items[..|items| - 1], items[|items| - 1];
      SimilarLast(items, name, comp);
      assert items == before + [q];
      KeptInPlace(before, name, comp);
    }
  }

  /** Without an update the kept entries are entries of the list. */
  lemma {:induction false} KeptOnce(items: seq<Queue>, name: string, comp: Component)
    requires UniqueNames(items) && forall q :: q in items ==> !Updates(q, name, comp)
    ensures forall q :: multiset(KeptSimilar(items, name, comp))[q] <= multiset(items)[q]
  {
    if items != [] {
      var before, q := items[..|items| - 1], items[|items| - 1];
      SimilarLast(items, name, comp);
      assert items == before + [q];
      KeptOnce(before, name, comp);
    }
  }

  // ----- addExistingBundleQueue

  /** The component replaces the first one of its name, or is appended. */
  function Merge(cs: seq<Component>, comp: Component): seq<Component> {
    if cs == [] then [comp]
    else if cs[0].name == comp.name then [comp] + cs[1..]
    else [cs[0]] + Merge(cs[1..], comp)
  }

  function Merged(q: Queue, comp: Component): Queue {
    q.(components := Merge(q.components, comp))
  }

  lemma {:induction false} MergeFresh(cs: seq<Component>, comp: Component)
    requires forall c :: c in cs ==> c.name != comp.name
    ensures Merge(cs, comp) == cs + [comp]
  {
    if cs != [] {
      MergeFresh(cs[1..], comp);
    }
  }

  function BundledItem(before: seq<Queue>, q: Queue, name: string, bundle: string, comp: Component): Option<Queue> {
    if !Spared(before, q, name, comp) && q.bundle == bundle then Some(Merged(q, comp)) else None
  }

  function UpdatedBundles(items: seq<Queue>, name: string, bundle: string, comp: Component): (r: seq<Option<Queue>>)
    ensures |r| == |items|
  {
    if items == [] then []
    else
      var before, q := items[..|items| - 1], items[|items| - 1];
      UpdatedBundles(before, name, bundle, comp) + [BundledItem(before, q, name, bundle, comp)]
  }

  function Overlay(items: seq<Queue>, updating: seq<Option<Queue>>): (r: seq<Queue>)
    requires |items| == |updating|
    ensures |r| == |items|
    ensures forall i :: 0 <= i < |r| ==> r[i] == if updating[i].Some? then updating[i].value else items[i]
  {
    seq(|items|, i requires 0 <= i < |items| => if updating[i].Some? then updating[i].value else items[i])
  }

  lemma OverlayNext(items: seq<Queue>, updating: seq<Option<Queue>>, q: Queue, update: Option<Queue>)
    requires |items| == |updating|
    ensures Overlay(items + [q], updating + [update]) == Overlay(items, updating) + [if update.Some? then update.value else q]
  {
  }

  lemma {:induction false} BundleAt(items: seq<Queue>, i: nat, name: string, bundle: string, comp: Component)
    requires i < |items|
    ensures UpdatedBundles(items, name, bundle, comp)[i] == BundledItem(items[..i], items[i], name, bundle, comp)
  {
    var k := |items| - 1;
    if i < k {
      BundleAt(items[..k], i, name, bundle, comp);
      assert items[..k][..i] == items[..i];
    }
  }

  // ----- setQueueOrderFollowingPriorityQueues

  predicate Matches(q: Queue, prior: string) {
    q.name == prior || Holds(q, prior)
  }

  /** `r` is the position of the first priority name the queue matches, |prios| when it matches none. */
  ghost predicate IsRank(q: Queue, prios: seq<string>, r: nat) {
    && r <= |prios|
    && (r < |prios| ==> Matches(q, prios[r]))
    && (forall i :: 0 <= i < r ==> !Matches(q, prios[i]))
  }

  lemma {:induction false} HasRank(q: Queue, prios: seq<string>, from: nat)
    requires from <= |prios| && forall i :: 0 <= i < from ==> !Matches(q, prios[i])
    ensures exists r :: IsRank(q, prios, r)
    decreases |prios| - from
  {
    if from < |prios| && !Matches(q, prios[from]) {
      HasRank(q, prios, from + 1);
    } else {
      assert IsRank(q, prios, from);
    }
  }

  ghost function Rank(q: Queue, prios: seq<string>): (r: nat)
    ensures r <= |prios|
  {
    HasRank(q, prios, 0);
    var r: nat :| IsRank(q, prios, r);
    r
  }

  lemma RankIs(q: Queue, prios: seq<string>, r: nat)
    requires IsRank(q, prios, r)
    ensures Rank(q, prios) == r
  {
    assert IsRank(q, prios, Rank(q, prios)) by { HasRank(q, prios, 0); }
  }
}
