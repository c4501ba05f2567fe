/** Order numbers of the staging queue list: TopQueueOrder, LastQueueOrder, List.First
    (api/v1/queue_types.go) and the priority insertion (internal/queue/controller.go). */
module QueueOrdering {
  import opened QueueTypes
  import opened QueueList

  /** QueueList.Sort: any arrangement that puts no entry after one with a greater key. */
  method Sort(now: int, items: seq<Queue>) returns (sorted: seq<Queue>)
    ensures IsSortOf(now, items, sorted)
    ensures |sorted| == |items|
  {
    sorted := SortQueues(now, items);
    SortQueuesSorts(now, items);
  }

  /** A number below those of all entries that are not postponed. */
  predicate TopNumber(now: int, items: seq<Queue>, order: int) {
    forall q :: q in items && !Postponed(now, q) ==> order < q.noOfOrder
  }

  /** Giving a due entry such a number puts it strictly before every entry, even postponed ones. */
  lemma TopNumberIsFirst(now: int, items: seq<Queue>, order: int, r: Queue)
    requires TopNumber(now, items, order) && !Postponed(now, r) && r.noOfOrder == order
    ensures forall q :: q in items ==> Less(now, r, q) && !Less(now, q, r)
  {
  }

  method TopQueueOrder(now: int, items: seq<Queue>) returns (sorted: seq<Queue>, order: int)
    ensures IsSortOf(now, items, sorted)
    ensures items == [] ==> order == 1
    ensures TopNumber(now, items, order)
    ensures items != [] ==> exists q :: q in items && order == q.noOfOrder - 1
  {
    sorted := Sort(now, items);
    SamePermutationMembers(items, sorted);
    if |items| == 0 {
      return sorted, 1;
    }
    order := sorted[0].noOfOrder - 1;
    assert sorted[0] in items;
    forall q | q in items && !Postponed(now, q) ensures order < q.noOfOrder {
      assert q in sorted;
    }
  }

  method LastQueueOrder(now: int, items: seq<Queue>) returns (sorted: seq<Queue>, order: int)
    ensures IsSortOf(now, items, sorted)
    ensures |sorted| == |items|
    ensures order == if items == [] then 1 else sorted[|sorted| - 1].noOfOrder + 1
    ensures (forall q :: q in items ==> !Postponed(now, q)) ==> forall q :: q in items ==> q.noOfOrder < order
  {
    sorted := Sort(now, items);
    SamePermutationMembers(items, sorted);
    if |items| == 0 {
      return sorted, 1;
    }
    order := sorted[|sorted| - 1].noOfOrder + 1;
    if forall q :: q in items ==> !Postponed(now, q) {
      forall q | q in items ensures q.noOfOrder < order {
        assert q in sorted;
        assert sorted[|sorted| - 1] in items;
      }
    }
  }

  /** With a postponed entry the "last" order can be one that is already taken. */
  lemma LastQueueOrderCanCollide(a: Queue, b: Queue, now: int)
    requires a.noOfOrder == 2 && a.nextProcessAt.None?
    requires b.noOfOrder == 1 && b.nextProcessAt == Some(now + 1)
    ensures forall sorted: seq<Queue> :: IsSortOf(now, [b, a], sorted) ==>
              |sorted| == 2 && sorted[1].noOfOrder + 1 == a.noOfOrder
  {
    forall sorted: seq<Queue> | IsSortOf(now, [b, a], sorted)
      ensures |sorted| == 2 && sorted[1].noOfOrder + 1 == a.noOfOrder {
      SamePermutationMembers([b, a], sorted);
      assert a in sorted;
      assert sorted[0] in [b, a] && sorted[1] in [b, a];
      assert KeyLess(KeyOf(now, a), KeyOf(now, b));
    }
  }

  method GetPriorityNo(q: Queue, prios: seq<string>) returns (no: int)
    ensures no == if Rank(q, prios) < |prios| then Rank(q, prios) else -1
    ensures Rank(q, prios) <= |prios|
  {
    for i := 0 to |prios|
      invariant forall k :: 0 <= k < i ==> !Matches(q, prios[k])
    {
      if q.name == prios[i] {
        RankIs(q, prios, i);
        return i;
      }
      for j := 0 to |q.components|
        invariant forall k :: 0 <= k < j ==> q.components[k].name != prios[i]
      {
        if q.components[j].name == prios[i] {
          RankIs(q, prios, i);
          return i;
        }
      }
    }
    RankIs(q, prios, |prios|);
    return -1;
  }

  method GetExistingQueueNumberInList(compName: string, list: seq<Queue>) returns (no: int)
    ensures -1 <= no < |list|
    ensures no == -1 ==> forall i :: 0 <= i < |list| ==> !Holds(list[i], compName)
    ensures no >= 0 ==> Holds(list[no], compName)
  {
    for i := 0 to |list|
      invariant forall k :: 0 <= k < i ==> !Holds(list[k], compName)
    {
      for j := 0 to |list[i].components|
        invariant forall k :: 0 <= k < j ==> list[i].components[k].name != compName
      {
        if list[i].components[j].name == compName {
          return i;
        }
      }
    }
    return -1;
  }

  function Bumped(q: Queue): Queue { q.(noOfOrder := q.noOfOrder + 1) }

  /** The entries from `at` on, except the one at `existing`, moved up by one order number:
      `updated[k]` is the entry that stood at `places[k]`. */
  ghost predicate BumpedFrom(list: seq<Queue>, at: nat, existing: int, updated: seq<Queue>, places: seq<nat>) {
    && |updated| == |places|
    && (forall k :: 0 <= k < |places| ==>
          at <= places[k] < |list| && places[k] != existing && updated[k] == Bumped(list[places[k]]))
    && (forall k, l :: 0 <= k < l < |places| ==> places[k] < places[l])
    && (forall j :: at <= j < |list| && j != existing ==> j in places)
  }

  /** No order number changed: every entry is one of the list, with the key of its place. */
  ghost predicate PassedSoFar(now: int, list: seq<Queue>, newItems: seq<Queue>, updated: seq<Queue>) {
    && |newItems| <= |list|
    && (forall j :: 0 <= j < |newItems| ==> newItems[j] in list && KeyOf(now, newItems[j]) == KeyOf(now, list[j]))
    && (forall q :: q in updated ==> q in list)
  }

  ghost predicate PassedOn(now: int, list: seq<Queue>, newItems: seq<Queue>, updated: seq<Queue>) {
    && |newItems| == |list|
    && (forall j :: 0 <= j < |list| ==> newItems[j] in list && KeyOf(now, newItems[j]) == KeyOf(now, list[j]))
    && (forall q :: q in updated ==> q in list)
  }

  /** No two entries have one sort key. */
  ghost predicate NoTies(now: int, list: seq<Queue>) {
    forall i, j :: 0 <= i < j < |list| ==> KeyOf(now, list[i]) != KeyOf(now, list[j])
  }

  /** The list without the entry at place e, if there is one. */
  function LeftOut(list: seq<Queue>, e: int): seq<Queue> {
    if 0 <= e < |list| then list[..e] + list[e + 1..] else list
  }

  lemma LeftOutNext(list: seq<Queue>, e: int, q: Queue)
    requires e >= -1
    ensures LeftOut(list + [q], e) == if e == |list| then LeftOut(list, e) else LeftOut(list, e) + [q]
  {
  }

  /** What the priority insertion did to the sorted list: `at` is the first place whose entry ranks
      behind the incoming queue, `existing` the place of the entry that is moved, or -1; `shifted`
      are the rewritten entries and `moved` the entry given the free order number. */
  datatype Shift = Shift(list: seq<Queue>, at: nat, existing: int, shifted: seq<Queue>, places: seq<nat>, moved: Queue)

  ghost predicate ShiftedBy(now: int, s: Shift, target: nat, prios: seq<string>, expected: int) {
    && s.at <= |s.list| && -1 <= s.existing < |s.list|
    && (forall i :: 0 <= i < s.at ==> Rank(s.list[i], prios) <= target)
    && (s.at < |s.list| ==> Rank(s.list[s.at], prios) > target)
    && (s.at > 0 ==>
          && BumpedFrom(s.list, s.at, s.existing, s.shifted, s.places)
          && expected == s.list[s.at - 1].noOfOrder + 1
          && (s.existing >= 0 ==> s.moved == s.list[s.existing]))
    && (s.at == 0 ==>
          && (forall q :: q in s.shifted ==> q in s.list)
          && (forall q :: q in s.list && !Postponed(now, q) ==> expected < q.noOfOrder)
          && (s.existing >= 0 ==> s.moved in s.list && KeyOf(now, s.moved) == KeyOf(now, s.list[s.existing])))
  }

  /** setQueueOrderFollowingPriorityQueues, on a sorted list. Both order functions sort the list
      they read once more. */
  method SetQueueOrderFollowingPriorityQueues(now: int, queue: Queue, comp: Component, items: seq<Queue>,
                                              prios: seq<string>)
    returns (updating: seq<Queue>, expected: int, list: seq<Queue>, ghost s: Shift)
    requires KeySorted(now, items)
    ensures IsSortOf(now, items, s.list)
    ensures Rank(queue, prios) == |prios| || items == [] ==>
              && updating == [] && list == s.list
              && expected == if items == [] then 1 else s.list[|s.list| - 1].noOfOrder + 1
    ensures Rank(queue, prios) < |prios| && items != [] ==>
              && ShiftedBy(now, s, Rank(queue, prios), prios, expected)
              && updating == (if s.existing >= 0 then s.shifted + [s.moved.(noOfOrder := expected)] else s.shifted)
              && (s.existing == -1 ==> forall i :: 0 <= i < |items| ==> !Holds(items[i], comp.name))
              && (s.existing >= 0 ==> s.existing < |items| && Holds(items[s.existing], comp.name)
                                      && KeyOf(now, items[s.existing]) == KeyOf(now, s.list[s.existing]))
    ensures |updating| <= |items|
    ensures Rank(queue, prios) < |prios| && items != [] && NoTies(now, s.list) ==>
              && (s.at == 0 ==> s.shifted == LeftOut(s.list, s.existing))
              && (s.existing >= 0 ==> s.moved == s.list[s.existing])
  {
    var targetNo := GetPriorityNo(queue, prios);
    if targetNo == -1 || |items| == 0 {
      list, expected := LastQueueOrder(now, items);
      return [], expected, list, Shift(list, 0, -1, [], [], queue);
    }
    var existing := GetExistingQueueNumberInList(comp.name, items);
    list, expected := LastQueueOrder(now, items);
    assert existing >= 0 ==> KeyOf(now, items[existing]) == KeyOf(now, list[existing]) by {
      TwoSortsAgreeOnKeys(now, items, list);
    }
    updating, expected, list, s := PriorityShift(now, targetNo, existing, list, expected, prios);
  }

  method PriorityShift(now: int, target: nat, existing: int, sorted: seq<Queue>, last: int, prios: seq<string>)
    returns (updating: seq<Queue>, expected: int, list: seq<Queue>, ghost s: Shift)
    requires KeySorted(now, sorted) && sorted != [] && last == sorted[|sorted| - 1].noOfOrder + 1
    requires -1 <= existing < |sorted| && target < |prios|
    ensures s.list == sorted && s.existing == existing
    ensures ShiftedBy(now, s, target, prios, expected)
    ensures updating == if existing >= 0 then s.shifted + [s.moved.(noOfOrder := expected)] else s.shifted
    ensures |updating| <= |sorted|
    ensures NoTies(now, sorted) ==>
              (s.at == 0 ==> s.shifted == LeftOut(sorted, existing)) && (existing >= 0 ==> s.moved == sorted[existing])
  {
    var at := FirstLowerPriority(sorted, target, prios);
    s := Shift(sorted, at, existing, [], [], sorted[0]);
    if at == 0 {
      list, updating, expected := PassOn(now, sorted, existing);
      s := s.(shifted := updating);
    } else {
      expected := if at < |sorted| then sorted[at - 1].noOfOrder + 1 else last;
      ghost var places;
      list, updating, places := BumpFrom(sorted, at, existing);
      s := s.(shifted := updating, places := places);
    }
    if existing >= 0 {
      s := s.(moved := list[existing]);
      var moved := list[existing].(noOfOrder := expected);
      list, updating := list[existing := moved], updating + [moved];
    }
  }

  /** The first place whose entry ranks behind `target`. */
  method FirstLowerPriority(list: seq<Queue>, target: nat, prios: seq<string>) returns (at: nat)
    requires target < |prios|
    ensures at <= |list|
    ensures forall i :: 0 <= i < at ==> Rank(list[i], prios) <= target
    ensures at < |list| ==> Rank(list[at], prios) > target
  {
    at := 0;
    while at < |list|
      invariant at <= |list|
      invariant forall i :: 0 <= i < at ==> Rank(list[i], prios) <= target
    {
      var priorityNo := GetPriorityNo(list[at], prios);
      if priorityNo == -1 || priorityNo > target {
        return;
      }
      at := at + 1;
    }
  }

  /** From `at` > 0 on, every entry but the existing one moves up by one order number. */
  method BumpFrom(list: seq<Queue>, at: nat, existing: int)
    returns (newItems: seq<Queue>, updating: seq<Queue>, ghost places: seq<nat>)
    requires 0 < at <= |list|
    ensures |newItems| == |list| && (0 <= existing < |list| ==> newItems[existing] == list[existing])
    ensures BumpedFrom(list, at, existing, updating, places) && |updating| <= |list| - at
  {
    newItems, updating, places := list[..at], [], [];
    for i := at to |list|
      invariant |newItems| == i && |updating| == |places| && |updating| <= i - at
      invariant 0 <= existing < i ==> newItems[existing] == list[existing]
      invariant forall k :: 0 <= k < |places| ==>
                  at <= places[k] < i && places[k] != existing && updating[k] == Bumped(list[places[k]])
      invariant forall k, l :: 0 <= k < l < |places| ==> places[k] < places[l]
      invariant forall j :: at <= j < i && j != existing ==> j in places
    {
      var q := list[i];
      if i != existing {
        q := Bumped(q);
        updating, places := updating + [q], places + [i];
      }
      newItems := newItems + [q];
    }
  }

  lemma PassedEntry(now: int, list: seq<Queue>, sorted: seq<Queue>, i: nat)
    requires KeySorted(now, list) && IsSortOf(now, list, sorted) && i < |list| == |sorted|
    ensures var q := if i == 0 then list[0] else sorted[i]; q in list && KeyOf(now, q) == KeyOf(now, list[i])
  {
    TwoSortsAgreeOnKeys(now, list, sorted);
    SamePermutationMembers(list, sorted);
    assert sorted[i] in sorted;
  }

  /** The very first entry ranks behind the incoming queue. It was read before TopQueueOrder sorted
      the list again, the others after. No order number changes. */
  method PassOn(now: int, list: seq<Queue>, existing: int)
    returns (newItems: seq<Queue>, updating: seq<Queue>, expected: int)
    requires |list| > 0 && KeySorted(now, list) && -1 <= existing < |list|
    ensures PassedOn(now, list, newItems, updating)
    ensures |updating| == if existing >= 0 then |list| - 1 else |list|
    ensures NoTies(now, list) ==> newItems == list && updating == LeftOut(list, existing)
    ensures forall q :: q in list && !Postponed(now, q) ==> expected < q.noOfOrder
  {
    var sorted;
    sorted, expected := TopQueueOrder(now, list);
    assert |sorted| == |list| by { SamePermutationMembers(list, sorted); }
    if NoTies(now, list) {
      SortedOnce(now, list, sorted);
    }
    hide PassedOn, PassedSoFar, LeftOut, NoTies, KeySorted;
    newItems, updating := [], [];
    PassingWhole(now, list, sorted, existing, [], []);
    for i := 0 to |sorted|
      invariant Passing(now, list, sorted, existing, newItems, updating) && |newItems| == i
    {
      var q := if i == 0 then list[0] else sorted[i];
      PassingNext(now, list, sorted, existing, newItems, updating);
      if i != existing {
        updating := updating + [q];
      }
      newItems := newItems + [q];
    }
    PassedAll(now, list, sorted, existing, newItems, updating);
  }

  lemma PassedAll(now: int, list: seq<Queue>, sorted: seq<Queue>, existing: int, newItems: seq<Queue>, updating: seq<Queue>)
    requires Passing(now, list, sorted, existing, newItems, updating) && |newItems| == |list| && -1 <= existing < |list|
    ensures PassedOn(now, list, newItems, updating)
    ensures |updating| == if existing >= 0 then |list| - 1 else |list|
    ensures sorted == list ==> newItems == list && updating == LeftOut(list, existing)
  {
    assert list[..|list|] == list;
  }

  /** What was passed on of the list, which was sorted once more. */
  ghost predicate Passing(now: int, list: seq<Queue>, sorted: seq<Queue>, existing: int, newItems: seq<Queue>,
                          updating: seq<Queue>) {
    && PassedSoFar(now, list, newItems, updating)
    && |updating| == (if 0 <= existing < |newItems| then |newItems| - 1 else |newItems|)
    && (sorted == list ==> newItems == list[..|newItems|] && updating == LeftOut(newItems, existing))
  }

  lemma PassingNext(now: int, list: seq<Queue>, sorted: seq<Queue>, existing: int, newItems: seq<Queue>, updating: seq<Queue>)
    requires KeySorted(now, list) && IsSortOf(now, list, sorted) && |newItems| < |list| == |sorted| && existing >= -1
    requires Passing(now, list, sorted, existing, newItems, updating)
    ensures var i := |newItems|;
            var q := if i == 0 then list[0] else sorted[i];
            Passing(now, list, sorted, existing, newItems + [q], if i == existing then updating else updating + [q])
  {
    var i := |newItems|;
    var q := if i == 0 then list[0] else sorted[i];
    hide *;
    PassingParts(now, list, sorted, existing, newItems, updating);
    PassedEntry(now, list, sorted, i);
    PassedNext(now, list, newItems, updating, q, i != existing);
    if sorted == list {
      PrefixNext(list, newItems, updating, existing);
    }
    PassingWhole(now, list, sorted, existing, newItems + [q], if i == existing then updating else updating + [q]);
  }

  lemma PassingParts(now: int, list: seq<Queue>, sorted: seq<Queue>, existing: int, newItems: seq<Queue>, updating: seq<Queue>)
    requires Passing(now, list, sorted, existing, newItems, updating) && |newItems| < |list|
    ensures PassedSoFar(now, list, newItems, updating)
    ensures |updating| == (if 0 <= existing < |newItems| then |newItems| - 1 else |newItems|)
    ensures sorted == list ==> newItems == list[..|newItems|] && updating == LeftOut(newItems, existing)
  {
  }

  lemma PassingWhole(now: int, list: seq<Queue>, sorted: seq<Queue>, existing: int, newItems: seq<Queue>, updating: seq<Queue>)
    requires PassedSoFar(now, list, newItems, updating) && |newItems| <= |list|
    requires |updating| == (if 0 <= existing < |newItems| then |newItems| - 1 else |newItems|)
    requires sorted == list ==> newItems == list[..|newItems|] && updating == LeftOut(newItems, existing)
    ensures Passing(now, list, sorted, existing, newItems, updating)
  {
  }

  lemma PrefixNext(list: seq<Queue>, newItems: seq<Queue>, updating: seq<Queue>, existing: int)
    requires |newItems| < |list| && newItems == list[..|newItems|] && updating == LeftOut(newItems, existing) && existing >= -1
    ensures var i := |newItems|;
            && newItems + [list[i]] == list[..i + 1]
            && (if i == existing then updating else updating + [list[i]]) == LeftOut(newItems + [list[i]], existing)
  {
    LeftOutNext(newItems, existing, list[|newItems|]);
  }

  lemma PassedNext(now: int, list: seq<Queue>, newItems: seq<Queue>, updated: seq<Queue>, q: Queue, listed: bool)
    requires PassedSoFar(now, list, newItems, updated) && |newItems| < |list|
    requires q in list && KeyOf(now, q) == KeyOf(now, list[|newItems|])
    ensures PassedSoFar(now, list, newItems + [q], if listed then updated + [q] else updated)
  {
  }

  /** Without ties a sorted list is sorted in one way. */
  lemma SortedOnce(now: int, list: seq<Queue>, sorted: seq<Queue>)
    requires KeySorted(now, list) && IsSortOf(now, list, sorted) && NoTies(now, list) && |sorted| == |list|
    ensures sorted == list
  {
    TwoSortsAgreeOnKeys(now, list, sorted);
    SamePermutationMembers(list, sorted);
    forall i | 0 <= i < |list| ensures sorted[i] == list[i] {
      assert sorted[i] in sorted;
      var j :| 0 <= j < |list| && list[j] == sorted[i];
      assert KeyOf(now, list[j]) == KeyOf(now, list[i]);
      assert j == i || j < i || i < j;
    }
  }

  // ----- The effect on the order numbers of the whole namespace

  /** Nothing but the order (and the resource version) differs. */
  predicate SameButOrder(q: Queue, q': Queue) {
    q' == q.(noOfOrder := q'.noOfOrder, rv := q'.rv)
  }

  ghost predicate OrdersOnly(m: map<string, Queue>, m': map<string, Queue>) {
    m'.Keys == m.Keys && forall n :: n in m ==> SameButOrder(m[n], m'[n])
  }

  /** The order numbers in `updating` have been saved, one entry after the other. */
  ghost predicate Saved(m: map<string, Queue>, m': map<string, Queue>, updating: seq<Queue>) {
    && OrdersOnly(m, m')
    && (forall n :: n in m ==>
          || m'[n].noOfOrder == m[n].noOfOrder
          || exists k :: 0 <= k < |updating| && updating[k].name == n && m'[n].noOfOrder == updating[k].noOfOrder)
    && (forall k | 0 <= k < |updating| && updating[k].name in m ::
          (forall l :: k < l < |updating| ==> updating[l].name != updating[k].name) ==>
            m'[updating[k].name].noOfOrder == updating[k].noOfOrder)
  }

  lemma SavedStep(m: map<string, Queue>, m1: map<string, Queue>, updating: seq<Queue>, q: Queue, rv: nat)
    requires Saved(m, m1, updating) && q.name in m && SameButOrder(m[q.name], q)
    ensures Saved(m, m1[q.name := q.(rv := rv)], updating + [q]) && OrdersOnly(m, m1[q.name := q.(rv := rv)])
  {
    var m2, u := m1[q.name := q.(rv := rv)], updating + [q];
    assert OrdersOnly(m, m2);
    forall n | n in m
      ensures || m2[n].noOfOrder == m[n].noOfOrder
              || exists k :: 0 <= k < |u| && u[k].name == n && m2[n].noOfOrder == u[k].noOfOrder
    {
      if n == q.name {
        assert u[|updating|] == q;
      } else if m1[n].noOfOrder != m[n].noOfOrder {
        var k :| 0 <= k < |updating| && updating[k].name == n && m1[n].noOfOrder == updating[k].noOfOrder;
        assert u[k] == updating[k];
      }
    }
    forall k | 0 <= k < |u| && u[k].name in m && forall l :: k < l < |u| ==> u[l].name != u[k].name
      ensures m2[u[k].name].noOfOrder == u[k].noOfOrder
    {
      if k < |updating| {
        assert u[k] == updating[k] && u[|updating|] == q;
        forall l | k < l < |updating| ensures updating[l].name != updating[k].name {
          assert u[l] == updating[l];
        }
      }
    }
  }

  /** Order numbers after the shift: the entry at `moved` (if any) took `expected`, the others from
      `at` > 0 on moved up by one, the rest kept theirs. */
  ghost predicate Renumbered(list: seq<Queue>, at: nat, moved: int, expected: int, m': map<string, Queue>) {
    forall i :: 0 <= i < |list| ==>
      list[i].name in m' && m'[list[i].name].noOfOrder == NewNumber(list, at, moved, expected, i)
  }

  ghost function NewNumber(list: seq<Queue>, at: nat, moved: int, expected: int, i: nat): int
    requires i < |list|
  {
    if i == moved then expected
    else if 0 < at <= i then list[i].noOfOrder + 1 else list[i].noOfOrder
  }

  /** `expected` is the number in front of place `at`. */
  ghost predicate FreeNumber(now: int, list: seq<Queue>, at: nat, expected: int) {
    && at <= |list|
    && (at > 0 ==> expected == list[at - 1].noOfOrder + 1)
    && (at == 0 ==> forall q :: q in list && !Postponed(now, q) ==> expected < q.noOfOrder)
  }

  /** No other queue has x's order number, and every queue postponed now is numbered after x. */
  ghost predicate Apart(now: int, m: map<string, Queue>, x: string) {
    && x in m && !Postponed(now, m[x])
    && forall y :: y in m && y != x ==>
         && m[y].noOfOrder != m[x].noOfOrder
         && (Postponed(now, m[y]) ==> m[y].noOfOrder > m[x].noOfOrder)
  }

  lemma BumpsSaved(m: map<string, Queue>, m': map<string, Queue>, s: Shift, updating: seq<Queue>, expected: int)
    requires IsListing(m, s.list) && 0 < s.at <= |s.list| && -1 <= s.existing < |s.list|
    requires BumpedFrom(s.list, s.at, s.existing, s.shifted, s.places)
    requires s.existing >= 0 ==> s.moved == s.list[s.existing]
    requires updating == if s.existing >= 0 then s.shifted + [s.moved.(noOfOrder := expected)] else s.shifted
    requires Saved(m, m', updating)
    ensures Renumbered(s.list, s.at, s.existing, expected, m')
  {
    ListingPlaces(m, s.list);
    forall i | 0 <= i < |s.list|
      ensures s.list[i].name in m'
      ensures m'[s.list[i].name].noOfOrder == NewNumber(s.list, s.at, s.existing, expected, i)
    {
      var n := s.list[i].name;
      assert s.list[i] in s.list;
      if i == s.existing {
        assert updating[|updating| - 1].name == n;
      } else if i >= s.at {
        var k := BumpedOnce(s, updating, expected, i);
      } else {
        NotBumped(s, updating, expected, i);
      }
    }
  }

  lemma BumpedOnce(s: Shift, updating: seq<Queue>, expected: int, i: nat) returns (k: nat)
    requires s.at <= i < |s.list| && i != s.existing < |s.list|
    requires forall i, j :: 0 <= i < j < |s.list| ==> s.list[i].name != s.list[j].name
    requires BumpedFrom(s.list, s.at, s.existing, s.shifted, s.places)
    requires s.existing >= 0 ==> s.moved == s.list[s.existing]
    requires updating == if s.existing >= 0 then s.shifted + [s.moved.(noOfOrder := expected)] else s.shifted
    ensures k < |updating| && updating[k] == Bumped(s.list[i])
    ensures forall l :: k < l < |updating| ==> updating[l].name != updating[k].name
  {
    assert i in s.places;
    k :| 0 <= k < |s.places| && s.places[k] == i;
    forall l | k < l < |updating| ensures updating[l].name != updating[k].name {
      if l < |s.places| {
        assert s.places[k] < s.places[l] && updating[l] == Bumped(s.list[s.places[l]]);
      } else {
        assert updating[l].name == s.list[s.existing].name;
        assert i < s.existing || s.existing < i;
      }
    }
  }

  lemma NotBumped(s: Shift, updating: seq<Queue>, expected: int, i: nat)
    requires i < s.at <= |s.list| && i != s.existing < |s.list|
    requires forall i, j :: 0 <= i < j < |s.list| ==> s.list[i].name != s.list[j].name
    requires BumpedFrom(s.list, s.at, s.existing, s.shifted, s.places)
    requires s.existing >= 0 ==> s.moved == s.list[s.existing]
    requires updating == if s.existing >= 0 then s.shifted + [s.moved.(noOfOrder := expected)] else s.shifted
    ensures forall k :: 0 <= k < |updating| ==> updating[k].name != s.list[i].name
  {
    forall k | 0 <= k < |updating| ensures updating[k].name != s.list[i].name {
      if k < |s.places| {
        assert updating[k] == Bumped(s.list[s.places[k]]) && i < s.places[k];
      } else {
        assert updating[k].name == s.list[s.existing].name;
        assert i < s.existing || s.existing < i;
      }
    }
  }

  lemma TopSaved(now: int, m: map<string, Queue>, m': map<string, Queue>, s: Shift, updating: seq<Queue>, expected: int)
    returns (moved: int)
    requires IsListing(m, s.list) && -1 <= s.existing < |s.list|
    requires forall q :: q in s.shifted ==> q in s.list
    requires s.existing >= 0 ==> s.moved in s.list
    requires updating == if s.existing >= 0 then s.shifted + [s.moved.(noOfOrder := expected)] else s.shifted
    requires Saved(m, m', updating)
    ensures -1 <= moved < |s.list| && (moved >= 0 <==> s.existing >= 0) && (moved >= 0 ==> s.list[moved] == s.moved)
    ensures Renumbered(s.list, 0, moved, expected, m')
  {
    ListingPlaces(m, s.list);
    moved := -1;
    if s.existing >= 0 {
      moved :| 0 <= moved < |s.list| && s.list[moved] == s.moved;
    }
    forall i | 0 <= i < |s.list|
      ensures s.list[i].name in m'
      ensures m'[s.list[i].name].noOfOrder == NewNumber(s.list, 0, moved, expected, i)
    {
      var n := s.list[i].name;
      assert s.list[i] in s.list;
      if i == moved {
        assert updating[|updating| - 1].name == n;
      } else {
        forall k | 0 <= k < |updating| && updating[k].name == n ensures updating[k].noOfOrder == m[n].noOfOrder {
          if k < |s.shifted| {
            assert updating[k] == s.shifted[k] && s.shifted[k] in s.list;
          }
        }
      }
    }
  }

  /** In a sorted list everything before x has a smaller order and everything after it a greater one. */
  lemma ApartPlaces(now: int, m: map<string, Queue>, list: seq<Queue>, p: nat)
    requires IsListing(m, list) && KeySorted(now, list) && p < |list| && Apart(now, m, list[p].name)
    ensures forall i :: 0 <= i < p ==> list[i].noOfOrder < list[p].noOfOrder && !Postponed(now, list[i])
    ensures forall i :: p < i < |list| ==> list[i].noOfOrder > list[p].noOfOrder
  {
    ListingPlaces(m, list);
    assert list[p] in list;
    forall i | 0 <= i < |list| && i != p
      ensures if i < p then list[i].noOfOrder < list[p].noOfOrder && !Postponed(now, list[i])
              else list[i].noOfOrder > list[p].noOfOrder
    {
      assert list[i] in list && list[i].name != list[p].name;
      if i < p {
        assert !KeyLess(KeyOf(now, list[p]), KeyOf(now, list[i]));
      } else {
        assert !KeyLess(KeyOf(now, list[i]), KeyOf(now, list[p]));
      }
    }
  }

  /** Renumbering around x keeps x apart, and the free number is not x's. */
  lemma ApartRenumbered(now: int, m: map<string, Queue>, m': map<string, Queue>, list: seq<Queue>, at: nat,
                        moved: int, expected: int, x: string)
    requires IsListing(m, list) && KeySorted(now, list) && OrdersOnly(m, m')
    requires Renumbered(list, at, moved, expected, m') && FreeNumber(now, list, at, expected)
    requires -1 <= moved < |list| && (moved >= 0 ==> list[moved].name != x && !Postponed(now, list[moved]))
    requires Apart(now, m, x)
    ensures Apart(now, m', x) && expected != m'[x].noOfOrder
  {
    hide Renumbered;
    assert m[x] in list;
    var p :| 0 <= p < |list| && list[p] == m[x];
    ApartPlaces(now, m, list, p);
    assert list[p] in list;
    forall y | y in m' && y != x
      ensures && m'[y].noOfOrder != m'[x].noOfOrder
              && (Postponed(now, m'[y]) ==> m'[y].noOfOrder > m'[x].noOfOrder)
    {
      RenumberedApartFrom(now, m, m', list, p, at, moved, expected, y);
    }
    assert SameButOrder(m[x], m'[x]);
    FreeOfPlace(list, p, at, moved, expected, m');
  }

  /** An entry with a number of its own does not get the free number. */
  lemma FreeOfPlace(list: seq<Queue>, p: nat, at: nat, moved: int, expected: int, m': map<string, Queue>)
    requires Renumbered(list, at, moved, expected, m') && p < |list| && moved != p && at <= |list| && list[p].name in m'
    requires forall k :: 0 <= k < p ==> list[k].noOfOrder < list[p].noOfOrder
    requires forall k :: p < k < |list| ==> list[k].noOfOrder > list[p].noOfOrder
    requires if at > 0 then expected == list[at - 1].noOfOrder + 1 else expected < list[p].noOfOrder
    ensures expected != m'[list[p].name].noOfOrder
  {
  }

  lemma RenumberedApartFrom(now: int, m: map<string, Queue>, m': map<string, Queue>, list: seq<Queue>, p: nat, at: nat,
                            moved: int, expected: int, y: string)
    requires IsListing(m, list) && OrdersOnly(m, m') && Renumbered(list, at, moved, expected, m')
    requires p < |list| && moved != p && at <= |list| && y in m && y != list[p].name
    requires -1 <= moved < |list| && (moved >= 0 ==> !Postponed(now, list[moved]))
    requires forall k :: 0 <= k < p ==> list[k].noOfOrder < list[p].noOfOrder && !Postponed(now, list[k])
    requires forall k :: p < k < |list| ==> list[k].noOfOrder > list[p].noOfOrder
    requires if at > 0 then expected == list[at - 1].noOfOrder + 1 else expected < list[p].noOfOrder
    ensures list[p].name in m' && m'[y].noOfOrder != m'[list[p].name].noOfOrder
    ensures Postponed(now, m'[y]) ==> m'[y].noOfOrder > m'[list[p].name].noOfOrder
  {
    assert m[y] in list && SameButOrder(m[y], m'[y]);
    var i :| 0 <= i < |list| && list[i] == m[y];
    NumbersApart(now, list, p, i, at, moved, expected);
  }

  lemma NumbersApart(now: int, list: seq<Queue>, p: nat, i: nat, at: nat, moved: int, expected: int)
    requires p < |list| && i < |list| && i != p && moved != p && at <= |list|
    requires forall k :: 0 <= k < p ==> list[k].noOfOrder < list[p].noOfOrder && !Postponed(now, list[k])
    requires forall k :: p < k < |list| ==> list[k].noOfOrder > list[p].noOfOrder
    requires if at > 0 then expected == list[at - 1].noOfOrder + 1 else expected < list[p].noOfOrder
    ensures var x, y := NewNumber(list, at, moved, expected, p), NewNumber(list, at, moved, expected, i);
            x != y && (x < y || i == moved || !Postponed(now, list[i]))
  {
  }

  /** Sorted numbers of entries that are all due do not fall. */
  lemma DueNumbersRise(now: int, list: seq<Queue>, i: nat, j: nat)
    requires KeySorted(now, list) && i < j < |list| && !Postponed(now, list[i]) && !Postponed(now, list[j])
    ensures list[i].noOfOrder <= list[j].noOfOrder
  {
    assert !KeyLess(KeyOf(now, list[j]), KeyOf(now, list[i]));
  }

  /** With nothing postponed the free number is free behind the list, before it, and, if no two entries
      share a number, in between. */
  lemma FreeNumberIsFree(now: int, list: seq<Queue>, at: nat, moved: int, expected: int, i: nat)
    requires KeySorted(now, list) && FreeNumber(now, list, at, expected) && i < |list| && i != moved
    requires forall k :: 0 <= k < |list| ==> !Postponed(now, list[k])
    requires at < |list| ==> forall k, l :: 0 <= k < l < |list| ==> list[k].noOfOrder != list[l].noOfOrder
    ensures NewNumber(list, at, moved, expected, i) != expected
  {
    if at == 0 {
      assert list[i] in list;
    } else if i < at - 1 {
      DueNumbersRise(now, list, i, at - 1);
    } else if i > at - 1 {
      DueNumbersRise(now, list, at - 1, i);
    }
  }

  /** No entry from place `at` on, except the moved one, shares the number of the entry in front of it. */
  ghost predicate NoneSharesBefore(list: seq<Queue>, at: nat, moved: int)
    requires at <= |list|
  {
    at == 0 || forall i :: at <= i < |list| && i != moved ==> list[i].noOfOrder != list[at - 1].noOfOrder
  }

  /** With nothing postponed that is exactly when the free number is free. */
  lemma FreeNumberIsFreeIff(now: int, list: seq<Queue>, at: nat, moved: int, expected: int)
    requires KeySorted(now, list) && FreeNumber(now, list, at, expected)
    requires forall k :: 0 <= k < |list| ==> !Postponed(now, list[k])
    ensures (forall i :: 0 <= i < |list| && i != moved ==> NewNumber(list, at, moved, expected, i) != expected)
            <==> NoneSharesBefore(list, at, moved)
  {
    forall i | 0 <= i < |list| && i != moved
      ensures NewNumber(list, at, moved, expected, i) == expected <==> 0 < at <= i && list[i].noOfOrder == list[at - 1].noOfOrder
    {
      if at == 0 {
        assert list[i] in list;
      } else if i < at - 1 {
        DueNumbersRise(now, list, i, at - 1);
      }
    }
    if !NoneSharesBefore(list, at, moved) {
      var i :| at <= i < |list| && i != moved && list[i].noOfOrder == list[at - 1].noOfOrder;
      assert NewNumber(list, at, moved, expected, i) == expected;
    }
  }

  /** Numbers that differ still differ after the shift. */
  lemma ShiftedNumbersDiffer(now: int, list: seq<Queue>, at: nat, expected: int, i: nat, j: nat)
    requires KeySorted(now, list) && i < j < |list|
    requires forall k :: 0 <= k < |list| ==> !Postponed(now, list[k])
    requires list[i].noOfOrder != list[j].noOfOrder
    ensures NewNumber(list, at, -1, expected, i) < NewNumber(list, at, -1, expected, j)
  {
    DueNumbersRise(now, list, i, j);
  }

  /** No queue is postponed, order numbers differ and follow the priority ranks. */
  ghost predicate PrioritySorted(now: int, m: map<string, Queue>, prios: seq<string>) {
    && (forall n :: n in m ==> !Postponed(now, m[n]))
    && (forall a, b :: a in m && b in m && a != b ==> m[a].noOfOrder != m[b].noOfOrder)
    && (forall a, b :: a in m && b in m && Rank(m[a], prios) < Rank(m[b], prios) ==> m[a].noOfOrder < m[b].noOfOrder)
  }

  predicate Before(m: map<string, Queue>, a: string, b: string) {
    a in m && b in m && m[a].noOfOrder < m[b].noOfOrder
  }

  /** `name` joined behind everything of equal or better rank and before the rest, whose mutual order is kept. */
  ghost predicate Inserted(m: map<string, Queue>, m': map<string, Queue>, name: string, prios: seq<string>) {
    && m'.Keys == m.Keys + {name}
    && (forall n :: n in m ==> SameButOrder(m[n], m'[n]))
    && (forall a, b :: a in m && b in m ==> (Before(m', a, b) <==> Before(m, a, b)))
    && (forall n :: n in m ==>
          && m'[n].noOfOrder != m'[name].noOfOrder
          && (m'[n].noOfOrder < m'[name].noOfOrder <==> Rank(m[n], prios) <= Rank(m'[name], prios)))
  }

  lemma RankSameButOrder(q: Queue, q': Queue, prios: seq<string>)
    requires q'.name == q.name && q'.components == q.components
    ensures Rank(q', prios) == Rank(q, prios)
  {
    HasRank(q, prios, 0);
    assert forall p :: Matches(q, p) <==> Matches(q', p);
    RankIs(q', prios, Rank(q, prios));
  }

  /** Places in a sorted list of such a namespace follow the order numbers and the ranks. */
  lemma PriorityPlaces(now: int, m: map<string, Queue>, list: seq<Queue>, prios: seq<string>)
    requires IsListing(m, list) && KeySorted(now, list) && PrioritySorted(now, m, prios)
    ensures forall i, j :: 0 <= i < j < |list| ==>
              list[i].noOfOrder < list[j].noOfOrder && Rank(list[i], prios) <= Rank(list[j], prios)
  {
    ListingPlaces(m, list);
    forall i, j | 0 <= i < j < |list|
      ensures list[i].noOfOrder < list[j].noOfOrder && Rank(list[i], prios) <= Rank(list[j], prios)
    {
      assert list[i] in list && list[j] in list && list[i].name != list[j].name;
      assert !KeyLess(KeyOf(now, list[j]), KeyOf(now, list[i]));
    }
  }

  /** Where an entry of rank `target` belongs. */
  ghost predicate RankPlace(list: seq<Queue>, at: nat, target: nat, prios: seq<string>) {
    && at <= |list|
    && (forall i :: 0 <= i < at ==> Rank(list[i], prios) <= target)
    && (at < |list| ==> Rank(list[at], prios) > target)
  }

  lemma InsertedByRank(now: int, m: map<string, Queue>, m': map<string, Queue>, list: seq<Queue>, at: nat,
                       expected: int, q: Queue, prios: seq<string>)
    requires IsListing(m, list) && KeySorted(now, list) && OrdersOnly(m, m') && q.name !in m
    requires Renumbered(list, at, -1, expected, m') && (list != [] ==> FreeNumber(now, list, at, expected))
    requires RankPlace(list, at, Rank(q, prios), prios)
    requires PrioritySorted(now, m, prios) && q.noOfOrder == expected && !Postponed(now, q)
    ensures var m'' := m'[q.name := q]; Inserted(m, m'', q.name, prios) && PrioritySorted(now, m'', prios)
  {
    NumbersByRank(now, m, m', list, at, expected, Rank(q, prios), prios);
    NumbersInOrder(now, m, m', list, at, expected, prios);
    InsertedIs(m, m', q, prios);
    InsertedIsSorted(now, m, m', q, prios);
  }

  lemma NumbersByRank(now: int, m: map<string, Queue>, m': map<string, Queue>, list: seq<Queue>, at: nat,
                      expected: int, target: nat, prios: seq<string>)
    requires IsListing(m, list) && KeySorted(now, list) && PrioritySorted(now, m, prios) && OrdersOnly(m, m')
    requires Renumbered(list, at, -1, expected, m') && (list != [] ==> FreeNumber(now, list, at, expected))
    requires RankPlace(list, at, target, prios)
    ensures forall n :: n in m ==> m'[n].noOfOrder != expected && Rank(m'[n], prios) == Rank(m[n], prios)
    ensures forall n :: n in m ==> (m'[n].noOfOrder < expected <==> Rank(m[n], prios) <= target)
  {
    forall n | n in m
      ensures m'[n].noOfOrder != expected && Rank(m'[n], prios) == Rank(m[n], prios)
      ensures m'[n].noOfOrder < expected <==> Rank(m[n], prios) <= target
    {
      RankSameButOrder(m[n], m'[n], prios);
      NumberedByRank(now, m, m', list, at, expected, target, prios, n);
    }
  }

  lemma NumbersInOrder(now: int, m: map<string, Queue>, m': map<string, Queue>, list: seq<Queue>, at: nat,
                       expected: int, prios: seq<string>)
    requires IsListing(m, list) && KeySorted(now, list) && PrioritySorted(now, m, prios) && m'.Keys == m.Keys
    requires Renumbered(list, at, -1, expected, m')
    ensures forall a, b :: a in m && b in m ==> (Before(m', a, b) <==> Before(m, a, b))
  {
    forall a, b | a in m && b in m
      ensures Before(m', a, b) <==> Before(m, a, b)
    {
      SameOrderAfter(now, m, m', list, at, expected, prios, a, b);
    }
  }

  lemma NumberedByRank(now: int, m: map<string, Queue>, m': map<string, Queue>, list: seq<Queue>, at: nat,
                       expected: int, target: nat, prios: seq<string>, n: string)
    requires IsListing(m, list) && KeySorted(now, list) && PrioritySorted(now, m, prios) && n in m
    requires Renumbered(list, at, -1, expected, m') && (list != [] ==> FreeNumber(now, list, at, expected))
    requires RankPlace(list, at, target, prios)
    ensures n in m'
    ensures m'[n].noOfOrder != expected && (m'[n].noOfOrder < expected <==> Rank(m[n], prios) <= target)
  {
    PriorityPlaces(now, m, list, prios);
    assert m[n] in list;
    var i :| 0 <= i < |list| && list[i] == m[n];
    assert i < at ==> i == at - 1 || list[i].noOfOrder < list[at - 1].noOfOrder;
    assert at <= i ==> i == at || Rank(list[at], prios) <= Rank(list[i], prios);
    assert 0 < at <= i ==> list[at - 1].noOfOrder < list[i].noOfOrder;
  }

  lemma SameOrderAfter(now: int, m: map<string, Queue>, m': map<string, Queue>, list: seq<Queue>, at: nat,
                       expected: int, prios: seq<string>, a: string, b: string)
    requires IsListing(m, list) && KeySorted(now, list) && PrioritySorted(now, m, prios) && a in m && b in m
    requires Renumbered(list, at, -1, expected, m')
    ensures a in m' && b in m'
    ensures Before(m', a, b) <==> Before(m, a, b)
  {
    PriorityPlaces(now, m, list, prios);
    assert m[a] in list && m[b] in list;
    var i :| 0 <= i < |list| && list[i] == m[a];
    var j :| 0 <= j < |list| && list[j] == m[b];
    assert i < j || i == j || j < i;
  }

  lemma InsertedIs(m: map<string, Queue>, m': map<string, Queue>, q: Queue, prios: seq<string>)
    requires OrdersOnly(m, m') && q.name !in m && forall n :: n in m ==> m'[n].noOfOrder != q.noOfOrder
    requires forall n :: n in m ==> (m'[n].noOfOrder < q.noOfOrder <==> Rank(m[n], prios) <= Rank(q, prios))
    requires forall a, b :: a in m && b in m ==> (Before(m', a, b) <==> Before(m, a, b))
    ensures Inserted(m, m'[q.name := q], q.name, prios)
  {
    var m'' := m'[q.name := q];
    assert m''.Keys == m.Keys + {q.name};
    forall a, b | a in m && b in m
      ensures Before(m'', a, b) <==> Before(m, a, b)
    {
      assert Before(m', a, b) <==> Before(m, a, b);
    }
    forall n | n in m
      ensures SameButOrder(m[n], m''[n]) && m''[n].noOfOrder != m''[q.name].noOfOrder
      ensures m''[n].noOfOrder < m''[q.name].noOfOrder <==> Rank(m[n], prios) <= Rank(m''[q.name], prios)
    {
      assert m''[n] == m'[n] && m''[q.name] == q;
    }
  }

  lemma InsertedIsSorted(now: int, m: map<string, Queue>, m': map<string, Queue>, q: Queue, prios: seq<string>)
    requires PrioritySorted(now, m, prios) && OrdersOnly(m, m') && q.name !in m && !Postponed(now, q)
    requires forall n :: n in m ==> m'[n].noOfOrder != q.noOfOrder && Rank(m'[n], prios) == Rank(m[n], prios)
    requires forall n :: n in m ==> (m'[n].noOfOrder < q.noOfOrder <==> Rank(m[n], prios) <= Rank(q, prios))
    requires forall a, b :: a in m && b in m ==> (Before(m', a, b) <==> Before(m, a, b))
    ensures PrioritySorted(now, m'[q.name := q], prios)
  {
    var m'' := m'[q.name := q];
    forall n | n in m'' ensures !Postponed(now, m''[n]) {
      if n != q.name {
        assert SameButOrder(m[n], m'[n]);
      }
    }
    forall a, b | a in m'' && b in m'' && a != b
      ensures m''[a].noOfOrder != m''[b].noOfOrder
      ensures Rank(m''[a], prios) < Rank(m''[b], prios) ==> m''[a].noOfOrder < m''[b].noOfOrder
    {
      PairSorted(now, m, m', q, prios, a, b);
    }
  }

  lemma PairSorted(now: int, m: map<string, Queue>, m': map<string, Queue>, q: Queue, prios: seq<string>,
                   a: string, b: string)
    requires PrioritySorted(now, m, prios) && m'.Keys == m.Keys && q.name !in m
    requires a in m'[q.name := q] && b in m'[q.name := q] && a != b
    requires forall n | n in {a, b} && n in m ::
               && m'[n].noOfOrder != q.noOfOrder && Rank(m'[n], prios) == Rank(m[n], prios)
               && (m'[n].noOfOrder < q.noOfOrder <==> Rank(m[n], prios) <= Rank(q, prios))
    requires a in m && b in m ==>
               (Before(m', a, b) <==> Before(m, a, b)) && (Before(m', b, a) <==> Before(m, b, a))
    ensures var m'' := m'[q.name := q];
            && m''[a].noOfOrder != m''[b].noOfOrder
            && (Rank(m''[a], prios) < Rank(m''[b], prios) ==> m''[a].noOfOrder < m''[b].noOfOrder)
  {
    if a in m && b in m {
      assert m[a].noOfOrder != m[b].noOfOrder;
    } else if a in m {
      assert a in {a, b};
    } else {
      assert b in {a, b} && b in m;
    }
  }

  // ----- QueueList.First and the renumbering around the picked queue

  /** `k` is the place QueueList.First picks: the first entry that is not Waiting, else the first that
      is due, else the first. */
  ghost predicate Picks(now: int, sorted: seq<Queue>, k: nat) {
    && k < |sorted|
    && (sorted[k].state != Waiting ==> forall j :: 0 <= j < k ==> sorted[j].state == Waiting)
    && (sorted[k].state == Waiting ==> forall j :: 0 <= j < |sorted| ==> sorted[j].state == Waiting)
    && (sorted[k].state == Waiting && Due(now, sorted[k]) ==> forall j :: 0 <= j < k ==> !Due(now, sorted[j]))
    && (sorted[k].state == Waiting && !Due(now, sorted[k]) ==>
          k == 0 && forall j :: 0 <= j < |sorted| ==> !Due(now, sorted[j]))
  }

  method FirstOfList(now: int, items: seq<Queue>) returns (sorted: seq<Queue>, k: nat)
    requires items != []
    ensures IsSortOf(now, items, sorted) && |sorted| == |items| && Picks(now, sorted, k)
  {
    sorted := Sort(now, items);
    for i := 0 to |sorted|
      invariant forall j :: 0 <= j < i ==> sorted[j].state == Waiting
    {
      if sorted[i].state != Waiting {
        return sorted, i;
      }
    }
    for i := 0 to |sorted|
      invariant forall j :: 0 <= j < i ==> !Due(now, sorted[j])
    {
      if sorted[i].nextProcessAt.Some? && sorted[i].nextProcessAt.value < now {
        return sorted, i;
      }
      if sorted[i].nextProcessAt.None? {
        return sorted, i;
      }
    }
    k := 0;
  }

  /** Order number of place j when the entry at place k goes first. */
  function PickNumber(k: nat, j: nat): int {
    if j == k then 1 else if j < k then j + 2 else j + 1
  }

  /** The picked entry gets 1 and the others 2, 3, ... in list order. */
  ghost predicate NumberedFrom(list: seq<Queue>, k: nat, items: seq<Queue>) {
    && k < |list| == |items|
    && forall j :: 0 <= j < |list| ==> items[j] == list[j].(noOfOrder := PickNumber(k, j))
  }

  /** Some place gets number v. */
  ghost predicate IsGiven(k: nat, n: nat, v: int) { exists j: nat :: j < n && PickNumber(k, j) == v }

  /** n places get the numbers 1 to n: 1 for the pick, and the others in their order. */
  lemma NumbersAreOneToN(k: nat, n: nat)
    requires k < n
    ensures PickNumber(k, k) == 1
    ensures forall j: nat :: j < n && j != k ==> 1 < PickNumber(k, j) <= n
    ensures forall i: nat, j: nat :: i < j < n && i != k && j != k ==> PickNumber(k, i) < PickNumber(k, j)
    ensures forall v :: 1 <= v <= n ==> IsGiven(k, n, v)
  {
    forall v | 1 <= v <= n ensures IsGiven(k, n, v) {
      var j := if v == 1 then k else if v - 2 < k then v - 2 else v - 1;
      GivenAt(k, n, v, j);
    }
  }

  lemma GivenAt(k: nat, n: nat, v: int, j: nat)
    requires j < n && PickNumber(k, j) == v
    ensures IsGiven(k, n, v)
  {
  }

  /** resetQueueOrderWithCurrentQueue. The current queue is a pointer to place k of the list, so after
      the second sort it is whatever stands there. */
  method ResetQueueOrderWithCurrentQueue(now: int, sorted: seq<Queue>, k: nat)
    returns (items: seq<Queue>, ghost list: seq<Queue>)
    requires k < |sorted|
    requires forall i, j :: 0 <= i < |sorted| && 0 <= j < |sorted| && sorted[i].name == sorted[j].name ==> sorted[i] == sorted[j]
    requires forall q :: multiset(sorted)[q] <= 1
    ensures IsSortOf(now, sorted, list) && NumberedFrom(list, k, items)
  {
    var again := Sort(now, sorted);
    list := again;
    SamePermutationMembers(sorted, again);
    forall i, j | 0 <= i < j < |again| ensures again[i].name != again[j].name {
      OnePlace(again, i, j);
      assert again[i] in sorted && again[j] in sorted;
    }
    var current := again[k].name;
    items := again;
    var count := 2;
    for i := 0 to |items|
      invariant |items| == |again|
      invariant count == if i <= k then i + 2 else i + 1
      invariant forall j :: 0 <= j < i ==> items[j] == again[j].(noOfOrder := PickNumber(k, j))
      invariant forall j :: i <= j < |items| ==> items[j] == again[j]
    {
      if items[i].name == current {
        assert i == k;
        items := items[i := items[i].(noOfOrder := 1)];
        continue;
      }
      items := items[i := items[i].(noOfOrder := count)];
      count := count + 1;
    }
  }

  /** Nobody else sorts exactly like x. */
  ghost predicate OwnKey(now: int, m: map<string, Queue>, x: string)
    requires x in m
  {
    forall y :: y in m && y != x ==> KeyOf(now, m[y]) != KeyOf(now, m[x])
  }

  lemma ApartHasOwnKey(now: int, m: map<string, Queue>, x: string)
    requires Apart(now, m, x)
    ensures OwnKey(now, m, x)
  {
  }

  /** After the second sort the same queue still stands at place k, or one that sorts like it. */
  lemma PickedAgain(now: int, m: map<string, Queue>, sorted: seq<Queue>, list: seq<Queue>, k: nat)
    requires IsListing(m, sorted) && KeySorted(now, sorted) && IsSortOf(now, sorted, list) && k < |sorted|
    ensures k < |list| && KeyOf(now, list[k]) == KeyOf(now, sorted[k]) && (Due(now, list[k]) <==> Due(now, sorted[k]))
    ensures OwnKey(now, m, sorted[k].name) ==> list[k] == sorted[k]
  {
    TwoSortsAgreeOnKeys(now, sorted, list);
    SamePermutationMembers(sorted, list);
    assert list[k] in sorted && sorted[k] in sorted;
  }
}
