/** The staging queue controller (internal/queue/controller.go) over the Queue and
    StableComponent objects of one namespace. */
module QueueController {
  import opened QueueTypes
  import opened QueueList
  import opened QueueRewriting
  import opened QueueOrdering

  class Controller {
    var queues: map<string, Queue>
    var stable: map<string, Component>
    var nextRv: nat
    /** How many writes the API server still accepts before one fails. */
    var writesLeft: nat

    ghost predicate Valid()
      reads this
    {
      forall n :: n in queues ==> queues[n].name == n && queues[n].rv < nextRv
    }

    // ----- client

    method List() returns (items: seq<Queue>)
      requires Valid()
      ensures IsListing(queues, items) && |items| == |queues|
    {
      items := [];
      var rest := queues.Keys;
      while rest != {}
        invariant |items| + |rest| == |queues.Keys|
        invariant rest <= queues.Keys
        invariant forall q :: q in items ==> q.name in queues && q.name !in rest && queues[q.name] == q
        invariant forall n :: n in queues && n !in rest ==> queues[n] in items
        invariant forall q :: multiset(items)[q] <= 1
        decreases rest
      {
        var n :| n in rest;
        assert queues[n] !in items;
        items := items + [queues[n]];
        rest := rest - {n};
      }
    }

    method Update(q: Queue) returns (ok: bool, saved: Queue)
      modifies this`queues, this`nextRv, this`writesLeft
      ensures ok <==> old(writesLeft) > 0 && q.name in old(queues) && old(queues)[q.name].rv == q.rv
      ensures ok ==> saved == q.(rv := old(nextRv)) && queues == old(queues)[q.name := saved]
      ensures !ok ==> saved == q && queues == old(queues)
      ensures writesLeft == if ok then old(writesLeft) - 1 else old(writesLeft)
      ensures Rewritten(old(queues), queues, old(nextRv), nextRv) && (old(Valid()) ==> Valid())
    {
      ok, saved := false, q;
      if writesLeft > 0 && q.name in queues && queues[q.name].rv == q.rv {
        ok, saved := true, q.(rv := nextRv);
        queues := queues[q.name := saved];
        nextRv, writesLeft := nextRv + 1, writesLeft - 1;
      }
    }

    method Delete(name: string) returns (ok: bool)
      modifies this`queues, this`writesLeft
      ensures ok <==> old(writesLeft) > 0 && name in old(queues)
      ensures queues == if ok then old(queues) - {name} else old(queues)
      ensures writesLeft == if ok then old(writesLeft) - 1 else old(writesLeft)
    {
      ok := writesLeft > 0 && name in queues;
      if ok {
        queues, writesLeft := queues - {name}, writesLeft - 1;
      }
    }

    method Create(q: Queue) returns (ok: bool)
      modifies this`queues, this`nextRv, this`writesLeft
      ensures ok <==> old(writesLeft) > 0 && q.name !in old(queues)
      ensures queues == if ok then old(queues)[q.name := q.(rv := old(nextRv))] else old(queues)
      ensures writesLeft == if ok then old(writesLeft) - 1 else old(writesLeft)
      ensures Rewritten(old(queues), queues, old(nextRv), nextRv) && (old(Valid()) ==> Valid())
    {
      ok := writesLeft > 0 && q.name !in queues;
      if ok {
        queues := queues[q.name := q.(rv := nextRv)];
        nextRv, writesLeft := nextRv + 1, writesLeft - 1;
      }
    }

    // ----- removeAndUpdateSimilarQueue

    static method FilterComponents(cs: seq<Component>, compName: string) returns (newComps: seq<Component>)
      ensures newComps == Without(cs, compName)
    {
      newComps := [];
      for j := 0 to |cs|
        invariant newComps == Without(cs[..j], compName)
      {
        assert cs[..j + 1][..j] == cs[..j];
        if cs[j].name != compName {
          newComps := newComps + [cs[j]];
        }
      }
      assert cs[..|cs|] == cs;
    }

    static method RemoveAndUpdateSimilarQueue(name: string, comp: Component, list: seq<Queue>)
      returns (items: seq<Queue>, removing: seq<Queue>, updating: seq<Option<Queue>>)
      ensures SimilarIs(list, name, comp, items, removing, updating)
    {
      items, removing, updating := [], [], [];
      var containComp := false;
      for i := 0 to |list|
        invariant SimilarIs(list[..i], name, comp, items, removing, updating)
        invariant containComp <==> AnySame(list[..i], name, comp)
      {
        var q := list[i];
        assert list[..i + 1] == list[..i] + [q];
        assert (list[..i] + [q])[..i] == list[..i];
        if !containComp && q.ContainSameComponent(name, comp) {
          containComp := true;
          updating := updating + [None];
        } else {
          var newComps := FilterComponents(q.components, comp.name);
          assert Shrunk(q, comp) == q.(components := newComps);
          if newComps == [] {
            removing := removing + [q];
            updating := updating + [None];
            continue;
          }
          WithoutFacts(q.components, comp.name);
          if |newComps| != |q.components| {
            q := q.(components := newComps);
            updating := updating + [Some(q)];
          } else {
            updating := updating + [None];
          }
        }
        items := items + [q];
      }
      assert list[..|list|] == list;
    }

    // ----- addExistingBundleQueue

    static method MergeComponents(cs: seq<Component>, comp: Component) returns (merged: seq<Component>)
      ensures merged == Merge(cs, comp)
    {
      var j := 0;
      while j < |cs| && cs[j].name != comp.name
        invariant 0 <= j <= |cs|
        invariant Merge(cs, comp) == cs[..j] + Merge(cs[j..], comp)
      {
        assert cs[j..][1..] == cs[j + 1..];
        assert cs[..j + 1] == cs[..j] + [cs[j]];
        j := j + 1;
      }
      if j < |cs| {
        assert cs[j..][1..] == cs[j + 1..];
        merged := cs[j := comp];
        assert merged == cs[..j] + ([comp] + cs[j + 1..]);
      } else {
        merged := cs + [comp];
      }
    }

    static method AddExistingBundleQueue(name: string, bundle: string, comp: Component, list: seq<Queue>)
      returns (items: seq<Queue>, updating: seq<Option<Queue>>)
      ensures if bundle == "" then items == list && updating == []
              else updating == UpdatedBundles(list, name, bundle, comp) && items == Overlay(list, updating)
    {
      if bundle == "" {
        return list, [];
      }
      items, updating := [], [];
      var containComp := false;
      for i := 0 to |list|
        invariant updating == UpdatedBundles(list[..i], name, bundle, comp)
        invariant items == Overlay(list[..i], updating)
        invariant containComp <==> AnySame(list[..i], name, comp)
      {
        var q := list[i];
        assert list[..i + 1] == list[..i] + [q];
        assert (list[..i] + [q])[..i] == list[..i];
        var update := None;
        if !containComp && q.ContainSameComponent(name, comp) {
          containComp := true;
        } else if q.bundle == bundle {
          var merged := MergeComponents(q.components, comp);
          q := q.(components := merged);
          update := Some(q);
        }
        OverlayNext(list[..i], updating, list[i], update);
        updating := updating + [update];
        items := items + [q];
      }
      assert list[..|list|] == list;
    }

    // ----- saving the rewritten entries

    /** Saves every rewritten entry and puts it back at the place it has in `updating`, whatever stands there
        in `items`; the call stops at a place behind the end. */
    method WriteBack(items: seq<Queue>, updating: seq<Option<Queue>>) returns (ok: bool, items': seq<Queue>)
      requires forall i :: 0 <= i < |updating| && updating[i].Some? ==> updating[i].value.rv < nextRv
      modifies this`queues, this`nextRv, this`writesLeft
      ensures Rewritten(old(queues), queues, old(nextRv), nextRv) && (old(Valid()) ==> Valid())
      ensures WroteBack(old(queues), queues, updating)
      ensures ok ==> PutBack(items, items', updating, queues, old(nextRv))
      ensures writesLeft + |updating| >= old(writesLeft)
      ensures Ready(old(queues), updating, |items|) && old(writesLeft) >= |updating| ==> ok
    {
      hide Ready, StillReady;
      ok, items' := true, items;
      ReadyAtFirst(queues, updating, |items|);
      for i := 0 to |updating|
        invariant ok && old(nextRv) <= nextRv && (old(Valid()) ==> Valid())
        invariant Rewritten(old(queues), queues, old(nextRv), nextRv) && WroteBack(old(queues), queues, updating[..i])
        invariant PutBack(items, items', updating[..i], queues, old(nextRv))
        invariant writesLeft + i >= old(writesLeft)
        invariant Ready(old(queues), updating, |items|) ==> StillReady(queues, updating, i)
      {
        if updating[i].Some? {
          var u := updating[i].value;
          ghost var m1, rv := queues, nextRv;
          if Ready(old(queues), updating, |items|) {
            ReadyNow(old(queues), m1, updating, |items|, i, rv);
          }
          var saved;
          ok, saved := Update(Refresh(u, u.rv));
          if !ok {
            WroteBackLess(old(queues), queues, updating, i);
            return;
          }
          RewrittenAgain(old(queues), m1, queues, old(nextRv), rv, nextRv);
          WroteBackNext(old(queues), m1, queues, updating, i, old(nextRv), rv);
          if i >= |items'| {
            WroteBackLess(old(queues), queues, updating, i + 1);
            return false, items';
          }
          PutBackNext(items, items', updating, i, m1, queues, old(nextRv), rv);
          items' := items'[i := saved];
        } else {
          NothingPutBack(old(queues), queues, items, items', updating, i, old(nextRv));
          ReadyLater(queues, updating, i);
        }
      }
      assert updating[..|updating|] == updating;
    }

    method DeleteAll(removing: seq<Queue>) returns (ok: bool, ghost done: nat)
      modifies this`queues, this`writesLeft
      ensures done <= |removing| && (ok ==> done == |removing|)
      ensures writesLeft + |removing| >= old(writesLeft)
      ensures UniqueNames(removing) && (forall q :: q in removing ==> q.name in old(queues))
              && old(writesLeft) >= |removing| ==>
                ok
      ensures queues == old(queues) - NamesOf(removing[..done])
    {
      ok, done := true, 0;
      for i := 0 to |removing|
        invariant ok && done == i && queues == old(queues) - NamesOf(removing[..i])
        invariant writesLeft + i == old(writesLeft)
      {
        NotYetDeleted(removing, i);
        ok := Delete(removing[i].name);
        if !ok {
          return;
        }
        done := i + 1;
        assert removing[..i + 1] == removing[..i] + [removing[i]];
      }
    }

    /** Removes the incoming component from every queue that holds another version of it, or
        holds it under another name. Queues left empty are deleted. */
    method DropSimilar(name: string, comp: Component, list: seq<Queue>) returns (ok: bool, items: seq<Queue>)
      requires Valid() && IsListing(queues, list)
      modifies this`queues, this`nextRv, this`writesLeft
      ensures Valid() && Rewritten(old(queues), queues, old(nextRv), nextRv)
      ensures DroppedSome(old(queues), queues, name, comp)
      ensures ok ==> Dropped(old(queues), queues, name, comp) && AllUpToDate(queues, nextRv, items)
      ensures ok && AnySame(list, name, comp) ==> items != []
      ensures ok && Fits(old(queues), name, comp) ==> IsListing(queues, items)
      ensures ok ==> |items| <= |list|
      ensures writesLeft + 2 * |list| >= old(writesLeft)
      ensures Fits(old(queues), name, comp) && old(writesLeft) >= 2 * |list| ==> ok
    {
      hide WroteBack, PutBack, Deleted, Dropped, DroppedSome, IsListing, Fits, UpToDate, Ready, Updates, Removes, Shrunk,
           UniqueNames;
      ghost var m, start := queues, nextRv;
      var removing, updating;
      items, removing, updating := RemoveAndUpdateSimilarQueue(name, comp, list);
      ListingPlaces(m, list);
      UpdatedAll(m, list, name, comp, start);
      RemovedReady(m, list, name, comp);
      ghost var done;
      ok, done := DeleteAll(removing);
      SomeDeleted(m, NamesOf(removing[..done]), name, comp);
      if !ok {
        return;
      }
      ghost var m1, kept := queues, items;
      assert removing[..done] == removing;
      RemovedFromMap(m, list, name, comp, m1);
      if Fits(m, name, comp) {
        UpdatesReady(m, m1, list, name, comp);
      }
      ok, items := WriteBack(items, updating);
      DropDone(m, m1, queues, list, name, comp);
      if ok {
        DropComplete(m, m1, queues, list, name, comp, items, start);
        DropUpToDate(m, m1, queues, list, name, comp, items, start, nextRv);
        if Fits(m, name, comp) {
          DropListed(m, m1, queues, list, name, comp, items, start);
        }
      }
    }

    /** Puts the incoming component into the queues of its bundle, of which there is at most one. */
    method JoinBundle(queue: Queue, comp: Component, list: seq<Queue>, ghost bundles: set<string>)
      returns (ok: bool, joined: bool, items: seq<Queue>)
      requires Valid() && AllUpToDate(queues, nextRv, list)
      modifies this`queues, this`nextRv, this`writesLeft
      ensures Valid() && Rewritten(old(queues), queues, old(nextRv), nextRv)
      ensures JoinedSome(old(queues), queues, queue.bundle, comp)
      ensures !joined ==> queues == old(queues)
      ensures ok ==> |items| == |list| && AllUpToDate(queues, nextRv, items)
      ensures ok && joined ==> exists n :: n in old(queues) && JoinedQueue(old(queues)[n], queues[n], queue.bundle, comp)
      ensures IsListing(old(queues), list) && WellNamed(old(queues), bundles) && NamedByScheme(queue, bundles) ==>
                (joined <==> Joins(old(queues), queue, comp)) && (ok ==> IsListing(queues, items))
      ensures writesLeft + |list| >= old(writesLeft)
      ensures IsListing(old(queues), list) && old(writesLeft) >= |list| ==> ok
    {
      hide WroteBack, PutBack, JoinedSome, JoinedQueue, Joins, IsListing, UpToDate, Ready, WellNamed, NamedByScheme, Merged;
      ghost var m, start := queues, nextRv;
      var updating;
      items, updating := AddExistingBundleQueue(queue.name, queue.bundle, comp, list);
      BundledAll(m, start, list, queue.name, queue.bundle, comp, updating);
      joined := false;
      for i := 0 to |updating|
        invariant joined <==> exists j :: 0 <= j < i && updating[j].Some?
      {
        joined := joined || updating[i].Some?;
      }
      ghost var overlaid := items;
      if IsListing(m, list) {
        BundlesReady(m, start, list, updating, queue.bundle, comp);
      }
      ok, items := WriteBack(items, updating);
      JoinDone(m, queues, start, list, queue.bundle, comp, updating);
      if ok {
        JoinUpToDate(m, queues, start, nextRv, list, overlaid, updating, items, joined, queue.bundle, comp);
      }
      if IsListing(m, list) && WellNamed(m, bundles) && NamedByScheme(queue, bundles) {
        JoinsIff(m, list, updating, joined, queue, comp, bundles);
        if ok {
          JoinListed(m, queues, start, list, overlaid, updating, items, queue, comp, bundles);
        }
      }
    }

    // ----- add

    method SaveOrders(updating: seq<Queue>) returns (ok: bool, ghost done: nat)
      requires forall q :: q in updating ==> Saveable(queues, nextRv, q)
      modifies this`queues, this`nextRv, this`writesLeft
      ensures Rewritten(old(queues), queues, old(nextRv), nextRv) && (old(Valid()) ==> Valid())
      ensures OrdersOnly(old(queues), queues)
      ensures done <= |updating| && Saved(old(queues), queues, updating[..done]) && (ok ==> Saved(old(queues), queues, updating))
      ensures writesLeft + |updating| >= old(writesLeft)
      ensures Storable(old(queues), updating) && old(writesLeft) >= |updating| ==> ok
    {
      hide Storable, StillStorable, Saved, OrdersOnly;
      ok, done := true, 0;
      StorableAtFirst(queues, updating);
      for i := 0 to |updating|
        invariant ok && OrdersOnly(old(queues), queues) && done == i
        invariant Rewritten(old(queues), queues, old(nextRv), nextRv) && (old(Valid()) ==> Valid())
        invariant Saved(old(queues), queues, updating[..i])
        invariant writesLeft + i == old(writesLeft)
        invariant Storable(old(queues), updating) ==> StillStorable(queues, updating, i)
      {
        var q := updating[i];
        assert q in updating && Saveable(old(queues), old(nextRv), q);
        ghost var m1, rv := queues, nextRv;
        if Storable(old(queues), updating) {
          StorableNow(old(queues), m1, updating, i, rv);
        }
        var saved;
        ok, saved := Update(q);
        if !ok {
          return;
        }
        RewrittenAgain(old(queues), m1, queues, old(nextRv), rv, nextRv);
        assert m1[q.name] == old(queues)[q.name];
        SavedStep(old(queues), m1, updating[..i], q, rv);
        done := i + 1;
        assert updating[..i + 1] == updating[..i] + [q];
      }
      assert updating[..|updating|] == updating;
    }

    /** Numbers the incoming queue by its priority and creates it unless it joined a bundle. */
    method Place(now: int, queue: Queue, comp: Component, items: seq<Queue>, joined: bool, atTop: bool,
                 prios: seq<string>)
      returns (ok: bool, ghost mid: map<string, Queue>, order: int)
      requires Valid() && AllUpToDate(queues, nextRv, items) && KeySorted(now, items)
      modifies this`queues, this`nextRv, this`writesLeft
      ensures Valid() && Rewritten(old(queues), queues, old(nextRv), nextRv)
      ensures OrdersOnly(old(queues), mid)
      ensures !ok || joined ==> queues == mid
      ensures ok && !joined ==>
                && queue.name !in mid && queue.name in queues
                && queues == mid[queue.name := Created(queue, order, queues[queue.name].rv)]
      ensures ok && !atTop && IsListing(old(queues), items) ==> Placed(now, old(queues), mid, queue, comp, order, prios)
      ensures IsListing(old(queues), items) && (joined || queue.name !in old(queues)) && old(writesLeft) > |items|
              && (Rank(queue, prios) == |prios| || NoTies(now, items)) ==>
                ok
    {
      var list;
      ok, list, order := NumberAround(now, queue, comp, items, prios);
      mid := queues;
      ghost var rv := nextRv;
      if ok && !joined {
        if atTop {
          list, order := TopQueueOrder(now, list);
        }
        ok := Create(Created(queue, order, queue.rv));
        RewrittenAgain(old(queues), mid, queues, old(nextRv), rv, nextRv);
      }
    }

    /** Makes room for the incoming queue at the place of its rank and finds its number. */
    method NumberAround(now: int, queue: Queue, comp: Component, items: seq<Queue>, prios: seq<string>)
      returns (ok: bool, list: seq<Queue>, order: int)
      requires Valid() && AllUpToDate(queues, nextRv, items) && KeySorted(now, items)
      modifies this`queues, this`nextRv, this`writesLeft
      ensures Valid() && Rewritten(old(queues), queues, old(nextRv), nextRv)
      ensures OrdersOnly(old(queues), queues) && writesLeft + |items| >= old(writesLeft)
      ensures ok && IsListing(old(queues), items) ==> Placed(now, old(queues), queues, queue, comp, order, prios)
      ensures IsListing(old(queues), items) && old(writesLeft) >= |items|
              && (Rank(queue, prios) == |prios| || NoTies(now, items)) ==>
                ok
    {
      var updating;
      ghost var m := queues;
      ghost var s;
      updating, order, list, s := SetQueueOrderFollowingPriorityQueues(now, queue, comp, items, prios);
      assert ShiftResult(now, s, queue, comp, items, updating, order, prios);
      assert ShiftedOnce(now, s, queue, items, prios);
      hide *;
      ShiftUpdatesSaveable(now, queues, nextRv, s, queue, comp, items, updating, order, prios);
      if IsListing(queues, items) && (Rank(queue, prios) == |prios| || NoTies(now, items)) {
        ShiftStorable(now, queues, s, queue, comp, items, updating, order, prios);
      }
      ghost var done;
      ok, done := SaveOrders(updating);
      if ok && IsListing(m, items) {
        ShiftPlaced(now, m, queues, s, queue, comp, items, updating, order, prios);
      }
    }

    method IsMatchWithStableComponent(comp: Component) returns (isMatch: bool)
      ensures isMatch <==> MatchesStable(comp)
    {
      isMatch := comp.name in stable && stable[comp.name].repository == comp.repository
                 && stable[comp.name].version == comp.version;
    }

    ghost predicate MatchesStable(comp: Component)
      reads this`stable
    {
      && comp.name in stable
      && stable[comp.name].repository == comp.repository && stable[comp.name].version == comp.version
    }

    static method FindSame(list: seq<Queue>, name: string, comp: Component) returns (k: int)
      ensures -1 <= k < |list|
      ensures k >= 0 ==> list[k].ContainSameComponent(name, comp)
      ensures k < 0 ==> forall q :: q in list ==> !q.ContainSameComponent(name, comp)
    {
      for i := 0 to |list|
        invariant forall j :: 0 <= j < i ==> !list[j].ContainSameComponent(name, comp)
      {
        if list[i].ContainSameComponent(name, comp) {
          return i;
        }
      }
      return -1;
    }

    /** The component is queued already: at most its queue moves to the top. */
    method KeepQueued(now: int, pQueue: Queue, items: seq<Queue>, atTop: bool) returns (ok: bool)
      requires Valid() && UpToDate(queues, nextRv, pQueue) && pQueue.components != [] && items != []
      modifies this`queues, this`nextRv, this`writesLeft
      ensures Valid() && Rewritten(old(queues), queues, old(nextRv), nextRv)
      ensures queues.Keys == old(queues).Keys
      ensures forall n :: n in queues ==> Untouched(old(queues)[n], queues[n])
      ensures !atTop ==> forall n :: n in queues ==> queues[n].noOfOrder == old(queues)[n].noOfOrder
      ensures SortedWhereChanged(old(queues), queues)
      ensures ok <==> old(writesLeft) > 0 && SameVersion(old(queues), pQueue)
    {
      var order := pQueue.noOfOrder;
      var isQueueOnTop := items[0].ContainSameComponent(pQueue.name, pQueue.components[0]);
      if atTop && !isQueueOnTop {
        var sorted;
        sorted, order := TopQueueOrder(now, items);
      }
      ok := SaveQueued(pQueue, order);
    }

    method SaveQueued(q: Queue, order: int) returns (ok: bool)
      requires Valid() && UpToDate(queues, nextRv, q)
      modifies this`queues, this`nextRv, this`writesLeft
      ensures Valid() && Rewritten(old(queues), queues, old(nextRv), nextRv)
      ensures queues.Keys == old(queues).Keys
      ensures forall n :: n in queues ==> Untouched(old(queues)[n], queues[n])
      ensures order == q.noOfOrder ==> forall n :: n in queues ==> queues[n].noOfOrder == old(queues)[n].noOfOrder
      ensures SortedWhereChanged(old(queues), queues)
      ensures ok <==> old(writesLeft) > 0 && SameVersion(old(queues), q)
    {
      ghost var m, rv := queues, nextRv;
      var saved;
      ok, saved := Update(q.(noOfOrder := order, components := SortComponents(q.components)));
      if ok {
        KeptUntouched(m, q, order, rv);
        SortedComponents(q.components);
      }
      UntouchedSame(m);
    }

    /** The component leaves the queues that should not hold it and joins its bundle. */
    method DropAndJoin(queue: Queue, comp: Component, list: seq<Queue>, ghost bundles: set<string>)
      returns (ok: bool, joined: bool, items: seq<Queue>, ghost m1: map<string, Queue>)
      requires Valid() && IsListing(queues, list)
      modifies this`queues, this`nextRv, this`writesLeft
      ensures Valid() && Rewritten(old(queues), queues, old(nextRv), nextRv)
      ensures Cleared(old(queues), m1, queues, ok, joined, queue, comp)
      ensures ok ==> AllUpToDate(queues, nextRv, items) && (AnySame(list, queue.name, comp) ==> items != [])
      ensures Dropped(old(queues), m1, queue.name, comp) && Scheme(old(queues), queue, bundles)
              && Fits(old(queues), queue.name, comp) ==>
                (joined ==> Joins(m1, queue, comp)) && (ok ==> IsListing(queues, items) && (Joins(m1, queue, comp) ==> joined))
      ensures ok ==> |items| <= |list|
      ensures writesLeft + 3 * |list| >= old(writesLeft)
      ensures Fits(old(queues), queue.name, comp) && old(writesLeft) >= 3 * |list| ==> ok
    {
      ghost var m, start := queues, nextRv;
      ok, items := DropSimilar(queue.name, comp, list);
      joined, m1 := false, queues;
      ghost var rv := nextRv;
      if !ok {
        return;
      }
      ok, joined, items := JoinBundle(queue, comp, items, bundles);
      RewrittenAgain(m, m1, queues, start, rv, nextRv);
      if Scheme(m, queue, bundles) {
        DroppedKeeps(m, m1, queue.name, comp, bundles);
      }
    }

    method AddAgain(now: int, queue: Queue, comp: Component, list: seq<Queue>, k: nat, atTop: bool,
                    ghost bundles: set<string>)
      returns (ok: bool, ghost t: Trail)
      requires Valid() && IsListing(queues, list)
      requires k < |list| && list[k].ContainSameComponent(queue.name, comp)
      modifies this`queues, this`nextRv, this`writesLeft
      ensures Valid() && Rewritten(old(queues), queues, old(nextRv), nextRv)
      ensures AgainWrites(t, old(queues), queues, ok, queue, comp)
      ensures !atTop ==> forall n :: n in queues ==> n in t.joined && queues[n].noOfOrder == t.joined[n].noOfOrder
      ensures Scheme(old(queues), queue, bundles) ==> t.joined == t.dropped
      ensures Scheme(old(queues), queue, bundles) && old(writesLeft) > 3 * |list| ==> ok
    {
      ghost var m, start, m1 := queues, nextRv, queues;
      assert list[k] in list && m[queue.name] == list[k];
      var items, joined;
      if Scheme(m, queue, bundles) {
        AgainFits(m, queue, comp, bundles);
      }
      ok, joined, items, m1 := DropAndJoin(queue, comp, list, bundles);
      ghost var m2, rv2 := queues, nextRv;
      t := Trail(m1, m2, m2, joined, 0);
      UntouchedSame(m2);
      if Scheme(m, queue, bundles) && Dropped(m, m1, queue.name, comp) {
        AgainJoinsNothing(m, m1, queue, comp, bundles);
      }
      if !ok {
        return;
      }
      var sorted := Sort(now, items);
      StaysUpToDate(m, m2, start, rv2, list[k]);
      ok := KeepQueued(now, list[k], sorted, atTop);
      RewrittenAgain(m, m2, queues, start, rv2, nextRv);
    }

    method SortAndPlace(now: int, queue: Queue, comp: Component, items: seq<Queue>, joined: bool, atTop: bool,
                        prios: seq<string>)
      returns (ok: bool, ghost mid: map<string, Queue>, order: int)
      requires Valid() && AllUpToDate(queues, nextRv, items)
      modifies this`queues, this`nextRv, this`writesLeft
      ensures Valid() && Rewritten(old(queues), queues, old(nextRv), nextRv)
      ensures OrdersOnly(old(queues), mid)
      ensures !ok || joined ==> queues == mid
      ensures ok && !joined ==>
                && queue.name !in mid && queue.name in queues
                && queues == mid[queue.name := Created(queue, order, queues[queue.name].rv)]
      ensures ok && !atTop && IsListing(old(queues), items) ==> Placed(now, old(queues), mid, queue, comp, order, prios)
      ensures IsListing(old(queues), items) && (joined || queue.name !in old(queues)) && old(writesLeft) > |items|
              && (Rank(queue, prios) == |prios| || NoTies(now, items)) ==>
                ok
    {
      var sorted := Sort(now, items);
      SortedUpToDate(now, queues, nextRv, items, sorted);
      if IsListing(queues, items) {
        ListingPermuted(queues, items, sorted);
      }
      if NoTies(now, items) {
        NoTiesPermuted(now, items, sorted);
      }
      ok, mid, order := Place(now, queue, comp, sorted, joined, atTop, prios);
    }

    method AddFresh(now: int, queue: Queue, comp: Component, list: seq<Queue>, atTop: bool, prios: seq<string>,
                    ghost bundles: set<string>)
      returns (ok: bool, ghost t: Trail)
      requires Valid() && IsListing(queues, list)
      modifies this`queues, this`nextRv, this`writesLeft
      ensures Valid() && Rewritten(old(queues), queues, old(nextRv), nextRv)
      ensures AddWrites(t, old(queues), queues, ok, queue, comp)
      ensures ok && !atTop && Scheme(old(queues), queue, bundles) && Fits(old(queues), queue.name, comp)
              && (forall q :: q in list ==> !q.ContainSameComponent(queue.name, comp)) && queue.components == [comp] ==>
                AddTrail(now, t, old(queues), queues, queue, comp, prios)
      ensures Scheme(old(queues), queue, bundles) && Fits(old(queues), queue.name, comp) && queue.components == [comp]
              && (forall q :: q in list ==> !q.ContainSameComponent(queue.name, comp))
              && (Rank(queue, prios) == |prios| || Settled(now, old(queues), queue, prios))
              && old(writesLeft) > 4 * |list| ==>
                ok
    {
      hide Cleared, Dropped, Emptied, Joins, OrdersOnly, OneQueueEach, WellNamed, Placed, Fits, Settled, AllUpToDate;
      ghost var m, start, m1 := queues, nextRv, queues;
      var items, joined;
      ok, joined, items, m1 := DropAndJoin(queue, comp, list, bundles);
      ghost var m2, rv2 := queues, nextRv;
      t := Trail(m1, m2, m2, joined, 0);
      OrdersSame(m2);
      ClearedParts(m, m1, m2, ok, joined, queue, comp);
      if !ok {
        return;
      }
      if Scheme(m, queue, bundles) && Fits(m, queue.name, comp) && queue.components == [comp]
         && forall q :: q in list ==> !q.ContainSameComponent(queue.name, comp) {
        assert forall n :: n in m ==> m[n] in list;
        CanBePlaced(now, t, m, queue, comp, items, prios, bundles);
      }
      ghost var mid;
      var order;
      ok, mid, order := SortAndPlace(now, queue, comp, items, joined, atTop, prios);
      RewrittenAgain(m, m2, queues, start, rv2, nextRv);
      t := Trail(m1, m2, mid, joined, order);
      if ok && Scheme(m, queue, bundles) && forall q :: q in list ==> !q.ContainSameComponent(queue.name, comp) {
        assert forall n :: n in m ==> m[n] in list;
        CompleteTrail(t, m, queue, comp, bundles);
      }
    }

    /** Adds one component version to the queue list, whatever the list is. If every component is in one
        queue and queues are named by the scheme, that stays so whichever of the writes fails, and a complete
        Add moves the component; its number is its own unless the index of a rewritten queue was wrong. */
    method Add(now: int, queue: Queue, atTop: bool, prios: seq<string>, ghost bundles: set<string>)
      returns (ok: bool)
      requires Valid() && |queue.components| <= 1
      modifies this`queues, this`nextRv, this`writesLeft
      ensures Valid() && Rewritten(old(queues), queues, old(nextRv), nextRv)
      ensures AddStep(old(queues), queues, queue)
      ensures queue.components == [] ==> !ok && queues == old(queues)
      ensures queue.components != [] && MatchesStable(queue.components[0]) ==> ok && queues == old(queues)
      ensures Scheme(old(queues), queue, bundles) ==>
                OneQueueEach(queues) && WellNamed(queues, bundles) && (NoneEmpty(old(queues)) ==> NoneEmpty(queues))
      ensures Scheme(old(queues), queue, bundles) && queue.components != [] && Fits(old(queues), queue.name, queue.components[0])
              && (Rank(queue, prios) == |prios| || Settled(now, old(queues), queue, prios))
              && old(writesLeft) > 4 * |old(queues)| ==>
                ok
      ensures Scheme(old(queues), queue, bundles) && ok && !MatchesStable(queue.components[0]) ==>
                Moved(old(queues), queues, queue.name, queue.components[0])
      ensures Scheme(old(queues), queue, bundles) && ok && !atTop && queue.nextProcessAt.None?
              && Fits(old(queues), queue.name, queue.components[0]) ==>
                forall x :: Apart(now, old(queues), x) && x in queues && !Renews(old(queues), queue, prios, x)
                  ==> Apart(now, queues, x)
      ensures Scheme(old(queues), queue, bundles) && ok && !atTop && queue.nextProcessAt.None?
              && !MatchesStable(queue.components[0]) && Fits(old(queues), queue.name, queue.components[0])
              && Settled(now, old(queues), queue, prios)
              && (queue.name in old(queues) ==> Renews(old(queues), queue, prios, queue.name)) ==>
                queue.name in queues && Apart(now, queues, queue.name)
      ensures Scheme(old(queues), queue, bundles) && ok && !atTop && queue.nextProcessAt.None?
              && !MatchesStable(queue.components[0]) && NoneEmpty(old(queues))
              && IsNew(old(queues), queue) && PrioritySorted(now, old(queues), prios) ==>
                Inserted(old(queues), queues, queue.name, prios) && PrioritySorted(now, queues, prios)
    {
      NothingAdded(queues, queue);
      if |queue.components| == 0 {
        return false;
      }
      var comp := queue.components[0];
      var list := List();
      var isMatch := IsMatchWithStableComponent(comp);
      if isMatch {
        return true;
      }
      ghost var m, t := queues, Trail(queues, queues, queues, false, 0);
      var k := FindSame(list, queue.name, comp);
      if k >= 0 {
        assert list[k] in list;
        ok, t := AddAgain(now, queue, comp, list, k, atTop, bundles);
        AgainStep(t, m, queues, ok, queue, comp);
        if Scheme(m, queue, bundles) {
          AgainMoved(now, t, m, queues, ok, queue, comp, atTop, bundles);
        }
      } else {
        ok := AddUnseen(now, queue, comp, list, atTop, prios, bundles);
      }
    }

    method AddUnseen(now: int, queue: Queue, comp: Component, list: seq<Queue>, atTop: bool, prios: seq<string>,
                     ghost bundles: set<string>)
      returns (ok: bool)
      requires Valid() && IsListing(queues, list)
      requires queue.components == [comp] && forall q :: q in list ==> !q.ContainSameComponent(queue.name, comp)
      modifies this`queues, this`nextRv, this`writesLeft
      ensures Valid() && Rewritten(old(queues), queues, old(nextRv), nextRv)
      ensures AddStep(old(queues), queues, queue)
      ensures Scheme(old(queues), queue, bundles) ==>
                OneQueueEach(queues) && WellNamed(queues, bundles) && (NoneEmpty(old(queues)) ==> NoneEmpty(queues))
      ensures Scheme(old(queues), queue, bundles) && Fits(old(queues), queue.name, comp)
              && (Rank(queue, prios) == |prios| || Settled(now, old(queues), queue, prios))
              && old(writesLeft) > 4 * |list| ==>
                ok
      ensures Scheme(old(queues), queue, bundles) && ok ==> Moved(old(queues), queues, queue.name, comp)
      ensures Scheme(old(queues), queue, bundles) && ok && !atTop && queue.nextProcessAt.None?
              && Fits(old(queues), queue.name, comp) ==>
                forall x :: Apart(now, old(queues), x) && x in queues && !Renews(old(queues), queue, prios, x)
                  ==> Apart(now, queues, x)
      ensures Scheme(old(queues), queue, bundles) && ok && !atTop && queue.nextProcessAt.None?
              && Fits(old(queues), queue.name, comp) && Settled(now, old(queues), queue, prios)
              && (queue.name in old(queues) ==> Renews(old(queues), queue, prios, queue.name)) ==>
                queue.name in queues && Apart(now, queues, queue.name)
      ensures Scheme(old(queues), queue, bundles) && ok && !atTop && queue.nextProcessAt.None? && NoneEmpty(old(queues))
              && IsNew(old(queues), queue) && PrioritySorted(now, old(queues), prios) ==>
                Inserted(old(queues), queues, queue.name, prios) && PrioritySorted(now, queues, prios)
    {
      ghost var m := queues;
      assert forall n :: n in m ==> m[n] in list;
      ghost var t;
      ok, t := AddFresh(now, queue, comp, list, atTop, prios, bundles);
      FreshStep(t, m, queues, ok, queue, comp);
      if Scheme(m, queue, bundles) {
        FreshKeeps(t, m, queues, ok, queue, comp, bundles);
        if ok && !atTop && queue.nextProcessAt.None? {
          FreshNumbered(now, t, m, queues, queue, comp, prios, bundles);
        }
      }
    }

    // ----- First, SetRetryQueue, SetReverifyQueueAtFirst

    /** Picks the queue to process next, renumbers all queues around it, and hands it out if it is due. */
    method First(now: int) returns (ok: bool, r: Option<Queue>)
      requires Valid()
      modifies this`queues, this`nextRv, this`writesLeft
      ensures Valid() && OrdersOnly(old(queues), queues) && Rewritten(old(queues), queues, old(nextRv), nextRv)
      ensures !ok ==> r.None? && InterruptedFirst(now, old(queues), queues)
      ensures ok && old(queues) != map[] ==> RenumberedByFirst(now, old(queues), queues)
      ensures r.Some? ==> HandedOut(now, queues, r.value)
      ensures old(writesLeft) >= |old(queues)| ==> ok
      ensures (ok && (forall n :: n in queues ==> queues[n].state == Waiting) && exists n :: n in queues && Due(now, queues[n]))
              ==> r.Some?
      ensures RunnerKeepsPlace(now, old(queues), queues, ok, r)
    {
      ghost var m := queues;
      var list := List();
      if |list| == 0 {
        EmptyListing(queues);
        return true, None;
      }
      var sorted, k := FirstOfList(now, list);
      ListingPermuted(m, list, sorted);
      SameSize(list, sorted);
      var name;
      ghost var again;
      ok, name, again := Renumber(now, sorted, k);
      r := None;
      if ok {
        var q := queues[name];
        if q.nextProcessAt.None? || now > q.nextProcessAt.value {
          r := Some(q);
        }
      }
      hide *;
      FirstDone(now, m, queues, sorted, again, k, ok, r);
    }

    /** Gives all queues their numbers around place k. The pick is what stands at that place after the list was
        sorted again. */
    method Renumber(now: int, sorted: seq<Queue>, k: nat) returns (ok: bool, name: string, ghost list: seq<Queue>)
      requires Valid() && IsListing(queues, sorted) && KeySorted(now, sorted) && Picks(now, sorted, k)
      modifies this`queues, this`nextRv, this`writesLeft
      ensures Valid() && OrdersOnly(old(queues), queues) && Rewritten(old(queues), queues, old(nextRv), nextRv)
      ensures !ok ==> InterruptedFirst(now, old(queues), queues)
      ensures ok ==> FirstNumbers(now, old(queues), queues, sorted, list, k) && AtFront(queues, name)
      ensures IsListing(old(queues), list) && k < |list| && name == list[k].name
      ensures Due(now, list[k]) <==> Due(now, sorted[k])
      ensures OwnKey(now, old(queues), sorted[k].name) ==> list[k] == sorted[k]
      ensures old(writesLeft) >= |sorted| ==> ok
    {
      ghost var m := queues;
      var items;
      items, list := ResetQueueOrderWithCurrentQueue(now, sorted, k);
      name := items[k].name;
      ListingPermuted(m, sorted, list);
      NumberedAreSaveable(m, nextRv, list, k, items);
      NumberedAreStorable(m, list, k, items);
      PickedAgain(now, m, sorted, list, k);
      SameSize(sorted, list);
      assert KeySorted(now, list) && name == list[k].name && |items| == |list|;
      hide *;
      ghost var done;
      ok, done := SaveOrders(items);
      StoppedOrDone(now, m, queues, sorted, list, k, items, done, ok);
    }

    /** Back to Waiting as an upgrade, numbered last, with a new NextProcessAt. */
    method SetRetryQueue(now: int, q: Queue, noOfRetry: int, nextAt: int, listOk: bool)
      returns (ok: bool, q': Queue)
      requires Valid()
      modifies this`queues, this`nextRv, this`writesLeft
      ensures Valid() && Rewritten(old(queues), queues, old(nextRv), nextRv)
      ensures !listOk ==> !ok && q' == q && queues == old(queues)
      ensures q'.rv == q.rv || q'.rv < nextRv
      ensures listOk ==> Restarted(q, q') && q'.qtype == Upgrade && q'.noOfRetry == noOfRetry && q'.nextProcessAt == Some(nextAt)
      ensures !ok ==> queues == old(queues)
      ensures ok ==> && q.name in old(queues) && old(queues)[q.name].rv == q.rv && queues == old(queues)[q.name := q']
                     && LastNumber(now, old(queues), q'.noOfOrder)
      ensures ok <==> listOk && old(writesLeft) > 0 && q.name in old(queues) && old(queues)[q.name].rv == q.rv
    {
      if !listOk {
        return false, q;
      }
      var list := List();
      var sorted, order := LastQueueOrder(now, list);
      ListingPermuted(queues, list, sorted);
      assert q.name in queues ==> queues[q.name] in list;
      if q.name in queues {
        LastIsLastNumber(now, queues, sorted);
      }
      ok, q' := Update(q.(state := Waiting, conditions := map[], startDeployTime := None, startTestingTime := None,
                          hasLogs := false, imageMissing := false, nextProcessAt := Some(nextAt), noOfRetry := noOfRetry,
                          qtype := Upgrade, noOfOrder := order));
    }

    /** Back to Waiting as a re-verification, numbered before every queue that is due. */
    method SetReverifyQueueAtFirst(now: int, q: Queue, listOk: bool) returns (ok: bool, q': Queue)
      requires Valid()
      modifies this`queues, this`nextRv, this`writesLeft
      ensures Valid() && Rewritten(old(queues), queues, old(nextRv), nextRv)
      ensures !listOk ==> !ok && q' == q && queues == old(queues)
      ensures q'.rv == q.rv || q'.rv < nextRv
      ensures listOk ==> Restarted(q, q') && q'.qtype == Reverify && q'.noOfRetry == q.noOfRetry
                         && q'.nextProcessAt == q.nextProcessAt
      ensures !ok ==> queues == old(queues)
      ensures ok ==> && q.name in old(queues) && old(queues)[q.name].rv == q.rv && queues == old(queues)[q.name := q']
                     && (forall n :: n in old(queues) && !Postponed(now, old(queues)[n]) ==>
                           q'.noOfOrder < old(queues)[n].noOfOrder)
      ensures ok <==> listOk && old(writesLeft) > 0 && q.name in old(queues) && old(queues)[q.name].rv == q.rv
    {
      if !listOk {
        return false, q;
      }
      var list := List();
      var sorted, order := TopQueueOrder(now, list);
      assert forall n :: n in queues ==> queues[n] in list;
      ok, q' := Update(q.(state := Waiting, conditions := map[], startDeployTime := None, startTestingTime := None,
                          hasLogs := false, imageMissing := false, qtype := Reverify, noOfOrder := order));
    }
  }

  /** One more than the order number of some entry that a sort may put last. */
  ghost predicate LastNumber(now: int, m: map<string, Queue>, order: int) {
    exists n :: n in m && order == m[n].noOfOrder + 1
                && forall o :: o in m ==> !KeyLess(KeyOf(now, m[n]), KeyOf(now, m[o]))
  }

  lemma LastIsLastNumber(now: int, m: map<string, Queue>, sorted: seq<Queue>)
    requires IsListing(m, sorted) && KeySorted(now, sorted) && sorted != []
    ensures LastNumber(now, m, sorted[|sorted| - 1].noOfOrder + 1)
  {
    var last := sorted[|sorted| - 1];
    assert last in sorted;
    forall o | o in m ensures !KeyLess(KeyOf(now, m[last.name]), KeyOf(now, m[o])) {
      assert m[o] in sorted;
      var j :| 0 <= j < |sorted| && sorted[j] == m[o];
    }
  }

  /** Back in line with a fresh status: nothing of the last attempt is left but the count of processings. */
  ghost predicate Restarted(q: Queue, q': Queue) {
    && q'.name == q.name && q'.bundle == q.bundle && q'.components == q.components && q'.noOfProcessed == q.noOfProcessed
    && q'.state == Waiting && q'.conditions == map[] && q'.startDeployTime.None? && q'.startTestingTime.None?
    && !q'.hasLogs && !q'.imageMissing
  }

  /** x is the one queue that is not Waiting. */
  ghost predicate SoleRunner(m: map<string, Queue>, x: string) {
    x in m && m[x].state != Waiting && forall n :: n in m && n != x ==> m[n].state == Waiting
  }

  /** A sole running queue that sorts like nobody else goes to the front, and is the one handed out. */
  ghost predicate RunnerKeepsPlace(now: int, m: map<string, Queue>, m': map<string, Queue>, ok: bool, r: Option<Queue>) {
    forall x :: SoleRunner(m, x) && OwnKey(now, m, x) ==>
      && (r.Some? ==> r.value.name == x)
      && (ok && Due(now, m[x]) ==> r.Some?)
      && (ok ==> AtFront(m', x))
  }

  /** Number 1, and every other queue a greater one. */
  ghost predicate AtFront(m: map<string, Queue>, x: string) {
    x in m && m[x].noOfOrder == 1 && forall n :: n in m && n != x ==> m[n].noOfOrder >= 2
  }

  /** The queue is stored as handed out, is due, has number 1, and every other queue a greater one. */
  ghost predicate HandedOut(now: int, m: map<string, Queue>, q: Queue) {
    q.name in m && m[q.name] == q && Due(now, q) && AtFront(m, q.name)
  }

  /** The numbers are those of a sorted list, 1 .. n, except that one queue was taken to the front. */
  ghost predicate RenumberedByFirst(now: int, m: map<string, Queue>, m': map<string, Queue>) {
    exists sorted: seq<Queue>, list: seq<Queue>, k: nat :: FirstNumbers(now, m, m', sorted, list, k)
  }

  /** The renumbering stopped after some of its writes, in list order. */
  ghost predicate InterruptedFirst(now: int, m: map<string, Queue>, m': map<string, Queue>) {
    exists sorted: seq<Queue>, list: seq<Queue>, k: nat, items: seq<Queue>, done: nat ::
      FirstStopped(now, m, m', sorted, list, k, items, done)
  }

  ghost predicate FirstStopped(now: int, m: map<string, Queue>, m': map<string, Queue>, sorted: seq<Queue>,
                               list: seq<Queue>, k: nat, items: seq<Queue>, done: nat) {
    && IsListing(m, sorted) && KeySorted(now, sorted) && Picks(now, sorted, k)
    && IsListing(m, list) && KeySorted(now, list) && NumberedFrom(list, k, items)
    && done <= |items| && Saved(m, m', items[..done])
  }

  /** Picked from one sort of the list, numbered along another. */
  ghost predicate FirstNumbers(now: int, m: map<string, Queue>, m': map<string, Queue>, sorted: seq<Queue>,
                               list: seq<Queue>, k: nat) {
    && IsListing(m, sorted) && KeySorted(now, sorted) && Picks(now, sorted, k)
    && IsListing(m, list) && KeySorted(now, list) && k < |list| == |sorted|
    && forall j :: 0 <= j < |list| ==> list[j].name in m' && m'[list[j].name].noOfOrder == PickNumber(k, j)
  }

  /** Saving the copy changes nothing but the order number, or fails. */
  ghost predicate Saveable(m: map<string, Queue>, next: nat, q: Queue) {
    q.rv < next && (q.name in m && m[q.name].rv == q.rv ==> SameButOrder(m[q.name], q))
  }

  lemma StoppedOrDone(now: int, m: map<string, Queue>, m': map<string, Queue>, sorted: seq<Queue>, list: seq<Queue>, k: nat,
                      items: seq<Queue>, done: nat, ok: bool)
    requires IsListing(m, sorted) && KeySorted(now, sorted) && Picks(now, sorted, k) && |list| == |sorted|
    requires IsListing(m, list) && KeySorted(now, list) && NumberedFrom(list, k, items)
    requires done <= |items| && Saved(m, m', items[..done]) && (ok ==> Saved(m, m', items))
    ensures InterruptedFirst(now, m, m')
    ensures ok ==> FirstNumbers(now, m, m', sorted, list, k) && AtFront(m', list[k].name)
  {
    assert FirstStopped(now, m, m', sorted, list, k, items, done);
    if ok {
      NumberedSaved(now, m, m', sorted, list, k, items);
    }
  }

  /** What First leaves and hands out, after the renumbering. */
  lemma FirstDone(now: int, m: map<string, Queue>, m': map<string, Queue>, sorted: seq<Queue>, list: seq<Queue>, k: nat,
                  ok: bool, r: Option<Queue>)
    requires IsListing(m, sorted) && Picks(now, sorted, k) && OrdersOnly(m, m') && forall n :: n in m' ==> m'[n].name == n
    requires IsListing(m, list) && k < |list| && (Due(now, list[k]) <==> Due(now, sorted[k]))
    requires OwnKey(now, m, sorted[k].name) ==> list[k] == sorted[k]
    requires ok ==> FirstNumbers(now, m, m', sorted, list, k) && AtFront(m', list[k].name)
    requires !ok ==> r.None?
    requires ok ==> r == if Due(now, m'[list[k].name]) then Some(m'[list[k].name]) else None
    ensures ok ==> RenumberedByFirst(now, m, m')
    ensures r.Some? ==> HandedOut(now, m', r.value)
    ensures (ok && (forall n :: n in m' ==> m'[n].state == Waiting) && exists n :: n in m' && Due(now, m'[n])) ==> r.Some?
    ensures RunnerKeepsPlace(now, m, m', ok, r)
  {
    assert list[k] in list && SameButOrder(m[list[k].name], m'[list[k].name]);
    PickDue(now, m, m', sorted, list, k);
    hide OwnKey, FirstNumbers, Picks, KeyOf;
  }

  lemma SameSize(s: seq<Queue>, t: seq<Queue>)
    requires multiset(s) == multiset(t)
    ensures |s| == |t|
  {
    assert |multiset(s)| == |s| && |multiset(t)| == |t|;
  }

  /** The stored object has the version of the copy. */
  predicate SameVersion(m: map<string, Queue>, q: Queue) {
    q.name in m && m[q.name].rv == q.rv
  }

  /** One copy each of stored objects: with enough writes all can be saved. */
  ghost predicate Storable(m: map<string, Queue>, updating: seq<Queue>) {
    UniqueNames(updating) && forall q :: q in updating ==> SameVersion(m, q)
  }

  ghost predicate StillStorable(m: map<string, Queue>, updating: seq<Queue>, start: nat) {
    forall j :: start <= j < |updating| ==> SameVersion(m, updating[j])
  }

  lemma StorableAtFirst(m: map<string, Queue>, updating: seq<Queue>)
    ensures Storable(m, updating) ==> StillStorable(m, updating, 0)
    ensures Saved(m, m, []) && OrdersOnly(m, m)
  {
  }

  lemma StorableNow(m0: map<string, Queue>, m: map<string, Queue>, updating: seq<Queue>, i: nat, rv: nat)
    requires Storable(m0, updating) && i < |updating| && StillStorable(m, updating, i)
    ensures SameVersion(m, updating[i]) && StillStorable(m[updating[i].name := updating[i].(rv := rv)], updating, i + 1)
  {
  }

  lemma NumberedAreStorable(m: map<string, Queue>, list: seq<Queue>, k: nat, items: seq<Queue>)
    requires IsListing(m, list) && NumberedFrom(list, k, items)
    ensures Storable(m, items)
  {
    ListingPlaces(m, list);
    forall j | 0 <= j < |items| ensures items[j].name == list[j].name && SameVersion(m, items[j]) {
      assert list[j] in list;
    }
  }

  lemma NumberedAreSaveable(m: map<string, Queue>, next: nat, list: seq<Queue>, k: nat, items: seq<Queue>)
    requires IsListing(m, list) && NumberedFrom(list, k, items) && forall n :: n in m ==> m[n].rv < next
    ensures forall q :: q in items ==> Saveable(m, next, q)
  {
    forall q | q in items ensures Saveable(m, next, q) {
      var j :| 0 <= j < |items| && items[j] == q;
      assert list[j] in list;
    }
  }

  lemma NumberedSaved(now: int, m: map<string, Queue>, m': map<string, Queue>, sorted: seq<Queue>, list: seq<Queue>,
                      k: nat, items: seq<Queue>)
    requires IsListing(m, sorted) && KeySorted(now, sorted) && Picks(now, sorted, k) && |list| == |sorted|
    requires IsListing(m, list) && KeySorted(now, list) && NumberedFrom(list, k, items) && Saved(m, m', items)
    ensures FirstNumbers(now, m, m', sorted, list, k) && AtFront(m', list[k].name)
  {
    ListingPlaces(m, list);
    forall j | 0 <= j < |list|
      ensures list[j].name in m' && m'[list[j].name].noOfOrder == PickNumber(k, j)
    {
      assert list[j] in list;
      assert items[j].name == list[j].name;
    }
    forall n | n in m' && n != list[k].name ensures m'[n].noOfOrder >= 2 {
      assert m[n] in list;
      var j :| 0 <= j < |list| && list[j] == m[n];
      assert m'[list[j].name].noOfOrder == PickNumber(k, j);
    }
  }

  /** Which queue the pick is, in terms of the namespace. */
  lemma PickDue(now: int, m: map<string, Queue>, m': map<string, Queue>, sorted: seq<Queue>, list: seq<Queue>, k: nat)
    requires IsListing(m, sorted) && IsListing(m, list) && Picks(now, sorted, k) && OrdersOnly(m, m')
    requires k < |list| && (Due(now, list[k]) <==> Due(now, sorted[k]))
    requires OwnKey(now, m, sorted[k].name) ==> list[k] == sorted[k]
    ensures (forall n :: n in m' ==> m'[n].state == Waiting) && (exists n :: n in m' && Due(now, m'[n])) ==> Due(now, list[k])
    ensures forall x :: SoleRunner(m, x) && OwnKey(now, m, x) ==> list[k].name == x
  {
    assert sorted[k] in sorted && list[k] in list;
    forall x | SoleRunner(m, x) && OwnKey(now, m, x) ensures list[k].name == x {
      assert m[x] in sorted;
    }
    if (forall n :: n in m' ==> m'[n].state == Waiting) && (exists n :: n in m' && Due(now, m'[n])) {
      var n :| n in m' && Due(now, m'[n]);
      assert m[n] in sorted && SameButOrder(m[n], m'[n]);
      var j :| 0 <= j < |sorted| && sorted[j] == m[n];
      assert sorted[k].state == Waiting by {
        assert m'[sorted[k].name].state == Waiting && SameButOrder(m[sorted[k].name], m'[sorted[k].name]);
      }
    }
  }

  /** The queue list after the removal, after the joining and after the renumbering. */
  datatype Trail = Trail(dropped: map<string, Queue>, joined: map<string, Queue>, numbered: map<string, Queue>,
                         didJoin: bool, order: int)

  /** The component was dropped from m and, that done, joined to its bundle. */
  ghost predicate Cleared(m: map<string, Queue>, m1: map<string, Queue>, m2: map<string, Queue>, ok: bool, joined: bool,
                          queue: Queue, comp: Component) {
    && DroppedSome(m, m1, queue.name, comp)
    && (Dropped(m, m1, queue.name, comp) || (!ok && m2 == m1))
    && JoinedSome(m1, m2, queue.bundle, comp)
    && (!joined ==> m2 == m1)
    && (ok && joined ==> exists n :: n in m1 && n in m2 && JoinedQueue(m1[n], m2[n], queue.bundle, comp))
  }

  lemma ClearedParts(m: map<string, Queue>, m1: map<string, Queue>, m2: map<string, Queue>, ok: bool, joined: bool, queue: Queue,
                     comp: Component)
    requires Cleared(m, m1, m2, ok, joined, queue, comp)
    ensures Cleared(m, m1, m2, false, joined, queue, comp) && (Dropped(m, m1, queue.name, comp) || (!ok && m2 == m1))
  {
  }

  lemma OrdersSame(m: map<string, Queue>)
    ensures OrdersOnly(m, m)
  {
  }

  /** What Add writes, whatever the list is and wherever it stops. */
  ghost predicate AddWrites(t: Trail, m: map<string, Queue>, m': map<string, Queue>, ok: bool, queue: Queue, comp: Component) {
    && Cleared(m, t.dropped, t.joined, ok, t.didJoin, queue, comp)
    && (Dropped(m, t.dropped, queue.name, comp) || (!ok && m' == t.dropped))
    && OrdersOnly(t.joined, t.numbered)
    && if ok && !t.didJoin then
         && queue.name !in t.numbered && queue.name in m'
         && m' == t.numbered[queue.name := Created(queue, t.order, m'[queue.name].rv)]
       else m' == t.numbered
  }

  /** What a complete Add writes when the list in memory was right: the component goes into the queue of its
      bundle if there is one, and the numbers are those of the whole list. */
  ghost predicate AddTrail(now: int, t: Trail, m: map<string, Queue>, m': map<string, Queue>, queue: Queue,
                           comp: Component, prios: seq<string>) {
    && AddWrites(t, m, m', true, queue, comp)
    && Emptied(m, t.dropped, comp)
    && (t.didJoin <==> Joins(t.dropped, queue, comp))
    && (t.didJoin ==>
          && queue.bundle in t.joined
          && t.joined == t.dropped[queue.bundle := Refresh(Merged(t.dropped[queue.bundle], comp), t.joined[queue.bundle].rv)])
    && Placed(now, t.joined, t.numbered, queue, comp, t.order, prios)
  }

  /** What Add writes when the queue holds the component already. */
  ghost predicate AgainWrites(t: Trail, m: map<string, Queue>, m': map<string, Queue>, ok: bool, queue: Queue, comp: Component) {
    && Cleared(m, t.dropped, t.joined, ok, t.didJoin, queue, comp)
    && m'.Keys == t.joined.Keys && SortedWhereChanged(t.joined, m')
    && forall n :: n in m' ==> Untouched(t.joined[n], m'[n])
  }

  /** Every component is in one queue, and queues are named by the scheme. */
  ghost predicate Scheme(m: map<string, Queue>, queue: Queue, bundles: set<string>) {
    OneQueueEach(m) && WellNamed(m, bundles) && NamedByScheme(queue, bundles)
  }

  /** Queue x is the one the incoming component goes to, and it is created anew or moved by its rank. */
  ghost predicate Renews(m: map<string, Queue>, queue: Queue, prios: seq<string>, x: string)
    requires queue.components != [] && x in m
  {
    && x == queue.name && queue.components[0] !in m[x].components
    && (Rank(queue, prios) < |prios| || forall c :: c in m[x].components ==> c.name == queue.components[0].name)
  }

  /** Nothing is postponed, and for a queue that is inserted by its rank no two queues share a number. */
  ghost predicate Settled(now: int, m: map<string, Queue>, queue: Queue, prios: seq<string>) {
    && (forall n :: n in m ==> !Postponed(now, m[n]))
    && (Rank(queue, prios) < |prios| ==> forall a, b :: a in m && b in m && a != b ==> m[a].noOfOrder != m[b].noOfOrder)
  }

  /** No queue holds the incoming component and its bundle has no queue. */
  ghost predicate IsNew(m: map<string, Queue>, queue: Queue)
    requires queue.components != []
  {
    queue.name !in m && forall n :: n in m ==> !Holds(m[n], queue.components[0].name)
  }

  function Created(queue: Queue, order: int, rv: nat): Queue {
    queue.(noOfOrder := order, state := Waiting, components := SortComponents(queue.components), rv := rv)
  }

  /** The order numbers were shifted around one free number; the entry moved to it, if any, is one
      that sorts like the queue holding the incoming component. */
  ghost predicate Placed(now: int, m: map<string, Queue>, mid: map<string, Queue>, queue: Queue, comp: Component,
                         order: int, prios: seq<string>) {
    exists list: seq<Queue>, at: nat, moved: int :: PlacedAt(now, m, mid, queue, comp, order, prios, list, at, moved)
  }

  ghost predicate PlacedAt(now: int, m: map<string, Queue>, mid: map<string, Queue>, queue: Queue, comp: Component,
                           order: int, prios: seq<string>, list: seq<Queue>, at: nat, moved: int) {
    && IsListing(m, list) && KeySorted(now, list) && -1 <= moved < |list|
    && Renumbered(list, at, moved, order, mid)
    && (list != [] ==> FreeNumber(now, list, at, order))
    && RankPlace(list, at, Rank(queue, prios), prios)
    && (moved >= 0 ==>
          && Rank(queue, prios) < |prios|
          && (exists n :: n in m && Holds(m[n], comp.name) && KeyOf(now, m[n]) == KeyOf(now, list[moved])))
  }

  ghost predicate ShiftResult(now: int, s: Shift, queue: Queue, comp: Component, items: seq<Queue>,
                              updating: seq<Queue>, order: int, prios: seq<string>) {
    && Rank(queue, prios) <= |prios|
    && IsSortOf(now, items, s.list)
    && (Rank(queue, prios) == |prios| || items == [] ==>
          updating == [] && order == if items == [] then 1 else s.list[|s.list| - 1].noOfOrder + 1)
    && (Rank(queue, prios) < |prios| && items != [] ==>
          && ShiftedBy(now, s, Rank(queue, prios), prios, order)
          && updating == (if s.existing >= 0 then s.shifted + [s.moved.(noOfOrder := order)] else s.shifted)
          && (s.existing >= 0 ==> s.existing < |items| && Holds(items[s.existing], comp.name)
                                  && KeyOf(now, items[s.existing]) == KeyOf(now, s.list[s.existing])))
  }

  lemma ShiftUpdatesSaveable(now: int, m: map<string, Queue>, next: nat, s: Shift, queue: Queue, comp: Component,
                             items: seq<Queue>, updating: seq<Queue>, order: int, prios: seq<string>)
    requires AllUpToDate(m, next, items) && ShiftResult(now, s, queue, comp, items, updating, order, prios)
    ensures forall q :: q in updating ==> Saveable(m, next, q)
  {
    SortedUpToDate(now, m, next, items, s.list);
    forall q | q in updating ensures Saveable(m, next, q) {
      var k :| 0 <= k < |updating| && updating[k] == q;
      var origin := ShiftOrigin(now, s, updating, order, Rank(queue, prios), prios, k);
      assert UpToDate(m, next, origin);
    }
  }

  /** Without ties every entry is rewritten once. */
  ghost predicate ShiftedOnce(now: int, s: Shift, queue: Queue, items: seq<Queue>, prios: seq<string>) {
    Rank(queue, prios) < |prios| && items != [] && NoTies(now, s.list) ==>
      && -1 <= s.existing < |s.list|
      && (s.at == 0 ==> s.shifted == LeftOut(s.list, s.existing)) && (s.existing >= 0 ==> s.moved == s.list[s.existing])
  }

  lemma ShiftStorable(now: int, m: map<string, Queue>, s: Shift, queue: Queue, comp: Component, items: seq<Queue>,
                      updating: seq<Queue>, order: int, prios: seq<string>)
    requires IsListing(m, items) && ShiftResult(now, s, queue, comp, items, updating, order, prios)
    requires Rank(queue, prios) == |prios| || NoTies(now, items)
    requires ShiftedOnce(now, s, queue, items, prios)
    ensures Storable(m, updating)
  {
    if Rank(queue, prios) < |prios| && items != [] {
      NoTiesPermuted(now, items, s.list);
      ListingPermuted(m, items, s.list);
      ListingPlaces(m, s.list);
      forall k | 0 <= k < |updating| ensures SameVersion(m, updating[k]) {
        var p := ShiftedPlace(now, s, updating, order, Rank(queue, prios), prios, k);
        assert s.list[p] in s.list;
      }
      forall k, l | 0 <= k < l < |updating| ensures updating[k].name != updating[l].name {
        ShiftedPlaces(now, s, updating, order, Rank(queue, prios), prios, k, l);
      }
    }
  }

  /** Where entry k of the rewritten ones stands in the sorted list. */
  lemma ShiftedPlace(now: int, s: Shift, updating: seq<Queue>, order: int, target: nat, prios: seq<string>, k: nat) returns (p: nat)
    requires ShiftedBy(now, s, target, prios, order) && k < |updating|
    requires updating == if s.existing >= 0 then s.shifted + [s.moved.(noOfOrder := order)] else s.shifted
    requires (s.at == 0 ==> s.shifted == LeftOut(s.list, s.existing)) && (s.existing >= 0 ==> s.moved == s.list[s.existing])
    ensures p < |s.list| && updating[k] == s.list[p].(noOfOrder := updating[k].noOfOrder)
    ensures if k < |s.shifted| then p != s.existing && p == (if s.at > 0 then s.places[k] else if 0 <= s.existing <= k then k + 1 else k)
            else p == s.existing
  {
    if k < |s.shifted| {
      p := if s.at > 0 then s.places[k] else if 0 <= s.existing <= k then k + 1 else k;
    } else {
      p := s.existing;
    }
  }

  lemma ShiftedPlaces(now: int, s: Shift, updating: seq<Queue>, order: int, target: nat, prios: seq<string>, k: nat, l: nat)
    requires ShiftedBy(now, s, target, prios, order) && k < l < |updating| && UniqueNames(s.list)
    requires updating == if s.existing >= 0 then s.shifted + [s.moved.(noOfOrder := order)] else s.shifted
    requires (s.at == 0 ==> s.shifted == LeftOut(s.list, s.existing)) && (s.existing >= 0 ==> s.moved == s.list[s.existing])
    ensures updating[k].name != updating[l].name
  {
    var p := ShiftedPlace(now, s, updating, order, target, prios, k);
    var r := ShiftedPlace(now, s, updating, order, target, prios, l);
    assert p != r;
    assert p < r || r < p;
  }

  lemma NoTiesPermuted(now: int, items: seq<Queue>, sorted: seq<Queue>)
    requires NoTies(now, items) && multiset(items) == multiset(sorted)
    ensures NoTies(now, sorted)
  {
    SamePermutationMembers(items, sorted);
    forall i, j | 0 <= i < j < |sorted| ensures KeyOf(now, sorted[i]) != KeyOf(now, sorted[j]) {
      if KeyOf(now, sorted[i]) == KeyOf(now, sorted[j]) {
        assert sorted[i] in sorted && sorted[j] in sorted;
        SameKeySame(now, items, sorted[i], sorted[j]);
        TwiceIsTwo(sorted, i, j);
        var k :| 0 <= k < |items| && items[k] == sorted[i];
        OnceIsOne(items, k);
      }
    }
  }

  lemma SameKeySame(now: int, items: seq<Queue>, a: Queue, b: Queue)
    requires NoTies(now, items) && a in items && b in items && KeyOf(now, a) == KeyOf(now, b)
    ensures a == b && forall i, j :: 0 <= i < j < |items| ==> items[i] != items[j]
  {
    var i :| 0 <= i < |items| && items[i] == a;
    var j :| 0 <= j < |items| && items[j] == b;
    assert i == j || i < j || j < i;
  }

  lemma TwiceIsTwo(s: seq<Queue>, i: nat, j: nat)
    requires i < j < |s| && s[i] == s[j]
    ensures multiset(s)[s[i]] >= 2
  {
    assert s == s[..j] + [s[j]] + s[j + 1..];
    assert s[..j][i] == s[i] && s[i] in s[..j];
  }

  lemma OnceIsOne(s: seq<Queue>, k: nat)
    requires k < |s| && forall i, j :: 0 <= i < j < |s| ==> s[i] != s[j]
    ensures multiset(s)[s[k]] <= 1
  {
    OnceEach(s, s[k]);
  }

  lemma SortedUpToDate(now: int, m: map<string, Queue>, next: nat, items: seq<Queue>, sorted: seq<Queue>)
    requires AllUpToDate(m, next, items) && IsSortOf(now, items, sorted)
    ensures AllUpToDate(m, next, sorted) && |sorted| == |items|
  {
    SamePermutationMembers(items, sorted);
  }

  lemma ShiftOrigin(now: int, s: Shift, updating: seq<Queue>, order: int, target: nat, prios: seq<string>, k: nat)
    returns (origin: Queue)
    requires ShiftedBy(now, s, target, prios, order) && k < |updating|
    requires updating == if s.existing >= 0 then s.shifted + [s.moved.(noOfOrder := order)] else s.shifted
    ensures origin in s.list && updating[k] == origin.(noOfOrder := updating[k].noOfOrder)
  {
    if k < |s.shifted| {
      assert updating[k] == s.shifted[k] && s.shifted[k] in s.shifted;
      origin := if s.at > 0 then s.list[s.places[k]] else s.shifted[k];
    } else {
      origin := s.moved;
    }
  }

  lemma ShiftPlaced(now: int, m: map<string, Queue>, mid: map<string, Queue>, s: Shift, queue: Queue, comp: Component,
                    items: seq<Queue>, updating: seq<Queue>, order: int, prios: seq<string>)
    requires IsListing(m, items)
    requires ShiftResult(now, s, queue, comp, items, updating, order, prios)
    requires Saved(m, mid, updating)
    ensures Placed(now, m, mid, queue, comp, order, prios)
  {
    ListingPermuted(m, items, s.list);
    SamePermutationMembers(items, s.list);
    if Rank(queue, prios) == |prios| || items == [] {
      UnrankedPlaced(now, m, mid, s.list, queue, comp, order, prios);
    } else {
      if s.existing >= 0 {
        assert items[s.existing] in items;
      }
      RankedPlaced(now, m, mid, s, queue, comp, updating, order, prios,
                   if s.existing >= 0 then items[s.existing].name else "");
    }
  }

  lemma RankedPlaced(now: int, m: map<string, Queue>, mid: map<string, Queue>, s: Shift, queue: Queue, comp: Component,
                     updating: seq<Queue>, order: int, prios: seq<string>, holder: string)
    requires IsListing(m, s.list) && KeySorted(now, s.list) && Rank(queue, prios) < |prios|
    requires ShiftedBy(now, s, Rank(queue, prios), prios, order)
    requires updating == if s.existing >= 0 then s.shifted + [s.moved.(noOfOrder := order)] else s.shifted
    requires s.existing >= 0 ==> holder in m && Holds(m[holder], comp.name)
                                 && KeyOf(now, m[holder]) == KeyOf(now, s.list[s.existing])
    requires Saved(m, mid, updating)
    ensures Placed(now, m, mid, queue, comp, order, prios)
  {
    var moved := s.existing;
    if s.at > 0 {
      BumpsSaved(m, mid, s, updating, order);
    } else {
      moved := TopSaved(now, m, mid, s, updating, order);
    }
    assert moved >= 0 ==> holder in m && Holds(m[holder], comp.name) && KeyOf(now, m[holder]) == KeyOf(now, s.list[moved]);
    assert PlacedAt(now, m, mid, queue, comp, order, prios, s.list, s.at, moved);
  }

  lemma UnrankedPlaced(now: int, m: map<string, Queue>, mid: map<string, Queue>, list: seq<Queue>, queue: Queue,
                       comp: Component, order: int, prios: seq<string>)
    requires IsListing(m, list) && KeySorted(now, list) && (Rank(queue, prios) == |prios| || list == [])
    requires order == if list == [] then 1 else list[|list| - 1].noOfOrder + 1
    requires Saved(m, mid, [])
    ensures Placed(now, m, mid, queue, comp, order, prios)
  {
    forall i | 0 <= i < |list|
      ensures list[i].name in mid && mid[list[i].name].noOfOrder == list[i].noOfOrder
    {
      assert list[i] in list;
    }
    assert PlacedAt(now, m, mid, queue, comp, order, prios, list, |list|, -1);
  }

  // ----- What the steps of Add keep

  /** Same queue, components perhaps in another order, perhaps with another order number. */
  ghost predicate Untouched(q: Queue, q': Queue) {
    SameButOrder(q.(components := q'.components), q') && multiset(q.components) == multiset(q'.components)
  }

  /** Reset to Waiting: only components, state, retries, NextProcessAt, number and version may differ. */
  ghost predicate Reset(q: Queue, q': Queue) {
    && q'.name == q.name && q'.bundle == q.bundle && q'.qtype == q.qtype && q'.conditions == q.conditions
    && q'.state == Waiting && q'.noOfRetry == 0 && q'.nextProcessAt.None?
    && q'.noOfProcessed == q.noOfProcessed && q'.startDeployTime == q.startDeployTime
    && q'.startTestingTime == q.startTestingTime && q'.hasLogs == q.hasLogs && q'.imageMissing == q.imageMissing
  }

  /** Components that differ, or stand in another order, are sorted by name. */
  ghost predicate SortedIfChanged(q: Queue, q': Queue) {
    q'.components == q.components || SortedByName(q'.components)
  }

  ghost predicate SortedWhereChanged(m: map<string, Queue>, m': map<string, Queue>) {
    forall n :: n in m && n in m' ==> SortedIfChanged(m[n], m'[n])
  }

  /** The queue is as it came, Waiting, with its components sorted; it got a number and a version. */
  ghost predicate Incoming(queue: Queue, q: Queue) {
    && q.name == queue.name && q.bundle == queue.bundle && q.qtype == queue.qtype && q.conditions == queue.conditions
    && q.state == Waiting && q.noOfRetry == queue.noOfRetry && q.nextProcessAt == queue.nextProcessAt
    && q.noOfProcessed == queue.noOfProcessed && q.startDeployTime == queue.startDeployTime
    && q.startTestingTime == queue.startTestingTime && q.hasLogs == queue.hasLogs && q.imageMissing == queue.imageMissing
    && multiset(q.components) == multiset(queue.components) && SortedByName(q.components)
  }

  /** A queue is kept as it was, or it was reset. */
  ghost predicate KeptOrReset(m: map<string, Queue>, m': map<string, Queue>) {
    forall n :: n in m' ==> n in m && m'[n].name == n && StepTo(m[n], m'[n])
  }

  ghost predicate StepTo(q: Queue, q': Queue) {
    (Untouched(q, q') || Reset(q, q')) && SortedIfChanged(q, q')
  }

  /** What Add does to the list: queues are kept or reset, and the incoming one may be created. */
  ghost predicate AddStep(m: map<string, Queue>, m': map<string, Queue>, queue: Queue) {
    forall n :: n in m' ==>
      && m'[n].name == n
      && ((n in m && StepTo(m[n], m'[n])) || (n == queue.name && Incoming(queue, m'[n])))
  }

  lemma StepToTransitive(q: Queue, q1: Queue, q2: Queue)
    requires StepTo(q, q1) && StepTo(q1, q2)
    ensures StepTo(q, q2)
  {
  }

  lemma KeptOrResetTransitive(m: map<string, Queue>, m1: map<string, Queue>, m2: map<string, Queue>)
    requires KeptOrReset(m, m1) && KeptOrReset(m1, m2)
    ensures KeptOrReset(m, m2)
  {
    forall n | n in m2 ensures n in m && m2[n].name == n && StepTo(m[n], m2[n]) {
      StepToTransitive(m[n], m1[n], m2[n]);
    }
  }

  lemma RefreshedIsReset(q: Queue, u: Queue, q': Queue)
    requires u == q.(components := u.components) && q' == Refresh(u, q'.rv)
    ensures StepTo(q, q')
  {
    SortedComponents(u.components);
  }

  lemma CreatedIsIncoming(queue: Queue, order: int, rv: nat)
    ensures Incoming(queue, Created(queue, order, rv))
  {
    SortedComponents(queue.components);
  }

  lemma KeptUntouched(m: map<string, Queue>, q: Queue, order: int, rv: nat)
    requires UpToDate(m, rv, q) && q.name in m && m[q.name].rv == q.rv
    ensures Untouched(m[q.name], q.(noOfOrder := order, components := SortComponents(q.components), rv := rv))
  {
  }

  lemma UntouchedSame(m: map<string, Queue>)
    ensures SortedWhereChanged(m, m) && forall n :: n in m ==> Untouched(m[n], m[n])
  {
  }

  lemma NothingAdded(m: map<string, Queue>, queue: Queue)
    requires forall n :: n in m ==> m[n].name == n
    ensures AddStep(m, m, queue)
  {
  }

  /** Whatever is written on the way is Waiting afterwards. */
  lemma WritesStep(m: map<string, Queue>, m1: map<string, Queue>, m2: map<string, Queue>, name: string, bundle: string,
                   comp: Component)
    requires (forall n :: n in m ==> m[n].name == n) && DroppedSome(m, m1, name, comp) && JoinedSome(m1, m2, bundle, comp)
    ensures KeptOrReset(m, m2)
  {
    forall n | n in m2 ensures n in m && m2[n].name == n && StepTo(m[n], m2[n]) {
      if m1[n] != m[n] {
        RefreshedIsReset(m[n], Shrunk(m[n], comp), m1[n]);
      }
      if m2[n] != m1[n] {
        RefreshedIsReset(m1[n], Merged(m1[n], comp), m2[n]);
      }
      StepToTransitive(m[n], m1[n], m2[n]);
    }
  }

  lemma FreshStep(t: Trail, m: map<string, Queue>, m': map<string, Queue>, ok: bool, queue: Queue, comp: Component)
    requires (forall n :: n in m ==> m[n].name == n) && AddWrites(t, m, m', ok, queue, comp)
    ensures AddStep(m, m', queue)
  {
    hide DroppedSome, Dropped, JoinedSome, JoinedQueue, StepTo, Incoming;
    WritesStep(m, t.dropped, t.joined, queue.name, queue.bundle, comp);
    OrdersStep(t.joined, t.numbered);
    KeptOrResetTransitive(m, t.joined, t.numbered);
    if ok && !t.didJoin {
      CreatedIsIncoming(queue, t.order, m'[queue.name].rv);
    }
    hide OrdersOnly;
  }

  lemma OrdersStep(m: map<string, Queue>, m': map<string, Queue>)
    requires OrdersOnly(m, m') && forall n :: n in m ==> m[n].name == n
    ensures KeptOrReset(m, m')
  {
  }

  lemma AgainStep(t: Trail, m: map<string, Queue>, m': map<string, Queue>, ok: bool, queue: Queue, comp: Component)
    requires (forall n :: n in m ==> m[n].name == n) && AgainWrites(t, m, m', ok, queue, comp)
    ensures AddStep(m, m', queue)
  {
    hide DroppedSome, Dropped, JoinedSome, JoinedQueue;
    WritesStep(m, t.dropped, t.joined, queue.name, queue.bundle, comp);
    assert KeptOrReset(t.joined, m');
    KeptOrResetTransitive(m, t.joined, m');
  }

  lemma DistinctPermuted(cs: seq<Component>, ds: seq<Component>)
    requires DistinctNames(cs) && multiset(cs) == multiset(ds)
    ensures DistinctNames(ds)
  {
    SamePermutationMembers(cs, ds);
  }

  lemma RefreshedComponents(q: Queue, q': Queue, comp: Component, rv: nat)
    requires DistinctNames(q.components) && q' == Refresh(Shrunk(q, comp), rv)
    ensures DistinctNames(q'.components)
    ensures forall c :: c in q'.components <==> c in q.components && c.name != comp.name
    ensures q'.components == [] <==> Shrunk(q, comp).components == []
  {
    WithoutFacts(q.components, comp.name);
    DistinctPermuted(Shrunk(q, comp).components, q'.components);
  }

  /** The components named `comp.name` are gone, everything else is where it was. */
  ghost predicate Emptied(m: map<string, Queue>, m': map<string, Queue>, comp: Component) {
    && (forall n :: n in m' ==> n in m && EmptiedQueue(m[n], m'[n], comp))
    && (forall n :: n in m && n !in m' ==> forall c :: c in m[n].components ==> c.name == comp.name)
  }

  ghost predicate EmptiedQueue(q: Queue, q': Queue, comp: Component) {
    && q'.components != [] && DistinctNames(q'.components)
    && (forall c :: c in q'.components <==> c in q.components && c.name != comp.name)
    && q'.noOfOrder == q.noOfOrder && (q'.nextProcessAt == q.nextProcessAt || q'.nextProcessAt.None?)
    && (Untouched(q, q') || Reset(q, q'))
  }

  lemma DroppedIsEmptied(m: map<string, Queue>, m': map<string, Queue>, name: string, comp: Component)
    requires OneQueueEach(m) && Dropped(m, m', name, comp)
    requires forall n :: n in m ==> !m[n].ContainSameComponent(name, comp)
    ensures Emptied(m, m', comp)
  {
    forall n | n in m
      ensures n in m' ==> EmptiedQueue(m[n], m'[n], comp)
      ensures n !in m' ==> forall c :: c in m[n].components ==> c.name == comp.name
    {
      WithoutFacts(m[n].components, comp.name);
      if Updates(m[n], name, comp) {
        ShrunkIsEmptied(m[n], m'[n], comp);
      } else if n in m' {
        KeptIsEmptied(m[n], comp);
      }
    }
  }

  /** Some of the queues to drop or to shrink are. */
  lemma DroppedSomeKeeps(m: map<string, Queue>, m': map<string, Queue>, name: string, comp: Component, bundles: set<string>)
    requires OneQueueEach(m) && WellNamed(m, bundles) && DroppedSome(m, m', name, comp)
    ensures OneQueueEach(m') && WellNamed(m', bundles) && (NoneEmpty(m) ==> NoneEmpty(m'))
  {
    forall n | n in m'
      ensures m'[n].name == n && DistinctNames(m'[n].components) && NamedByScheme(m'[n], bundles)
      ensures forall c :: c in m'[n].components ==> c in m[n].components
      ensures m[n].components != [] ==> m'[n].components != []
    {
      assert NamedByScheme(m[n], bundles);
      if m'[n] != m[n] {
        RefreshedComponents(m[n], m'[n], comp, m'[n].rv);
      }
    }
  }

  lemma DroppedKeeps(m: map<string, Queue>, m': map<string, Queue>, name: string, comp: Component, bundles: set<string>)
    requires OneQueueEach(m) && WellNamed(m, bundles) && Dropped(m, m', name, comp)
    ensures OneQueueEach(m') && WellNamed(m', bundles)
  {
    DroppedSomeKeeps(m, m', name, comp, bundles);
  }

  /** A component that its queue holds already: nothing else holds it, so at most empty queues go. */
  lemma AgainFits(m: map<string, Queue>, queue: Queue, comp: Component, bundles: set<string>)
    requires Scheme(m, queue, bundles) && queue.name in m && comp in m[queue.name].components
    ensures Fits(m, queue.name, comp)
  {
    forall n | n in m && n != queue.name ensures !Holds(m[n], comp.name) {
    }
  }

  lemma AgainJoinsNothing(m: map<string, Queue>, m1: map<string, Queue>, queue: Queue, comp: Component, bundles: set<string>)
    requires Scheme(m, queue, bundles) && queue.name in m && comp in m[queue.name].components
    requires Dropped(m, m1, queue.name, comp)
    ensures Fits(m, queue.name, comp) && WellNamed(m1, bundles) && !Joins(m1, queue, comp)
    ensures queue.name in m1 && m1[queue.name] == m[queue.name]
  {
    AgainFits(m, queue, comp, bundles);
    DroppedKeeps(m, m1, queue.name, comp, bundles);
    assert !Removes(m[queue.name], queue.name, comp) && !Updates(m[queue.name], queue.name, comp);
  }

  /** A queue that does not join can be created, and in a settled list no two entries have one key. */
  lemma CanBePlaced(now: int, t: Trail, m: map<string, Queue>, queue: Queue, comp: Component, items: seq<Queue>,
                    prios: seq<string>, bundles: set<string>)
    requires Scheme(m, queue, bundles) && queue.components == [comp]
    requires forall n :: n in m ==> !m[n].ContainSameComponent(queue.name, comp)
    requires Cleared(m, t.dropped, t.joined, true, t.didJoin, queue, comp) && IsListing(t.joined, items)
    requires t.didJoin <==> Joins(t.dropped, queue, comp)
    ensures t.didJoin || queue.name !in t.joined
    ensures Settled(now, m, queue, prios) && Rank(queue, prios) < |prios| ==> NoTies(now, items)
  {
    CompleteTrail(t, m, queue, comp, bundles);
    EmptiedKeeps(m, t.dropped, comp, bundles);
    if !t.didJoin {
      OwnNameIsFree(m, t.dropped, queue, comp, bundles);
    }
    if Settled(now, m, queue, prios) && Rank(queue, prios) < |prios| {
      JoinedSettled(now, t, m, queue, comp, prios);
      ListingPlaces(t.joined, items);
      SettledNoTies(now, t.joined, queue, prios, items);
    }
  }

  lemma SettledNoTies(now: int, m: map<string, Queue>, queue: Queue, prios: seq<string>, items: seq<Queue>)
    requires Settled(now, m, queue, prios) && Rank(queue, prios) < |prios| && IsListing(m, items) && UniqueNames(items)
    ensures NoTies(now, items)
  {
    forall i, j | 0 <= i < j < |items| ensures KeyOf(now, items[i]) != KeyOf(now, items[j]) {
      assert items[i] in items && items[j] in items;
    }
  }

  lemma OwnNameIsFree(m: map<string, Queue>, m1: map<string, Queue>, queue: Queue, comp: Component, bundles: set<string>)
    requires Scheme(m, queue, bundles) && queue.components == [comp] && Emptied(m, m1, comp)
    requires WellNamed(m1, bundles) && (forall n :: n in m1 ==> !Holds(m1[n], comp.name)) && !Joins(m1, queue, comp)
    ensures queue.name !in m1
  {
    assert comp in queue.components;
    forall n | n in m1 ensures n != queue.name {
      assert EmptiedQueue(m[n], m1[n], comp) && m1[n].components[0] in m1[n].components;
      assert NamedByScheme(m1[n], bundles);
    }
  }

  lemma KeptIsEmptied(q: Queue, comp: Component)
    requires !Holds(q, comp.name) && q.components != [] && DistinctNames(q.components)
    ensures EmptiedQueue(q, q, comp)
  {
  }

  lemma ShrunkIsEmptied(q: Queue, q': Queue, comp: Component)
    requires DistinctNames(q.components) && Shrunk(q, comp).components != [] && q' == Refresh(Shrunk(q, comp), q'.rv)
    ensures EmptiedQueue(q, q', comp)
  {
    RefreshedComponents(q, q', comp, q'.rv);
  }

  lemma EmptiedKeeps(m: map<string, Queue>, m': map<string, Queue>, comp: Component, bundles: set<string>)
    requires OneQueueEach(m) && WellNamed(m, bundles) && Emptied(m, m', comp)
    ensures OneQueueEach(m') && NoneEmpty(m') && WellNamed(m', bundles)
    ensures forall n :: n in m' ==> !Holds(m'[n], comp.name)
  {
    forall n | n in m' ensures m'[n].name == n && NamedByScheme(m'[n], bundles) && !Holds(m'[n], comp.name) {
      assert EmptiedQueue(m[n], m'[n], comp) && NamedByScheme(m[n], bundles);
    }
  }

  lemma EmptiedEntries(m: map<string, Queue>, m': map<string, Queue>, comp: Component)
    requires Emptied(m, m', comp)
    ensures Entries(m') == set e | e in Entries(m) && e.1.name != comp.name
  {
    forall n, c ensures (n, c) in Entries(m') <==> (n, c) in Entries(m) && c.name != comp.name {
    }
  }

  lemma JoinedComponents(q: Queue, q': Queue, comp: Component)
    requires DistinctNames(q.components) && !Holds(q, comp.name) && q' == Refresh(Merged(q, comp), q'.rv)
    ensures DistinctNames(q'.components) && q'.components != []
    ensures forall c :: c in q'.components <==> c in q.components || c == comp
  {
    MergeFresh(q.components, comp);
    assert multiset(q.components + [comp]) == multiset(q.components) + multiset{comp};
    assert comp !in q.components;
    assert DistinctNames(q.components + [comp]);
    DistinctPermuted(q.components + [comp], q'.components);
  }

  /** `q` is stored with the components its name had before plus `comp`. */
  ghost predicate Gains(m: map<string, Queue>, q: Queue, comp: Component) {
    && q.components != [] && DistinctNames(q.components)
    && (forall c :: c in q.components <==> (q.name in m && c in m[q.name].components) || c == comp)
  }

  lemma GainKeepsInv(m: map<string, Queue>, q: Queue, comp: Component)
    requires OneQueueEach(m) && Gains(m, q, comp) && forall n :: n in m ==> !Holds(m[n], comp.name)
    ensures OneQueueEach(m[q.name := q])
  {
    forall n, c | n in m && n != q.name && c in m[n].components ensures forall d :: d in q.components ==> c.name != d.name {
      assert !Holds(m[n], comp.name);
    }
  }

  lemma GainEntries(m: map<string, Queue>, q: Queue, comp: Component)
    requires Gains(m, q, comp)
    ensures Entries(m[q.name := q]) == Entries(m) + {(q.name, comp)}
  {
    var m' := m[q.name := q];
    forall n, c ensures (n, c) in Entries(m') <==> (n, c) in Entries(m) + {(q.name, comp)} {
    }
  }

  lemma GainKeeps(m: map<string, Queue>, q: Queue, comp: Component, bundles: set<string>)
    requires OneQueueEach(m) && WellNamed(m, bundles) && Gains(m, q, comp) && NamedByScheme(q, bundles)
    requires forall n :: n in m ==> !Holds(m[n], comp.name)
    ensures OneQueueEach(m[q.name := q]) && WellNamed(m[q.name := q], bundles)
    ensures Entries(m[q.name := q]) == Entries(m) + {(q.name, comp)}
  {
    GainKeepsInv(m, q, comp);
    GainEntries(m, q, comp);
  }

  lemma JoinGains(m: map<string, Queue>, b: string, q': Queue, comp: Component, bundles: set<string>)
    requires OneQueueEach(m) && WellNamed(m, bundles) && b in m && b in bundles && comp.name !in bundles
    requires !Holds(m[b], comp.name) && q' == Refresh(Merged(m[b], comp), q'.rv)
    ensures Gains(m, q', comp) && NamedByScheme(q', bundles) && q'.name == b
  {
    JoinedComponents(m[b], q', comp);
    assert NamedByScheme(m[b], bundles);
  }

  /** Changing order numbers, or the order of the components, keeps all of it. */
  lemma UntouchedKeeps(m: map<string, Queue>, m': map<string, Queue>, bundles: set<string>)
    requires OneQueueEach(m) && WellNamed(m, bundles) && m'.Keys == m.Keys
    requires forall n :: n in m ==> Untouched(m[n], m'[n])
    ensures OneQueueEach(m') && WellNamed(m', bundles) && (NoneEmpty(m) ==> NoneEmpty(m')) && Entries(m') == Entries(m)
  {
    forall n | n in m
      ensures m'[n].name == n && DistinctNames(m'[n].components)
      ensures m[n].components != [] ==> m'[n].components != []
      ensures NamedByScheme(m'[n], bundles)
      ensures forall c :: c in m[n].components <==> c in m'[n].components
    {
      DistinctPermuted(m[n].components, m'[n].components);
      SamePermutationMembers(m[n].components, m'[n].components);
      assert NamedByScheme(m[n], bundles);
    }
    forall n, c ensures (n, c) in Entries(m') <==> (n, c) in Entries(m) {
    }
  }

  lemma OrdersKeep(m: map<string, Queue>, m': map<string, Queue>, bundles: set<string>)
    requires OneQueueEach(m) && WellNamed(m, bundles) && OrdersOnly(m, m')
    ensures OneQueueEach(m') && WellNamed(m', bundles) && (NoneEmpty(m) ==> NoneEmpty(m')) && Entries(m') == Entries(m)
  {
    UntouchedKeeps(m, m', bundles);
  }

  /** Fewer queues, or a NextProcessAt dropped: whoever was apart stays apart. */
  lemma ApartShrinks(now: int, m: map<string, Queue>, m': map<string, Queue>, x: string)
    requires Apart(now, m, x) && x in m'
    requires forall n :: n in m' ==> n in m && m'[n].noOfOrder == m[n].noOfOrder
                                     && (m'[n].nextProcessAt == m[n].nextProcessAt || m'[n].nextProcessAt.None?)
    ensures Apart(now, m', x)
  {
  }

  /** Of all queued component versions only those called like `comp` changed: now it is exactly `comp`,
      in the queue called `name`. */
  ghost predicate Moved(m: map<string, Queue>, m': map<string, Queue>, name: string, comp: Component) {
    Entries(m') == (set e | e in Entries(m) && e.1.name != comp.name) + {(name, comp)}
  }

  lemma AgainMoved(now: int, t: Trail, m: map<string, Queue>, m': map<string, Queue>, ok: bool, queue: Queue, comp: Component,
                   atTop: bool, bundles: set<string>)
    requires Scheme(m, queue, bundles) && AgainWrites(t, m, m', ok, queue, comp) && t.joined == t.dropped
    requires queue.name in m && comp in m[queue.name].components
    requires !atTop ==> forall n :: n in m' ==> n in t.joined && m'[n].noOfOrder == t.joined[n].noOfOrder
    ensures OneQueueEach(m') && WellNamed(m', bundles) && (NoneEmpty(m) ==> NoneEmpty(m'))
    ensures ok ==> Moved(m, m', queue.name, comp)
    ensures !atTop ==> forall x :: Apart(now, m, x) && x in m' ==> Apart(now, m', x)
  {
    DroppedSomeKeeps(m, t.dropped, queue.name, comp, bundles);
    UntouchedKeeps(t.dropped, m', bundles);
    assert forall n :: n in m && n != queue.name ==> !Holds(m[n], comp.name);
    if Dropped(m, t.dropped, queue.name, comp) {
      OnlyEmptyGone(m, t.dropped, queue.name, comp);
    }
    if !atTop {
      forall x | Apart(now, m, x) && x in m' ensures Apart(now, m', x) {
        AgainApart(now, t, m, m', ok, queue, comp, x);
      }
    }
  }

  lemma OnlyEmptyGone(m: map<string, Queue>, m': map<string, Queue>, name: string, comp: Component)
    requires Dropped(m, m', name, comp) && name in m && m[name].name == name && comp in m[name].components
    requires forall n :: n in m && n != name ==> !Holds(m[n], comp.name)
    requires DistinctNames(m[name].components)
    ensures Moved(m, m', name, comp)
  {
    forall n | n in m ensures if n in m' then m'[n] == m[n] else m[n].components == [] {
      WithoutFacts(m[n].components, comp.name);
    }
    forall n, c ensures (n, c) in Entries(m') <==> (n, c) in Entries(m) {
    }
  }

  lemma AgainApart(now: int, t: Trail, m: map<string, Queue>, m': map<string, Queue>, ok: bool, queue: Queue, comp: Component,
                   x: string)
    requires AgainWrites(t, m, m', ok, queue, comp) && t.joined == t.dropped && Apart(now, m, x) && x in m'
    requires forall n :: n in m' ==> n in t.joined && m'[n].noOfOrder == t.joined[n].noOfOrder
    ensures Apart(now, m', x)
  {
    forall n | n in m'
      ensures n in m && m'[n].noOfOrder == m[n].noOfOrder
      ensures m'[n].nextProcessAt == m[n].nextProcessAt || m'[n].nextProcessAt.None?
    {
      assert Untouched(t.dropped[n], m'[n]);
    }
    ApartShrinks(now, m, m', x);
  }

  lemma CompleteTrail(t: Trail, m: map<string, Queue>, queue: Queue, comp: Component, bundles: set<string>)
    requires Scheme(m, queue, bundles) && forall n :: n in m ==> !m[n].ContainSameComponent(queue.name, comp)
    requires Cleared(m, t.dropped, t.joined, true, t.didJoin, queue, comp)
    ensures Emptied(m, t.dropped, comp)
    ensures t.didJoin ==>
              && queue.bundle in t.joined
              && t.joined == t.dropped[queue.bundle := Refresh(Merged(t.dropped[queue.bundle], comp), t.joined[queue.bundle].rv)]
  {
    DroppedIsEmptied(m, t.dropped, queue.name, comp);
    EmptiedKeeps(m, t.dropped, comp, bundles);
    hide Dropped, Emptied, OneQueueEach, WellNamed;
    if t.didJoin {
      JoinChanges(t.dropped, t.joined, queue.bundle, comp);
      JoinedIsOne(t.dropped, t.joined, queue, comp, bundles);
    }
  }

  /** The bundle has at most one queue. */
  lemma JoinedIsOne(m: map<string, Queue>, m': map<string, Queue>, queue: Queue, comp: Component, bundles: set<string>)
    requires WellNamed(m, bundles) && JoinedSome(m, m', queue.bundle, comp)
    requires forall n :: n in m ==> m[n].name == n
    ensures m' != m ==>
              && queue.bundle in m && JoinedQueue(m[queue.bundle], m'[queue.bundle], queue.bundle, comp)
              && m' == m[queue.bundle := m'[queue.bundle]]
  {
    forall n | n in m && m'[n] != m[n] ensures n == queue.bundle {
      assert NamedByScheme(m[n], bundles);
    }
    if m' != m {
      var n :| n in m && m'[n] != m[n];
    }
  }

  /** After the removal and the joining. */
  lemma JoinedKeeps(t: Trail, m: map<string, Queue>, queue: Queue, comp: Component, bundles: set<string>)
    requires Scheme(m, queue, bundles) && queue.components == [comp]
    requires Emptied(m, t.dropped, comp) && JoinedSome(t.dropped, t.joined, queue.bundle, comp)
    ensures OneQueueEach(t.joined) && NoneEmpty(t.joined) && WellNamed(t.joined, bundles)
    ensures if t.joined != t.dropped then Moved(m, t.joined, queue.name, comp)
            else && Entries(t.joined) == (set e | e in Entries(m) && e.1.name != comp.name)
                 && forall n :: n in t.joined ==> !Holds(t.joined[n], comp.name)
  {
    EmptiedKeeps(m, t.dropped, comp, bundles);
    EmptiedEntries(m, t.dropped, comp);
    hide Emptied, WellNamed, OneQueueEach, Entries, NamedByScheme, JoinedSome, Holds;
    if t.joined != t.dropped {
      JoinOneKeeps(t.dropped, t.joined, queue, comp, bundles);
    }
  }

  lemma JoinOneKeeps(m: map<string, Queue>, m': map<string, Queue>, queue: Queue, comp: Component, bundles: set<string>)
    requires OneQueueEach(m) && NoneEmpty(m) && WellNamed(m, bundles) && NamedByScheme(queue, bundles)
    requires queue.components == [comp] && (forall n :: n in m ==> !Holds(m[n], comp.name))
    requires JoinedSome(m, m', queue.bundle, comp) && m' != m
    ensures OneQueueEach(m') && NoneEmpty(m') && WellNamed(m', bundles) && Entries(m') == Entries(m) + {(queue.name, comp)}
  {
    JoinedIsOne(m, m', queue, comp, bundles);
    assert comp in queue.components;
    hide JoinedSome, Entries, OneQueueEach, WellNamed;
    var q := m'[queue.bundle];
    JoinGains(m, queue.bundle, q, comp, bundles);
    GainKeeps(m, q, comp, bundles);
  }

  /** A queue that joins is Waiting and holds the component, so it is not as before. */
  lemma JoinChanges(m: map<string, Queue>, m': map<string, Queue>, bundle: string, comp: Component)
    requires forall n :: n in m ==> !Holds(m[n], comp.name)
    requires exists n :: n in m && n in m' && JoinedQueue(m[n], m'[n], bundle, comp)
    ensures m' != m
  {
    var n :| n in m && n in m' && JoinedQueue(m[n], m'[n], bundle, comp);
    MergeFresh(m[n].components, comp);
    assert comp in m[n].components + [comp];
    assert comp in m'[n].components;
    assert !Holds(m[n], comp.name);
  }

  lemma FreshKeeps(t: Trail, m: map<string, Queue>, m': map<string, Queue>, ok: bool, queue: Queue, comp: Component,
                   bundles: set<string>)
    requires Scheme(m, queue, bundles) && queue.components == [comp] && AddWrites(t, m, m', ok, queue, comp)
    requires forall n :: n in m ==> !m[n].ContainSameComponent(queue.name, comp)
    ensures OneQueueEach(m') && WellNamed(m', bundles) && (NoneEmpty(m) || ok ==> NoneEmpty(m'))
    ensures ok ==> Moved(m, m', queue.name, comp)
  {
    if Dropped(m, t.dropped, queue.name, comp) {
      DroppedIsEmptied(m, t.dropped, queue.name, comp);
      JoinedKeeps(t, m, queue, comp, bundles);
      OrdersKeep(t.joined, t.numbered, bundles);
      if ok && t.didJoin {
        EmptiedKeeps(m, t.dropped, comp, bundles);
        JoinChanges(t.dropped, t.joined, queue.bundle, comp);
      } else if ok {
        CreatedKeeps(t, m', queue, comp, bundles);
      }
    } else {
      DroppedSomeKeeps(m, m', queue.name, comp, bundles);
    }
  }

  lemma CreatedKeeps(t: Trail, m': map<string, Queue>, queue: Queue, comp: Component, bundles: set<string>)
    requires OneQueueEach(t.numbered) && WellNamed(t.numbered, bundles)
    requires NamedByScheme(queue, bundles) && queue.components == [comp] && queue.name !in t.numbered
    requires OrdersOnly(t.joined, t.numbered) && forall n :: n in t.joined ==> !Holds(t.joined[n], comp.name)
    requires queue.name in m' && m' == t.numbered[queue.name := Created(queue, t.order, m'[queue.name].rv)]
    ensures OneQueueEach(m') && WellNamed(m', bundles) && (NoneEmpty(t.numbered) ==> NoneEmpty(m'))
    ensures Entries(m') == Entries(t.numbered) + {(queue.name, comp)}
  {
    var q := m'[queue.name];
    forall n | n in t.numbered ensures !Holds(t.numbered[n], comp.name) {
      assert SameButOrder(t.joined[n], t.numbered[n]);
    }
    CreatedGains(t.numbered, queue, q, comp, t.order, bundles);
    GainKeeps(t.numbered, q, comp, bundles);
  }

  lemma CreatedGains(m: map<string, Queue>, queue: Queue, q: Queue, comp: Component, order: int, bundles: set<string>)
    requires queue.components == [comp] && queue.name !in m && NamedByScheme(queue, bundles)
    requires q == Created(queue, order, q.rv)
    ensures q.components == [comp] && Gains(m, q, comp) && NamedByScheme(q, bundles)
  {
    SamePermutationMembers(q.components, queue.components);
    assert q.components == [comp];
  }

  /** A queue other than the incoming one stays apart; the incoming one too, unless its rank moved it. */
  lemma FreshApart(now: int, t: Trail, m: map<string, Queue>, m': map<string, Queue>, queue: Queue, comp: Component,
                   prios: seq<string>, bundles: set<string>)
    requires Scheme(m, queue, bundles) && queue.components == [comp]
    requires AddTrail(now, t, m, m', queue, comp, prios) && queue.nextProcessAt.None?
    requires forall n :: n in m ==> !m[n].ContainSameComponent(queue.name, comp)
    ensures forall x :: Apart(now, m, x) && x in m' && !Renews(m, queue, prios, x) ==> Apart(now, m', x)
  {
    HolderAfterJoin(t, m, queue, comp, bundles);
    forall x | Apart(now, m, x) && x in m' && !Renews(m, queue, prios, x) ensures Apart(now, m', x) {
      StaysJoined(t, m, queue, comp, prios, x);
      JoinedApart(now, t, m, queue, comp, x);
      NumberedApart(now, t.joined, t.numbered, queue, comp, t.order, prios, x);
      CreatedApart(now, t.numbered, m', queue, t.order, x);
    }
  }

  /** In a settled list the incoming queue is apart from all others, however it came to its number. */
  lemma FreshRenewed(now: int, t: Trail, m: map<string, Queue>, m': map<string, Queue>, queue: Queue, comp: Component,
                     prios: seq<string>, bundles: set<string>)
    requires Scheme(m, queue, bundles) && queue.components == [comp]
    requires AddTrail(now, t, m, m', queue, comp, prios) && queue.nextProcessAt.None?
    requires Settled(now, m, queue, prios) && (queue.name in m ==> Renews(m, queue, prios, queue.name))
    ensures queue.name in m' && Apart(now, m', queue.name)
  {
    HolderAfterJoin(t, m, queue, comp, bundles);
    JoinedSettled(now, t, m, queue, comp, prios);
    if t.didJoin {
      JoinedIsRanked(t, m, queue, comp, prios, bundles);
      hide Placed, OrdersOnly, Apart, Scheme, Dropped, Cleared, Emptied, Settled;
      MovedIsApart(now, t.joined, m', queue, comp, t.order, prios);
    } else {
      NobodyHolds(t, m, queue, comp, bundles);
      hide Placed, OrdersOnly, Apart, Scheme, Dropped, Cleared, Emptied, Settled;
      CreatedIsApart(now, t.joined, t.numbered, m', queue, comp, t.order, prios);
    }
  }

  lemma NobodyHolds(t: Trail, m: map<string, Queue>, queue: Queue, comp: Component, bundles: set<string>)
    requires Scheme(m, queue, bundles) && Emptied(m, t.dropped, comp) && t.joined == t.dropped
    ensures forall n :: n in t.joined ==> !Holds(t.joined[n], comp.name)
  {
    EmptiedKeeps(m, t.dropped, comp, bundles);
  }

  /** A queue that is renewed although it keeps other components has a priority. */
  lemma JoinedIsRanked(t: Trail, m: map<string, Queue>, queue: Queue, comp: Component, prios: seq<string>, bundles: set<string>)
    requires Scheme(m, queue, bundles) && queue.components == [comp] && Emptied(m, t.dropped, comp)
    requires Joins(t.dropped, queue, comp) && (queue.name in m ==> Renews(m, queue, prios, queue.name))
    ensures queue.bundle == queue.name && Rank(queue, prios) < |prios|
  {
    assert queue.bundle == queue.name && EmptiedQueue(m[queue.name], t.dropped[queue.name], comp);
    assert t.dropped[queue.name].components[0] in t.dropped[queue.name].components;
  }

  /** For a queue without priority the condition is exact: created behind the list, it is apart if and only
      if nothing in the list is postponed. */
  lemma CreatedLastApartIff(now: int, m: map<string, Queue>, mid: map<string, Queue>, m': map<string, Queue>, queue: Queue,
                            comp: Component, order: int, prios: seq<string>)
    requires OrdersOnly(m, mid) && Placed(now, m, mid, queue, comp, order, prios) && Rank(queue, prios) == |prios|
    requires forall n :: n in m ==> !Holds(m[n], comp.name)
    requires queue.name !in mid && queue.name in m' && queue.nextProcessAt.None?
    requires m' == mid[queue.name := Created(queue, order, m'[queue.name].rv)]
    ensures Apart(now, m', queue.name) <==> forall n :: n in m ==> !Postponed(now, m[n])
  {
    if forall n :: n in m ==> !Postponed(now, m[n]) {
      CreatedIsApart(now, m, mid, m', queue, comp, order, prios);
    } else {
      var list: seq<Queue>, at: nat, moved: int :| PlacedAt(now, m, mid, queue, comp, order, prios, list, at, moved);
      var y :| y in m && Postponed(now, m[y]);
      var n := CreatedBehind(now, m, mid, queue, comp, order, prios, list, at, moved, y);
      assert m'[n] == mid[n] && m'[queue.name].noOfOrder == order;
    }
  }

  /** With nothing postponed and a priority it is exact as well: the queue that gets the free number, the
      moved one or the one created, is apart if and only if no other entry from its place on shares the
      number of the entry in front. */
  lemma RankedApartIff(now: int, m: map<string, Queue>, mid: map<string, Queue>, m': map<string, Queue>, queue: Queue,
                       comp: Component, order: int, prios: seq<string>, list: seq<Queue>, at: nat, moved: int)
    requires OrdersOnly(m, mid) && PlacedAt(now, m, mid, queue, comp, order, prios, list, at, moved)
    requires (forall n :: n in m ==> !Postponed(now, m[n])) && list != []
    requires if moved >= 0 then m' == mid
             else && queue.name !in mid && queue.name in m' && queue.nextProcessAt.None?
                  && m' == mid[queue.name := Created(queue, order, m'[queue.name].rv)]
    ensures Apart(now, m', if moved >= 0 then list[moved].name else queue.name) <==> NoneSharesBefore(list, at, moved)
  {
    var x := if moved >= 0 then list[moved].name else queue.name;
    ListingPlaces(m, list);
    assert IsListing(m, list) && KeySorted(now, list) && FreeNumber(now, list, at, order) && Renumbered(list, at, moved, order, mid);
    hide PlacedAt, KeySorted, FreeNumber;
    if moved >= 0 {
      assert list[moved] in list;
      NumberAfter(now, m, mid, list, at, moved, order, moved);
      hide Renumbered, IsListing;
      ApartIffFree(now, m, mid, m', x, order, list, at, moved);
    } else {
      assert forall i :: 0 <= i < |list| ==> list[i] in list && list[i].name != x;
      hide Renumbered, IsListing;
      ApartIffFree(now, m, mid, m', x, order, list, at, moved);
    }
  }

  lemma ApartIffFree(now: int, m: map<string, Queue>, mid: map<string, Queue>, m': map<string, Queue>, x: string, order: int,
                     list: seq<Queue>, at: nat, moved: int)
    requires OrdersOnly(m, mid) && IsListing(m, list) && KeySorted(now, list) && FreeNumber(now, list, at, order)
    requires Renumbered(list, at, moved, order, mid) && (forall n :: n in m ==> !Postponed(now, m[n]))
    requires m'.Keys == m.Keys + {x} && m'[x].noOfOrder == order && !Postponed(now, m'[x])
    requires forall n :: n in mid && n != x ==> m'[n] == mid[n]
    requires forall i :: 0 <= i < |list| ==> (list[i].name == x <==> i == moved)
    ensures Apart(now, m', x) <==> NoneSharesBefore(list, at, moved)
  {
    forall i | 0 <= i < |list|
      ensures && !Postponed(now, list[i]) && list[i].name in m' && !Postponed(now, m'[list[i].name])
              && m'[list[i].name].noOfOrder == NewNumber(list, at, moved, order, i)
    {
      NumberAfter(now, m, mid, list, at, moved, order, i);
    }
    hide OrdersOnly, Renumbered, IsListing, KeySorted, FreeNumber, Apart;
    FreeNumberIsFreeIff(now, list, at, moved, order);
    ApartByPlaces(now, m, m', list, x, order, moved, at);
  }

  lemma NumberAfter(now: int, m: map<string, Queue>, mid: map<string, Queue>, list: seq<Queue>, at: nat, moved: int, order: int,
                    i: nat)
    requires OrdersOnly(m, mid) && IsListing(m, list) && Renumbered(list, at, moved, order, mid) && i < |list|
    requires forall n :: n in m ==> !Postponed(now, m[n])
    ensures list[i].name in mid && !Postponed(now, list[i]) && !Postponed(now, mid[list[i].name])
    ensures mid[list[i].name].noOfOrder == NewNumber(list, at, moved, order, i)
  {
    assert list[i] in list && SameButOrder(m[list[i].name], mid[list[i].name]);
  }

  lemma ApartByPlaces(now: int, m: map<string, Queue>, m': map<string, Queue>, list: seq<Queue>, x: string, order: int,
                      moved: int, at: nat)
    requires IsListing(m, list) && x in m' && m'[x].noOfOrder == order && !Postponed(now, m'[x]) && m'.Keys == m.Keys + {x}
    requires forall i :: 0 <= i < |list| ==>
               && list[i].name in m' && (list[i].name == x <==> i == moved) && !Postponed(now, m'[list[i].name])
               && m'[list[i].name].noOfOrder == NewNumber(list, at, moved, order, i)
    ensures Apart(now, m', x) <==> forall i :: 0 <= i < |list| && i != moved ==> NewNumber(list, at, moved, order, i) != order
  {
    forall y | y in m' && y != x ensures exists i :: 0 <= i < |list| && i != moved && list[i].name == y {
      assert m[y] in list;
      var i :| 0 <= i < |list| && list[i] == m[y];
    }
    if Apart(now, m', x) {
      forall i | 0 <= i < |list| && i != moved ensures NewNumber(list, at, moved, order, i) != order {
        assert list[i].name != x;
      }
    }
  }

  lemma CreatedBehind(now: int, m: map<string, Queue>, mid: map<string, Queue>, queue: Queue, comp: Component, order: int,
                      prios: seq<string>, list: seq<Queue>, at: nat, moved: int, y: string)
    returns (n: string)
    requires OrdersOnly(m, mid) && PlacedAt(now, m, mid, queue, comp, order, prios, list, at, moved)
    requires Rank(queue, prios) == |prios| && (forall n :: n in m ==> !Holds(m[n], comp.name)) && y in m && Postponed(now, m[y])
    ensures n in mid && Postponed(now, mid[n]) && mid[n].noOfOrder < order
  {
    assert m[y] in list;
    var i :| 0 <= i < |list| && list[i] == m[y];
    assert moved == -1 && at == |list|;
    n := BehindPostponed(now, m, mid, list, order, i);
  }

  lemma BehindPostponed(now: int, m: map<string, Queue>, mid: map<string, Queue>, list: seq<Queue>, order: int, i: nat)
    returns (n: string)
    requires IsListing(m, list) && KeySorted(now, list) && OrdersOnly(m, mid) && i < |list| && Postponed(now, list[i])
    requires Renumbered(list, |list|, -1, order, mid) && FreeNumber(now, list, |list|, order)
    ensures n in mid && Postponed(now, mid[n]) && mid[n].noOfOrder < order
  {
    var last := list[|list| - 1];
    n := last.name;
    assert i < |list| - 1 ==> !KeyLess(KeyOf(now, last), KeyOf(now, list[i]));
    assert last in list && SameButOrder(m[n], mid[n]);
    assert mid[n].noOfOrder == NewNumber(list, |list|, -1, order, |list| - 1);
  }

  lemma JoinedSettled(now: int, t: Trail, m: map<string, Queue>, queue: Queue, comp: Component, prios: seq<string>)
    requires Settled(now, m, queue, prios) && Emptied(m, t.dropped, comp)
    requires t.didJoin ==>
               && Joins(t.dropped, queue, comp) && queue.bundle in t.joined
               && t.joined == t.dropped[queue.bundle := Refresh(Merged(t.dropped[queue.bundle], comp), t.joined[queue.bundle].rv)]
    requires !t.didJoin ==> t.joined == t.dropped
    ensures Settled(now, t.joined, queue, prios)
  {
    forall n | n in t.joined
      ensures n in m && t.joined[n].noOfOrder == m[n].noOfOrder && !Postponed(now, t.joined[n])
    {
      assert n in t.dropped && EmptiedQueue(m[n], t.dropped[n], comp);
    }
  }

  /** What a settled list says place by place. */
  lemma SettledPlaces(now: int, m: map<string, Queue>, queue: Queue, prios: seq<string>, list: seq<Queue>, at: nat)
    requires Settled(now, m, queue, prios) && IsListing(m, list) && RankPlace(list, at, Rank(queue, prios), prios)
    ensures forall k :: 0 <= k < |list| ==> !Postponed(now, list[k])
    ensures at < |list| || Rank(queue, prios) < |prios| ==>
              forall k, l :: 0 <= k < l < |list| ==> list[k].noOfOrder != list[l].noOfOrder
  {
    forall k | 0 <= k < |list| ensures !Postponed(now, list[k]) {
      assert list[k] in list;
    }
    if at < |list| || Rank(queue, prios) < |prios| {
      ListingPlaces(m, list);
      forall k, l | 0 <= k < l < |list| ensures list[k].noOfOrder != list[l].noOfOrder {
        assert list[k] in list && list[l] in list;
      }
    }
  }

  lemma CreatedIsApart(now: int, m: map<string, Queue>, mid: map<string, Queue>, m': map<string, Queue>, queue: Queue,
                       comp: Component, order: int, prios: seq<string>)
    requires Settled(now, m, queue, prios) && OrdersOnly(m, mid) && Placed(now, m, mid, queue, comp, order, prios)
    requires forall n :: n in m ==> !Holds(m[n], comp.name)
    requires queue.name !in mid && queue.name in m' && queue.nextProcessAt.None?
    requires m' == mid[queue.name := Created(queue, order, m'[queue.name].rv)]
    ensures Apart(now, m', queue.name)
  {
    var list: seq<Queue>, at: nat, moved: int :| PlacedAt(now, m, mid, queue, comp, order, prios, list, at, moved);
    SettledPlaces(now, m, queue, prios, list, at);
    forall y | y in m' && y != queue.name ensures m'[y].noOfOrder != order && !Postponed(now, m'[y]) {
      assert m[y] in list && SameButOrder(m[y], mid[y]);
      var i :| 0 <= i < |list| && list[i] == m[y];
      FreeNumberIsFree(now, list, at, -1, order, i);
    }
  }

  lemma MovedIsApart(now: int, m: map<string, Queue>, mid: map<string, Queue>, queue: Queue, comp: Component, order: int,
                     prios: seq<string>)
    requires Settled(now, m, queue, prios) && OrdersOnly(m, mid) && Placed(now, m, mid, queue, comp, order, prios)
    requires Rank(queue, prios) < |prios| && queue.name in m
    requires forall n :: n in m && Holds(m[n], comp.name) ==> n == queue.name
    ensures Apart(now, mid, queue.name)
  {
    var list: seq<Queue>, at: nat, moved: int :| PlacedAt(now, m, mid, queue, comp, order, prios, list, at, moved);
    MovedAtIsApart(now, m, mid, queue, comp, order, prios, list, at, moved);
  }

  lemma MovedAtIsApart(now: int, m: map<string, Queue>, mid: map<string, Queue>, queue: Queue, comp: Component, order: int,
                       prios: seq<string>, list: seq<Queue>, at: nat, moved: int)
    requires Settled(now, m, queue, prios) && OrdersOnly(m, mid)
    requires PlacedAt(now, m, mid, queue, comp, order, prios, list, at, moved)
    requires Rank(queue, prios) < |prios| && queue.name in m
    requires forall n :: n in m && Holds(m[n], comp.name) ==> n == queue.name
    ensures Apart(now, mid, queue.name)
  {
    var x := queue.name;
    SettledPlaces(now, m, queue, prios, list, at);
    assert m[x] in list;
    var p :| 0 <= p < |list| && list[p] == m[x];
    if moved >= 0 {
      MovedIsHolder(now, m, queue, comp, list, moved, p);
    }
    assert SameButOrder(m[x], mid[x]);
    assert Renumbered(list, at, moved, order, mid) && FreeNumber(now, list, at, order);
    forall y | y in mid && y != x ensures mid[y].noOfOrder != mid[x].noOfOrder && !Postponed(now, mid[y]) {
      assert m[y] in list && SameButOrder(m[y], mid[y]);
      var i :| 0 <= i < |list| && list[i] == m[y];
      MovedNumberDiffers(now, list, at, moved, order, p, i);
    }
  }

  lemma MovedNumberDiffers(now: int, list: seq<Queue>, at: nat, moved: int, order: int, p: nat, i: nat)
    requires KeySorted(now, list) && FreeNumber(now, list, at, order) && p < |list| && i < |list| && i != p
    requires moved == -1 || moved == p
    requires forall k :: 0 <= k < |list| ==> !Postponed(now, list[k])
    requires forall k, l :: 0 <= k < l < |list| ==> list[k].noOfOrder != list[l].noOfOrder
    ensures NewNumber(list, at, moved, order, i) != NewNumber(list, at, moved, order, p)
  {
    if moved == p {
      FreeNumberIsFree(now, list, at, moved, order, i);
    } else if i < p {
      ShiftedNumbersDiffer(now, list, at, order, i, p);
    } else {
      ShiftedNumbersDiffer(now, list, at, order, p, i);
    }
  }

  lemma MovedIsHolder(now: int, m: map<string, Queue>, queue: Queue, comp: Component, list: seq<Queue>, moved: int, p: nat)
    requires IsListing(m, list) && 0 <= moved < |list| && p < |list| && queue.name in m && list[p] == m[queue.name]
    requires forall k :: 0 <= k < |list| ==> !Postponed(now, list[k])
    requires forall k, l :: 0 <= k < l < |list| ==> list[k].noOfOrder != list[l].noOfOrder
    requires exists n :: n in m && Holds(m[n], comp.name) && KeyOf(now, m[n]) == KeyOf(now, list[moved])
    requires forall n :: n in m && Holds(m[n], comp.name) ==> n == queue.name
    ensures moved == p
  {
    assert KeyOf(now, list[p]) == KeyOf(now, list[moved]);
    assert list[p].noOfOrder == list[moved].noOfOrder;
    assert p < moved || moved < p || p == moved;
  }

  lemma StaysJoined(t: Trail, m: map<string, Queue>, queue: Queue, comp: Component, prios: seq<string>, x: string)
    requires x in m && m[x].name == x && queue.components == [comp] && !m[x].ContainSameComponent(queue.name, comp)
    requires !Renews(m, queue, prios, x) && Emptied(m, t.dropped, comp)
    requires forall n :: n in t.dropped ==> n in t.joined
    requires x == queue.name || x in t.joined
    ensures x in t.joined && (x != queue.name || Rank(queue, prios) == |prios|)
  {
    if x == queue.name {
      assert x in t.dropped;
    }
  }

  lemma CreatedApart(now: int, m: map<string, Queue>, m': map<string, Queue>, queue: Queue, order: int, x: string)
    requires Apart(now, m, x) && order != m[x].noOfOrder && queue.nextProcessAt.None?
    requires m' == m || (queue.name in m' && queue.name !in m
                         && m' == m[queue.name := Created(queue, order, m'[queue.name].rv)])
    ensures Apart(now, m', x)
  {
  }

  lemma JoinedApart(now: int, t: Trail, m: map<string, Queue>, queue: Queue, comp: Component, x: string)
    requires Apart(now, m, x) && x in t.joined && Emptied(m, t.dropped, comp)
    requires t.didJoin ==>
               && Joins(t.dropped, queue, comp) && queue.bundle in t.joined
               && t.joined == t.dropped[queue.bundle := Refresh(Merged(t.dropped[queue.bundle], comp), t.joined[queue.bundle].rv)]
    requires !t.didJoin ==> t.joined == t.dropped
    ensures Apart(now, t.joined, x)
  {
    forall n | n in t.joined
      ensures n in m && t.joined[n].noOfOrder == m[n].noOfOrder
      ensures t.joined[n].nextProcessAt == m[n].nextProcessAt || t.joined[n].nextProcessAt.None?
    {
      assert n in t.dropped && EmptiedQueue(m[n], t.dropped[n], comp);
    }
    ApartShrinks(now, m, t.joined, x);
  }

  lemma NumberedApart(now: int, m: map<string, Queue>, m': map<string, Queue>, queue: Queue, comp: Component,
                      order: int, prios: seq<string>, x: string)
    requires Apart(now, m, x) && OrdersOnly(m, m') && Placed(now, m, m', queue, comp, order, prios)
    requires x != queue.name || Rank(queue, prios) == |prios|
    requires forall n :: n in m && Holds(m[n], comp.name) ==> n == queue.name && m[n].nextProcessAt.None?
    ensures Apart(now, m', x) && order != m'[x].noOfOrder
  {
    var list: seq<Queue>, at: nat, moved: int :| PlacedAt(now, m, m', queue, comp, order, prios, list, at, moved);
    assert m[x] in list;
    if moved >= 0 {
      var n :| n in m && Holds(m[n], comp.name) && KeyOf(now, m[n]) == KeyOf(now, list[moved]);
      assert list[moved] in list;
    }
    ApartRenumbered(now, m, m', list, at, moved, order, x);
  }

  lemma HolderAfterJoin(t: Trail, m: map<string, Queue>, queue: Queue, comp: Component, bundles: set<string>)
    requires Scheme(m, queue, bundles) && Emptied(m, t.dropped, comp)
    requires t.didJoin ==>
               && Joins(t.dropped, queue, comp) && queue.bundle in t.joined
               && t.joined == t.dropped[queue.bundle := Refresh(Merged(t.dropped[queue.bundle], comp), t.joined[queue.bundle].rv)]
    requires !t.didJoin ==> t.joined == t.dropped
    ensures forall n :: n in t.joined && Holds(t.joined[n], comp.name) ==>
              n == queue.name && t.joined[n].nextProcessAt.None?
  {
    EmptiedKeeps(m, t.dropped, comp, bundles);
  }

  /** All of it, for a complete Add with the list in memory right. */
  lemma FreshNumbered(now: int, t: Trail, m: map<string, Queue>, m': map<string, Queue>, queue: Queue, comp: Component,
                      prios: seq<string>, bundles: set<string>)
    requires Scheme(m, queue, bundles) && queue.components == [comp] && queue.nextProcessAt.None?
    requires Fits(m, queue.name, comp) ==> AddTrail(now, t, m, m', queue, comp, prios)
    requires forall n :: n in m ==> !m[n].ContainSameComponent(queue.name, comp)
    ensures Fits(m, queue.name, comp) ==>
              forall x :: Apart(now, m, x) && x in m' && !Renews(m, queue, prios, x) ==> Apart(now, m', x)
    ensures Fits(m, queue.name, comp) && Settled(now, m, queue, prios)
            && (queue.name in m ==> Renews(m, queue, prios, queue.name)) ==>
              queue.name in m' && Apart(now, m', queue.name)
    ensures NoneEmpty(m) && IsNew(m, queue) && PrioritySorted(now, m, prios) ==>
              Inserted(m, m', queue.name, prios) && PrioritySorted(now, m', prios)
  {
    hide AddTrail, Scheme, Fits, Settled, Renews, Apart, Inserted, PrioritySorted, IsNew, NoneEmpty;
    if Fits(m, queue.name, comp) {
      FreshApart(now, t, m, m', queue, comp, prios, bundles);
      if Settled(now, m, queue, prios) && (queue.name in m ==> Renews(m, queue, prios, queue.name)) {
        FreshRenewed(now, t, m, m', queue, comp, prios, bundles);
      }
    }
    if NoneEmpty(m) && IsNew(m, queue) && PrioritySorted(now, m, prios) {
      SchemeFits(m, queue, comp, bundles);
      FreshInserted(now, t, m, m', queue, comp, prios, bundles);
    }
  }

  lemma SchemeFits(m: map<string, Queue>, queue: Queue, comp: Component, bundles: set<string>)
    requires Scheme(m, queue, bundles) && NoneEmpty(m)
    ensures Fits(m, queue.name, comp)
  {
    ListFits(m, queue.name, comp);
  }

  lemma FreshInserted(now: int, t: Trail, m: map<string, Queue>, m': map<string, Queue>, queue: Queue, comp: Component,
                      prios: seq<string>, bundles: set<string>)
    requires Scheme(m, queue, bundles) && queue.components == [comp]
    requires AddTrail(now, t, m, m', queue, comp, prios) && queue.nextProcessAt.None?
    requires IsNew(m, queue) && NoneEmpty(m) && PrioritySorted(now, m, prios)
    ensures Inserted(m, m', queue.name, prios) && PrioritySorted(now, m', prios)
  {
    hide Placed, OrdersOnly, PrioritySorted, Inserted;
    hide Emptied, OneQueueEach, WellNamed, JoinedSome, DroppedSome, JoinedQueue;
    NewDropsNothing(m, t.dropped, queue.name, comp);
    assert !Joins(m, queue, comp);
    CreatedInserted(now, m, t.numbered, queue, m'[queue.name], comp, t.order, prios, bundles);
  }

  lemma NewDropsNothing(m: map<string, Queue>, m': map<string, Queue>, name: string, comp: Component)
    requires NoneEmpty(m) && Dropped(m, m', name, comp) && forall n :: n in m ==> !Holds(m[n], comp.name)
    ensures m' == m
  {
    forall n | n in m ensures !Removes(m[n], name, comp) && !Updates(m[n], name, comp) {
      ShrunkSame(m[n], comp);
    }
  }

  lemma CreatedInserted(now: int, m: map<string, Queue>, mid: map<string, Queue>, queue: Queue, q: Queue,
                        comp: Component, order: int, prios: seq<string>, bundles: set<string>)
    requires queue.components == [comp] && queue.name !in m && NamedByScheme(queue, bundles)
    requires q == Created(queue, order, q.rv) && queue.nextProcessAt.None?
    requires forall n :: n in m ==> !Holds(m[n], comp.name)
    requires OrdersOnly(m, mid) && Placed(now, m, mid, queue, comp, order, prios) && PrioritySorted(now, m, prios)
    ensures Inserted(m, mid[q.name := q], q.name, prios) && PrioritySorted(now, mid[q.name := q], prios)
  {
    var list: seq<Queue>, at: nat, moved: int :| PlacedAt(now, m, mid, queue, comp, order, prios, list, at, moved);
    CreatedGains(m, queue, q, comp, order, bundles);
    RankSameButOrder(queue, q, prios);
    InsertedByRank(now, m, mid, list, at, order, q, prios);
  }
}
