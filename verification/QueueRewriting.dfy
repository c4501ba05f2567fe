/** Saving rewritten entries of the queue list (internal/queue/controller.go): which objects change, and what
    the list in memory says of them afterwards. */
module QueueRewriting {
  import opened QueueTypes
  import opened QueueList

  /** What every rewritten queue is reset to before it is saved. */
  function Refresh(q: Queue, rv: nat): Queue {
    q.(components := SortComponents(q.components), noOfRetry := 0, nextProcessAt := None,
       state := Waiting, rv := rv)
  }

  /** The incoming component goes into an existing queue of its bundle. */
  ghost predicate Joins(m: map<string, Queue>, queue: Queue, comp: Component) {
    queue.bundle != "" && queue.bundle in m && !m[queue.bundle].ContainSameComponent(queue.name, comp)
  }

  /** Where the bundle's own queue stands in the list, or -1. */
  lemma BundlePlace(m: map<string, Queue>, list: seq<Queue>, queue: Queue, comp: Component, bundles: set<string>)
    returns (h: int)
    requires IsListing(m, list) && WellNamed(m, bundles) && NamedByScheme(queue, bundles)
    ensures -1 <= h < |list|
    ensures queue.bundle == "" ==> h == -1
    ensures queue.bundle != "" ==>
              var updating := UpdatedBundles(list, queue.name, queue.bundle, comp);
              && (forall i :: 0 <= i < |list| ==> (updating[i].Some? <==> i == h))
              && (h >= 0 ==> list[h].name == queue.bundle && updating[h] == Some(Merged(list[h], comp)))
    ensures h >= 0 <==> Joins(m, queue, comp)
  {
    h := -1;
    if queue.bundle != "" {
      ListingPlaces(m, list);
      var b := queue.bundle;
      if Joins(m, queue, comp) {
        assert m[b] in list;
        h :| 0 <= h < |list| && list[h] == m[b];
      }
      forall i | 0 <= i < |list|
        ensures UpdatedBundles(list, queue.name, b, comp)[i] == if i == h then Some(Merged(list[i], comp)) else None
      {
        BundleAt(list, i, queue.name, b, comp);
        assert list[i] in list;
        assert forall q :: q in list[..i] ==> q.name != list[i].name by {
          forall q | q in list[..i] ensures q.name != list[i].name {
            var j :| 0 <= j < i && list[j] == q;
          }
        }
        assert NamedByScheme(m[list[i].name], bundles);
        assert list[i].bundle == b <==> list[i].name == b;
      }
    }
  }

  // ----- Writing entries back

  /** Every queue is as before, or saved from an entry of `updating` that had its version. */
  ghost predicate WroteBack(m: map<string, Queue>, m': map<string, Queue>, updating: seq<Option<Queue>>) {
    m'.Keys == m.Keys && forall n :: n in m ==> m'[n] == m[n] || WrittenFrom(n, m[n], m'[n], updating)
  }

  ghost predicate WrittenFrom(n: string, q: Queue, q': Queue, updating: seq<Option<Queue>>) {
    exists i :: 0 <= i < |updating| && updating[i].Some? && SavedAs(n, q, q', updating[i].value)
  }

  predicate SavedAs(n: string, q: Queue, q': Queue, u: Queue) {
    u.name == n && u.rv == q.rv && q' == Refresh(u, q'.rv)
  }

  /** Place i holds what was saved of entry i of `updating`; the other places are as they were. */
  ghost predicate PutBack(items: seq<Queue>, items': seq<Queue>, updating: seq<Option<Queue>>, m': map<string, Queue>,
                          start: nat) {
    && |items'| == |items|
    && (forall i :: 0 <= i < |updating| && updating[i].Some? ==>
          i < |items'| && StoredAs(updating[i].value, items'[i], m', start))
    && (forall i :: 0 <= i < |items| && (i < |updating| ==> updating[i].None?) ==> items'[i] == items[i])
  }

  /** Every entry to save has the version of its object, once each, and its place is in range. */
  ghost predicate Ready(m: map<string, Queue>, updating: seq<Option<Queue>>, size: nat) {
    && StillReady(m, updating, 0)
    && forall i :: 0 <= i < |updating| && updating[i].Some? ==> i < size
  }

  ghost predicate StillReady(m: map<string, Queue>, updating: seq<Option<Queue>>, start: nat) {
    && (forall i :: start <= i < |updating| && updating[i].Some? ==>
          updating[i].value.name in m && m[updating[i].value.name].rv == updating[i].value.rv)
    && (forall i, j :: start <= i < j < |updating| && updating[i].Some? && updating[j].Some? ==>
          updating[i].value.name != updating[j].value.name)
  }

  lemma ReadyAtFirst(m: map<string, Queue>, updating: seq<Option<Queue>>, size: nat)
    ensures Ready(m, updating, size) ==> StillReady(m, updating, 0)
  {
  }

  lemma ReadyNow(m0: map<string, Queue>, m: map<string, Queue>, updating: seq<Option<Queue>>, size: nat, i: nat, rv: nat)
    requires Ready(m0, updating, size) && StillReady(m, updating, i) && i < |updating| && updating[i].Some?
    ensures var u := updating[i].value;
            u.name in m && m[u.name].rv == u.rv && i < size && StillReady(m[u.name := Refresh(u, rv)], updating, i + 1)
  {
  }

  lemma ReadyLater(m: map<string, Queue>, updating: seq<Option<Queue>>, i: nat)
    ensures StillReady(m, updating, i) ==> StillReady(m, updating, i + 1)
  {
  }

  lemma NotYetDeleted(removing: seq<Queue>, i: nat)
    requires i < |removing|
    ensures UniqueNames(removing) ==> removing[i].name !in NamesOf(removing[..i])
  {
  }

  lemma RemovedReady(m: map<string, Queue>, list: seq<Queue>, name: string, comp: Component)
    requires IsListing(m, list)
    ensures var removing := RemovedSimilar(list, name, comp);
            UniqueNames(removing) && (forall q :: q in removing ==> q.name in m) && |removing| <= |list|
    ensures |KeptSimilar(list, name, comp)| <= |list|
  {
    ListingPlaces(m, list);
    RemovedUnique(list, name, comp);
    RemovedAre(list, name, comp);
    KeptOrRemoved(list, name, comp);
  }

  lemma UpdatesReady(m: map<string, Queue>, m1: map<string, Queue>, list: seq<Queue>, name: string, comp: Component)
    requires IsListing(m, list) && Deleted(m, m1, name, comp) && Fits(m, name, comp)
    ensures Ready(m1, UpdatedSimilar(list, name, comp), |KeptSimilar(list, name, comp)|)
  {
    ListingPlaces(m, list);
    UpdatesStillReady(m, m1, list, name, comp);
    UpdatesInRange(m, list, name, comp);
    hide StillReady;
  }

  lemma UpdatesStillReady(m: map<string, Queue>, m1: map<string, Queue>, list: seq<Queue>, name: string, comp: Component)
    requires IsListing(m, list) && UniqueNames(list) && Deleted(m, m1, name, comp)
    ensures StillReady(m1, UpdatedSimilar(list, name, comp), 0)
  {
    var updating := UpdatedSimilar(list, name, comp);
    forall i | 0 <= i < |list| && updating[i].Some?
      ensures var u := updating[i].value; u.name == list[i].name && u.name in m1 && m1[u.name].rv == u.rv
    {
      assert list[i] in list;
      UpdatedAt(list, i, name, comp);
    }
  }

  lemma UpdatesInRange(m: map<string, Queue>, list: seq<Queue>, name: string, comp: Component)
    requires IsListing(m, list) && UniqueNames(list) && Fits(m, name, comp)
    ensures forall i :: 0 <= i < |list| && UpdatedSimilar(list, name, comp)[i].Some? ==> i < |KeptSimilar(list, name, comp)|
  {
    if forall n :: n in m ==> !Removes(m[n], name, comp) {
      assert forall q :: q in list ==> !Removes(q, name, comp);
      KeptInPlace(list, name, comp);
    } else {
      forall i | 0 <= i < |list| ensures UpdatedSimilar(list, name, comp)[i].None? {
        assert list[i] in list;
        UpdatedAt(list, i, name, comp);
      }
    }
  }

  lemma BundlesReady(m: map<string, Queue>, start: nat, list: seq<Queue>, updating: seq<Option<Queue>>, bundle: string,
                     comp: Component)
    requires IsListing(m, list) && BundleEntries(m, start, list, bundle, comp, updating)
    ensures Ready(m, updating, |list|)
  {
    ListingPlaces(m, list);
    forall i | 0 <= i < |list| ensures list[i].name in m && m[list[i].name] == list[i] {
      assert list[i] in list;
    }
  }

  ghost predicate StoredAs(u: Queue, q: Queue, m': map<string, Queue>, start: nat) {
    q == Refresh(u, q.rv) && start <= q.rv && q.name in m' && m'[q.name] == q
  }

  lemma WroteBackLess(m: map<string, Queue>, m': map<string, Queue>, updating: seq<Option<Queue>>, i: nat)
    requires i <= |updating| && WroteBack(m, m', updating[..i])
    ensures WroteBack(m, m', updating)
  {
    forall n | n in m ensures m'[n] == m[n] || WrittenFrom(n, m[n], m'[n], updating) {
      if m'[n] != m[n] {
        var j :| 0 <= j < i && updating[..i][j].Some? && SavedAs(n, m[n], m'[n], updating[..i][j].value);
        assert updating[j] == updating[..i][j];
      }
    }
  }

  lemma WroteBackNext(m: map<string, Queue>, m1: map<string, Queue>, m2: map<string, Queue>, updating: seq<Option<Queue>>,
                      i: nat, start: nat, rv: nat)
    requires i < |updating| && WroteBack(m, m1, updating[..i]) && Rewritten(m, m1, start, rv)
    requires updating[i].Some? && updating[i].value.rv < start
    requires var u := updating[i].value;
             u.name in m1 && m1[u.name].rv == u.rv && m2 == m1[u.name := Refresh(u, rv)]
    ensures WroteBack(m, m2, updating[..i + 1])
  {
    var u, after := updating[i].value, updating[..i + 1];
    assert m1[u.name] == m[u.name];
    WroteBackMore(m, m1, updating, i);
    forall n | n in m ensures m2[n] == m[n] || WrittenFrom(n, m[n], m2[n], after) {
      if n == u.name {
        assert after[i] == updating[i] && SavedAs(n, m[n], m2[n], u);
      }
    }
  }

  lemma WroteBackMore(m: map<string, Queue>, m': map<string, Queue>, updating: seq<Option<Queue>>, i: nat)
    requires i < |updating| && WroteBack(m, m', updating[..i])
    ensures WroteBack(m, m', updating[..i + 1])
  {
    assert updating[..i + 1][..i] == updating[..i];
    WroteBackLess(m, m', updating[..i + 1], i);
  }

  lemma PutBackNext(items: seq<Queue>, items1: seq<Queue>, updating: seq<Option<Queue>>, i: nat, m1: map<string, Queue>,
                    m2: map<string, Queue>, start: nat, rv: nat)
    requires i < |updating| && i < |items| && PutBack(items, items1, updating[..i], m1, start) && start <= rv
    requires updating[i].Some? && updating[i].value.rv < start
    requires var u := updating[i].value;
             u.name in m1 && m1[u.name].rv == u.rv && m2 == m1[u.name := Refresh(u, rv)]
    ensures PutBack(items, items1[i := Refresh(updating[i].value, rv)], updating[..i + 1], m2, start)
  {
    var u, before, after := updating[i].value, updating[..i], updating[..i + 1];
    var items2 := items1[i := Refresh(u, rv)];
    forall j | 0 <= j < |after| && after[j].Some? ensures j < |items2| && StoredAs(after[j].value, items2[j], m2, start) {
      if j < i {
        assert before[j] == after[j] && StoredAs(before[j].value, items1[j], m1, start);
        assert items1[j].name != u.name;
      }
    }
    forall j | 0 <= j < |items| && (j < |after| ==> after[j].None?) ensures items2[j] == items[j] {
      assert j < |before| ==> before[j] == after[j];
    }
  }

  lemma NothingPutBack(m: map<string, Queue>, m': map<string, Queue>, items: seq<Queue>, items': seq<Queue>,
                       updating: seq<Option<Queue>>, i: nat, start: nat)
    requires i < |updating| && updating[i].None?
    requires WroteBack(m, m', updating[..i]) && PutBack(items, items', updating[..i], m', start)
    ensures WroteBack(m, m', updating[..i + 1]) && PutBack(items, items', updating[..i + 1], m', start)
  {
    var before, after := updating[..i], updating[..i + 1];
    WroteBackMore(m, m', updating, i);
    forall j | 0 <= j < |after| && after[j].Some? ensures j < |items'| && StoredAs(after[j].value, items'[j], m', start) {
      assert before[j] == after[j];
    }
    forall j | 0 <= j < |items| && (j < |after| ==> after[j].None?) ensures items'[j] == items[j] {
      assert j < |before| ==> before[j] == after[j];
    }
  }

  ghost function NamesOf(items: seq<Queue>): set<string> {
    set q | q in items :: q.name
  }

  // ----- What is dropped

  /** No queue is deleted, or none is rewritten: then the reused index is right in every order of the list. */
  ghost predicate Fits(m: map<string, Queue>, name: string, comp: Component) {
    (forall n :: n in m ==> !Removes(m[n], name, comp)) || (forall n :: n in m ==> !Updates(m[n], name, comp))
  }

  /** No queue holds `comp.name` any more, except one that already held exactly `comp` under `name`, and
      every other queue without components is gone. */
  ghost predicate Dropped(m: map<string, Queue>, m': map<string, Queue>, name: string, comp: Component) {
    && (forall n :: n in m' ==> n in m)
    && (forall n :: n in m ==>
          if Removes(m[n], name, comp) then n !in m'
          else n in m' && if Updates(m[n], name, comp) then m'[n] == Refresh(Shrunk(m[n], comp), m'[n].rv) else m'[n] == m[n])
  }

  /** Some of these writes have been made. */
  ghost predicate DroppedSome(m: map<string, Queue>, m': map<string, Queue>, name: string, comp: Component) {
    forall n :: n in m' ==>
      n in m && (m'[n] == m[n] || (Updates(m[n], name, comp) && m'[n] == Refresh(Shrunk(m[n], comp), m'[n].rv)))
  }

  /** What the rewriting asks to save, entry by entry. */
  lemma UpdatedAll(m: map<string, Queue>, list: seq<Queue>, name: string, comp: Component, start: nat)
    requires IsListing(m, list) && forall n :: n in m ==> m[n].rv < start
    ensures UniqueNames(list)
    ensures forall i :: 0 <= i < |list| ==>
              && list[i].name in m && m[list[i].name] == list[i]
              && UpdatedSimilar(list, name, comp)[i] ==
                   if Updates(list[i], name, comp) then Some(Shrunk(list[i], comp)) else None
    ensures forall i :: 0 <= i < |list| && UpdatedSimilar(list, name, comp)[i].Some? ==>
              UpdatedSimilar(list, name, comp)[i].value.rv < start
  {
    ListingPlaces(m, list);
    forall i | 0 <= i < |list|
      ensures list[i].name in m && m[list[i].name] == list[i]
      ensures UpdatedSimilar(list, name, comp)[i] ==
                if Updates(list[i], name, comp) then Some(Shrunk(list[i], comp)) else None
    {
      assert list[i] in list;
      UpdatedAt(list, i, name, comp);
    }
  }

  ghost predicate Deleted(m: map<string, Queue>, m1: map<string, Queue>, name: string, comp: Component) {
    && (forall n :: n in m1 ==> n in m && m1[n] == m[n])
    && (forall n :: n in m ==> (n in m1 <==> !Removes(m[n], name, comp)))
  }

  lemma RemovedFromMap(m: map<string, Queue>, list: seq<Queue>, name: string, comp: Component, m1: map<string, Queue>)
    requires IsListing(m, list) && m1 == m - NamesOf(RemovedSimilar(list, name, comp))
    ensures Deleted(m, m1, name, comp)
  {
    ListingPlaces(m, list);
    RemovedAre(list, name, comp);
    forall n | n in m ensures n in m1 <==> !Removes(m[n], name, comp) {
      assert m[n] in list && m[n].name == n;
    }
  }

  lemma SomeDeleted(m: map<string, Queue>, names: set<string>, name: string, comp: Component)
    ensures DroppedSome(m, m - names, name, comp)
  {
  }

  lemma DropDone(m: map<string, Queue>, m1: map<string, Queue>, m2: map<string, Queue>, list: seq<Queue>, name: string,
                 comp: Component)
    requires IsListing(m, list) && Deleted(m, m1, name, comp) && WroteBack(m1, m2, UpdatedSimilar(list, name, comp))
    ensures DroppedSome(m, m2, name, comp)
  {
    forall n | n in m2 && m2[n] != m[n] ensures Updates(m[n], name, comp) && m2[n] == Refresh(Shrunk(m[n], comp), m2[n].rv) {
      var i := WrittenEntry(m, m1, m2, list, name, comp, n);
    }
  }

  lemma WrittenEntry(m: map<string, Queue>, m1: map<string, Queue>, m2: map<string, Queue>, list: seq<Queue>, name: string,
                     comp: Component, n: string)
    returns (i: nat)
    requires IsListing(m, list) && n in m1 && n in m && m1[n] == m[n] && n in m2 && m2[n] != m1[n]
    requires WroteBack(m1, m2, UpdatedSimilar(list, name, comp))
    ensures i < |list| && list[i] == m[n] && Updates(m[n], name, comp) && m2[n] == Refresh(Shrunk(m[n], comp), m2[n].rv)
  {
    var updating := UpdatedSimilar(list, name, comp);
    assert WrittenFrom(n, m1[n], m2[n], updating);
    i :| 0 <= i < |updating| && updating[i].Some? && SavedAs(n, m1[n], m2[n], updating[i].value);
    ListingPlaces(m, list);
    UpdatedAt(list, i, name, comp);
    assert list[i] in list;
  }

  lemma DropComplete(m: map<string, Queue>, m1: map<string, Queue>, m2: map<string, Queue>, list: seq<Queue>, name: string,
                     comp: Component, items: seq<Queue>, start: nat)
    requires IsListing(m, list) && Deleted(m, m1, name, comp) && WroteBack(m1, m2, UpdatedSimilar(list, name, comp))
    requires PutBack(KeptSimilar(list, name, comp), items, UpdatedSimilar(list, name, comp), m2, start)
    ensures Dropped(m, m2, name, comp)
    ensures forall n :: n in m && Updates(m[n], name, comp) ==> n in m2 && start <= m2[n].rv
    ensures AnySame(list, name, comp) ==> items != []
    ensures |items| == |KeptSimilar(list, name, comp)|
  {
    forall n | n in m && !Removes(m[n], name, comp)
      ensures n in m2 && if Updates(m[n], name, comp) then m2[n] == Refresh(Shrunk(m[n], comp), m2[n].rv) && start <= m2[n].rv
                         else m2[n] == m[n]
    {
      if Updates(m[n], name, comp) {
        assert m[n] in list;
        var i :| 0 <= i < |list| && list[i] == m[n];
        ListingPlaces(m, list);
        UpdatedAt(list, i, name, comp);
        assert StoredAs(Shrunk(m[n], comp), items[i], m2, start);
      } else if m2[n] != m1[n] {
        var i := WrittenEntry(m, m1, m2, list, name, comp, n);
      }
    }
    if AnySame(list, name, comp) {
      var q :| q in list && q.ContainSameComponent(name, comp);
      ListingPlaces(m, list);
      KeptAre(list, name, comp);
      assert KeptAs(q, name, comp) in KeptSimilar(list, name, comp);
    }
  }

  lemma DropUpToDate(m: map<string, Queue>, m1: map<string, Queue>, m2: map<string, Queue>, list: seq<Queue>, name: string,
                     comp: Component, items: seq<Queue>, start: nat, next: nat)
    requires IsListing(m, list) && Deleted(m, m1, name, comp) && Rewritten(m1, m2, start, next)
    requires PutBack(KeptSimilar(list, name, comp), items, UpdatedSimilar(list, name, comp), m2, start)
    requires forall n :: n in m && Updates(m[n], name, comp) ==> n in m2 && start <= m2[n].rv
    requires (forall n :: n in m ==> m[n].rv < start) && forall n :: n in m2 ==> m2[n].rv < next
    ensures AllUpToDate(m2, next, items)
  {
    var kept, updating := KeptSimilar(list, name, comp), UpdatedSimilar(list, name, comp);
    forall q | q in items ensures UpToDate(m2, next, q) {
      var i :| 0 <= i < |items| && items[i] == q;
      if i < |updating| && updating[i].Some? {
        assert StoredAs(updating[i].value, q, m2, start);
      } else {
        assert q in kept;
        KeptIsUpToDate(m, m1, m2, list, name, comp, start, next, q);
      }
    }
  }

  lemma KeptIsUpToDate(m: map<string, Queue>, m1: map<string, Queue>, m2: map<string, Queue>, list: seq<Queue>, name: string,
                       comp: Component, start: nat, next: nat, q: Queue)
    requires IsListing(m, list) && Deleted(m, m1, name, comp) && Rewritten(m1, m2, start, next)
    requires forall n :: n in m && Updates(m[n], name, comp) ==> n in m2 && start <= m2[n].rv
    requires (forall n :: n in m ==> m[n].rv < start) && q in KeptSimilar(list, name, comp)
    ensures UpToDate(m2, next, q)
  {
    ListingPlaces(m, list);
    KeptAre(list, name, comp);
    var p :| p in list && !Removes(p, name, comp) && q == KeptAs(p, name, comp);
    assert m[p.name] == p;
  }

  lemma DropListed(m: map<string, Queue>, m1: map<string, Queue>, m2: map<string, Queue>, list: seq<Queue>, name: string,
                   comp: Component, items: seq<Queue>, start: nat)
    requires IsListing(m, list) && Fits(m, name, comp) && Dropped(m, m2, name, comp)
    requires Deleted(m, m1, name, comp) && WroteBack(m1, m2, UpdatedSimilar(list, name, comp))
    requires PutBack(KeptSimilar(list, name, comp), items, UpdatedSimilar(list, name, comp), m2, start)
    ensures IsListing(m2, items)
  {
    ListingPlaces(m, list);
    forall q | q in list ensures m[q.name] == q {
    }
    if forall n :: n in m ==> !Removes(m[n], name, comp) {
      DropListedInPlace(m, m2, list, name, comp, items, start);
    } else {
      DropListedFewer(m, m2, list, name, comp, items, start);
    }
  }

  /** Nothing was deleted. */
  lemma DropListedInPlace(m: map<string, Queue>, m2: map<string, Queue>, list: seq<Queue>, name: string, comp: Component,
                          items: seq<Queue>, start: nat)
    requires IsListing(m, list) && Dropped(m, m2, name, comp) && forall n :: n in m ==> !Removes(m[n], name, comp)
    requires PutBack(KeptSimilar(list, name, comp), items, UpdatedSimilar(list, name, comp), m2, start)
    ensures IsListing(m2, items)
  {
    ListingPlaces(m, list);
    KeptInPlace(list, name, comp);
    forall i | 0 <= i < |list| ensures list[i].name in m2 && items[i] == m2[list[i].name] && items[i].name == list[i].name {
      assert list[i] in list;
      UpdatedAt(list, i, name, comp);
      if Updates(list[i], name, comp) {
        assert StoredAs(Shrunk(list[i], comp), items[i], m2, start);
      }
    }
    ListedInPlace(m, m2, list, items);
  }

  lemma ListedInPlace(m: map<string, Queue>, m2: map<string, Queue>, list: seq<Queue>, items: seq<Queue>)
    requires IsListing(m, list) && m2.Keys <= m.Keys && |items| == |list|
    requires forall i :: 0 <= i < |list| ==> list[i].name in m2 && items[i] == m2[list[i].name] && items[i].name == list[i].name
    ensures IsListing(m2, items)
  {
    ListingPlaces(m, list);
    forall n | n in m2 ensures m2[n].name == n && m2[n] in items {
      assert m[n] in list;
      var i :| 0 <= i < |list| && list[i] == m[n];
      assert items[i] in items;
    }
    assert forall i, j :: 0 <= i < j < |items| ==> items[i] != items[j];
    forall q ensures multiset(items)[q] <= 1 {
      OnceEach(items, q);
    }
  }

  lemma {:induction false} OnceEach(items: seq<Queue>, q: Queue)
    requires forall i, j :: 0 <= i < j < |items| ==> items[i] != items[j]
    ensures multiset(items)[q] <= 1
  {
    if items != [] {
      var k := |items| - 1;
      OnceEach(items[..k], q);
      assert items == items[..k] + [items[k]];
      assert forall i :: 0 <= i < k ==> items[..k][i] == items[i] != items[k];
    }
  }

  /** Nothing was rewritten. */
  lemma DropListedFewer(m: map<string, Queue>, m2: map<string, Queue>, list: seq<Queue>, name: string, comp: Component,
                        items: seq<Queue>, start: nat)
    requires IsListing(m, list) && Dropped(m, m2, name, comp) && forall n :: n in m ==> !Updates(m[n], name, comp)
    requires PutBack(KeptSimilar(list, name, comp), items, UpdatedSimilar(list, name, comp), m2, start)
    ensures IsListing(m2, items)
  {
    var kept, updating := KeptSimilar(list, name, comp), UpdatedSimilar(list, name, comp);
    ListingPlaces(m, list);
    forall i | 0 <= i < |list| ensures updating[i].None? {
      assert list[i] in list;
      UpdatedAt(list, i, name, comp);
    }
    assert items == kept;
    KeptOnce(list, name, comp);
    KeptAre(list, name, comp);
    forall n | n in m2 ensures m2[n].name == n && m2[n] in items {
      assert m[n] in list && KeptAs(m[n], name, comp) in kept;
    }
  }

  /** With every component in one queue and no queue empty the index is right. */
  lemma ListFits(m: map<string, Queue>, name: string, comp: Component)
    requires ListInv(m)
    ensures Fits(m, name, comp)
  {
    if n :| n in m && Removes(m[n], name, comp) {
      WithoutFacts(m[n].components, comp.name);
      assert m[n].components[0] in m[n].components;
      forall o | o in m && o != n ensures !Holds(m[o], comp.name) {
      }
    }
  }

  // ----- What joins

  ghost predicate JoinedQueue(q: Queue, q': Queue, bundle: string, comp: Component) {
    bundle != "" && q.bundle == bundle && q' == Refresh(Merged(q, comp), q'.rv)
  }

  /** Queues of the bundle may have got the component. */
  ghost predicate JoinedSome(m: map<string, Queue>, m': map<string, Queue>, bundle: string, comp: Component) {
    m'.Keys == m.Keys && forall n :: n in m ==> m'[n] == m[n] || JoinedQueue(m[n], m'[n], bundle, comp)
  }

  /** What addExistingBundleQueue asks to save, entry by entry. */
  lemma BundledAll(m: map<string, Queue>, start: nat, list: seq<Queue>, name: string, bundle: string, comp: Component,
                   updating: seq<Option<Queue>>)
    requires AllUpToDate(m, start, list)
    requires updating == if bundle == "" then [] else UpdatedBundles(list, name, bundle, comp)
    ensures |updating| <= |list|
    ensures forall i :: 0 <= i < |updating| && updating[i].Some? ==>
              && bundle != "" && list[i].bundle == bundle && updating[i].value == Merged(list[i], comp)
              && UpToDate(m, start, list[i]) && updating[i].value.rv < start
  {
    forall i | 0 <= i < |updating| && updating[i].Some?
      ensures list[i].bundle == bundle && updating[i].value == Merged(list[i], comp) && UpToDate(m, start, list[i])
    {
      BundleAt(list, i, name, bundle, comp);
      assert list[i] in list;
    }
  }

  ghost predicate BundleEntries(m: map<string, Queue>, start: nat, list: seq<Queue>, bundle: string, comp: Component,
                                updating: seq<Option<Queue>>) {
    && |updating| <= |list|
    && forall i :: 0 <= i < |updating| && updating[i].Some? ==>
         && bundle != "" && list[i].bundle == bundle && updating[i].value == Merged(list[i], comp)
         && UpToDate(m, start, list[i])
  }

  lemma JoinDone(m: map<string, Queue>, m': map<string, Queue>, start: nat, list: seq<Queue>, bundle: string, comp: Component,
                 updating: seq<Option<Queue>>)
    requires BundleEntries(m, start, list, bundle, comp, updating) && WroteBack(m, m', updating)
    requires forall n :: n in m ==> m[n].name == n
    ensures JoinedSome(m, m', bundle, comp)
    ensures (forall i :: 0 <= i < |updating| ==> updating[i].None?) ==> m' == m
  {
    forall n | n in m && m'[n] != m[n] ensures JoinedQueue(m[n], m'[n], bundle, comp) {
      var i :| 0 <= i < |updating| && updating[i].Some? && SavedAs(n, m[n], m'[n], updating[i].value);
      assert UpToDate(m, start, list[i]);
    }
  }

  lemma JoinUpToDate(m: map<string, Queue>, m': map<string, Queue>, start: nat, next: nat, list: seq<Queue>,
                     overlaid: seq<Queue>, updating: seq<Option<Queue>>, items: seq<Queue>, joined: bool, bundle: string,
                     comp: Component)
    requires BundleEntries(m, start, list, bundle, comp, updating) && WroteBack(m, m', updating)
    requires AllUpToDate(m, start, list) && Rewritten(m, m', start, next) && forall n :: n in m' ==> m'[n].rv < next
    requires if bundle == "" then overlaid == list && updating == []
             else |updating| == |list| && overlaid == Overlay(list, updating)
    requires PutBack(overlaid, items, updating, m', start)
    requires forall n :: n in m ==> m[n].name == n && m[n].rv < start
    requires joined <==> exists i :: 0 <= i < |updating| && updating[i].Some?
    ensures |items| == |list| && AllUpToDate(m', next, items)
    ensures joined ==> exists n :: n in m && JoinedQueue(m[n], m'[n], bundle, comp)
  {
    forall q | q in items ensures UpToDate(m', next, q) {
      var i :| 0 <= i < |items| && items[i] == q;
      if i < |updating| && updating[i].Some? {
        assert StoredAs(updating[i].value, q, m', start);
      } else {
        assert q == list[i] && list[i] in list;
        StaysUpToDate(m, m', start, next, q);
      }
    }
    if joined {
      var i :| 0 <= i < |updating| && updating[i].Some?;
      assert StoredAs(updating[i].value, items[i], m', start);
      var n := items[i].name;
      assert m'[n] != m[n];
      JoinDone(m, m', start, list, bundle, comp, updating);
    }
  }

  lemma JoinsIff(m: map<string, Queue>, list: seq<Queue>, updating: seq<Option<Queue>>, joined: bool, queue: Queue,
                 comp: Component, bundles: set<string>)
    requires IsListing(m, list) && WellNamed(m, bundles) && NamedByScheme(queue, bundles)
    requires updating == if queue.bundle == "" then [] else UpdatedBundles(list, queue.name, queue.bundle, comp)
    requires joined <==> exists i :: 0 <= i < |updating| && updating[i].Some?
    ensures joined <==> Joins(m, queue, comp)
  {
    var h := BundlePlace(m, list, queue, comp, bundles);
  }

  lemma JoinListed(m: map<string, Queue>, m': map<string, Queue>, start: nat, list: seq<Queue>, overlaid: seq<Queue>,
                   updating: seq<Option<Queue>>, items: seq<Queue>, queue: Queue, comp: Component, bundles: set<string>)
    requires IsListing(m, list) && WellNamed(m, bundles) && NamedByScheme(queue, bundles)
    requires WroteBack(m, m', updating) && PutBack(overlaid, items, updating, m', start)
    requires if queue.bundle == "" then overlaid == list && updating == []
             else updating == UpdatedBundles(list, queue.name, queue.bundle, comp) && overlaid == Overlay(list, updating)
    ensures IsListing(m', items)
  {
    hide NamedByScheme, WellNamed, WroteBack, PutBack, IsListing, UpdatedBundles;
    var h := BundlePlace(m, list, queue, comp, bundles);
    JoinListedAt(m, m', start, list, overlaid, updating, items, h, comp);
  }

  lemma JoinListedAt(m: map<string, Queue>, m': map<string, Queue>, start: nat, list: seq<Queue>, overlaid: seq<Queue>,
                     updating: seq<Option<Queue>>, items: seq<Queue>, h: int, comp: Component)
    requires IsListing(m, list) && WroteBack(m, m', updating) && PutBack(overlaid, items, updating, m', start)
    requires if |updating| == |list| then overlaid == Overlay(list, updating) else overlaid == list && updating == []
    requires -1 <= h < |list| && (h >= 0 ==> |updating| == |list|)
    requires forall i :: 0 <= i < |updating| ==> (updating[i].Some? <==> i == h)
    requires h >= 0 ==> updating[h].value == Merged(list[h], comp)
    ensures IsListing(m', items)
  {
    assert m'.Keys == m.Keys && |items| == |list|;
    hide WroteBack, PutBack, Merged;
    ListingPlaces(m, list);
    forall i | 0 <= i < |list|
      ensures i < |items| && list[i].name in m' && items[i] == m'[list[i].name] && items[i].name == list[i].name
    {
      JoinedAt(m, m', start, list, overlaid, updating, items, h, i, comp);
    }
    ListedInPlace(m, m', list, items);
  }

  lemma JoinedAt(m: map<string, Queue>, m': map<string, Queue>, start: nat, list: seq<Queue>, overlaid: seq<Queue>,
                 updating: seq<Option<Queue>>, items: seq<Queue>, h: int, i: nat, comp: Component)
    requires IsListing(m, list) && UniqueNames(list) && i < |list|
    requires WroteBack(m, m', updating) && PutBack(overlaid, items, updating, m', start)
    requires if |updating| == |list| then overlaid == Overlay(list, updating) else overlaid == list && updating == []
    requires forall i :: 0 <= i < |updating| ==> (updating[i].Some? <==> i == h)
    requires 0 <= h < |updating| ==> updating[h].value == Merged(list[h], comp)
    ensures i < |items| && list[i].name in m' && items[i] == m'[list[i].name] && items[i].name == list[i].name
  {
    assert list[i] in list;
    if i < |updating| && i == h {
      assert StoredAs(updating[i].value, items[i], m', start);
    } else {
      JoinWritesOnly(m, m', list, updating, h, list[i].name);
    }
  }

  lemma JoinWritesOnly(m: map<string, Queue>, m': map<string, Queue>, list: seq<Queue>, updating: seq<Option<Queue>>, h: int,
                       n: string)
    requires WroteBack(m, m', updating) && n in m && IsListing(m, list) && |updating| <= |list|
    requires forall i :: 0 <= i < |updating| ==> (updating[i].Some? <==> i == h)
    requires 0 <= h < |updating| ==> updating[h].value.name == list[h].name && n != list[h].name
    ensures m'[n] == m[n]
  {
  }

  lemma HeldOnlyIn(m: map<string, Queue>, list: seq<Queue>, k: nat, compName: string)
    requires IsListing(m, list) && OneQueueEach(m) && k < |list| && Holds(list[k], compName)
    ensures forall n :: n in m ==> (Holds(m[n], compName) <==> n == list[k].name)
  {
    assert list[k] in list;
  }
}
