/** The index reused by add: entry i of the list to update is put back at place i of the list that was
    kept (internal/queue/controller.go). */
module QueueIndex {
  import opened QueueTypes
  import opened QueueList
  import opened QueueRewriting
  import opened QueueController

  /** Every rewritten entry finds itself in the kept list at its own index. */
  ghost predicate IndexesFit(items: seq<Queue>, name: string, comp: Component) {
    var kept, updated := KeptSimilar(items, name, comp), UpdatedSimilar(items, name, comp);
    forall i :: 0 <= i < |items| && updated[i].Some? ==> i < |kept| && kept[i] == updated[i].value
  }

  /** No queue to delete stands before a queue to update. */
  ghost predicate NoneRemovedBefore(items: seq<Queue>, name: string, comp: Component) {
    forall i :: 0 <= i < |items| && UpdatedSimilar(items, name, comp)[i].Some? ==> RemovedSimilar(items[..i], name, comp) == []
  }

  lemma {:induction false} KeptFromItems(items: seq<Queue>, name: string, comp: Component, q: Queue)
    requires q in KeptSimilar(items, name, comp)
    ensures exists i :: 0 <= i < |items| && items[i].name == q.name
  {
    var before, last := items[..|items| - 1], items[|items| - 1];
    if q in KeptSimilar(before, name, comp) {
      KeptFromItems(before, name, comp, q);
      var i :| 0 <= i < |before| && before[i].name == q.name;
      assert items[i].name == q.name;
    } else {
      assert items[|items| - 1].name == q.name;
    }
  }

  lemma {:induction false} KeptUnique(items: seq<Queue>, name: string, comp: Component)
    requires UniqueNames(items)
    ensures UniqueNames(KeptSimilar(items, name, comp))
  {
    if items != [] {
      var before, last := items[..|items| - 1], items[|items| - 1];
      KeptUnique(before, name, comp);
      var kept := KeptSimilar(before, name, comp);
      forall i | 0 <= i < |kept| ensures kept[i].name != last.name {
        KeptFromItems(before, name, comp, kept[i]);
        var j :| 0 <= j < |before| && before[j].name == kept[i].name;
        assert items[j].name == kept[i].name;
      }
    }
  }

  /** A rewritten entry stands in the kept list behind what was kept of the entries before it. */
  lemma {:induction false} UpdatedPlace(items: seq<Queue>, name: string, comp: Component, i: nat)
    requires i < |items| && UpdatedSimilar(items, name, comp)[i].Some?
    ensures var kept, place := KeptSimilar(items, name, comp), |KeptSimilar(items[..i], name, comp)|;
            place < |kept| && kept[place] == UpdatedSimilar(items, name, comp)[i].value
  {
    var before := items[..|items| - 1];
    if i < |items| - 1 {
      assert before[..i] == items[..i];
      assert UpdatedSimilar(items, name, comp)[i] == UpdatedSimilar(before, name, comp)[i];
      UpdatedPlace(before, name, comp, i);
    } else {
      assert items[..i] == before;
    }
  }

  /** The reused index is in range and names the right entry if and only if no queue to delete stands
      before a queue to update. */
  lemma IndexesFitIff(items: seq<Queue>, name: string, comp: Component)
    requires UniqueNames(items)
    ensures IndexesFit(items, name, comp) <==> NoneRemovedBefore(items, name, comp)
  {
    var kept, updated := KeptSimilar(items, name, comp), UpdatedSimilar(items, name, comp);
    KeptUnique(items, name, comp);
    forall i | 0 <= i < |items| && updated[i].Some?
      ensures i < |kept| && kept[i] == updated[i].value <==> RemovedSimilar(items[..i], name, comp) == []
    {
      UpdatedPlace(items, name, comp, i);
      KeptOrRemoved(items[..i], name, comp);
    }
  }

  lemma FitsIndexes(m: map<string, Queue>, list: seq<Queue>, name: string, comp: Component)
    requires IsListing(m, list) && Fits(m, name, comp)
    ensures IndexesFit(list, name, comp)
  {
    ListingPlaces(m, list);
    IndexesFitIff(list, name, comp);
    forall i | 0 <= i < |list| && UpdatedSimilar(list, name, comp)[i].Some? ensures RemovedSimilar(list[..i], name, comp) == [] {
      UpdatedAt(list, i, name, comp);
      assert list[i] in list && Updates(m[list[i].name], name, comp);
      forall q | q in list[..i] ensures !Removes(q, name, comp) {
        assert q in list && m[q.name] == q;
      }
      NothingRemoved(list[..i], name, comp);
    }
  }

  lemma {:induction false} NothingRemoved(items: seq<Queue>, name: string, comp: Component)
    requires UniqueNames(items) && forall q :: q in items ==> !Removes(q, name, comp)
    ensures RemovedSimilar(items, name, comp) == []
  {
    if items != [] {
      SimilarLast(items, name, comp);
      assert items == items[..|items| - 1] + [items[|items| - 1]];
      NothingRemoved(items[..|items| - 1], name, comp);
    }
  }

  /** The queue n to the front of the list. */
  lemma FrontListing(m: map<string, Queue>, list: seq<Queue>, n: string) returns (l: seq<Queue>)
    requires IsListing(m, list) && n in m
    ensures IsListing(m, l) && l != [] && l[0] == m[n]
  {
    assert m[n] in list;
    var i :| 0 <= i < |list| && list[i] == m[n];
    l := [m[n]] + (list[..i] + list[i + 1..]);
    assert list == list[..i] + [list[i]] + list[i + 1..];
    assert multiset(l) == multiset(list);
    ListingPermuted(m, list, l);
  }

  /** The reused index is right in every order of the list if and only if no queue is deleted or none is
      rewritten. */
  lemma FitsIff(m: map<string, Queue>, list: seq<Queue>, name: string, comp: Component)
    requires IsListing(m, list)
    ensures Fits(m, name, comp) <==> forall l :: IsListing(m, l) ==> IndexesFit(l, name, comp)
  {
    if Fits(m, name, comp) {
      forall l | IsListing(m, l) ensures IndexesFit(l, name, comp) {
        FitsIndexes(m, l, name, comp);
      }
    } else {
      var r :| r in m && Removes(m[r], name, comp);
      var u :| u in m && Updates(m[u], name, comp);
      var l := FrontListing(m, list, r);
      RemovedInFront(m, l, name, comp, u);
    }
  }

  lemma RemovedInFront(m: map<string, Queue>, l: seq<Queue>, name: string, comp: Component, u: string)
    requires IsListing(m, l) && l != [] && Removes(l[0], name, comp) && u in m && Updates(m[u], name, comp)
    ensures !IndexesFit(l, name, comp)
  {
    assert m[u] in l;
    var i :| 0 <= i < |l| && l[i] == m[u];
    ListingPlaces(m, l);
    UpdatedAt(l, i, name, comp);
    RemovedAre(l[..i], name, comp);
    assert l[..i][0] == l[0] && l[0] in RemovedSimilar(l[..i], name, comp);
    IndexesFitIff(l, name, comp);
  }

  /** With every component in one queue and no queue empty, that is always so. */
  lemma IndexesFitUnderInvariant(m: map<string, Queue>, list: seq<Queue>, name: string, comp: Component)
    requires IsListing(m, list) && ListInv(m)
    ensures IndexesFit(list, name, comp)
  {
    ListFits(m, name, comp);
    FitsIndexes(m, list, name, comp);
  }

  /** Two queues holding the component are enough to break it: the first is deleted, and the second is put
      back behind the end of the kept list. */
  lemma TwoHoldersBreakIt(a: Queue, b: Queue, name: string, comp: Component)
    requires a.name != b.name && !a.ContainSameComponent(name, comp) && !b.ContainSameComponent(name, comp)
    requires Shrunk(a, comp).components == []
    requires Holds(b, comp.name) && Shrunk(b, comp).components != []
    ensures UpdatedSimilar([a, b], name, comp)[1].Some? && |KeptSimilar([a, b], name, comp)| == 1
    ensures !IndexesFit([a, b], name, comp)
  {
    ShrunkSame(b, comp);
    var items := [a, b];
    assert items[..1] == [a] && [a][..0] == [];
    assert RemovedSimilar([a], name, comp) == [a];
    KeptOrRemoved([a], name, comp);
  }
}
