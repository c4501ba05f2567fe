/** Whole runs of a staging namespace: process calls, restarts, user deletions, configuration
    changes and concurrent Adds in any order. */
module StagingRuns {
  import opened QueueTypes
  import opened QueueList
  import opened QueueOrdering
  import opened QueueRewriting
  import opened QueueController
  import opened Staging
  import QueueCleanup

  // ----- One running queue at a time

  /** The queue that is held, or that is not Waiting. */
  ghost predicate Special(w: World, x: string) {
    (x in w.queues && w.queues[x].state != Waiting) || (w.current.Some? && w.current.value.name == x)
  }

  /** What Add does, complete or not, to whatever list: the queues it leaves are Waiting or untouched, and no
      other queue appears. If every component is in one queue, that stays so. */
  ghost predicate AddedBy(now: int, m: map<string, Queue>, m': map<string, Queue>, queue: Queue, prios: seq<string>,
                          bundles: set<string>, complete: bool) {
    && queue.components != []
    && AddStep(m, m', queue)
    && (Scheme(m, queue, bundles) ==>
          && OneQueueEach(m') && WellNamed(m', bundles) && (NoneEmpty(m) ==> NoneEmpty(m'))
          && (complete ==> CompletelyAdded(now, m, m', queue, prios)))
  }

  /** All writes succeeded: the component moved and, with the reused index right, whoever was apart and is not
      renewed stays apart, and in a settled list the incoming queue is apart too. */
  ghost predicate CompletelyAdded(now: int, m: map<string, Queue>, m': map<string, Queue>, queue: Queue, prios: seq<string>)
    requires queue.components != []
  {
    || m' == m
    || (&& Moved(m, m', queue.name, queue.components[0])
        && (Fits(m, queue.name, queue.components[0]) ==>
              && (forall x :: Apart(now, m, x) && x in m' && !Renews(m, queue, prios, x) ==> Apart(now, m', x))
              && (Settled(now, m, queue, prios) && (queue.name in m ==> Renews(m, queue, prios, queue.name)) ==>
                    Apart(now, m', queue.name))))
  }

  datatype Event =
    | Pick(complete: bool)
    | Handle(env: Env)
    | Restart
    | Adding(queue: Queue, prios: seq<string>, bundles: set<string>, complete: bool)
    | Removing
    | UserDelete(name: string)
    | Tick(later: int)

  ghost predicate Next(now: int, w: World, e: Event, now': int, w': World) {
    match e
    case Pick(complete) => now' == now && PickStep(now, w, w', complete)
    case Handle(env) => now' == now == env.now && HandleStep(w, w', env)
    case Restart => now' == now && w' == w.(current := None)
    case Adding(queue, prios, bundles, complete) =>
      && now' == now && w'.stable == w.stable && w'.current == w.current
      && AddedBy(now, w.queues, w'.queues, queue, prios, bundles, complete)
    case Removing =>
      now' == now && w'.stable == w.stable && w'.current == w.current && QueueCleanup.Thinned(w.queues, w'.queues)
    case UserDelete(name) => now' == now && w' == w.(queues := w.queues - {name})
    case Tick(later) => now <= later == now' && w' == w
  }

  /** No order number was given or changed. */
  ghost predicate NumbersKept(m: map<string, Queue>, m': map<string, Queue>) {
    forall n :: n in m' ==>
      && n in m && m'[n].noOfOrder == m[n].noOfOrder
      && (m'[n].nextProcessAt == m[n].nextProcessAt || m'[n].nextProcessAt.None?)
  }

  /** The held queue is the incoming one, and it is created anew or moved by its rank. */
  ghost predicate RenewsHeld(w: World, queue: Queue, prios: seq<string>)
    requires queue.components != []
  {
    && w.current.Some? && w.current.value.name == queue.name
    && (queue.name in w.queues ==> Renews(w.queues, queue, prios, queue.name))
  }

  /** No renumbering is interrupted, no Add that changes numbers finds the reused index wrong, and none renews
      the held queue but in a settled list. */
  ghost predicate Orderly(now: int, w: World, e: Event, w': World) {
    match e
    case Pick(complete) => complete || NumbersKept(w.queues, w'.queues)
    case Adding(queue, prios, bundles, complete) =>
      || NumbersKept(w.queues, w'.queues)
      || (complete && queue.components != [] && Fits(w.queues, queue.name, queue.components[0])
          && (RenewsHeld(w, queue, prios) ==> Settled(now, w.queues, queue, prios)))
    case _ => true
  }

  ghost predicate NamesOk(w: World) {
    forall x :: x in w.queues ==> w.queues[x].name == x
  }

  /** At most one queue is special, and it is apart from all others. */
  ghost predicate OneSpecial(now: int, w: World) {
    && NamesOk(w)
    && (forall x, y :: Special(w, x) && Special(w, y) ==> x == y)
    && (forall x :: Special(w, x) && x in w.queues ==> Apart(now, w.queues, x))
  }

  lemma OneSpecialKept(now: int, w: World, e: Event, now': int, w': World)
    requires OneSpecial(now, w) && Next(now, w, e, now', w') && Orderly(now, w, e, w')
    requires e.Adding? ==> Scheme(w.queues, e.queue, e.bundles)
    ensures OneSpecial(now', w')
  {
    match e
    case Pick(complete) => PickKeeps(now, w, w', complete);
    case Handle(env) => HandleKeeps(now, w, w', env);
    case Restart =>
      assert forall x :: Special(w', x) ==> Special(w, x);
    case Adding(queue, prios, bundles, complete) => AddingKeeps(now, w, e, w');
    case Removing => RemovingKeeps(now, w, w');
    case UserDelete(name) => FewerKeeps(now, w, w');
    case Tick(later) =>
  }

  lemma FrontIsApart(now: int, m: map<string, Queue>, x: string)
    requires AtFront(m, x) && !Postponed(now, m[x])
    ensures Apart(now, m, x)
  {
  }

  lemma PickKeeps(now: int, w: World, w': World, complete: bool)
    requires OneSpecial(now, w) && PickEffect(now, w, w', complete) && (complete || NumbersKept(w.queues, w'.queues))
    ensures OneSpecial(now, w')
  {
    if !complete && w.current.None? {
      forall x | x in w.queues ensures SameButOrder(w.queues[x], w'.queues[x]) {
      }
      FewerKeeps(now, w, w');
    } else if w.current.None? {
      forall x | x in w.queues && w'.queues[x].state != Waiting ensures Special(w, x) {
        assert SameButOrder(w.queues[x], w'.queues[x]);
      }
      if x :| Special(w, x) {
        assert forall n :: n in w.queues && n != x ==> !Special(w, n);
        assert SoleRunner(w.queues, x);
        ApartHasOwnKey(now, w.queues, x);
        assert SameButOrder(w.queues[x], w'.queues[x]);
        FrontIsApart(now, w'.queues, x);
      } else if w'.current.Some? {
        FrontIsApart(now, w'.queues, w'.current.value.name);
      }
    }
  }

  lemma HandleKeeps(now: int, w: World, w': World, env: Env)
    requires OneSpecial(now, w) && HandleStep(w, w', env)
    ensures OneSpecial(now, w')
  {
    var n := w.current.value.name;
    assert Special(w, n);
    forall x | Special(w', x) ensures x == n && (n in w'.queues ==> Apart(now, w'.queues, n)) {
      if x != n {
        assert Special(w, x);
      }
      if n in w'.queues {
        assert w'.queues[n] == w.queues[n] || Edge(w.queues[n], w'.queues[n]);
        ApartShrinks(now, w.queues, w'.queues, n);
      }
    }
  }

  lemma AddingKeeps(now: int, w: World, e: Event, w': World)
    requires OneSpecial(now, w) && e.Adding? && Next(now, w, e, now, w') && Orderly(now, w, e, w')
    requires Scheme(w.queues, e.queue, e.bundles)
    ensures OneSpecial(now, w')
  {
    forall x | Special(w', x) ensures Special(w, x) && (x in w'.queues ==> Apart(now, w'.queues, x)) {
      if x in w'.queues && w'.queues[x].state != Waiting {
        assert x in w.queues && Untouched(w.queues[x], w'.queues[x]);
      }
      if x in w'.queues {
        if NumbersKept(w.queues, w'.queues) {
          ApartShrinks(now, w.queues, w'.queues, x);
        } else {
          AddedIsApart(now, w, w', e.queue, e.prios, x);
        }
      }
    }
  }

  lemma AddedIsApart(now: int, w: World, w': World, queue: Queue, prios: seq<string>, x: string)
    requires OneSpecial(now, w) && Special(w, x) && Special(w', x) && x in w'.queues && w'.current == w.current
    requires queue.components != [] && AddStep(w.queues, w'.queues, queue) && CompletelyAdded(now, w.queues, w'.queues, queue, prios)
    requires forall n :: n in w'.queues ==> n in w.queues || n == queue.name
    requires RenewsHeld(w, queue, prios) ==> Settled(now, w.queues, queue, prios)
    requires Fits(w.queues, queue.name, queue.components[0])
    ensures Apart(now, w'.queues, x)
  {
    if w'.queues != w.queues && (x in w.queues ==> Renews(w.queues, queue, prios, x)) {
      RenewedWaits(w.queues, w'.queues, queue, prios);
    }
  }

  /** A renewed queue is Waiting afterwards. */
  lemma RenewedWaits(m: map<string, Queue>, m': map<string, Queue>, queue: Queue, prios: seq<string>)
    requires queue.components != [] && AddStep(m, m', queue) && Moved(m, m', queue.name, queue.components[0])
    requires queue.name in m ==> Renews(m, queue, prios, queue.name)
    ensures queue.name in m' && m'[queue.name].state == Waiting
  {
    var n, c := queue.name, queue.components[0];
    assert (n, c) in Entries(m');
    if n in m && Untouched(m[n], m'[n]) {
      SamePermutationMembers(m[n].components, m'[n].components);
    }
  }

  lemma RemovingKeeps(now: int, w: World, w': World)
    requires OneSpecial(now, w) && w'.current == w.current && QueueCleanup.Thinned(w.queues, w'.queues)
    ensures OneSpecial(now, w')
  {
    forall x | x in w'.queues
      ensures x in w.queues && (w'.queues[x] == w.queues[x] || QueueCleanup.ThinnedQueue(w.queues[x], w'.queues[x]))
    {
    }
    FewerKeeps(now, w, w');
  }

  lemma FewerKeeps(now: int, w: World, w': World)
    requires OneSpecial(now, w) && w'.current == w.current
    requires forall x :: x in w'.queues ==>
               && x in w.queues && w'.queues[x].name == x && w'.queues[x].state == w.queues[x].state
               && w'.queues[x].noOfOrder == w.queues[x].noOfOrder
               && (w'.queues[x].nextProcessAt == w.queues[x].nextProcessAt || w'.queues[x].nextProcessAt.None?)
    ensures OneSpecial(now, w')
  {
    forall x | Special(w', x) ensures Special(w, x) && (x in w'.queues ==> Apart(now, w'.queues, x)) {
      if x in w'.queues {
        ApartShrinks(now, w.queues, w'.queues, x);
      }
    }
  }

  /** A run: worlds with their clocks, and the events between them. */
  ghost predicate Run(ws: seq<World>, ts: seq<int>, es: seq<Event>) {
    && |ws| == |ts| == |es| + 1
    && forall i {:trigger es[i]} :: 0 <= i < |es| ==> Next(ts[i], ws[i], es[i], ts[i + 1], ws[i + 1])
  }

  ghost predicate OrderlyRun(ws: seq<World>, ts: seq<int>, es: seq<Event>) {
    && |ws| == |ts| == |es| + 1
    && forall i {:trigger es[i]} :: 0 <= i < |es| ==> Orderly(ts[i], ws[i], es[i], ws[i + 1])
  }

  /** Every component is in one queue and queues are named by the scheme whenever something is added. */
  ghost predicate SchemeRun(ws: seq<World>, es: seq<Event>) {
    && |ws| == |es| + 1
    && forall i {:trigger es[i]} :: 0 <= i < |es| && es[i].Adding? ==> Scheme(ws[i].queues, es[i].queue, es[i].bundles)
  }

  lemma {:induction false} OneSpecialAlways(ws: seq<World>, ts: seq<int>, es: seq<Event>, k: nat)
    requires Run(ws, ts, es) && OrderlyRun(ws, ts, es) && SchemeRun(ws, es) && k < |ws| && OneSpecial(ts[0], ws[0])
    ensures OneSpecial(ts[k], ws[k])
  {
    hide Next, Orderly, OneSpecial, Scheme;
    if k > 0 {
      OneSpecialAlways(ws, ts, es, k - 1);
      assert Next(ts[k - 1], ws[k - 1], es[k - 1], ts[k], ws[k]) && Orderly(ts[k - 1], ws[k - 1], es[k - 1], ws[k]);
      OneSpecialKept(ts[k - 1], ws[k - 1], es[k - 1], ts[k], ws[k]);
    }
  }

  /** In every world of an orderly run at most one queue is not Waiting, and while a queue is held no
      other queue is running. */
  lemma AtMostOneRunning(ws: seq<World>, ts: seq<int>, es: seq<Event>, k: nat, x: string, y: string)
    requires Run(ws, ts, es) && OrderlyRun(ws, ts, es) && SchemeRun(ws, es) && k < |ws| && OneSpecial(ts[0], ws[0])
    requires x in ws[k].queues && ws[k].queues[x].state != Waiting
    ensures y in ws[k].queues && ws[k].queues[y].state != Waiting ==> y == x
    ensures ws[k].current.Some? ==> ws[k].current.value.name == x
  {
    OneSpecialAlways(ws, ts, es, k);
    hide Run, OrderlyRun, SchemeRun;
    assert Special(ws[k], x);
    if y in ws[k].queues && ws[k].queues[y].state != Waiting {
      assert Special(ws[k], y);
    }
    if ws[k].current.Some? {
      assert Special(ws[k], ws[k].current.value.name);
    }
  }

  /** An empty namespace is such a start. */
  lemma EmptyIsOneSpecial(now: int, w: World, bundles: set<string>)
    requires w.queues == map[] && w.current.None?
    ensures OneSpecial(now, w) && GoodStart(w, bundles)
  {
  }

  /** What Add promises, complete or interrupted, is an Adding event. */
  lemma AddIsAdding(now: int, m: map<string, Queue>, m': map<string, Queue>, queue: Queue, prios: seq<string>,
                    bundles: set<string>, ok: bool, matches: bool)
    requires queue.components != [] && AddStep(m, m', queue)
    requires matches ==> m' == m
    requires Scheme(m, queue, bundles) ==> OneQueueEach(m') && WellNamed(m', bundles) && (NoneEmpty(m) ==> NoneEmpty(m'))
    requires Scheme(m, queue, bundles) && ok && !matches ==> Moved(m, m', queue.name, queue.components[0])
    requires Scheme(m, queue, bundles) && ok && !matches && Fits(m, queue.name, queue.components[0]) ==>
               && (forall x :: Apart(now, m, x) && x in m' && !Renews(m, queue, prios, x) ==> Apart(now, m', x))
               && (Settled(now, m, queue, prios) && (queue.name in m ==> Renews(m, queue, prios, queue.name)) ==>
                     queue.name in m' && Apart(now, m', queue.name))
    ensures AddedBy(now, m, m', queue, prios, bundles, ok)
  {
  }

  /** Add in a run: every call of the queue controller, on whatever list, is an Adding event, complete exactly
      when it succeeds. */
  method AddAsEvent(ctrl: Controller, now: int, queue: Queue, prios: seq<string>, ghost bundles: set<string>)
    returns (ok: bool)
    requires ctrl.Valid() && |queue.components| == 1 && queue.nextProcessAt.None?
    modifies ctrl`queues, ctrl`nextRv, ctrl`writesLeft
    ensures ctrl.Valid() && Rewritten(old(ctrl.queues), ctrl.queues, old(ctrl.nextRv), ctrl.nextRv)
    ensures AddedBy(now, old(ctrl.queues), ctrl.queues, queue, prios, bundles, ok)
  {
    ok := ctrl.Add(now, queue, false, prios, bundles);
    AddIsAdding(now, old(ctrl.queues), ctrl.queues, queue, prios, bundles, ok, ctrl.MatchesStable(queue.components[0]));
  }

  /** The same of what Add writes, by its own trail. */
  lemma WritesAreAdded(now: int, t: Trail, m: map<string, Queue>, m': map<string, Queue>, queue: Queue, comp: Component,
                       prios: seq<string>, bundles: set<string>)
    requires Scheme(m, queue, bundles) && queue.components == [comp] && queue.nextProcessAt.None?
    requires forall n :: n in m ==> !m[n].ContainSameComponent(queue.name, comp)
    requires AddWrites(t, m, m', true, queue, comp)
    requires Fits(m, queue.name, comp) ==> AddTrail(now, t, m, m', queue, comp, prios)
    ensures AddedBy(now, m, m', queue, prios, bundles, true)
    ensures OneQueueEach(m') && NoneEmpty(m') && WellNamed(m', bundles)
  {
    assert forall n :: n in m ==> m[n].name == n;
    hide AddWrites, AddTrail, Scheme, Fits, AddStep, Moved, Apart, Settled, Renews, OneQueueEach, NoneEmpty, WellNamed,
         Inserted, PrioritySorted, IsNew;
    FreshStep(t, m, m', true, queue, comp);
    FreshKeeps(t, m, m', true, queue, comp, bundles);
    FreshNumbered(now, t, m, m', queue, comp, prios, bundles);
    assert queue.components[0] == comp;
    AddIsAdding(now, m, m', queue, prios, bundles, true, false);
  }

  // ----- The list invariant

  /** The held queue is left without components. */
  ghost predicate LeavesEmpty(w: World, e: Event, w': World) {
    && e.Handle? && w.current.Some? && w.current.value.name in w'.queues
    && w'.queues[w.current.value.name].components == []
  }

  /** A copy that is not looked up again still tells the stored object by its version. */
  lemma VersionsIdentifyKept(now: int, w: World, e: Event, now': int, w': World, rv: nat, rv': nat)
    requires Next(now, w, e, now', w') && VersionsIdentify(w) && Rewritten(w.queues, w'.queues, rv, rv')
    requires w.current.Some? ==> w.current.value.rv < rv
    ensures VersionsIdentify(w')
  {
    match e
    case Pick(complete) =>
    case _ =>
  }

  /** Every event, interrupted or not, keeps every component in one queue. It keeps every queue from being
      empty as well, unless process drops the last configured component of the held queue. */
  lemma ListInvKept(now: int, w: World, e: Event, now': int, w': World, bundles: set<string>)
    requires OneQueueEach(w.queues) && WellNamed(w.queues, bundles) && VersionsIdentify(w) && Next(now, w, e, now', w')
    requires e.Adding? ==> e.bundles == bundles && NamedByScheme(e.queue, bundles)
    ensures OneQueueEach(w'.queues) && WellNamed(w'.queues, bundles)
    ensures NoneEmpty(w.queues) ==> (NoneEmpty(w'.queues) <==> !LeavesEmpty(w, e, w'))
  {
    match e
    case Pick(complete) =>
      if w.current.None? {
        OrdersKeep(w.queues, w'.queues, bundles);
      }
    case Handle(env) => HandleKeepsList(w, w', env, bundles);
    case Restart =>
    case Adding(_, _, _, _) =>
    case Removing => QueueCleanup.ThinnedKeeps(w.queues, w'.queues, bundles);
    case UserDelete(name) =>
    case Tick(later) =>
  }

  /** Every write of a run has a version of its own, and the held copy an older one. */
  ghost predicate VersionedRun(ws: seq<World>, rvs: seq<nat>) {
    && |rvs| == |ws|
    && (forall i :: 0 <= i < |ws| && ws[i].current.Some? ==> ws[i].current.value.rv < rvs[i])
    && forall i {:trigger rvs[i]} :: 0 <= i < |ws| - 1 ==> Rewritten(ws[i].queues, ws[i + 1].queues, rvs[i], rvs[i + 1])
  }

  /** Every incoming queue is named by the scheme. */
  ghost predicate ByScheme(es: seq<Event>, bundles: set<string>) {
    forall i :: 0 <= i < |es| && es[i].Adding? ==> es[i].bundles == bundles && NamedByScheme(es[i].queue, bundles)
  }

  /** Every component in one queue, queues named by the scheme. */
  ghost predicate GoodStart(w: World, bundles: set<string>) {
    OneQueueEach(w.queues) && WellNamed(w.queues, bundles) && VersionsIdentify(w)
  }

  /** In every run every component stays in one queue and queues keep their names; so the list invariant fails
      exactly where a queue is empty. */
  lemma {:induction false} GoodAlways(ws: seq<World>, ts: seq<int>, es: seq<Event>, rvs: seq<nat>, k: nat, bundles: set<string>)
    requires Run(ws, ts, es) && VersionedRun(ws, rvs) && ByScheme(es, bundles) && k < |ws| && GoodStart(ws[0], bundles)
    ensures GoodStart(ws[k], bundles) && (ListInv(ws[k].queues) <==> NoneEmpty(ws[k].queues))
  {
    hide Next, OneQueueEach, NoneEmpty, WellNamed, VersionsIdentify, NamedByScheme, Rewritten;
    if k > 0 {
      GoodAlways(ws, ts, es, rvs, k - 1, bundles);
      assert Next(ts[k - 1], ws[k - 1], es[k - 1], ts[k], ws[k]);
      assert Rewritten(ws[k - 1].queues, ws[k].queues, rvs[k - 1], rvs[k]);
      ListInvKept(ts[k - 1], ws[k - 1], es[k - 1], ts[k], ws[k], bundles);
      VersionsIdentifyKept(ts[k - 1], ws[k - 1], es[k - 1], ts[k], ws[k], rvs[k - 1], rvs[k]);
    }
  }

  /** So every such run meets what AtMostOneRunning asks of Adds. */
  lemma SchemeAlways(ws: seq<World>, ts: seq<int>, es: seq<Event>, rvs: seq<nat>, bundles: set<string>)
    requires Run(ws, ts, es) && VersionedRun(ws, rvs) && ByScheme(es, bundles) && GoodStart(ws[0], bundles)
    ensures SchemeRun(ws, es)
  {
    forall i {:trigger es[i]} | 0 <= i < |es| && es[i].Adding? ensures Scheme(ws[i].queues, es[i].queue, es[i].bundles) {
      GoodAlways(ws, ts, es, rvs, i, bundles);
    }
  }

  /** Over whole runs: no queue is empty in every world up to the first that leaves the held queue empty, and
      one is in that. */
  lemma {:induction false} ListInvUntilEmptied(ws: seq<World>, ts: seq<int>, es: seq<Event>, rvs: seq<nat>, k: nat,
                                               bundles: set<string>)
    requires Run(ws, ts, es) && VersionedRun(ws, rvs) && ByScheme(es, bundles) && k < |es|
    requires GoodStart(ws[0], bundles) && NoneEmpty(ws[0].queues)
    requires forall i {:trigger es[i]} :: 0 <= i < k ==> !LeavesEmpty(ws[i], es[i], ws[i + 1])
    ensures ListInv(ws[k].queues) && (ListInv(ws[k + 1].queues) <==> !LeavesEmpty(ws[k], es[k], ws[k + 1]))
  {
    hide Next, OneQueueEach, NoneEmpty, WellNamed, VersionsIdentify, NamedByScheme, Rewritten, LeavesEmpty;
    if k > 0 {
      ListInvUntilEmptied(ws, ts, es, rvs, k - 1, bundles);
      assert !LeavesEmpty(ws[k - 1], es[k - 1], ws[k]);
    }
    GoodAlways(ws, ts, es, rvs, k, bundles);
    GoodAlways(ws, ts, es, rvs, k + 1, bundles);
    assert Next(ts[k], ws[k], es[k], ts[k + 1], ws[k + 1]);
    ListInvKept(ts[k], ws[k], es[k], ts[k + 1], ws[k + 1], bundles);
  }

  lemma HandleKeepsList(w: World, w': World, env: Env, bundles: set<string>)
    requires OneQueueEach(w.queues) && WellNamed(w.queues, bundles) && HandleStep(w, w', env) && VersionsIdentify(w)
    ensures OneQueueEach(w'.queues) && WellNamed(w'.queues, bundles)
    ensures NoneEmpty(w.queues) ==> (NoneEmpty(w'.queues) <==> !LeavesEmpty(w, Handle(env), w'))
  {
    HandledMap(w, w', env);
    var n := w.current.value.name;
    if n in w'.queues {
      HandledQueue(w, w', env);
      hide HandleStep, OneQueueEach, WellNamed, NoneEmpty, DistinctNames;
      RewrittenKeeps(w.queues, n, w'.queues[n], bundles);
    }
  }

  lemma RewrittenKeeps(m: map<string, Queue>, n: string, q: Queue, bundles: set<string>)
    requires OneQueueEach(m) && WellNamed(m, bundles) && n in m && q.name == n && q.bundle == m[n].bundle
    requires DistinctNames(q.components) && forall c :: c in q.components ==> c in m[n].components
    ensures OneQueueEach(m[n := q]) && WellNamed(m[n := q], bundles)
    ensures NoneEmpty(m) ==> (NoneEmpty(m[n := q]) <==> q.components != [])
  {
    QueueCleanup.KeepsListWithFewer(m, n, q);
    assert NamedByScheme(m[n], bundles);
    assert m[n := q][n] == q;
  }

  lemma HandledMap(w: World, w': World, env: Env)
    requires HandleStep(w, w', env)
    ensures var n := w.current.value.name;
            w'.queues == if n in w'.queues then w.queues[n := w'.queues[n]] else w.queues - {n}
  {
  }

  /** What a call leaves of the components of the held queue. */
  lemma HandledQueue(w: World, w': World, env: Env)
    requires HandleStep(w, w', env) && OneQueueEach(w.queues) && VersionsIdentify(w) && w.current.value.name in w'.queues
    ensures var n := w.current.value.name;
            && n in w.queues && w'.queues[n].name == n && w'.queues[n].bundle == w.queues[n].bundle
            && DistinctNames(w'.queues[n].components)
            && forall c :: c in w'.queues[n].components ==> c in w.queues[n].components
  {
  }

  /** A copy in Deleting that is not the stored object any more is refused once, and the next call works on the
      stored object: what ends the attempt then is what is stored. */
  lemma RefusedIsLookedUp(ws: seq<World>, ts: seq<int>, es: seq<Event>, k: nat)
    requires Run(ws, ts, es) && k + 2 < |ws| && es[k].Handle? && es[k + 1].Handle? && ws[k].current.Some?
    requires ws[k].current.value.state == Deleting && Refused(ws[k].current.value, ws[k].queues, es[k].env)
    ensures ws[k + 1].queues == ws[k].queues && ws[k + 1].current.Some? && ws[k + 1].current.value.state == Waiting
    ensures var n, env := ws[k].current.value.name, es[k + 1].env;
            && (n in ws[k + 2].queues && ws[k + 2].current.None? ==>
                  && n in ws[k].queues && ws[k].queues[n].state == Deleting
                  && AfterFailure(ws[k].queues[n], ws[k + 2].queues[n], env.maxRetry, env.now))
            && (n in ws[k + 2].queues && ws[k + 2].current.Some? && ws[k + 2].queues[n] != ws[k].queues[n] ==>
                  n in ws[k].queues && Edge(ws[k].queues[n], ws[k + 2].queues[n]))
  {
    assert Next(ts[k], ws[k], es[k], ts[k + 1], ws[k + 1]);
    assert Next(ts[k + 1], ws[k + 1], es[k + 1], ts[k + 2], ws[k + 2]);
  }

  // ----- Versions become stable only after a passed test

  /** What any event may do to one queue object. */
  ghost predicate QueueStep(q: Queue, q': Queue) {
    || q'.state == Waiting
    || (q'.qtype == q.qtype && (forall c :: c in q'.components ==> c in q.components)
        && Transition(StageOf(q), StageOf(q')))
  }

  /** A queue that was not there before is Waiting. */
  ghost predicate QueueStepIn(w: World, w': World, n: string) {
    n in w'.queues ==>
      if n in w.queues then QueueStep(w.queues[n], w'.queues[n]) else w'.queues[n].state == Waiting
  }

  lemma EveryStepIsQueueStep(now: int, w: World, e: Event, now': int, w': World, n: string)
    requires Next(now, w, e, now', w')
    ensures QueueStepIn(w, w', n)
  {
    hide HandleStep, PickStep, AddedBy, QueueStep;
    if n in w'.queues && w'.queues[n].state != Waiting {
      match e
      case Pick(complete) => PickIsQueueStep(now, w, w', complete, n);
      case Handle(env) => HandleIsQueueStep(w, w', env, n);
      case Restart => SameIsQueueStep(w.queues[n]);
      case Adding(queue, prios, bundles, complete) => AddedIsQueueStep(now, w.queues, w'.queues, queue, prios, bundles, complete, n);
      case Removing => RemovingIsQueueStep(w.queues, w'.queues, n);
      case UserDelete(name) => SameIsQueueStep(w.queues[n]);
      case Tick(later) => SameIsQueueStep(w.queues[n]);
    } else if n in w'.queues && n in w.queues {
      WaitingIsQueueStep(w.queues[n], w'.queues[n]);
    }
  }

  lemma WaitingIsQueueStep(q: Queue, q': Queue)
    requires q'.state == Waiting
    ensures QueueStep(q, q')
  {
  }

  lemma SameIsQueueStep(q: Queue)
    ensures QueueStep(q, q)
  {
  }

  lemma RemovingIsQueueStep(m: map<string, Queue>, m': map<string, Queue>, n: string)
    requires QueueCleanup.Thinned(m, m') && n in m'
    ensures n in m && QueueStep(m[n], m'[n])
  {
    assert m'[n] == m[n] || QueueCleanup.ThinnedQueue(m[n], m'[n]);
  }

  lemma PickIsQueueStep(now: int, w: World, w': World, complete: bool, n: string)
    requires PickStep(now, w, w', complete) && n in w'.queues
    ensures n in w.queues && QueueStep(w.queues[n], w'.queues[n])
  {
    hide QueueStep, HandedOut, SoleRunner, OwnKey, AtFront, RenumberedByFirst, InterruptedFirst, OrdersOnly;
    if w.current.Some? {
      SameIsQueueStep(w.queues[n]);
    } else {
      OrdersAreQueueSteps(w.queues, w'.queues, n);
    }
  }

  lemma OrdersAreQueueSteps(m: map<string, Queue>, m': map<string, Queue>, n: string)
    requires OrdersOnly(m, m') && n in m'
    ensures n in m && QueueStep(m[n], m'[n])
  {
    assert SameButOrder(m[n], m'[n]);
  }

  lemma HandleIsQueueStep(w: World, w': World, env: Env, n: string)
    requires HandleStep(w, w', env) && n in w'.queues && w'.queues[n].state != Waiting
    ensures n in w.queues && QueueStep(w.queues[n], w'.queues[n])
  {
  }

  lemma AddedIsQueueStep(now: int, m: map<string, Queue>, m': map<string, Queue>, queue: Queue, prios: seq<string>,
                         bundles: set<string>, complete: bool, n: string)
    requires AddedBy(now, m, m', queue, prios, bundles, complete) && n in m' && m'[n].state != Waiting
    ensures n in m && QueueStep(m[n], m'[n])
  {
    UntouchedIsQueueStep(m[n], m'[n]);
  }

  lemma UntouchedIsQueueStep(q: Queue, q': Queue)
    requires Untouched(q, q')
    ensures QueueStep(q, q')
  {
    SamePermutationMembers(q.components, q'.components);
  }

  /** The states of queue n since it was last Waiting, without repetitions. */
  ghost function PassPath(ws: seq<World>, n: string, k: nat): seq<QueueState>
    requires k < |ws|
  {
    if n !in ws[k].queues then []
    else
      var s := ws[k].queues[n].state;
      if s == Waiting || k == 0 then [s]
      else
        var p := PassPath(ws, n, k - 1);
        if p != [] && p[|p| - 1] == s then p else p + [s]
  }

  /** What the test of the current pass said: the Tested condition as set when Testing was left. */
  ghost function Verdict(ws: seq<World>, n: string, k: nat): Option<bool>
    requires k < |ws|
  {
    if n !in ws[k].queues || ws[k].queues[n].state == Waiting || k == 0 then None
    else if n in ws[k - 1].queues && ws[k - 1].queues[n].state == Testing && ws[k].queues[n].state == Collecting then
      Some(ws[k].queues[n].IsConditionTrue(Tested))
    else Verdict(ws, n, k - 1)
  }

  /** Component version c has been in queue n in every world since n was last Waiting. */
  ghost predicate HeldSince(ws: seq<World>, n: string, k: nat, c: Component)
    requires k < |ws|
  {
    && n in ws[k].queues && c in ws[k].queues[n].components
    && (ws[k].queues[n].state == Waiting || k == 0 || HeldSince(ws, n, k - 1, c))
  }

  const FULL_PASS: seq<QueueState> :=
    [Waiting, CleaningBefore, DetectingImageMissing, Creating, Testing, Collecting]

  /** Where a queue can be in its pass. */
  ghost predicate OnPass(q: Queue, path: seq<QueueState>, verdict: Option<bool>) {
    match q.state
    case Waiting => path == [Waiting]
    case CleaningBefore => path == FULL_PASS[..2]
    case DetectingImageMissing => path == FULL_PASS[..3]
    case Creating => path == FULL_PASS[..4]
    case Testing => path == FULL_PASS[..5] && q.IsConditionTrue(Deployed)
    case Collecting =>
      q.IsConditionTrue(Deployed) ==> path == FULL_PASS && verdict == Some(q.IsConditionTrue(Tested))
    case _ => true
  }

  lemma OnPassStep(q: Queue, q': Queue, p: seq<QueueState>, p': seq<QueueState>, v: Option<bool>, v': Option<bool>)
    requires OnPass(q, p, v) && QueueStep(q, q') && q'.state != Waiting && p != [] && p[|p| - 1] == q.state
    requires p' == if q.state == q'.state then p else p + [q'.state]
    requires v' == if q.state == Testing && q'.state == Collecting then Some(q'.IsConditionTrue(Tested)) else v
    ensures OnPass(q', p', v')
  {
    assert FULL_PASS[..1] == [Waiting];
    assert FULL_PASS[..2] == FULL_PASS[..1] + [CleaningBefore];
    assert FULL_PASS[..3] == FULL_PASS[..2] + [DetectingImageMissing];
    assert FULL_PASS[..4] == FULL_PASS[..3] + [Creating];
    assert FULL_PASS[..5] == FULL_PASS[..4] + [Testing];
    assert FULL_PASS == FULL_PASS[..5] + [Collecting];
  }

  lemma {:induction false} OnPassAlways(ws: seq<World>, ts: seq<int>, es: seq<Event>, n: string, k: nat)
    requires Run(ws, ts, es) && k < |ws| && ws[0].queues == map[] && n in ws[k].queues
    ensures var p := PassPath(ws, n, k);
            p != [] && p[|p| - 1] == ws[k].queues[n].state && OnPass(ws[k].queues[n], p, Verdict(ws, n, k))
  {
    EveryStepIsQueueStep(ts[k - 1], ws[k - 1], es[k - 1], ts[k], ws[k], n);
    if ws[k].queues[n].state != Waiting {
      OnPassAlways(ws, ts, es, n, k - 1);
      OnPassStep(ws[k - 1].queues[n], ws[k].queues[n], PassPath(ws, n, k - 1), PassPath(ws, n, k),
                 Verdict(ws, n, k - 1), Verdict(ws, n, k));
    }
  }

  lemma {:induction false} HeldThroughPass(ws: seq<World>, ts: seq<int>, es: seq<Event>, n: string, k: nat, c: Component)
    requires Run(ws, ts, es) && k < |ws| && ws[0].queues == map[]
    requires n in ws[k].queues && c in ws[k].queues[n].components
    ensures HeldSince(ws, n, k, c)
  {
    EveryStepIsQueueStep(ts[k - 1], ws[k - 1], es[k - 1], ts[k], ws[k], n);
    if ws[k].queues[n].state != Waiting {
      HeldThroughPass(ws, ts, es, n, k - 1, c);
    }
  }

  /** In every run, whatever else happens: a step that changes stable versions takes them from one upgrade
      queue whose pass went through every stage up to Collecting and whose test of this very pass
      succeeded, and each version was in that queue throughout the pass. */
  lemma StableOnlyAfterPassedTest(ws: seq<World>, ts: seq<int>, es: seq<Event>, k: nat) returns (n: string)
    requires Run(ws, ts, es) && k + 1 < |ws| && ws[0].queues == map[] && ws[k + 1].stable != ws[k].stable
    ensures n in ws[k].queues && ws[k].queues[n].qtype == Upgrade
    ensures PassPath(ws, n, k) == FULL_PASS && Verdict(ws, n, k) == Some(true)
    ensures forall c :: c in ws[k + 1].stable && (c !in ws[k].stable || ws[k + 1].stable[c] != ws[k].stable[c]) ==>
              ws[k + 1].stable[c].name == c && HeldSince(ws, n, k, ws[k + 1].stable[c])
    ensures ws[k].stable.Keys <= ws[k + 1].stable.Keys
  {
    assert Next(ts[k], ws[k], es[k], ts[k + 1], ws[k + 1]);
    n := ws[k].current.value.name;
    OnPassAlways(ws, ts, es, n, k);
    var s' := ws[k + 1].stable;
    forall c | c in s' && (c !in ws[k].stable || s'[c] != ws[k].stable[c])
      ensures s'[c].name == c && HeldSince(ws, n, k, s'[c])
    {
      HeldThroughPass(ws, ts, es, n, k, s'[c]);
    }
  }

  // ----- What the verdict rests on, and what it leads to

  lemma OthersKeepState(now: int, w: World, e: Event, now': int, w': World, n: string)
    requires Next(now, w, e, now', w') && n in w.queues && n in w'.queues && !e.Handle?
    ensures w'.queues[n].state == Waiting || w'.queues[n].state == w.queues[n].state
  {
    match e
    case Pick(complete) =>
      assert w'.queues[n] == w.queues[n] || SameButOrder(w.queues[n], w'.queues[n]);
    case Removing =>
      assert w'.queues[n] == w.queues[n] || QueueCleanup.ThinnedQueue(w.queues[n], w'.queues[n]);
    case _ =>
  }

  /** Only process moves a queue from one running state to another. */
  lemma MovedByHandle(now: int, w: World, e: Event, now': int, w': World, n: string)
    requires Next(now, w, e, now', w') && n in w.queues && n in w'.queues
    requires w'.queues[n].state != Waiting && w'.queues[n].state != w.queues[n].state
    ensures e.Handle? && w.current.Some? && w.current.value.name == n && w'.current.Some?
    ensures Caused(w.queues[n], w'.queues[n], e.env, Late(w.queues[n], e.env))
  {
    if !e.Handle? {
      OthersKeepState(now, w, e, now', w', n);
    }
  }

  /** A passed test was decided by one call that was not late, with no test to run or with every triggered
      runner finished and passed. */
  lemma {:induction false} PassedTestHasCause(ws: seq<World>, ts: seq<int>, es: seq<Event>, n: string, k: nat)
    returns (j: nat)
    requires Run(ws, ts, es) && k < |ws| && Verdict(ws, n, k) == Some(true)
    ensures j < k && es[j].Handle? && n in ws[j].queues && ws[j].queues[n].state == Testing
    ensures TestOver(es[j].env, Late(ws[j].queues[n], es[j].env)) && TestPassed(es[j].env, Late(ws[j].queues[n], es[j].env))
  {
    if n in ws[k - 1].queues && ws[k - 1].queues[n].state == Testing && ws[k].queues[n].state == Collecting {
      j := k - 1;
      assert Next(ts[j], ws[j], es[j], ts[k], ws[k]);
      MovedByHandle(ts[j], ws[j], es[j], ts[k], ws[k], n);
    } else {
      j := PassedTestHasCause(ws, ts, es, n, k - 1);
    }
  }

  /** The other direction: a passed upgrade queue leaves Collecting only with its versions stable. */
  lemma PassedBecomesStable(ws: seq<World>, ts: seq<int>, es: seq<Event>, k: nat, n: string)
    requires Run(ws, ts, es) && k + 1 < |ws| && Concluded(ws[k], ws[k + 1], n) && ws[k].queues[n].Passed()
    ensures MadeStable(ws[k + 1].stable, ws[k].queues[n])
  {
    assert Next(ts[k], ws[k], es[k], ts[k + 1], ws[k + 1]);
    MovedByHandle(ts[k], ws[k], es[k], ts[k + 1], ws[k + 1], n);
  }
}
