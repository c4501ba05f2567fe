/** Runs in which two queues of a staging namespace come to run at once: what happens when an Add renews
    the held queue in a list that is not settled, or when a renumbering is interrupted. */
module StagingBreaks {
  import opened QueueTypes
  import opened QueueList
  import opened QueueOrdering
  import opened QueueRewriting
  import opened QueueController
  import opened Staging
  import opened StagingRuns
  import QueueCleanup

  ghost predicate BothRun(w: World, x: string, y: string) {
    && x != y && x in w.queues && y in w.queues
    && w.queues[x].state != Waiting && w.queues[y].state != Waiting
  }

  /** The namespace holds exactly these three queues. */
  ghost predicate Three(m: map<string, Queue>, a: Queue, b: Queue, c: Queue) {
    && a.name != b.name && a.name != c.name && b.name != c.name
    && m.Keys == {a.name, b.name, c.name} && m[a.name] == a && m[b.name] == b && m[c.name] == c
  }

  lemma ThreeListed(m: map<string, Queue>, a: Queue, b: Queue, c: Queue)
    requires Three(m, a, b, c)
    ensures IsListing(m, [a, b, c])
  {
    var s := [a, b, c];
    assert s[0] == a && s[1] == b && s[2] == c;
    assert multiset(s) == multiset{a, b, c};
  }

  lemma ThreeSorted(now: int, a: Queue, b: Queue, c: Queue)
    requires !KeyLess(KeyOf(now, b), KeyOf(now, a)) && !KeyLess(KeyOf(now, c), KeyOf(now, b))
    requires !KeyLess(KeyOf(now, c), KeyOf(now, a))
    ensures KeySorted(now, [a, b, c])
  {
    var s := [a, b, c];
    assert s[0] == a && s[1] == b && s[2] == c;
  }

  // ----- Building runs

  lemma StartOfRun(now: int, w: World)
    ensures Run([w], [now], [])
  {
  }

  lemma OneMoreEvent(ws: seq<World>, ts: seq<int>, es: seq<Event>, e: Event, now: int, w: World)
    requires Run(ws, ts, es) && Next(ts[|es|], ws[|es|], e, now, w)
    ensures Run(ws + [w], ts + [now], es + [e])
  {
    var ws', ts', es' := ws + [w], ts + [now], es + [e];
    forall i {:trigger es'[i]} | 0 <= i < |es'| ensures Next(ts'[i], ws'[i], es'[i], ts'[i + 1], ws'[i + 1]) {
      if i < |es| {
        assert es'[i] == es[i] && ws'[i] == ws[i] && ws'[i + 1] == ws[i + 1];
      }
    }
  }

  /** Only the first event is an Add, to a list in which every component is in one queue. */
  lemma OneAdding(ws: seq<World>, es: seq<Event>)
    requires |ws| == |es| + 1 && es != [] && es[0].Adding? && Scheme(ws[0].queues, es[0].queue, es[0].bundles)
    requires forall i :: 0 < i < |es| ==> !es[i].Adding?
    ensures SchemeRun(ws, es)
  {
  }

  lemma TwoAddings(ws: seq<World>, es: seq<Event>)
    requires |ws| == |es| + 1 && |es| > 2 && es[0].Adding? && Scheme(ws[0].queues, es[0].queue, es[0].bundles)
    requires es[2].Adding? && Scheme(ws[2].queues, es[2].queue, es[2].bundles)
    requires forall i :: 0 < i < |es| && i != 2 ==> !es[i].Adding?
    ensures SchemeRun(ws, es)
  {
  }

  lemma ThreeEvents(now: int, w0: World, w1: World, w2: World, w3: World, e0: Event, e1: Event, e2: Event)
    requires Next(now, w0, e0, now, w1) && Next(now, w1, e1, now, w2) && Next(now, w2, e2, now, w3)
    ensures Run([w0, w1, w2, w3], [now, now, now, now], [e0, e1, e2])
  {
    StartOfRun(now, w0);
    OneMoreEvent([w0], [now], [], e0, now, w1);
    assert [w0] + [w1] == [w0, w1] && [now] + [now] == [now, now] && [] + [e0] == [e0];
    OneMoreEvent([w0, w1], [now, now], [e0], e1, now, w2);
    assert [w0, w1] + [w2] == [w0, w1, w2] && [now, now] + [now] == [now, now, now] && [e0] + [e1] == [e0, e1];
    OneMoreEvent([w0, w1, w2], [now, now, now], [e0, e1], e2, now, w3);
    assert [w0, w1, w2] + [w3] == [w0, w1, w2, w3] && [now, now, now] + [now] == [now, now, now, now];
    assert [e0, e1] + [e2] == [e0, e1, e2];
  }

  lemma OneEventBefore(now: int, w: World, e: Event, ws: seq<World>, ts: seq<int>, es: seq<Event>)
    requires Run(ws, ts, es) && ts[0] == now && Next(now, w, e, now, ws[0])
    ensures Run([w] + ws, [now] + ts, [e] + es)
  {
    var ws', ts', es' := [w] + ws, [now] + ts, [e] + es;
    forall i {:trigger es'[i]} | 0 <= i < |es'| ensures Next(ts'[i], ws'[i], es'[i], ts'[i + 1], ws'[i + 1]) {
      if i > 0 {
        assert es'[i] == es[i - 1] && ws'[i] == ws[i - 1] && ws'[i + 1] == ws[i];
      }
    }
  }

  // ----- A running queue with a twin

  /** The second sort exchanged two twins: the running queue was found at place k, where y stands now. */
  lemma TwinsExchanged(now: int, m: map<string, Queue>, m1: map<string, Queue>, sorted: seq<Queue>, list: seq<Queue>, k: nat)
    requires IsListing(m, sorted) && KeySorted(now, sorted) && IsListing(m, list) && KeySorted(now, list)
    requires k < |list| == |sorted| && sorted[k].state != Waiting
    requires forall j :: 0 <= j < k ==> sorted[j].state == Waiting
    requires forall j :: 0 <= j < |list| ==> list[j].name in m1 && m1[list[j].name].noOfOrder == PickNumber(k, j)
    ensures RenumberedByFirst(now, m, m1)
  {
    assert FirstNumbers(now, m, m1, sorted, list, k);
  }

  /** First on the running queue x, its twin y and a third queue o that sorts before them. */
  lemma TwinBehind(now: int, m: map<string, Queue>, x: Queue, y: Queue, o: Queue, m1: map<string, Queue>)
    requires Three(m, x, y, o) && Twins(x, y) && x.state != Waiting && o.state == Waiting
    requires KeyLess(KeyOf(now, o), KeyOf(now, x))
    requires Three(m1, x.(noOfOrder := 3), y.(noOfOrder := 1), o.(noOfOrder := 2))
    ensures RenumberedByFirst(now, m, m1)
  {
    ThreeListed(m, o, x, y);
    ThreeListed(m, o, y, x);
    ThreeSorted(now, o, x, y);
    ThreeSorted(now, o, y, x);
    TwinsExchanged(now, m, m1, [o, x, y], [o, y, x], 1);
  }

  /** The same with a third queue that sorts behind them. */
  lemma TwinAhead(now: int, m: map<string, Queue>, x: Queue, y: Queue, o: Queue, m1: map<string, Queue>)
    requires Three(m, x, y, o) && Twins(x, y) && x.state != Waiting
    requires KeyLess(KeyOf(now, x), KeyOf(now, o))
    requires Three(m1, x.(noOfOrder := 2), y.(noOfOrder := 1), o.(noOfOrder := 3))
    ensures RenumberedByFirst(now, m, m1)
  {
    ThreeListed(m, x, y, o);
    ThreeListed(m, y, x, o);
    ThreeSorted(now, x, y, o);
    ThreeSorted(now, y, x, o);
    TwinsExchanged(now, m, m1, [x, y, o], [y, x, o], 0);
  }

  lemma TwinIsPicked(now: int, w: World, x: Queue, y: Queue, o: Queue, m1: map<string, Queue>, k: int, l: int)
    requires Three(w.queues, x, y, o) && Twins(x, y) && x.state != Waiting && w.current.None?
    requires Three(m1, x.(noOfOrder := k), y.(noOfOrder := 1), o.(noOfOrder := l)) && k >= 2 && l >= 2
    ensures PickEffect(now, w, World(m1, w.stable, Some(m1[y.name])), true)
  {
    assert KeyOf(now, w.queues[y.name]) == KeyOf(now, w.queues[x.name]);
    assert forall z :: SoleRunner(w.queues, z) ==> z == x.name;
  }

  lemma TwinIsHandedOut(now: int, w: World, x: Queue, y: Queue, o: Queue) returns (w1: World)
    requires Three(w.queues, x, y, o) && Twins(x, y) && x.state != Waiting && y.state == Waiting && o.state == Waiting
    requires KeyOf(now, o) != KeyOf(now, x) && w.current.None?
    ensures PickStep(now, w, w1, true) && w1.current.Some? && w1.current.value.name == y.name
    ensures Three(w1.queues, x.(noOfOrder := w1.queues[x.name].noOfOrder), y.(noOfOrder := 1),
                  o.(noOfOrder := w1.queues[o.name].noOfOrder))
    ensures w1.current.value == y.(noOfOrder := 1)
  {
    var m1: map<string, Queue>;
    if KeyLess(KeyOf(now, o), KeyOf(now, x)) {
      m1 := map[x.name := x.(noOfOrder := 3), y.name := y.(noOfOrder := 1), o.name := o.(noOfOrder := 2)];
      TwinBehind(now, w.queues, x, y, o, m1);
      TwinIsPicked(now, w, x, y, o, m1, 3, 2);
    } else {
      m1 := map[x.name := x.(noOfOrder := 2), y.name := y.(noOfOrder := 1), o.name := o.(noOfOrder := 3)];
      TwinAhead(now, w.queues, x, y, o, m1);
      TwinIsPicked(now, w, x, y, o, m1, 2, 3);
    }
    w1 := World(m1, w.stable, Some(m1[y.name]));
  }

  /** The twin of the running queue is handed out and started: two queues run. */
  lemma TwinStarts(now: int, w: World, x: Queue, y: Queue, o: Queue, env: Env) returns (w1: World, w2: World)
    requires Three(w.queues, x, y, o) && Twins(x, y) && x.state != Waiting && y.state == Waiting && o.state == Waiting
    requires KeyOf(now, o) != KeyOf(now, x) && w.current.None? && env.now == now && env.hasDeployConfig
    ensures Next(now, w, Pick(true), now, w1) && Next(now, w1, Handle(env), now, w2) && BothRun(w2, x.name, y.name)
  {
    w1 := TwinIsHandedOut(now, w, x, y, o);
    w2 := Started(w1, y.name);
    StartsWaiting(w1, y.name, env);
  }

  /** What initQueue saves of a waiting queue. */
  function Begun(q: Queue): Queue {
    q.(noOfProcessed := q.noOfProcessed + 1, state := CleaningBefore, conditions := q.conditions[CleaningBeforeStarted := true])
  }

  function Started(w: World, n: string): World
    requires n in w.queues
  {
    World(w.queues[n := Begun(w.queues[n])], w.stable, Some(Begun(w.queues[n])))
  }

  lemma StartsWaiting(w: World, n: string, env: Env)
    requires n in w.queues && w.queues[n].state == Waiting && env.hasDeployConfig
    requires w.current.Some? && w.current.value.name == n && w.current.value.state != Deleting
    requires forall x :: x in w.queues ==> w.queues[x].name == x
    ensures HandleStep(w, Started(w, n), env)
  {
    var q := w.queues[n];
    assert Edge(q, Begun(q));
  }

  // ----- Interrupted renumberings

  lemma SavedOne(m: map<string, Queue>, m1: map<string, Queue>, a: Queue, order: int)
    requires a.name in m && m[a.name] == a && m1 == m[a.name := a.(noOfOrder := order)]
    ensures OrdersOnly(m, m1) && Saved(m, m1, [a.(noOfOrder := order)])
  {
    var u := [a.(noOfOrder := order)];
    assert u[0].name == a.name && u[0].noOfOrder == order;
  }

  /** x was left running by a restart, behind a and b. First gives a the number 2 and fails; now a has the
      number of x. */
  lemma StoppedAfterFirstWrite(now: int, m: map<string, Queue>, a: Queue, b: Queue, x: Queue, m1: map<string, Queue>)
    requires Three(m, a, b, x) && a.state == Waiting && b.state == Waiting && x.state != Waiting
    requires a.noOfOrder == 0 && b.noOfOrder == 1 && x.noOfOrder == 2
    requires a.nextProcessAt.None? && b.nextProcessAt.None? && x.nextProcessAt.None?
    requires Three(m1, a.(noOfOrder := 2), b, x)
    ensures InterruptedFirst(now, m, m1) && OrdersOnly(m, m1)
  {
    var list := [a, b, x];
    var items := [a.(noOfOrder := 2), b.(noOfOrder := 3), x.(noOfOrder := 1)];
    ThreeListed(m, a, b, x);
    ThreeSorted(now, a, b, x);
    assert items[..1] == [a.(noOfOrder := 2)];
    SavedOne(m, m1, a, 2);
    assert Picks(now, list, 2) && NumberedFrom(list, 2, items);
    hide *;
    FirstHasStopped(now, m, m1, list, 2, items, 1);
  }

  lemma FirstHasStopped(now: int, m: map<string, Queue>, m1: map<string, Queue>, list: seq<Queue>, k: nat, items: seq<Queue>,
                        done: nat)
    requires IsListing(m, list) && KeySorted(now, list) && Picks(now, list, k) && NumberedFrom(list, k, items)
    requires done <= |items| && Saved(m, m1, items[..done])
    ensures InterruptedFirst(now, m, m1)
  {
    assert FirstStopped(now, m, m1, list, list, k, items, done);
  }

  lemma StoppedPick(now: int, a: Queue, b: Queue, x: Queue, w: World, w1: World)
    requires Three(w.queues, a, b, x) && a.state == Waiting && b.state == Waiting && x.state != Waiting
    requires a.noOfOrder == 0 && b.noOfOrder == 1 && x.noOfOrder == 2
    requires a.nextProcessAt.None? && b.nextProcessAt.None? && x.nextProcessAt.None?
    requires w.current.None? && w1 == w.(queues := w1.queues) && Three(w1.queues, a.(noOfOrder := 2), b, x)
    ensures Next(now, w, Pick(false), now, w1)
  {
    StoppedAfterFirstWrite(now, w.queues, a, b, x, w1.queues);
  }

  /** A sole running queue with a number of its own, nothing postponed before it. */
  lemma ThreeOneSpecial(now: int, w: World, x: Queue, a: Queue, b: Queue)
    requires Three(w.queues, x, a, b) && a.state == Waiting && b.state == Waiting && !Postponed(now, x)
    requires w.current.None? || w.current.value.name == x.name
    requires a.noOfOrder != x.noOfOrder && (Postponed(now, a) ==> a.noOfOrder > x.noOfOrder)
    requires b.noOfOrder != x.noOfOrder && (Postponed(now, b) ==> b.noOfOrder > x.noOfOrder)
    ensures OneSpecial(now, w)
  {
    assert forall y :: Special(w, y) ==> y == x.name;
  }

  /** An interrupted First is enough: the next one hands out another queue beside the running one. */
  lemma InterruptedFirstBreaks(now: int, a: Queue, b: Queue, x: Queue, stable: map<string, Component>, env: Env)
    returns (ws: seq<World>, ts: seq<int>, es: seq<Event>)
    requires a.name != b.name && a.name != x.name && b.name != x.name
    requires a.state == Waiting && b.state == Waiting && x.state != Waiting
    requires a.noOfOrder == 0 && b.noOfOrder == 1 && x.noOfOrder == 2
    requires a.nextProcessAt.None? && b.nextProcessAt.None? && x.nextProcessAt.None?
    requires env.now == now && env.hasDeployConfig
    ensures Run(ws, ts, es) && es == [Pick(false), Pick(true), Handle(env)]
    ensures OneSpecial(now, ws[0]) && BothRun(ws[3], x.name, a.name)
  {
    hide Next;
    var a1 := a.(noOfOrder := 2);
    var w0 := World(map[a.name := a, b.name := b, x.name := x], stable, None);
    var w1 := World(map[a.name := a1, b.name := b, x.name := x], stable, None);
    ThreeOneSpecial(now, w0, x, a, b);
    StoppedPick(now, a, b, x, w0, w1);
    var w2, w3 := TwinStarts(now, w1, x, a1, b, env);
    ThreeEvents(now, w0, w1, w2, w3, Pick(false), Pick(true), Handle(env));
    ws, ts, es := [w0, w1, w2, w3], [now, now, now, now], [Pick(false), Pick(true), Handle(env)];
  }

  /** A restart, and First and process after it: the twin y runs beside x. */
  lemma RestartAndTwin(now: int, w: World, x: Queue, y: Queue, o: Queue, env: Env)
    returns (ws: seq<World>, ts: seq<int>, es: seq<Event>)
    requires Three(w.queues, x, y, o) && Twins(x, y) && x.state != Waiting && y.state == Waiting && o.state == Waiting
    requires KeyOf(now, o) != KeyOf(now, x) && env.now == now && env.hasDeployConfig
    ensures Run(ws, ts, es) && es == [Restart, Pick(true), Handle(env)] && ws[0] == w && ts[0] == now
    ensures BothRun(ws[3], x.name, y.name)
  {
    var w1 := w.(current := None);
    var w2, w3 := TwinStarts(now, w1, x, y, o, env);
    ThreeEvents(now, w, w1, w2, w3, Restart, Pick(true), Handle(env));
    ws, ts, es := [w, w1, w2, w3], [now, now, now, now], [Restart, Pick(true), Handle(env)];
  }

  /** The numbers of x and b have to go up by one; only that of x was saved. */
  lemma StoppedAfterFirstBump(m: map<string, Queue>, r: Queue, x: Queue, b: Queue, m1: map<string, Queue>)
    requires Three(m, r, x, b) && Three(m1, r, Bumped(x), b)
    ensures OrdersOnly(m, m1) && Saved(m, m1, [Bumped(x), Bumped(b)][..1])
    ensures BumpedFrom([r, x, b], 1, -1, [Bumped(x), Bumped(b)], [1, 2])
  {
    var u := [Bumped(x)];
    assert [Bumped(x), Bumped(b)][..1] == u && u[0].name == x.name;
    var places := [1, 2];
    assert places[0] == 1 && places[1] == 2;
  }

  lemma InterruptedAdding(now: int, w: World, w1: World, queue: Queue, prios: seq<string>, bundles: set<string>)
    requires queue.components != [] && OrdersOnly(w.queues, w1.queues) && w1 == w.(queues := w1.queues)
    requires forall n :: n in w.queues ==> w.queues[n].name == n
    ensures Next(now, w, Adding(queue, prios, bundles, false), now, w1)
  {
    OrdersStep(w.queues, w1.queues);
    if Scheme(w.queues, queue, bundles) {
      OrdersKeep(w.queues, w1.queues, bundles);
    }
    hide OrdersOnly, KeptOrReset, StepTo, OneQueueEach, WellNamed, NoneEmpty;
  }

  lemma RankedBetween(r: Queue, x: Queue, b: Queue, target: nat, prios: seq<string>)
    requires Rank(r, prios) <= target < Rank(x, prios)
    ensures RankPlace([r, x, b], 1, target, prios)
  {
    var list := [r, x, b];
    assert list[0] == r && list[1] == x;
  }

  /** An Add of another queue that is interrupted while it makes room between r and x. */
  lemma InterruptedAddBreaks(now: int, r: Queue, x: Queue, b: Queue, queue: Queue, prios: seq<string>, bundles: set<string>,
                             stable: map<string, Component>, env: Env)
    returns (ws: seq<World>, ts: seq<int>, es: seq<Event>)
    requires r.name != x.name && r.name != b.name && x.name != b.name && queue.components != []
    requires r.state == Waiting && b.state == Waiting && x.state != Waiting
    requires r.noOfOrder == 0 && x.noOfOrder == 1 && b.noOfOrder == 2
    requires r.nextProcessAt.None? && b.nextProcessAt.None? && x.nextProcessAt.None?
    requires Rank(r, prios) <= Rank(queue, prios) < Rank(x, prios) && env.now == now && env.hasDeployConfig
    requires Scheme(map[r.name := r, x.name := x, b.name := b], queue, bundles)
    ensures Run(ws, ts, es) && es == [Adding(queue, prios, bundles, false), Restart, Pick(true), Handle(env)]
    ensures OneSpecial(now, ws[0]) && SchemeRun(ws, es) && BothRun(ws[4], x.name, b.name)
    ensures RankPlace([r, x, b], 1, Rank(queue, prios), prios) && IsListing(ws[0].queues, [r, x, b])
    ensures Saved(ws[0].queues, ws[1].queues, [Bumped(x), Bumped(b)][..1])
    ensures BumpedFrom([r, x, b], 1, -1, [Bumped(x), Bumped(b)], [1, 2])
  {
    hide Next, Scheme;
    RankedBetween(r, x, b, Rank(queue, prios), prios);
    hide RankPlace, Saved, BumpedFrom;
    var w0 := World(map[r.name := r, x.name := x, b.name := b], stable, Some(x));
    var w1 := World(map[r.name := r, x.name := Bumped(x), b.name := b], stable, Some(x));
    ThreeOneSpecial(now, w0, x, r, b);
    ThreeListed(w0.queues, r, x, b);
    StoppedAfterFirstBump(w0.queues, r, x, b, w1.queues);
    InterruptedAdding(now, w0, w1, queue, prios, bundles);
    ws, ts, es := RestartAndTwin(now, w1, Bumped(x), b, r, env);
    OneEventBefore(now, w0, Adding(queue, prios, bundles, false), ws, ts, es);
    ws, ts, es := [w0] + ws, [now] + ts, [Adding(queue, prios, bundles, false)] + es;
    OneAdding(ws, es);
  }

  // ----- Adds that renew the held queue

  /** A queue outside bundles for one component that no other queue holds. */
  ghost predicate OnlyOwn(m: map<string, Queue>, queue: Queue, comp: Component) {
    && queue.components == [comp] && queue.bundle == "" && queue.nextProcessAt.None?
    && (forall n :: n in m && n != queue.name ==> !Holds(m[n], comp.name))
    && (queue.name in m ==> comp !in m[queue.name].components && forall c :: c in m[queue.name].components ==> c.name == comp.name)
  }

  lemma {:induction false} AllNamedGone(cs: seq<Component>, compName: string)
    requires forall c :: c in cs ==> c.name == compName
    ensures Without(cs, compName) == []
  {
    if cs != [] {
      assert cs[|cs| - 1] in cs;
      AllNamedGone(cs[..|cs| - 1], compName);
    }
  }

  lemma OwnShrinks(q: Queue, comp: Component)
    requires q.components != [] && forall c :: c in q.components ==> c.name == comp.name
    ensures Holds(q, comp.name) && Shrunk(q, comp).components == []
  {
    assert q.components[0] in q.components;
    AllNamedGone(q.components, comp.name);
  }

  lemma OwnIsRemoved(m: map<string, Queue>, queue: Queue, comp: Component)
    requires ListInv(m) && OnlyOwn(m, queue, comp)
    ensures forall n :: n in m ==>
              (Removes(m[n], queue.name, comp) <==> n == queue.name) && !Updates(m[n], queue.name, comp)
  {
    forall n | n in m ensures (Removes(m[n], queue.name, comp) <==> n == queue.name) && !Updates(m[n], queue.name, comp) {
      if n == queue.name {
        OwnShrinks(m[n], comp);
      } else {
        ShrunkSame(m[n], comp);
      }
    }
  }

  lemma DropsOwn(m: map<string, Queue>, queue: Queue, comp: Component)
    requires ListInv(m) && OnlyOwn(m, queue, comp)
    ensures Dropped(m, m - {queue.name}, queue.name, comp) && Emptied(m, m - {queue.name}, comp)
    ensures forall n :: n in m ==> !m[n].ContainSameComponent(queue.name, comp)
  {
    OwnIsRemoved(m, queue, comp);
    OwnIsNew(m, queue, comp);
    hide *;
    DroppedExactly(m, queue.name, comp);
    DroppedIsEmptied(m, m - {queue.name}, queue.name, comp);
  }

  lemma OwnIsNew(m: map<string, Queue>, queue: Queue, comp: Component)
    requires ListInv(m) && OnlyOwn(m, queue, comp)
    ensures OneQueueEach(m) && forall n :: n in m ==> !m[n].ContainSameComponent(queue.name, comp)
  {
  }

  lemma DroppedExactly(m: map<string, Queue>, name: string, comp: Component)
    requires forall n :: n in m ==> (Removes(m[n], name, comp) <==> n == name) && !Updates(m[n], name, comp)
    ensures Dropped(m, m - {name}, name, comp)
  {
  }

  lemma ClearedOnly(m: map<string, Queue>, m1: map<string, Queue>, queue: Queue, comp: Component)
    requires Dropped(m, m1, queue.name, comp)
    ensures Cleared(m, m1, m1, true, false, queue, comp)
  {
  }

  lemma TrailOfCreation(now: int, m: map<string, Queue>, mid: map<string, Queue>, queue: Queue, comp: Component, order: int,
                        prios: seq<string>, list: seq<Queue>, at: nat, rv: nat)
    requires ListInv(m) && OnlyOwn(m, queue, comp) && OrdersOnly(m - {queue.name}, mid)
    requires PlacedAt(now, m - {queue.name}, mid, queue, comp, order, prios, list, at, -1)
    ensures var rest := m - {queue.name};
            AddTrail(now, Trail(rest, rest, mid, false, order), m, mid[queue.name := Created(queue, order, rv)],
                     queue, comp, prios)
    ensures queue.components == [comp] && queue.nextProcessAt.None?
    ensures forall n :: n in m ==> !m[n].ContainSameComponent(queue.name, comp)
  {
    var rest := m - {queue.name};
    DropsOwn(m, queue, comp);
    assert queue.name !in mid && !Joins(rest, queue, comp);
    hide Dropped, Emptied, PlacedAt, ListInv, OrdersOnly, Joins;
    assert Placed(now, rest, mid, queue, comp, order, prios);
    CreationTrail(now, m, rest, mid, queue, comp, order, prios, rv);
  }

  lemma CreationTrail(now: int, m: map<string, Queue>, rest: map<string, Queue>, mid: map<string, Queue>, queue: Queue,
                      comp: Component, order: int, prios: seq<string>, rv: nat)
    requires Dropped(m, rest, queue.name, comp) && Emptied(m, rest, comp) && !Joins(rest, queue, comp)
    requires OrdersOnly(rest, mid) && Placed(now, rest, mid, queue, comp, order, prios) && queue.name !in mid
    ensures AddTrail(now, Trail(rest, rest, mid, false, order), m, mid[queue.name := Created(queue, order, rv)], queue, comp, prios)
  {
    hide Dropped, Emptied, Cleared, OrdersOnly, Joins, Placed;
    ClearedOnly(m, rest, queue, comp);
  }

  /** What Add computes for it, by its own trail, is an Adding event. */
  lemma CreatesAnew(now: int, m: map<string, Queue>, mid: map<string, Queue>, queue: Queue, comp: Component, order: int,
                    prios: seq<string>, bundles: set<string>, list: seq<Queue>, at: nat, rv: nat)
    requires ListInv(m) && WellNamed(m, bundles) && NamedByScheme(queue, bundles) && OnlyOwn(m, queue, comp)
    requires OrdersOnly(m - {queue.name}, mid)
    requires PlacedAt(now, m - {queue.name}, mid, queue, comp, order, prios, list, at, -1)
    ensures var rest := m - {queue.name};
            AddTrail(now, Trail(rest, rest, mid, false, order), m, mid[queue.name := Created(queue, order, rv)],
                     queue, comp, prios)
    ensures var m' := mid[queue.name := Created(queue, order, rv)];
            AddedBy(now, m, m', queue, prios, bundles, true) && ListInv(m') && WellNamed(m', bundles)
  {
    var rest, m' := m - {queue.name}, mid[queue.name := Created(queue, order, rv)];
    var t := Trail(rest, rest, mid, false, order);
    TrailOfCreation(now, m, mid, queue, comp, order, prios, list, at, rv);
    assert AddWrites(t, m, m', true, queue, comp);
    hide AddTrail, AddWrites, PlacedAt, OnlyOwn, OneQueueEach, NoneEmpty, WellNamed, NamedByScheme, OrdersOnly, AddedBy;
    WritesAreAdded(now, t, m, m', queue, comp, prios, bundles);
  }

  lemma RankedNowhere(q: Queue)
    ensures Rank(q, []) == 0
  {
  }

  /** Without priorities the number is one more than that of the last of the sorted list. */
  lemma BehindOne(now: int, m: map<string, Queue>, p: Queue, queue: Queue, comp: Component)
    requires m.Keys == {p.name} && m[p.name] == p
    ensures PlacedAt(now, m, m, queue, comp, p.noOfOrder + 1, [], [p], 1, -1)
  {
    var list := [p];
    assert list[0] == p && multiset(list) == multiset{p};
    RankedNowhere(p);
    RankedNowhere(queue);
  }

  lemma BehindTwo(now: int, m: map<string, Queue>, x: Queue, p: Queue, queue: Queue, comp: Component)
    requires x.name != p.name && m.Keys == {x.name, p.name} && m[x.name] == x && m[p.name] == p
    requires KeyLess(KeyOf(now, x), KeyOf(now, p))
    ensures PlacedAt(now, m, m, queue, comp, p.noOfOrder + 1, [], [x, p], 2, -1)
  {
    var list := [x, p];
    assert list[0] == x && list[1] == p && multiset(list) == multiset{x, p};
    RankedNowhere(x);
    RankedNowhere(p);
    RankedNowhere(queue);
  }

  /** The start: x is held and running, p is postponed behind it. A newer version of x arrives, and then
      another queue z. */
  ghost predicate HeldAndPostponed(now: int, m: map<string, Queue>, x: Queue, p: Queue, queue: Queue, comp: Component,
                                   z: Queue, zcomp: Component, bundles: set<string>) {
    && x.name != p.name && x.name != z.name && p.name != z.name && queue.name == x.name
    && m.Keys == {x.name, p.name} && m[x.name] == x && m[p.name] == p && ListInv(m) && WellNamed(m, bundles)
    && x.state != Waiting && x.state != Deleting && x.nextProcessAt.None? && p.state == Waiting && Postponed(now, p)
    && x.noOfOrder < p.noOfOrder
    && queue.components == [comp] && queue.nextProcessAt.None?
    && NamedByScheme(queue, bundles) && OnlyOwn(m, queue, comp) && NamedByScheme(z, bundles)
    && zcomp.name != comp.name && OnlyOwn(m, z, zcomp)
  }

  /** The newer version: x is created anew, behind p. */
  lemma RenewedBehind(now: int, m: map<string, Queue>, x: Queue, p: Queue, queue: Queue, comp: Component, z: Queue,
                      zcomp: Component, bundles: set<string>, rv: nat)
    requires HeldAndPostponed(now, m, x, p, queue, comp, z, zcomp, bundles)
    ensures var m' := (m - {x.name})[x.name := Created(queue, p.noOfOrder + 1, rv)];
            && AddedBy(now, m, m', queue, [], bundles, true) && ListInv(m') && WellNamed(m', bundles)
            && !Settled(now, m, queue, [])
  {
    var rest := m - {x.name};
    BehindOne(now, rest, p, queue, comp);
    CreatesAnew(now, m, rest, queue, comp, p.noOfOrder + 1, [], bundles, [p], 1, rv);
  }

  /** The other queue: it gets the number of x. */
  lemma CollidesBehind(now: int, m: map<string, Queue>, x: Queue, p: Queue, z: Queue, zcomp: Component, bundles: set<string>,
                       rv: nat)
    requires x.name != p.name && m.Keys == {x.name, p.name} && m[x.name] == x && m[p.name] == p && z.name !in m
    requires ListInv(m) && WellNamed(m, bundles) && NamedByScheme(z, bundles) && OnlyOwn(m, z, zcomp)
    requires KeyLess(KeyOf(now, x), KeyOf(now, p))
    ensures AddedBy(now, m, m[z.name := Created(z, p.noOfOrder + 1, rv)], z, [], bundles, true)
  {
    assert m - {z.name} == m;
    BehindTwo(now, m, x, p, z, zcomp);
    CreatesAnew(now, m, m, z, zcomp, p.noOfOrder + 1, [], bundles, [x, p], 2, rv);
  }

  lemma SixEvents(now: int, w0: World, w1: World, w2: World, w3: World, e0: Event, e1: Event, e2: Event, ws: seq<World>,
                  ts: seq<int>, es: seq<Event>)
    requires Run(ws, ts, es) && ts[0] == now && ws[0] == w3
    requires Next(now, w0, e0, now, w1) && Next(now, w1, e1, now, w2) && Next(now, w2, e2, now, w3)
    ensures Run([w0, w1, w2] + ws, [now, now, now] + ts, [e0, e1, e2] + es)
  {
    OneEventBefore(now, w2, e2, ws, ts, es);
    OneEventBefore(now, w1, e1, [w2] + ws, [now] + ts, [e2] + es);
    OneEventBefore(now, w0, e0, [w1] + ([w2] + ws), [now] + ([now] + ts), [e1] + ([e2] + es));
    assert [w0] + ([w1] + ([w2] + ws)) == [w0, w1, w2] + ws;
    assert [now] + ([now] + ([now] + ts)) == [now, now, now] + ts;
    assert [e0] + ([e1] + ([e2] + es)) == [e0, e1, e2] + es;
  }

  /** x renewed behind p. */
  lemma RenewedWorld(now: int, m: map<string, Queue>, x: Queue, p: Queue, queue: Queue, comp: Component, z: Queue,
                     zcomp: Component, bundles: set<string>, stable: map<string, Component>)
    returns (w1: World)
    requires HeldAndPostponed(now, m, x, p, queue, comp, z, zcomp, bundles)
    ensures Next(now, World(m, stable, Some(x)), Adding(queue, [], bundles, true), now, w1) && w1.current == Some(x)
    ensures w1.queues.Keys == m.Keys && w1.queues[p.name] == p && w1.queues[x.name] == Created(queue, p.noOfOrder + 1, 0)
    ensures ListInv(w1.queues) && WellNamed(w1.queues, bundles)
  {
    hide AddedBy, ListInv, WellNamed, NamedByScheme, OnlyOwn, Settled;
    RenewedBehind(now, m, x, p, queue, comp, z, zcomp, bundles, 0);
    w1 := World((m - {x.name})[x.name := Created(queue, p.noOfOrder + 1, 0)], stable, Some(x));
  }

  /** ... and started again. */
  lemma RenewedAndStarted(now: int, m: map<string, Queue>, x: Queue, p: Queue, queue: Queue, comp: Component, z: Queue,
                          zcomp: Component, bundles: set<string>, w1: World, env: Env)
    returns (w2: World, x2: Queue)
    requires m.Keys == {x.name, p.name} && m[p.name] == p && queue.name == x.name && queue.components == [comp]
    requires x.name != p.name && x.state != Deleting && queue.nextProcessAt.None?
    requires zcomp.name != comp.name && OnlyOwn(m, z, zcomp) && z.name !in m && env.now == now && env.hasDeployConfig
    requires w1.queues.Keys == m.Keys && w1.queues[p.name] == p && w1.queues[x.name] == Created(queue, p.noOfOrder + 1, 0)
    requires w1.current == Some(x) && ListInv(w1.queues) && WellNamed(w1.queues, bundles)
    ensures Next(now, w1, Handle(env), now, w2) && w2.queues.Keys == m.Keys && w2.queues[x.name] == x2 && w2.queues[p.name] == p
    ensures ListInv(w2.queues) && WellNamed(w2.queues, bundles) && OnlyOwn(w2.queues, z, zcomp)
    ensures x2.name == x.name && x2.noOfOrder == p.noOfOrder + 1 && x2.nextProcessAt.None? && x2.state != Waiting
  {
    hide Next, OnlyOwn, ListInv, WellNamed;
    x2, w2 := Begun(w1.queues[x.name]), Started(w1, x.name);
    StartsHeld(now, w1, x.name, env);
    StartedKeepsList(w1, x.name, bundles);
    RenewedOnlyOwn(m, w2.queues, x, p, x2, comp, z, zcomp);
  }

  lemma AddedIsNext(now: int, w: World, w': World, queue: Queue, prios: seq<string>, bundles: set<string>)
    requires w' == w.(queues := w'.queues) && AddedBy(now, w.queues, w'.queues, queue, prios, bundles, true)
    ensures Next(now, w, Adding(queue, prios, bundles, true), now, w')
  {
  }

  lemma ThreeWith(m: map<string, Queue>, x: Queue, z: Queue, p: Queue)
    requires x.name != p.name && m.Keys == {x.name, p.name} && m[x.name] == x && m[p.name] == p && z.name !in m
    ensures Three(m[z.name := z], x, z, p)
  {
  }

  /** z added beside it, with the same number. */
  lemma CollisionAdded(now: int, w2: World, x2: Queue, p: Queue, z: Queue, zcomp: Component, bundles: set<string>)
    returns (w3: World, z1: Queue)
    requires x2.name != p.name && w2.queues.Keys == {x2.name, p.name} && w2.queues[x2.name] == x2 && w2.queues[p.name] == p
    requires ListInv(w2.queues) && WellNamed(w2.queues, bundles) && OnlyOwn(w2.queues, z, zcomp) && z.name !in w2.queues
    requires NamedByScheme(z, bundles) && Postponed(now, p) && x2.nextProcessAt.None? && x2.noOfOrder == p.noOfOrder + 1
    ensures Next(now, w2, Adding(z, [], bundles, true), now, w3) && Three(w3.queues, x2, z1, p) && Twins(x2, z1)
    ensures z1.state == Waiting && z1.name == z.name && KeyOf(now, p) != KeyOf(now, x2)
  {
    z1 := Created(z, p.noOfOrder + 1, 0);
    w3 := w2.(queues := w2.queues[z.name := z1]);
    CollidesBehind(now, w2.queues, x2, p, z, zcomp, bundles, 0);
    AddedIsNext(now, w2, w3, z, [], bundles);
    ThreeWith(w2.queues, x2, z1, p);
    hide Next, Three;
  }

  /** The three steps up to the collision. */
  lemma UpToCollision(now: int, m: map<string, Queue>, x: Queue, p: Queue, queue: Queue, comp: Component, z: Queue,
                      zcomp: Component, bundles: set<string>, stable: map<string, Component>, env: Env)
    returns (w1: World, w2: World, w3: World, x2: Queue, z1: Queue)
    requires HeldAndPostponed(now, m, x, p, queue, comp, z, zcomp, bundles) && env.now == now && env.hasDeployConfig
    ensures Next(now, World(m, stable, Some(x)), Adding(queue, [], bundles, true), now, w1)
    ensures Next(now, w1, Handle(env), now, w2) && Next(now, w2, Adding(z, [], bundles, true), now, w3)
    ensures Three(w3.queues, x2, z1, p) && Twins(x2, z1) && x2.state != Waiting && z1.state == Waiting
    ensures x2.name == x.name && z1.name == z.name && Scheme(w2.queues, z, bundles) && KeyOf(now, p) != KeyOf(now, x2)
  {
    hide Next, NoneEmpty, OneQueueEach, WellNamed, NamedByScheme, OnlyOwn, Three, Twins;
    w1 := RenewedWorld(now, m, x, p, queue, comp, z, zcomp, bundles, stable);
    w2, x2 := RenewedAndStarted(now, m, x, p, queue, comp, z, zcomp, bundles, w1, env);
    w3, z1 := CollisionAdded(now, w2, x2, p, z, zcomp, bundles);
  }

  /** A newer version of the held component while another queue is postponed: the renewed queue goes behind
      the postponed one, the next new queue gets the same number, and after a restart both run. */
  lemma RenewedHeldBreaks(now: int, m: map<string, Queue>, x: Queue, p: Queue, queue: Queue, comp: Component, z: Queue,
                          zcomp: Component, bundles: set<string>, stable: map<string, Component>, env: Env)
    returns (ws: seq<World>, ts: seq<int>, es: seq<Event>)
    requires HeldAndPostponed(now, m, x, p, queue, comp, z, zcomp, bundles) && env.now == now && env.hasDeployConfig
    ensures Run(ws, ts, es) && ws[0] == World(m, stable, Some(x)) && ts[0] == now
    ensures es == [Adding(queue, [], bundles, true), Handle(env), Adding(z, [], bundles, true), Restart, Pick(true), Handle(env)]
    ensures OneSpecial(now, ws[0]) && SchemeRun(ws, es) && !Settled(now, m, queue, []) && BothRun(ws[6], x.name, z.name)
  {
    hide *;
    var w0 := World(m, stable, Some(x));
    HeldStart(now, m, x, p, queue, comp, z, zcomp, bundles, stable);
    var w1, w2, w3, x2, z1 := UpToCollision(now, m, x, p, queue, comp, z, zcomp, bundles, stable, env);
    ws, ts, es := RestartAndTwin(now, w3, x2, z1, p, env);
    SixEvents(now, w0, w1, w2, w3, Adding(queue, [], bundles, true), Handle(env), Adding(z, [], bundles, true), ws, ts, es);
    ws, ts := [w0, w1, w2] + ws, [now, now, now] + ts;
    es := [Adding(queue, [], bundles, true), Handle(env), Adding(z, [], bundles, true)] + es;
    TwoAddings(ws, es);
  }

  lemma HeldStart(now: int, m: map<string, Queue>, x: Queue, p: Queue, queue: Queue, comp: Component, z: Queue,
                  zcomp: Component, bundles: set<string>, stable: map<string, Component>)
    requires HeldAndPostponed(now, m, x, p, queue, comp, z, zcomp, bundles)
    ensures Scheme(m, queue, bundles) && OneSpecial(now, World(m, stable, Some(x))) && !Settled(now, m, queue, [])
    ensures p.state == Waiting
  {
    TwoOneSpecial(now, World(m, stable, Some(x)), x, p);
  }

  lemma StartsHeld(now: int, w: World, n: string, env: Env)
    requires n in w.queues && w.queues[n].state == Waiting && env.hasDeployConfig && env.now == now && ListInv(w.queues)
    requires w.current.Some? && w.current.value.name == n && w.current.value.state != Deleting
    ensures Next(now, w, Handle(env), now, Started(w, n))
  {
    StartsWaiting(w, n, env);
  }

  lemma StartedKeepsList(w: World, n: string, bundles: set<string>)
    requires ListInv(w.queues) && WellNamed(w.queues, bundles) && n in w.queues
    ensures ListInv(Started(w, n).queues) && WellNamed(Started(w, n).queues, bundles)
  {
    QueueCleanup.KeepsListWithFewer(w.queues, n, Begun(w.queues[n]));
    assert NamedByScheme(w.queues[n], bundles);
  }

  lemma RenewedOnlyOwn(m: map<string, Queue>, m2: map<string, Queue>, x: Queue, p: Queue, x2: Queue, comp: Component, z: Queue,
                       zcomp: Component)
    requires m.Keys == m2.Keys == {x.name, p.name} && m2[x.name] == x2 && m2[p.name] == m[p.name]
    requires multiset(x2.components) == multiset{comp} && zcomp.name != comp.name && OnlyOwn(m, z, zcomp) && z.name !in m
    ensures OnlyOwn(m2, z, zcomp)
  {
    assert forall c :: c in x2.components ==> c in multiset(x2.components);
  }

  lemma TwoOneSpecial(now: int, w: World, x: Queue, p: Queue)
    requires x.name != p.name && w.queues.Keys == {x.name, p.name} && w.queues[x.name] == x && w.queues[p.name] == p
    requires p.state == Waiting && !Postponed(now, x) && x.noOfOrder < p.noOfOrder
    requires w.current.None? || w.current.value.name == x.name
    ensures OneSpecial(now, w)
  {
    assert forall y :: Special(w, y) ==> y == x.name;
  }

  // ----- The same without anything postponed

  /** x is held and running; two waiting queues share a number, and the newer version of x ranks between them. */
  ghost predicate HeldAndShared(now: int, m: map<string, Queue>, x: Queue, a: Queue, b: Queue, queue: Queue, comp: Component,
                                prios: seq<string>, bundles: set<string>) {
    && Three(m, x, a, b) && queue.name == x.name && queue.components == [comp] && queue.nextProcessAt.None?
    && ListInv(m) && WellNamed(m, bundles) && NamedByScheme(queue, bundles) && OnlyOwn(m, queue, comp)
    && x.state != Waiting && x.state != Deleting && a.state == Waiting && b.state == Waiting
    && x.nextProcessAt.None? && a.nextProcessAt.None? && b.nextProcessAt.None?
    && a.noOfOrder == b.noOfOrder != x.noOfOrder && Rank(a, prios) <= Rank(queue, prios) < Rank(b, prios)
  }

  lemma BetweenShared(now: int, m: map<string, Queue>, a: Queue, b: Queue, queue: Queue, comp: Component, prios: seq<string>,
                      mid: map<string, Queue>)
    requires a.name != b.name && m.Keys == {a.name, b.name} && m[a.name] == a && m[b.name] == b && mid == m[b.name := Bumped(b)]
    requires a.noOfOrder == b.noOfOrder && a.nextProcessAt.None? && b.nextProcessAt.None?
    requires Rank(a, prios) <= Rank(queue, prios) < Rank(b, prios)
    ensures OrdersOnly(m, mid) && PlacedAt(now, m, mid, queue, comp, a.noOfOrder + 1, prios, [a, b], 1, -1)
  {
    var list := [a, b];
    assert list[0] == a && list[1] == b && multiset(list) == multiset{a, b};
  }

  /** x goes between the two, and the one behind it moves up to the number x got. */
  lemma RenewedBetween(now: int, m: map<string, Queue>, x: Queue, a: Queue, b: Queue, queue: Queue, comp: Component,
                       prios: seq<string>, bundles: set<string>, stable: map<string, Component>)
    returns (w1: World)
    requires HeldAndShared(now, m, x, a, b, queue, comp, prios, bundles)
    ensures w1 == World(w1.queues, stable, Some(x)) && AddedBy(now, m, w1.queues, queue, prios, bundles, true)
    ensures Three(w1.queues, Created(queue, a.noOfOrder + 1, 0), Bumped(b), a) && ListInv(w1.queues)
  {
    hide AddedBy, ListInv;
    var m1 := (m - {x.name})[b.name := Bumped(b)][x.name := Created(queue, a.noOfOrder + 1, 0)];
    AddedBetween(now, m, x, a, b, queue, comp, prios, bundles, m1);
    w1 := World(m1, stable, Some(x));
  }

  lemma AddedBetween(now: int, m: map<string, Queue>, x: Queue, a: Queue, b: Queue, queue: Queue, comp: Component,
                     prios: seq<string>, bundles: set<string>, m1: map<string, Queue>)
    requires HeldAndShared(now, m, x, a, b, queue, comp, prios, bundles)
    requires m1 == (m - {x.name})[b.name := Bumped(b)][x.name := Created(queue, a.noOfOrder + 1, 0)]
    ensures AddedBy(now, m, m1, queue, prios, bundles, true) && ListInv(m1)
  {
    hide AddTrail, AddedBy, PlacedAt, OnlyOwn, ListInv, WellNamed, NamedByScheme, OrdersOnly;
    var rest := m - {x.name};
    var mid := rest[b.name := Bumped(b)];
    BetweenShared(now, rest, a, b, queue, comp, prios, mid);
    CreatesAnew(now, m, mid, queue, comp, a.noOfOrder + 1, prios, bundles, [a, b], 1, 0);
  }

  lemma StartedThree(w: World, x: Queue, a: Queue, b: Queue)
    requires Three(w.queues, x, a, b)
    ensures Three(Started(w, x.name).queues, Begun(x), a, b)
  {
  }

  /** The renewed queue is started, and after a restart its twin as well. */
  lemma RenewedRun(now: int, w0: World, w1: World, b: Queue, b1: Queue, x: Queue, u1: Queue, queue: Queue, prios: seq<string>,
                   bundles: set<string>, env: Env)
    returns (ws: seq<World>, ts: seq<int>, es: seq<Event>)
    requires w1 == w0.(queues := w1.queues) && AddedBy(now, w0.queues, w1.queues, queue, prios, bundles, true)
    requires Three(w1.queues, b1, x, u1) && w1.current == Some(b) && b1.name == b.name && b.state != Deleting
    requires Twins(b1, x) && b1.state == Waiting && x.state == Waiting && u1.state == Waiting && u1.noOfOrder != x.noOfOrder
    requires ListInv(w1.queues) && u1.nextProcessAt.None? && env.now == now && env.hasDeployConfig
    requires Scheme(w0.queues, queue, bundles)
    ensures Run(ws, ts, es) && SchemeRun(ws, es) && ws[0] == w0 && ts[0] == now
    ensures es == [Adding(queue, prios, bundles, true), Handle(env), Restart, Pick(true), Handle(env)]
    ensures BothRun(ws[5], b.name, x.name)
  {
    hide Next, ListInv, AddedBy, Scheme;
    AddedIsNext(now, w0, w1, queue, prios, bundles);
    StartsHeld(now, w1, b.name, env);
    StartedThree(w1, b1, x, u1);
    hide Three, Run;
    var w2 := Started(w1, b.name);
    ws, ts, es := RestartAndTwin(now, w2, Begun(b1), x, u1, env);
    OneEventBefore(now, w1, Handle(env), ws, ts, es);
    OneEventBefore(now, w0, Adding(queue, prios, bundles, true), [w1] + ws, [now] + ts, [Handle(env)] + es);
    ws, ts := [w0] + ([w1] + ws), [now] + ([now] + ts);
    es := [Adding(queue, prios, bundles, true)] + ([Handle(env)] + es);
    OneAdding(ws, es);
  }

  /** A newer version of the held component while two queues share a number. */
  lemma SharedNumberBreaks(now: int, m: map<string, Queue>, x: Queue, a: Queue, b: Queue, queue: Queue, comp: Component,
                           prios: seq<string>, bundles: set<string>, stable: map<string, Component>, env: Env)
    returns (ws: seq<World>, ts: seq<int>, es: seq<Event>)
    requires HeldAndShared(now, m, x, a, b, queue, comp, prios, bundles) && env.now == now && env.hasDeployConfig
    ensures Run(ws, ts, es) && ws[0] == World(m, stable, Some(x)) && ts[0] == now
    ensures es == [Adding(queue, prios, bundles, true), Handle(env), Restart, Pick(true), Handle(env)]
    ensures OneSpecial(now, ws[0]) && SchemeRun(ws, es) && !Settled(now, m, queue, prios) && BothRun(ws[5], x.name, b.name)
  {
    hide *;
    var w0 := World(m, stable, Some(x));
    SharedStart(now, m, x, a, b, queue, comp, prios, bundles, stable);
    var w1 := RenewedBetween(now, m, x, a, b, queue, comp, prios, bundles, stable);
    ws, ts, es := RenewedRun(now, w0, w1, x, Created(queue, a.noOfOrder + 1, 0), Bumped(b), a, queue, prios, bundles, env);
  }

  lemma SharedStart(now: int, m: map<string, Queue>, x: Queue, a: Queue, b: Queue, queue: Queue, comp: Component,
                    prios: seq<string>, bundles: set<string>, stable: map<string, Component>)
    requires HeldAndShared(now, m, x, a, b, queue, comp, prios, bundles)
    ensures Scheme(m, queue, bundles) && OneSpecial(now, World(m, stable, Some(x))) && !Settled(now, m, queue, prios)
    ensures var x1 := Created(queue, a.noOfOrder + 1, 0);
            && x1.name == x.name && Bumped(b).name == b.name && Twins(x1, Bumped(b)) && x1.state == Waiting
            && Bumped(b).state == Waiting && a.state == Waiting && a.noOfOrder != Bumped(b).noOfOrder
            && a.nextProcessAt.None? && x.state != Deleting
  {
    hide OnlyOwn;
    SharedNotSettled(now, m, x, a, b, queue, comp, prios, bundles);
    hide Settled;
    ThreeOneSpecial(now, World(m, stable, Some(x)), x, a, b);
  }

  /** The list is not settled at the start. */
  lemma SharedNotSettled(now: int, m: map<string, Queue>, x: Queue, a: Queue, b: Queue, queue: Queue, comp: Component,
                         prios: seq<string>, bundles: set<string>)
    requires HeldAndShared(now, m, x, a, b, queue, comp, prios, bundles)
    ensures !Settled(now, m, queue, prios)
  {
    hide ListInv, WellNamed, OnlyOwn;
    assert m[a.name].noOfOrder == m[b.name].noOfOrder;
  }

  // ----- The reused index

  /** b is held and has no component left; u holds an older version of the component and another one; x waits
      right behind u. */
  ghost predicate HeldAndEmpty(now: int, m: map<string, Queue>, b: Queue, u: Queue, x: Queue, queue: Queue, comp: Component,
                               bundles: set<string>) {
    && Three(m, b, u, x) && Scheme(m, queue, bundles) && b.components == [] && x.components != []
    && Updates(u, queue.name, comp) && !Holds(x, comp.name)
    && queue.name == queue.bundle == b.name && u.bundle != b.name && x.bundle != b.name
    && queue.components == [comp] && queue.nextProcessAt.None?
    && b.state != Waiting && b.state != Deleting && u.state == Waiting && x.state == Waiting
    && b.nextProcessAt.None? && u.nextProcessAt.None? && x.nextProcessAt.None?
    && x.noOfOrder == u.noOfOrder + 1 && b.noOfOrder != u.noOfOrder && b.noOfOrder != x.noOfOrder
  }

  /** What is left of the list in the cluster: b is deleted and u rewritten. */
  function Left(u: Queue, x: Queue, comp: Component): map<string, Queue> {
    map[u.name := Refresh(Shrunk(u, comp), 0), x.name := x]
  }

  /** What the Add finds in the list [b, u, x]: b is deleted, u is put back over x, and the next number after
      what is left in memory is that of x. */
  lemma IndexOverwrites(now: int, m: map<string, Queue>, b: Queue, u: Queue, x: Queue, queue: Queue, comp: Component,
                        bundles: set<string>)
    requires HeldAndEmpty(now, m, b, u, x, queue, comp, bundles)
    ensures IsListing(m, [b, u, x]) && RemovedSimilar([b, u, x], queue.name, comp) == [b]
    ensures KeptSimilar([b, u, x], queue.name, comp) == [Shrunk(u, comp), x]
    ensures UpdatedSimilar([b, u, x], queue.name, comp) == [None, Some(Shrunk(u, comp)), None]
    ensures var items := [Shrunk(u, comp), Refresh(Shrunk(u, comp), 0)];
            && PutBack([Shrunk(u, comp), x], items, [None, Some(Shrunk(u, comp)), None], Left(u, x, comp), 0)
            && UpdatedBundles(items, queue.name, queue.bundle, comp) == [None, None]
            && forall sorted: seq<Queue> :: IsSortOf(now, items, sorted) ==>
                 |sorted| == 2 && sorted[1].noOfOrder + 1 == x.noOfOrder
  {
    hide *;
    EmptiedFacts(now, m, b, u, x, queue, comp, bundles);
    ThreeListed(m, b, u, x);
    SimilarOfThree(b, u, x, queue.name, comp);
    PutOver(u, x, comp);
    NobodysBundle([Shrunk(u, comp), Refresh(Shrunk(u, comp), 0)], queue.name, queue.bundle, comp);
    LastOfTwo(now, Shrunk(u, comp), Refresh(Shrunk(u, comp), 0), x.noOfOrder);
  }

  lemma EmptiedFacts(now: int, m: map<string, Queue>, b: Queue, u: Queue, x: Queue, queue: Queue, comp: Component,
                     bundles: set<string>)
    requires HeldAndEmpty(now, m, b, u, x, queue, comp, bundles)
    ensures Three(m, b, u, x) && b.name != u.name && b.name != x.name && u.name != x.name
    ensures Removes(b, queue.name, comp) && Updates(u, queue.name, comp)
    ensures !Removes(x, queue.name, comp) && !Updates(x, queue.name, comp)
    ensures Shrunk(u, comp).bundle != queue.bundle && Refresh(Shrunk(u, comp), 0).bundle != queue.bundle
    ensures Shrunk(u, comp).noOfOrder + 1 == x.noOfOrder && Refresh(Shrunk(u, comp), 0).noOfOrder + 1 == x.noOfOrder
    ensures queue.name == b.name && forall n :: n in m ==> !m[n].ContainSameComponent(queue.name, comp)
  {
    hide Scheme;
    EmptyIsRemoved(b, queue.name, comp);
    ShrunkSame(x, comp);
  }

  lemma PutOver(u: Queue, x: Queue, comp: Component)
    requires u.name != x.name
    ensures var u0, u1 := Shrunk(u, comp), Refresh(Shrunk(u, comp), 0);
            PutBack([u0, x], [u0, u1], [None, Some(u0), None], Left(u, x, comp), 0)
  {
    var u0, u1 := Shrunk(u, comp), Refresh(Shrunk(u, comp), 0);
    assert u0.name == u1.name == u.name && StoredAs(u0, u1, Left(u, x, comp), 0);
    hide Shrunk, StoredAs;
  }

  lemma LastOfTwo(now: int, u0: Queue, u1: Queue, order: int)
    requires u0.noOfOrder + 1 == order && u1.noOfOrder + 1 == order
    ensures forall sorted: seq<Queue> :: IsSortOf(now, [u0, u1], sorted) ==> |sorted| == 2 && sorted[1].noOfOrder + 1 == order
  {
    forall sorted: seq<Queue> | IsSortOf(now, [u0, u1], sorted) ensures |sorted| == 2 && sorted[1].noOfOrder + 1 == order {
      SamePermutationMembers([u0, u1], sorted);
      assert sorted[1] in [u0, u1];
    }
  }

  lemma EmptyIsRemoved(q: Queue, name: string, comp: Component)
    requires q.components == []
    ensures Removes(q, name, comp)
  {
  }

  lemma SimilarOfThree(b: Queue, u: Queue, x: Queue, name: string, comp: Component)
    requires b.name != u.name && b.name != x.name && u.name != x.name
    requires Removes(b, name, comp) && Updates(u, name, comp) && !Removes(x, name, comp) && !Updates(x, name, comp)
    ensures RemovedSimilar([b, u, x], name, comp) == [b] && KeptSimilar([b, u, x], name, comp) == [Shrunk(u, comp), x]
    ensures UpdatedSimilar([b, u, x], name, comp) == [None, Some(Shrunk(u, comp)), None]
  {
    hide *;
    UpdatesNotRemoves(u, name, comp);
    SimilarOfTwo(b, u, name, comp);
    KeptAsIs(x, name, comp);
    SimilarNext([b, u], x, name, comp);
    assert [b, u] + [x] == [b, u, x];
    assert [Shrunk(u, comp)] + [x] == [Shrunk(u, comp), x] && [b] + [] == [b];
    assert [None, Some(Shrunk(u, comp))] + [None] == [None, Some(Shrunk(u, comp)), None];
  }

  lemma UpdatesNotRemoves(q: Queue, name: string, comp: Component)
    requires Updates(q, name, comp)
    ensures !Removes(q, name, comp)
  {
  }

  lemma SimilarOfTwo(b: Queue, u: Queue, name: string, comp: Component)
    requires b.name != u.name && Removes(b, name, comp) && Updates(u, name, comp) && !Removes(u, name, comp)
    ensures RemovedSimilar([b, u], name, comp) == [b] && KeptSimilar([b, u], name, comp) == [Shrunk(u, comp)]
    ensures UpdatedSimilar([b, u], name, comp) == [None, Some(Shrunk(u, comp))]
  {
    hide *;
    SimilarOfOne(b, name, comp);
    KeptAsIs(u, name, comp);
    SimilarNext([b], u, name, comp);
    assert [b] + [u] == [b, u] && [b] + [] == [b] && [] + [Shrunk(u, comp)] == [Shrunk(u, comp)];
    assert [None] + [Some(Shrunk(u, comp))] == [None, Some(Shrunk(u, comp))];
  }

  lemma SimilarOfOne(b: Queue, name: string, comp: Component)
    requires Removes(b, name, comp)
    ensures RemovedSimilar([b], name, comp) == [b] && KeptSimilar([b], name, comp) == []
    ensures !Updates(b, name, comp) && UpdatedSimilar([b], name, comp) == [None]
  {
    NothingSimilar(name, comp);
    SimilarNext([], b, name, comp);
    assert [] + [b] == [b];
  }

  lemma NothingSimilar(name: string, comp: Component)
    ensures KeptSimilar([], name, comp) == [] && RemovedSimilar([], name, comp) == [] && UpdatedSimilar([], name, comp) == []
  {
  }

  lemma KeptAsIs(q: Queue, name: string, comp: Component)
    ensures KeptAs(q, name, comp) == if Updates(q, name, comp) then Shrunk(q, comp) else q
  {
  }

  lemma SimilarNext(before: seq<Queue>, q: Queue, name: string, comp: Component)
    requires forall p :: p in before ==> p.name != q.name
    requires forall i, j :: 0 <= i < j < |before| ==> before[i].name != before[j].name
    ensures KeptSimilar(before + [q], name, comp) ==
            KeptSimilar(before, name, comp) + (if Removes(q, name, comp) then [] else [KeptAs(q, name, comp)])
    ensures RemovedSimilar(before + [q], name, comp) ==
            RemovedSimilar(before, name, comp) + (if Removes(q, name, comp) then [q] else [])
    ensures UpdatedSimilar(before + [q], name, comp) ==
            UpdatedSimilar(before, name, comp) + [if Updates(q, name, comp) then Some(Shrunk(q, comp)) else None]
  {
    assert (before + [q])[..|before|] == before;
    SimilarLast(before + [q], name, comp);
  }

  lemma NobodysBundle(items: seq<Queue>, name: string, bundle: string, comp: Component)
    requires |items| == 2 && items[0].bundle != bundle && items[1].bundle != bundle
    ensures UpdatedBundles(items, name, bundle, comp) == [None, None]
  {
    BundleAt(items, 0, name, bundle, comp);
    BundleAt(items, 1, name, bundle, comp);
  }

  /** What the Add writes for it. */
  lemma EmptiedWrites(now: int, m: map<string, Queue>, b: Queue, u: Queue, x: Queue, queue: Queue, comp: Component,
                      bundles: set<string>)
    requires HeldAndEmpty(now, m, b, u, x, queue, comp, bundles)
    ensures var left := Left(u, x, comp);
            AddWrites(Trail(left, left, left, false, x.noOfOrder), m,
                      left[queue.name := Created(queue, x.noOfOrder, 0)], true, queue, comp)
    ensures !Fits(m, queue.name, comp) && forall n :: n in m ==> !m[n].ContainSameComponent(queue.name, comp)
  {
    hide *;
    EmptiedFacts(now, m, b, u, x, queue, comp, bundles);
    EmptiedDropped(m, b, u, x, queue.name, comp);
    ClearedOnly(m, Left(u, x, comp), queue, comp);
    EmptiedNamed(u, x, comp, b.name);
    CreationWrites(m, Left(u, x, comp), queue, comp, x.noOfOrder, 0);
  }

  lemma EmptiedNamed(u: Queue, x: Queue, comp: Component, name: string)
    requires name != u.name && name != x.name
    ensures name !in Left(u, x, comp)
  {
  }

  lemma EmptiedDropped(m: map<string, Queue>, b: Queue, u: Queue, x: Queue, name: string, comp: Component)
    requires Three(m, b, u, x) && Removes(b, name, comp) && Updates(u, name, comp)
    requires !Removes(x, name, comp) && !Updates(x, name, comp)
    ensures Dropped(m, Left(u, x, comp), name, comp) && !Fits(m, name, comp)
  {
    assert Removes(m[b.name], name, comp) && Updates(m[u.name], name, comp) && m[x.name] == x;
    hide Removes, Updates, Shrunk;
  }

  /** With nothing joined and no number changed, what is left and the new queue is what Add writes. */
  lemma CreationWrites(m: map<string, Queue>, left: map<string, Queue>, queue: Queue, comp: Component, order: int, rv: nat)
    requires Cleared(m, left, left, true, false, queue, comp) && Dropped(m, left, queue.name, comp) && queue.name !in left
    ensures AddWrites(Trail(left, left, left, false, order), m, left[queue.name := Created(queue, order, rv)], true, queue, comp)
  {
    OrdersSame(left);
    hide Cleared, Dropped, OrdersOnly;
  }

  lemma EmptiedAdded(now: int, m: map<string, Queue>, b: Queue, u: Queue, x: Queue, queue: Queue, comp: Component,
                     bundles: set<string>)
    requires HeldAndEmpty(now, m, b, u, x, queue, comp, bundles)
    ensures var m1 := Left(u, x, comp)[queue.name := Created(queue, x.noOfOrder, 0)];
            AddedBy(now, m, m1, queue, [], bundles, true) && ListInv(m1)
  {
    EmptiedWrites(now, m, b, u, x, queue, comp, bundles);
    var left := Left(u, x, comp);
    hide AddWrites, AddedBy, Scheme, Fits, AddTrail, Left, Updates, Three;
    WritesAreAdded(now, Trail(left, left, left, false, x.noOfOrder), m, left[queue.name := Created(queue, x.noOfOrder, 0)],
                   queue, comp, [], bundles);
  }

  lemma EmptiedShape(m: map<string, Queue>, b: Queue, u: Queue, x: Queue, queue: Queue, comp: Component)
    requires Three(m, b, u, x) && queue.name == b.name
    ensures var b1, u1 := Created(queue, x.noOfOrder, 0), Refresh(Shrunk(u, comp), 0);
            Three(Left(u, x, comp)[queue.name := b1], b1, x, u1)
  {
  }

  /** The held queue was left empty. A component that another queue holds beside others arrives for it: the
      index puts that queue over a third one, whose number goes to the renewed queue, and after a restart both
      run. The list was settled, and no renumbering was interrupted. */
  lemma EmptiedIndexBreaks(now: int, m: map<string, Queue>, b: Queue, u: Queue, x: Queue, queue: Queue, comp: Component,
                           bundles: set<string>, stable: map<string, Component>, env: Env)
    returns (ws: seq<World>, ts: seq<int>, es: seq<Event>)
    requires HeldAndEmpty(now, m, b, u, x, queue, comp, bundles) && env.now == now && env.hasDeployConfig
    ensures Run(ws, ts, es) && ws[0] == World(m, stable, Some(b)) && ts[0] == now
    ensures es == [Adding(queue, [], bundles, true), Handle(env), Restart, Pick(true), Handle(env)]
    ensures OneSpecial(now, ws[0]) && SchemeRun(ws, es) && Settled(now, m, queue, []) && !Fits(m, queue.name, comp)
    ensures BothRun(ws[5], b.name, x.name)
  {
    hide *;
    var w0 := World(m, stable, Some(b));
    EmptiedStart(now, m, b, u, x, queue, comp, bundles, stable);
    EmptiedWrites(now, m, b, u, x, queue, comp, bundles);
    EmptiedAdded(now, m, b, u, x, queue, comp, bundles);
    var b1, u1 := Created(queue, x.noOfOrder, 0), Refresh(Shrunk(u, comp), 0);
    EmptiedRewritten(now, m, b, u, x, queue, comp, bundles);
    var w1 := World(Left(u, x, comp)[queue.name := b1], stable, Some(b));
    ws, ts, es := RenewedRun(now, w0, w1, b, b1, x, u1, queue, [], bundles, env);
  }

  lemma EmptiedStart(now: int, m: map<string, Queue>, b: Queue, u: Queue, x: Queue, queue: Queue, comp: Component,
                     bundles: set<string>, stable: map<string, Component>)
    requires HeldAndEmpty(now, m, b, u, x, queue, comp, bundles)
    ensures OneSpecial(now, World(m, stable, Some(b))) && Settled(now, m, queue, []) && Scheme(m, queue, bundles)
  {
    hide Scheme, Updates, Holds, OneSpecial;
    ThreeOneSpecial(now, World(m, stable, Some(b)), b, u, x);
    RankedNowhere(queue);
  }

  /** The three queues afterwards. */
  lemma EmptiedRewritten(now: int, m: map<string, Queue>, b: Queue, u: Queue, x: Queue, queue: Queue, comp: Component,
                         bundles: set<string>)
    requires HeldAndEmpty(now, m, b, u, x, queue, comp, bundles)
    ensures var b1, u1 := Created(queue, x.noOfOrder, 0), Refresh(Shrunk(u, comp), 0);
            && Three(Left(u, x, comp)[queue.name := b1], b1, x, u1) && Twins(b1, x) && b1.name == b.name
            && b1.state == Waiting && x.state == Waiting && u1.state == Waiting && u1.noOfOrder != x.noOfOrder
            && u1.nextProcessAt.None? && b.state != Deleting
  {
    hide Scheme, Updates, Holds;
    EmptiedShape(m, b, u, x, queue, comp);
  }
}
