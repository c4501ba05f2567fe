/** Whether a version that becomes stable was deployed for it: process deploys a queue only while its
    DeployStarted condition is not true (internal/staging/deploy.go), and an Add into a running bundle
    sends the queue back to Waiting with its conditions kept. */
module StagingDeploys {
  import opened QueueTypes
  import opened QueueList
  import opened QueueOrdering
  import opened QueueRewriting
  import opened QueueController
  import opened Staging
  import opened StagingRuns
  import opened StagingBreaks
  import QueueCleanup

  ghost predicate StartedAt(w: World, n: string) {
    n in w.queues && w.queues[n].IsConditionTrue(DeployStarted)
  }

  /** This call of process deployed queue n and noted it. */
  ghost predicate Deploys(w: World, e: Event, w': World, n: string) {
    && e.Handle? && e.env.deployment != NotDeployed && w.current.Some? && w.current.value.name == n
    && n in w.queues && w.queues[n].state == Creating && !StartedAt(w, n) && StartedAt(w', n)
  }

  /** A call since queue n was last Waiting deployed it. */
  ghost predicate DeployedOnPass(ws: seq<World>, es: seq<Event>, n: string, k: nat)
    requires k < |ws| == |es| + 1
  {
    && n in ws[k].queues && ws[k].queues[n].state != Waiting && k > 0
    && (Deploys(ws[k - 1], es[k - 1], ws[k], n) || DeployedOnPass(ws, es, n, k - 1))
  }

  /** DeployStarted was true when queue n was last Waiting. */
  ghost predicate StartedBefore(ws: seq<World>, n: string, k: nat)
    requires k < |ws|
  {
    && n in ws[k].queues
    && if ws[k].queues[n].state == Waiting || k == 0 then StartedAt(ws[k], n) else StartedBefore(ws, n, k - 1)
  }

  // ----- Deployed on the pass, or before it

  /** A running queue gets the condition only from a call that deploys it, and keeps it. */
  lemma StartedStep(now: int, w: World, e: Event, now': int, w': World, n: string)
    requires Next(now, w, e, now', w') && n in w.queues && n in w'.queues && w'.queues[n].state != Waiting
    ensures StartedAt(w', n) <==> StartedAt(w, n) || Deploys(w, e, w', n)
  {
    match e
    case Pick(complete) =>
      assert w'.queues[n] == w.queues[n] || SameButOrder(w.queues[n], w'.queues[n]);
    case Removing =>
      assert w'.queues[n] == w.queues[n] || QueueCleanup.ThinnedQueue(w.queues[n], w'.queues[n]);
    case _ =>
  }

  /** In every run: the condition is true exactly if it was so at the start of the pass or a call of the
      pass deployed the queue, never both. */
  lemma {:induction false} StartedIff(ws: seq<World>, ts: seq<int>, es: seq<Event>, n: string, k: nat)
    requires Run(ws, ts, es) && k < |ws| && n in ws[k].queues
    ensures StartedAt(ws[k], n) <==> StartedBefore(ws, n, k) || DeployedOnPass(ws, es, n, k)
    ensures !(StartedBefore(ws, n, k) && DeployedOnPass(ws, es, n, k))
  {
    hide Next;
    if ws[k].queues[n].state != Waiting && k > 0 {
      assert Next(ts[k - 1], ws[k - 1], es[k - 1], ts[k], ws[k]);
      EveryStepIsQueueStep(ts[k - 1], ws[k - 1], es[k - 1], ts[k], ws[k], n);
      StartedStep(ts[k - 1], ws[k - 1], es[k - 1], ts[k], ws[k], n);
      StartedIff(ws, ts, es, n, k - 1);
    }
  }

  /** Nothing is tested, or collected as deployed, without the condition. */
  ghost predicate TestedAsStarted(q: Queue) {
    q.state == Testing || (q.state == Collecting && q.IsConditionTrue(Deployed)) ==> q.IsConditionTrue(DeployStarted)
  }

  lemma TestedAsStartedStep(now: int, w: World, e: Event, now': int, w': World, n: string)
    requires Next(now, w, e, now', w') && n in w.queues && n in w'.queues && TestedAsStarted(w.queues[n])
    ensures TestedAsStarted(w'.queues[n])
  {
    if w'.queues[n].state != Waiting {
      StartedStep(now, w, e, now', w', n);
      EveryStepIsQueueStep(now, w, e, now', w', n);
      if w'.queues[n].state != w.queues[n].state {
        MovedByHandle(now, w, e, now', w', n);
      }
      hide Next;
    }
  }

  lemma {:induction false} AlwaysTestedAsStarted(ws: seq<World>, ts: seq<int>, es: seq<Event>, n: string, k: nat)
    requires Run(ws, ts, es) && k < |ws| && ws[0].queues == map[] && n in ws[k].queues
    ensures TestedAsStarted(ws[k].queues[n])
  {
    hide Next;
    EveryStepIsQueueStep(ts[k - 1], ws[k - 1], es[k - 1], ts[k], ws[k], n);
    if n in ws[k - 1].queues {
      AlwaysTestedAsStarted(ws, ts, es, n, k - 1);
      TestedAsStartedStep(ts[k - 1], ws[k - 1], es[k - 1], ts[k], ws[k], n);
    }
  }

  /** In every run: versions become stable out of one queue, and a call of this very pass deployed that
      queue if and only if DeployStarted was not true when the pass left Waiting. */
  lemma StableIsDeployedIff(ws: seq<World>, ts: seq<int>, es: seq<Event>, k: nat) returns (n: string)
    requires Run(ws, ts, es) && k + 1 < |ws| && ws[0].queues == map[] && ws[k + 1].stable != ws[k].stable
    ensures n in ws[k].queues && StableFrom(ws[k].stable, ws[k + 1].stable, ws[k].queues[n])
    ensures ws[k].current.Some? && ws[k].current.value.name == n
    ensures DeployedOnPass(ws, es, n, k) <==> !StartedBefore(ws, n, k)
  {
    assert Next(ts[k], ws[k], es[k], ts[k + 1], ws[k + 1]);
    n := ws[k].current.value.name;
    hide Next;
    AlwaysTestedAsStarted(ws, ts, es, n, k);
    StartedIff(ws, ts, es, n, k);
  }

  // ----- A version that was never deployed becomes stable

  /** One bundle queue, held and being deployed; a component it does not have arrives for the bundle. */
  ghost predicate DeployingBundle(q: Queue, queue: Queue, comp: Component, bundles: set<string>) {
    && q.state == Creating && q.IsConditionTrue(DeployStarted) && q.bundle != "" && q.components != []
    && DistinctNames(q.components) && NamedByScheme(q, bundles) && !Holds(q, comp.name)
    && queue.components == [comp] && queue.name == queue.bundle == q.bundle && queue.nextProcessAt.None?
    && NamedByScheme(queue, bundles)
  }

  /** The bundle queue after the Add. */
  function Rejoined(q: Queue, comp: Component): Queue { Refresh(Merged(q, comp), 0) }

  function Alone(q: Queue): map<string, Queue> { map[q.name := q] }

  lemma AloneListed(q: Queue)
    requires q.components != [] && DistinctNames(q.components)
    ensures ListInv(Alone(q))
  {
  }

  lemma RejoinTrail(now: int, q: Queue, queue: Queue, comp: Component, bundles: set<string>)
    requires DeployingBundle(q, queue, comp, bundles)
    ensures var q1 := Rejoined(q, comp);
            var t := Trail(Alone(q), Alone(q1), Alone(q1), true, q1.noOfOrder + 1);
            AddTrail(now, t, Alone(q), Alone(q1), queue, comp, []) && AddWrites(t, Alone(q), Alone(q1), true, queue, comp)
  {
    hide *;
    var q1 := Rejoined(q, comp);
    RejoinShape(q, queue, comp, bundles);
    BehindOne(now, Alone(q1), q1, queue, comp);
    PlacedWith(now, Alone(q1), queue, comp, q1.noOfOrder + 1, [q1], 1);
    JoinTrail(now, Alone(q), Alone(q1), queue, comp, q1.noOfOrder + 1);
  }

  lemma PlacedWith(now: int, m: map<string, Queue>, queue: Queue, comp: Component, order: int, list: seq<Queue>, at: nat)
    requires PlacedAt(now, m, m, queue, comp, order, [], list, at, -1)
    ensures Placed(now, m, m, queue, comp, order, [])
  {
  }

  lemma RejoinShape(q: Queue, queue: Queue, comp: Component, bundles: set<string>)
    requires DeployingBundle(q, queue, comp, bundles)
    ensures var m, q1 := Alone(q), Rejoined(q, comp);
            && Cleared(m, m, Alone(q1), true, true, queue, comp) && Dropped(m, m, queue.name, comp) && Emptied(m, m, comp)
            && Joins(m, queue, comp) && queue.bundle in Alone(q1) && queue.bundle in m
            && Alone(q1) == m[queue.bundle := Refresh(Merged(m[queue.bundle], comp), Alone(q1)[queue.bundle].rv)]
            && Alone(q1).Keys == {q1.name} && q1.name in Alone(q1) && Alone(q1)[q1.name] == q1
  {
    assert q.name == q.bundle;
    hide NamedByScheme;
    NothingDropped(q, queue.name, comp);
    RejoinCleared(q, queue, comp);
    hide Dropped, Emptied, Cleared;
  }

  /** A component that joins the queue of its bundle, with nothing dropped and no number changed. */
  lemma JoinTrail(now: int, m: map<string, Queue>, m1: map<string, Queue>, queue: Queue, comp: Component, order: int)
    requires Cleared(m, m, m1, true, true, queue, comp) && Dropped(m, m, queue.name, comp) && Emptied(m, m, comp)
    requires Joins(m, queue, comp) && queue.bundle in m1 && Placed(now, m1, m1, queue, comp, order, [])
    requires m1 == m[queue.bundle := Refresh(Merged(m[queue.bundle], comp), m1[queue.bundle].rv)]
    ensures AddTrail(now, Trail(m, m1, m1, true, order), m, m1, queue, comp, [])
    ensures AddWrites(Trail(m, m1, m1, true, order), m, m1, true, queue, comp)
  {
    OrdersSame(m1);
    hide Emptied, Dropped, Placed, Cleared, OrdersOnly;
  }

  lemma RejoinCleared(q: Queue, queue: Queue, comp: Component)
    requires Dropped(Alone(q), Alone(q), queue.name, comp) && q.name == q.bundle == queue.bundle && q.bundle != ""
    ensures Cleared(Alone(q), Alone(q), Alone(Rejoined(q, comp)), true, true, queue, comp)
  {
    hide Dropped;
    assert JoinedQueue(Alone(q)[q.name], Alone(Rejoined(q, comp))[q.name], queue.bundle, comp);
  }

  lemma NothingDropped(q: Queue, name: string, comp: Component)
    requires q.components != [] && DistinctNames(q.components) && !Holds(q, comp.name)
    ensures Dropped(Alone(q), Alone(q), name, comp) && Emptied(Alone(q), Alone(q), comp)
    ensures !q.ContainSameComponent(name, comp)
  {
    assert !q.ContainSameComponent(name, comp);
    assert Dropped(Alone(q), Alone(q), name, comp);
    AloneListed(q);
    DroppedIsEmptied(Alone(q), Alone(q), name, comp);
  }

  lemma RejoinAdded(now: int, q: Queue, queue: Queue, comp: Component, bundles: set<string>)
    requires DeployingBundle(q, queue, comp, bundles)
    ensures AddedBy(now, Alone(q), Alone(Rejoined(q, comp)), queue, [], bundles, true)
  {
    hide *;
    AloneScheme(q, queue, comp, bundles);
    RejoinTrail(now, q, queue, comp, bundles);
    var m, q1 := Alone(q), Rejoined(q, comp);
    WritesAreAdded(now, Trail(m, Alone(q1), Alone(q1), true, q1.noOfOrder + 1), m, Alone(q1), queue, comp, [], bundles);
  }

  lemma AloneScheme(q: Queue, queue: Queue, comp: Component, bundles: set<string>)
    requires DeployingBundle(q, queue, comp, bundles)
    ensures Scheme(Alone(q), queue, bundles) && queue.components == [comp] && queue.nextProcessAt.None?
    ensures forall n :: n in Alone(q) ==> !Alone(q)[n].ContainSameComponent(queue.name, comp)
  {
    AloneListed(q);
  }

  lemma RejoinedFacts(q: Queue, comp: Component)
    requires !Holds(q, comp.name) && DistinctNames(q.components)
    ensures var q1 := Rejoined(q, comp);
            && q1.name == q.name && q1.state == Waiting && q1.conditions == q.conditions
            && q1.startDeployTime == q.startDeployTime && q1.startTestingTime == q.startTestingTime && q1.qtype == q.qtype
            && comp in q1.components && DistinctNames(q1.components)
  {
    MergeFresh(q.components, comp);
    var cs := q.components + [comp];
    assert DistinctNames(cs);
    assert comp in cs;
    SamePermutationMembers(cs, SortComponents(cs));
    DistinctPermuted(cs, SortComponents(cs));
  }

  // the stages of the next pass

  function Cleaned(q: Queue): Queue { q.SetCondition(CleanedBefore, true).(state := DetectingImageMissing) }

  function Found(q: Queue): Queue { q.(state := Creating) }

  function Ready(q: Queue): Queue { q.SetCondition(Deployed, true).(state := Testing) }

  function Good(q: Queue): Queue { q.SetCondition(Tested, true).(state := Collecting) }

  function Collected(q: Queue): Queue { q.SetCondition(CleaningAfterStarted, true).(state := CleaningAfter) }

  /** The calls succeed, the old release is ready, nothing is to be tested. */
  predicate AllWell(env: Env) {
    && env.hasDeployConfig && env.configOk && env.isCleaned && env.missing == NothingMissing
    && env.releases == EnvironmentReady && env.skipTest && env.historyOk && env.reportOk
  }

  function Holding(q: Queue, stable: map<string, Component>): World { World(Alone(q), stable, Some(q)) }

  lemma OneStage(now: int, q: Queue, q': Queue, stable: map<string, Component>, env: Env, held: Queue)
    requires q'.name == q.name == held.name && held.state != Deleting && env.now == now && q.state != Collecting && q.state != Deleting
    requires forall s :: Leads(q, env, s) ==> q'.state == s
    requires Edge(q, q') && Caused(q, q', env, Late(q, env)) && SameCounter(q, q')
    ensures Next(now, World(Alone(q), stable, Some(held)), Handle(env), now, Holding(q', stable))
  {
  }

  /** When all goes well the answers lead to the next stage and nowhere else. */
  lemma WellLeads(q: Queue, env: Env)
    requires AllWell(env) && !Late(q, env) && (q.state == Creating ==> q.IsConditionTrue(DeployStarted))
    ensures q.state == Waiting ==> forall s :: Leads(q, env, s) ==> s == CleaningBefore
    ensures q.state == CleaningBefore ==> forall s :: Leads(q, env, s) ==> s == DetectingImageMissing
    ensures q.state == DetectingImageMissing ==> forall s :: Leads(q, env, s) ==> s == Creating
    ensures q.state == Creating ==> forall s :: Leads(q, env, s) ==> s == Testing
    ensures q.state == Testing ==> forall s :: Leads(q, env, s) ==> s == Collecting
  {
  }

  /** Up to the test without a deployment. */
  lemma StagesUpToTesting(now: int, q1: Queue, stable: map<string, Component>, env: Env, held: Queue)
    requires q1.state == Waiting && q1.IsConditionTrue(DeployStarted) && held.name == q1.name && held.state != Deleting
    requires env.now == now && AllWell(env) && !Late(q1.(state := Creating), env)
    ensures var q2 := Begun(q1);
            var q3 := Cleaned(q2);
            var q4 := Found(q3);
            && Next(now, World(Alone(q1), stable, Some(held)), Handle(env), now, Holding(q2, stable))
            && Next(now, Holding(q2, stable), Handle(env), now, Holding(q3, stable))
            && Next(now, Holding(q3, stable), Handle(env), now, Holding(q4, stable))
            && Next(now, Holding(q4, stable), Handle(env), now, Holding(Ready(q4), stable))
  {
    hide Next, Edge, Caused, Leads;
    var q2 := Begun(q1);
    var q3 := Cleaned(q2);
    var q4 := Found(q3);
    StageEdges(q1, q2, q3, env);
    ReadyEdge(q4, env);
    assert !Late(q1, env) && !Late(q2, env) && !Late(q3, env) && !Late(q4, env);
    WellLeads(q1, env);
    WellLeads(q2, env);
    WellLeads(q3, env);
    WellLeads(q4, env);
    OneStage(now, q1, q2, stable, env, held);
    OneStage(now, q2, q3, stable, env, q2);
    OneStage(now, q3, q4, stable, env, q3);
    OneStage(now, q4, Ready(q4), stable, env, q4);
  }

  lemma StageEdges(q1: Queue, q2: Queue, q3: Queue, env: Env)
    requires q1.state == Waiting && q2.state == CleaningBefore && q3.state == DetectingImageMissing && AllWell(env)
    ensures Edge(q1, Begun(q1)) && Caused(q1, Begun(q1), env, false)
    ensures Edge(q2, Cleaned(q2)) && Caused(q2, Cleaned(q2), env, false)
    ensures Edge(q3, Found(q3)) && Caused(q3, Found(q3), env, false)
  {
    hide *;
    BegunEdge(q1, env);
    CleanedEdge(q2, env);
    FoundEdge(q3, env);
  }

  lemma BegunEdge(q: Queue, env: Env)
    requires q.state == Waiting && AllWell(env)
    ensures Edge(q, Begun(q)) && Caused(q, Begun(q), env, false)
  {
  }

  lemma CleanedEdge(q: Queue, env: Env)
    requires q.state == CleaningBefore && AllWell(env)
    ensures Edge(q, Cleaned(q)) && Caused(q, Cleaned(q), env, false)
  {
  }

  lemma FoundEdge(q: Queue, env: Env)
    requires q.state == DetectingImageMissing && AllWell(env)
    ensures Edge(q, Found(q)) && Caused(q, Found(q), env, false)
  {
  }

  lemma {:induction false} AllSaved(s: map<string, Component>, cs: seq<Component>) returns (s': map<string, Component>)
    requires DistinctNames(cs)
    ensures s.Keys <= s'.Keys
    ensures forall n :: n in s' ==> (n in s && s'[n] == s[n]) || (s'[n] in cs && s'[n].name == n)
    ensures forall c :: c in cs ==> c.name in s' && s'[c.name] == c
  {
    s' := s;
    if cs != [] {
      var init, c := cs[..|cs| - 1], cs[|cs| - 1];
      assert cs == init + [c];
      assert multiset(cs) == multiset(init) + multiset{c};
      assert multiset(cs)[c] <= 1 && multiset(init)[c] == 0;
      assert c !in init;
      assert forall d :: d in init ==> d in cs && d.name != c.name;
      assert forall d :: multiset(init)[d] <= multiset(cs)[d];
      s' := AllSaved(s, init);
      s' := s'[c.name := c];
    }
  }

  /** A passed queue makes its versions stable. */
  lemma LastStages(now: int, q5: Queue, stable: map<string, Component>, env: Env) returns (stable': map<string, Component>)
    requires q5.state == Testing && q5.IsConditionTrue(Deployed) && q5.qtype == Upgrade && DistinctNames(q5.components)
    requires env.now == now && AllWell(env) && q5.startTestingTime.None?
    ensures Next(now, Holding(q5, stable), Handle(env), now, Holding(Good(q5), stable))
    ensures Next(now, Holding(Good(q5), stable), Handle(env), now, Holding(Collected(Good(q5)), stable'))
    ensures forall c :: c in q5.components ==> c.name in stable' && stable'[c.name] == c
  {
    hide Next;
    WellLeads(q5, env);
    OneStage(now, q5, Good(q5), stable, env, q5);
    stable' := AllSaved(stable, q5.components);
    CollectedStage(now, Good(q5), stable, stable', env);
  }

  lemma CollectedStage(now: int, q6: Queue, stable: map<string, Component>, stable': map<string, Component>, env: Env)
    requires q6.state == Collecting && q6.Passed() && env.now == now && AllWell(env)
    requires StableFrom(stable, stable', q6) && MadeStable(stable', q6)
    ensures Next(now, Holding(q6, stable), Handle(env), now, Holding(Collected(q6), stable'))
  {
    hide StableFrom, MadeStable;
    assert Edge(q6, Collected(q6)) && Caused(q6, Collected(q6), env, false);
    hide Edge, Caused;
  }

  // the run

  lemma StillStarted(ws: seq<World>, n: string, k: nat)
    requires k + 1 < |ws| && StartedBefore(ws, n, k) && n in ws[k + 1].queues && ws[k + 1].queues[n].state != Waiting
    ensures StartedBefore(ws, n, k + 1)
  {
  }

  lemma {:induction false} NoneDeployed(ws: seq<World>, es: seq<Event>, n: string, k: nat)
    requires k < |ws| == |es| + 1 && forall j :: 0 <= j < k ==> StartedAt(ws[j], n)
    ensures !DeployedOnPass(ws, es, n, k)
  {
    if k > 0 {
      NoneDeployed(ws, es, n, k - 1);
      assert StartedAt(ws[k - 1], n);
    }
  }

  /** The queue at the end of its deployment. */
  function Tried(q1: Queue): Queue { Ready(Found(Cleaned(Begun(q1)))) }

  /** The worlds of the pass. */
  function PassWorlds(q: Queue, q1: Queue, stable: map<string, Component>, stable': map<string, Component>): seq<World> {
    [Holding(q, stable), World(Alone(q1), stable, Some(q)), Holding(Begun(q1), stable), Holding(Cleaned(Begun(q1)), stable),
     Holding(Found(Cleaned(Begun(q1))), stable), Holding(Tried(q1), stable), Holding(Good(Tried(q1)), stable),
     Holding(Collected(Good(Tried(q1))), stable')]
  }

  lemma PassRun(now: int, q: Queue, q1: Queue, stable: map<string, Component>, stable': map<string, Component>, e: Event, env: Env)
    requires Next(now, Holding(q, stable), e, now, World(Alone(q1), stable, Some(q)))
    requires Next(now, World(Alone(q1), stable, Some(q)), Handle(env), now, Holding(Begun(q1), stable))
    requires Next(now, Holding(Begun(q1), stable), Handle(env), now, Holding(Cleaned(Begun(q1)), stable))
    requires Next(now, Holding(Cleaned(Begun(q1)), stable), Handle(env), now, Holding(Found(Cleaned(Begun(q1))), stable))
    requires Next(now, Holding(Found(Cleaned(Begun(q1))), stable), Handle(env), now, Holding(Tried(q1), stable))
    requires Next(now, Holding(Tried(q1), stable), Handle(env), now, Holding(Good(Tried(q1)), stable))
    requires Next(now, Holding(Good(Tried(q1)), stable), Handle(env), now, Holding(Collected(Good(Tried(q1))), stable'))
    ensures Run(PassWorlds(q, q1, stable, stable'), seq(8, _ => now), [e] + seq(6, _ => Handle(env)))
  {
    hide Next, Begun, Cleaned, Found, Tried, Good, Collected, Holding, Alone;
  }

  lemma SecondPass(now: int, q: Queue, q1: Queue, stable: map<string, Component>, e: Event, env: Env)
    returns (stable': map<string, Component>)
    requires q1.name == q.name && q1.state == Waiting && q1.IsConditionTrue(DeployStarted) && q1.qtype == Upgrade
    requires DistinctNames(q1.components) && q1.startTestingTime.None? && q.state != Deleting
    requires env.now == now && AllWell(env) && !Late(q1.(state := Creating), env)
    requires Next(now, Holding(q, stable), e, now, World(Alone(q1), stable, Some(q)))
    ensures Run(PassWorlds(q, q1, stable, stable'), seq(8, _ => now), [e] + seq(6, _ => Handle(env)))
    ensures forall c :: c in q1.components ==> c.name in stable' && stable'[c.name] == c
  {
    hide Next, AllWell, DistinctNames, Run;
    StagesUpToTesting(now, q1, stable, env, q);
    StageFacts(q1);
    hide Begun, Cleaned, Found, Ready, Good, Collected, Holding, Alone, PassWorlds;
    stable' := LastStages(now, Tried(q1), stable, env);
    PassRun(now, q, q1, stable, stable', e, env);
  }

  /** The condition is true all the time. */
  lemma PassStarted(q: Queue, q1: Queue, stable: map<string, Component>, stable': map<string, Component>, es: seq<Event>)
    requires |es| == 7 && q1.name == q.name && q1.state == Waiting && q1.conditions == q.conditions
    requires q.IsConditionTrue(DeployStarted)
    ensures var ws := PassWorlds(q, q1, stable, stable'); StartedBefore(ws, q.name, 6) && !DeployedOnPass(ws, es, q.name, 6)
  {
    var ws, n := PassWorlds(q, q1, stable, stable'), q.name;
    var q4 := Found(Cleaned(Begun(q1)));
    StageFacts(q1);
    hide Begun, Cleaned, Found, Ready, Good, Collected;
    assert StartedAt(ws[0], n) && StartedAt(ws[1], n) && ws[1].queues[n].state == Waiting;
    RunsStarted(Begun(q1), stable);
    RunsStarted(Cleaned(Begun(q1)), stable);
    RunsStarted(q4, stable);
    RunsStarted(Ready(q4), stable);
    RunsStarted(Good(Ready(q4)), stable);
    assert ws[2..7] == [Holding(Begun(q1), stable), Holding(Cleaned(Begun(q1)), stable), Holding(q4, stable),
                        Holding(Ready(q4), stable), Holding(Good(Ready(q4)), stable)];
    hide StartedAt, PassWorlds;
    StartedThroughout(ws, es, n);
  }

  ghost predicate StageOn(q1: Queue, q: Queue) {
    && q.name == q1.name && q.state != Waiting && q.qtype == q1.qtype && q.components == q1.components
    && q.startTestingTime == q1.startTestingTime && (q1.IsConditionTrue(DeployStarted) ==> q.IsConditionTrue(DeployStarted))
  }

  lemma StageFacts(q1: Queue)
    ensures var q4 := Found(Cleaned(Begun(q1)));
            && StageOn(q1, Begun(q1)) && StageOn(q1, Cleaned(Begun(q1))) && StageOn(q1, q4)
            && StageOn(q1, Ready(q4)) && StageOn(q1, Good(Ready(q4)))
            && Ready(q4).state == Testing && Ready(q4).IsConditionTrue(Deployed)
  {
  }

  lemma RunsStarted(q: Queue, stable: map<string, Component>)
    requires q.state != Waiting && q.IsConditionTrue(DeployStarted)
    ensures StartedRunning(Holding(q, stable), q.name)
  {
  }

  ghost predicate StartedRunning(w: World, n: string) {
    StartedAt(w, n) && w.queues[n].state != Waiting
  }

  lemma StartedThroughout(ws: seq<World>, es: seq<Event>, n: string)
    requires |ws| == 8 && |es| == 7 && StartedAt(ws[0], n) && StartedAt(ws[1], n) && ws[1].queues[n].state == Waiting
    requires forall w :: w in ws[2..7] ==> StartedRunning(w, n)
    ensures StartedBefore(ws, n, 6) && !DeployedOnPass(ws, es, n, 6)
  {
    forall j | 2 <= j < 7 ensures StartedRunning(ws[j], n) {
      assert ws[2..7][j - 2] == ws[j];
    }
    assert StartedBefore(ws, n, 1);
    StillStarted(ws, n, 1);
    StillStarted(ws, n, 2);
    StillStarted(ws, n, 3);
    StillStarted(ws, n, 4);
    StillStarted(ws, n, 5);
    NoneDeployed(ws, es, n, 6);
  }

  lemma RejoinNext(now: int, q: Queue, queue: Queue, comp: Component, bundles: set<string>, stable: map<string, Component>)
    requires DeployingBundle(q, queue, comp, bundles)
    ensures Next(now, Holding(q, stable), Adding(queue, [], bundles, true), now, World(Alone(Rejoined(q, comp)), stable, Some(q)))
  {
    RejoinAdded(now, q, queue, comp, bundles);
    hide AddedBy;
  }

  /** An Add into a bundle that is being deployed: the component that arrives last becomes stable although
      no call ever deploys it. */
  lemma UndeployedBecomesStable(now: int, q: Queue, queue: Queue, comp: Component, bundles: set<string>,
                                stable: map<string, Component>, env: Env)
    returns (ws: seq<World>, ts: seq<int>, es: seq<Event>)
    requires DeployingBundle(q, queue, comp, bundles) && q.qtype == Upgrade && q.startTestingTime.None?
    requires env.now == now && AllWell(env) && !Late(q, env) && !(comp.name in stable && stable[comp.name] == comp)
    ensures Run(ws, ts, es) && ws[0] == Holding(q, stable)
    ensures es == [Adding(queue, [], bundles, true)] + seq(6, _ => Handle(env))
    ensures ws[6].stable == stable && comp.name in ws[7].stable && ws[7].stable[comp.name] == comp
    ensures q.name in ws[1].queues && ws[1].queues[q.name].state == Waiting && comp in ws[1].queues[q.name].components
    ensures StartedBefore(ws, q.name, 6) && !DeployedOnPass(ws, es, q.name, 6)
  {
    hide Next, AllWell, NamedByScheme, DistinctNames, Run, StartedBefore, DeployedOnPass;
    var q1 := Rejoined(q, comp);
    RejoinedFacts(q, comp);
    RejoinNext(now, q, queue, comp, bundles, stable);
    hide Rejoined;
    var stable' := SecondPass(now, q, q1, stable, Adding(queue, [], bundles, true), env);
    ws, ts := PassWorlds(q, q1, stable, stable'), seq(8, _ => now);
    es := [Adding(queue, [], bundles, true)] + seq(6, _ => Handle(env));
    PassStarted(q, q1, stable, stable', es);
  }
}
