/** The pull request queue controller (internal/pullrequest/queue, api/v1/pullrequestqueue_types.go). */
module PullRequestQueue {
  import opened QueueTypes
  import opened StringOrder

  datatype Stage = Unset | QWaiting | EnvCreating | QDeploying | QTesting | QCollecting | EnvDestroying | QFinished

  datatype Result = NoResult | Success | Failure | Canceled

  datatype Label = Unlabelled | LabelWaiting | LabelRunning

  datatype Step = CondStarted | CondEnvCreated | CondDependenciesUpdated | CondDeployed | CondTested
                | CondResultCollected | CondEnvDestroyed

  datatype Criteria = NoCriteria | OnBoth | OnFailure | OnSuccess

  /** One PullRequestQueue object. */
  datatype PrQueue = PrQueue(
    name: string,
    order: int,
    retry: int,
    commit: string,
    components: seq<Component>,
    upcomingCommit: string,
    upcomingComponents: seq<Component>,
    triggerFailed: Option<bool>,
    criteria: Criteria,
    tearDown: int,
    stateLabel: Label,
    state: Stage,
    result: Result,
    conditions: map<Step, bool>,
    namespace: string,
    hasHistory: bool,
    destroyedTime: Option<int>,
    finalizer: bool,
    deleting: bool)

  predicate Less(x: PrQueue, y: PrQueue) {
    if x.order == y.order then StringLess(x.name, y.name) else x.order < y.order
  }

  lemma LessFacts(x: PrQueue, y: PrQueue)
    ensures !Less(x, x)
    ensures Less(x, y) ==> !Less(y, x)
    ensures x.name != y.name ==> Less(x, y) || Less(y, x)
  {
    StringLessFacts(x.name, y.name);
  }

  lemma LessTransitive(x: PrQueue, y: PrQueue, z: PrQueue)
    requires Less(x, y) && Less(y, z)
    ensures Less(x, z)
  {
    if x.order == y.order == z.order {
      StringLessTransitive(x.name, y.name, z.name);
    }
  }

  // ----- Lists of the cluster

  type Cluster = map<string, PrQueue>

  ghost predicate WellKeyed(m: Cluster) { forall n :: n in m ==> m[n].name == n }

  ghost predicate Distinct(items: seq<PrQueue>) {
    forall i, j :: 0 <= i < j < |items| ==> items[i].name != items[j].name
  }

  /** The queues whose names are in keys, each once. */
  ghost predicate Lists(m: Cluster, keys: set<string>, items: seq<PrQueue>) {
    && Distinct(items)
    && (forall q :: q in items ==> q.name in keys && q.name in m && q == m[q.name])
    && (forall n :: n in keys ==> n in m && m[n] in items)
  }

  function RunningNames(m: Cluster): set<string> { set n | n in m && m[n].stateLabel == LabelRunning }

  function WaitingNames(m: Cluster): set<string> { set n | n in m && m[n].stateLabel == LabelWaiting }

  lemma {:induction false} ListSize(m: Cluster, keys: set<string>, items: seq<PrQueue>)
    requires WellKeyed(m) && Lists(m, keys, items)
    ensures |items| == |keys|
  {
    if items == [] {
      assert keys == {};
    } else {
      var last := items[|items| - 1];
      var init := items[..|items| - 1];
      assert last in items;
      assert Lists(m, keys - {last.name}, init) by {
        forall n | n in keys - {last.name} ensures m[n] in init {
          var i :| 0 <= i < |items| && items[i] == m[n];
          assert init[i] == items[i];
        }
        forall q | q in init ensures q.name in keys - {last.name} && q.name in m && q == m[q.name] {
          assert q in items;
        }
      }
      ListSize(m, keys - {last.name}, init);
    }
  }

  predicate SortedByOrder(s: seq<PrQueue>) { forall i, j :: 0 <= i < j < |s| ==> Less(s[i], s[j]) }

  /** The same queues, in another order. */
  ghost predicate SameItems(s: seq<PrQueue>, t: seq<PrQueue>) {
    |s| == |t| && (forall q :: q in s <==> q in t)
  }

  function InsertInOrder(s: seq<PrQueue>, q: PrQueue): seq<PrQueue> {
    if s == [] || !Less(q, s[|s| - 1]) then s + [q] else InsertInOrder(s[..|s| - 1], q) + [s[|s| - 1]]
  }

  lemma {:induction false} InsertedInOrder(s: seq<PrQueue>, q: PrQueue)
    requires SortedByOrder(s) && forall x :: x in s ==> x.name != q.name
    ensures SortedByOrder(InsertInOrder(s, q)) && SameItems(InsertInOrder(s, q), s + [q])
  {
    if s != [] && Less(q, s[|s| - 1]) {
      var last, init := s[|s| - 1], s[..|s| - 1];
      assert s == init + [last];
      InsertedInOrder(init, q);
      var r := InsertInOrder(init, q);
      forall x | x in r ensures Less(x, last) {
        if x != q {
          assert x in init + [q];
          var i :| 0 <= i < |init| && init[i] == x;
          assert s[i] == x;
        }
      }
    } else if s != [] {
      var last := s[|s| - 1];
      assert last in s;
      LessFacts(last, q);
      forall i | 0 <= i < |s| ensures Less(s[i], q) {
        if i < |s| - 1 {
          LessTransitive(s[i], last, q);
        }
      }
    }
  }

  /** PullRequestQueueList.Sort: names are distinct, so the sorted list is the only one. */
  method Sort(items: seq<PrQueue>) returns (r: seq<PrQueue>)
    requires Distinct(items)
    ensures SortedByOrder(r) && SameItems(r, items)
  {
    r := [];
    for i := 0 to |items|
      invariant SortedByOrder(r) && SameItems(r, items[..i])
    {
      forall x | x in r ensures x.name != items[i].name {
        assert x in items[..i];
      }
      InsertedInOrder(r, items[i]);
      assert items[..i + 1] == items[..i] + [items[i]];
      r := InsertInOrder(r, items[i]);
    }
    assert items[..|items|] == items;
  }

  lemma SortedIsDistinct(s: seq<PrQueue>)
    requires SortedByOrder(s)
    ensures forall i, j :: 0 <= i < j < |s| ==> s[i] != s[j]
  {
    forall i, j | 0 <= i < j < |s| ensures s[i] != s[j] {
      LessFacts(s[i], s[j]);
    }
  }

  method LastQueueOrder(items: seq<PrQueue>) returns (order: int)
    requires Distinct(items)
    ensures forall q :: q in items ==> q.order < order
    ensures if items == [] then order == 1 else exists q :: q in items && order == q.order + 1
  {
    if |items| == 0 {
      return 1;
    }
    var sorted := Sort(items);
    var last := sorted[|sorted| - 1];
    assert last in items;
    forall q | q in items ensures q.order <= last.order {
      assert q in sorted;
      var i :| 0 <= i < |sorted| && sorted[i] == q;
      assert i < |sorted| - 1 ==> Less(sorted[i], last);
    }
    return last.order + 1;
  }

  // ----- Dependencies of a run

  /** The last dependency of that name decides repository and version. */
  function Refreshed(c: Component, deps: seq<Component>): Component {
    if deps == [] then c
    else if deps[|deps| - 1].name == c.name then deps[|deps| - 1]
    else Refreshed(c, deps[..|deps| - 1])
  }

  function AllRefreshed(cs: seq<Component>, deps: seq<Component>): (r: seq<Component>)
    ensures |r| == |cs| && forall i :: 0 <= i < |cs| ==> r[i] == Refreshed(cs[i], deps)
  {
    seq(|cs|, i requires 0 <= i < |cs| => Refreshed(cs[i], deps))
  }

  lemma {:induction false} RefreshedKeepsName(c: Component, deps: seq<Component>)
    ensures Refreshed(c, deps).name == c.name
    ensures Refreshed(c, deps) == c || Refreshed(c, deps) in deps
  {
    if deps != [] {
      RefreshedKeepsName(c, deps[..|deps| - 1]);
    }
  }

  ghost predicate HasName(cs: seq<Component>, name: string) { exists i :: 0 <= i < |cs| && cs[i].name == name }

  ghost predicate AppliedOne(all: seq<Component>, dep: Component, r: seq<Component>) {
    && |all| <= |r| && HasName(r, dep.name)
    && (forall i :: 0 <= i < |all| ==> r[i] == if all[i].name == dep.name then dep else all[i])
    && (forall i :: |all| <= i < |r| ==> r[i] == dep)
  }

  method ApplyOne(all: seq<Component>, dep: Component) returns (r: seq<Component>)
    ensures AppliedOne(all, dep, r)
  {
    r := all;
    var found := false;
    for i := 0 to |all|
      invariant |r| == |all|
      invariant forall j :: 0 <= j < i ==> r[j] == if all[j].name == dep.name then dep else all[j]
      invariant forall j :: i <= j < |all| ==> r[j] == all[j]
      invariant found ==> HasName(r, dep.name)
    {
      if r[i].name == dep.name {
        r := r[i := Component(r[i].name, dep.repository, dep.version)];
        assert r[i].name == dep.name;
        found := true;
      }
    }
    if !found {
      r := r + [dep];
      assert r[|all|].name == dep.name;
    }
  }

  ghost predicate Applied(cs: seq<Component>, deps: seq<Component>, all: seq<Component>) {
    && |cs| <= |all|
    && (forall i :: 0 <= i < |cs| ==> all[i] == Refreshed(cs[i], deps))
    && (forall d :: d in deps ==> HasName(all, d.name))
    && (forall i :: |cs| <= i < |all| ==> all[i] in deps)
  }

  lemma AppliedNext(cs: seq<Component>, deps: seq<Component>, dep: Component, all: seq<Component>, r: seq<Component>)
    requires Applied(cs, deps, all) && AppliedOne(all, dep, r)
    ensures Applied(cs, deps + [dep], r)
  {
    var deps' := deps + [dep];
    assert deps'[..|deps|] == deps;
    forall i | 0 <= i < |cs| ensures r[i] == Refreshed(cs[i], deps') {
      RefreshedKeepsName(cs[i], deps);
    }
    forall d | d in deps' ensures HasName(r, d.name) {
      if d in deps {
        var i :| 0 <= i < |all| && all[i].name == d.name;
        assert r[i].name == d.name;
      }
    }
  }

  /** updatePullRequestComponentDependenciesVersion: what is deployed. The queue object keeps the first
      |cs| entries, whose elements it shares. */
  method UpdateDependencies(cs: seq<Component>, deps: seq<Component>) returns (all: seq<Component>)
    ensures Applied(cs, deps, all) && all[..|cs|] == AllRefreshed(cs, deps)
  {
    all := cs;
    for k := 0 to |deps|
      invariant Applied(cs, deps[..k], all)
    {
      var r := ApplyOne(all, deps[k]);
      AppliedNext(cs, deps[..k], deps[k], all, r);
      assert deps[..k] + [deps[k]] == deps[..k + 1];
      all := r;
    }
    assert deps[..|deps|] == deps;
  }

  // ----- resetQueueOrder

  ghost predicate SameButOrders(all: seq<PrQueue>, items: seq<PrQueue>) {
    |items| == |all| && forall i :: 0 <= i < |all| ==> items[i] == all[i].(order := items[i].order)
  }

  /** The queues to save are the renumbered ones. */
  ghost predicate Tracked(all: seq<PrQueue>, items: seq<PrQueue>, updates: seq<PrQueue>, line: seq<nat>) {
    && (forall i :: 0 <= i < |all| && i < |items| && items[i] != all[i] ==> items[i] in updates)
    && (forall u :: u in updates ==> exists k :: 0 <= k < |line| && line[k] < |items| && u == items[line[k]])
  }

  /** The queues at places line carry the numbers 1, 2, ... in that order; the others are as before. */
  ghost predicate NumberedAt(all: seq<PrQueue>, items: seq<PrQueue>, line: seq<nat>) {
    && |items| == |all|
    && (forall k :: 0 <= k < |line| ==> line[k] < |all| && items[line[k]].order == k + 1)
    && (forall k, l :: 0 <= k < l < |line| ==> line[k] != line[l])
    && (forall i :: 0 <= i < |all| && i !in line ==> items[i] == all[i])
  }

  ghost predicate Progress(all: seq<PrQueue>, items: seq<PrQueue>, updates: seq<PrQueue>, line: seq<nat>) {
    SameButOrders(all, items) && Tracked(all, items, updates, line) && NumberedAt(all, items, line)
  }

  method NumberOne(ghost all: seq<PrQueue>, items: seq<PrQueue>, updates: seq<PrQueue>, i: nat, count: int, ghost line: seq<nat>)
    returns (items': seq<PrQueue>, updates': seq<PrQueue>)
    requires Progress(all, items, updates, line) && Distinct(all)
    requires i < |items| && i !in line && count == |line| + 1
    ensures Progress(all, items', updates', line + [i])
  {
    items', updates' := items, updates;
    if items[i].order != count {
      items' := items[i := items[i].(order := count)];
      updates' := updates + [items'[i]];
    }
    forall u | u in updates' ensures exists k :: 0 <= k <= |line| && (line + [i])[k] < |items'| && u == items'[(line + [i])[k]] {
      if u in updates {
        var k :| 0 <= k < |line| && line[k] < |items| && u == items[line[k]];
        assert (line + [i])[k] == line[k] != i;
      } else {
        assert (line + [i])[|line|] == i;
      }
    }
  }

  ghost predicate Places(all: seq<PrQueue>, running: seq<PrQueue>, line: seq<nat>) {
    |line| == |running| && forall k :: 0 <= k < |line| ==> line[k] < |all| && all[line[k]] == running[k]
  }

  method FindName(ghost all: seq<PrQueue>, items: seq<PrQueue>, q: PrQueue) returns (i: nat)
    requires Distinct(all) && SameButOrders(all, items) && q in all
    ensures i < |all| && all[i] == q
  {
    ghost var at :| 0 <= at < |all| && all[at] == q;
    assert items[at].name == q.name;
    i := 0;
    while items[i].name != q.name
      invariant 0 <= i <= at
      decreases |items| - i
    {
      i := i + 1;
    }
  }

  method NumberRunning(all: seq<PrQueue>, running: seq<PrQueue>)
    returns (items: seq<PrQueue>, updates: seq<PrQueue>, count: int, ghost line: seq<nat>)
    requires Distinct(all) && SortedByOrder(running) && forall q :: q in running ==> q in all
    ensures Progress(all, items, updates, line) && Places(all, running, line) && count == |line| + 1
  {
    items, updates, count, line := all, [], 1, [];
    SortedIsDistinct(running);
    for r := 0 to |running|
      invariant Progress(all, items, updates, line) && Places(all, running[..r], line) && count == |line| + 1
    {
      assert running[r] in all;
      var i := FindName(all, items, running[r]);
      assert i !in line;
      items, updates := NumberOne(all, items, updates, i, count, line);
      line := line + [i];
      count := count + 1;
    }
    assert running[..|running|] == running;
  }

  ghost predicate RunningFirst(all: seq<PrQueue>, running: seq<PrQueue>, line: seq<nat>) {
    && |running| <= |line| && Places(all, running, line[..|running|])
    && (forall k :: |running| <= k < |line| ==> line[k] < |all| && all[line[k]] !in running)
  }

  method IsOneOf(q: PrQueue, running: seq<PrQueue>) returns (found: bool)
    ensures found <==> exists k :: 0 <= k < |running| && running[k].name == q.name
  {
    found := false;
    for k := 0 to |running|
      invariant !found && forall j :: 0 <= j < k ==> running[j].name != q.name
    {
      if running[k].name == q.name {
        return true;
      }
    }
  }

  lemma PlaceOfRunning(all: seq<PrQueue>, running: seq<PrQueue>, line: seq<nat>, i: nat)
    requires Distinct(all) && RestUpTo(all, running, line, i) && i < |all|
    requires exists k :: 0 <= k < |running| && running[k].name == all[i].name
    ensures RestUpTo(all, running, line, i + 1)
  {
    var k :| 0 <= k < |running| && running[k].name == all[i].name;
    assert line[..|running|][k] == line[k] == i;
  }

  /** The running queues and the others before place i are in line. */
  ghost predicate RestUpTo(all: seq<PrQueue>, running: seq<PrQueue>, line: seq<nat>, i: nat) {
    && RunningFirst(all, running, line)
    && (forall j :: 0 <= j < i ==> j in line)
    && (forall k :: |running| <= k < |line| ==> line[k] < i)
  }

  lemma NotInLineYet(all: seq<PrQueue>, running: seq<PrQueue>, line: seq<nat>, i: nat)
    requires RestUpTo(all, running, line, i) && i < |all|
    requires forall k :: 0 <= k < |running| ==> running[k].name != all[i].name
    ensures i !in line && RestUpTo(all, running, line + [i], i + 1)
  {
    forall k | 0 <= k < |line| ensures line[k] != i {
      if k < |running| {
        assert line[..|running|][k] == line[k];
      }
    }
    assert (line + [i])[..|running|] == line[..|running|];
    assert (line + [i])[|line|] == i;
  }

  method NumberRest(all: seq<PrQueue>, running: seq<PrQueue>, items0: seq<PrQueue>, updates0: seq<PrQueue>, count0: int,
                    ghost line0: seq<nat>)
    returns (items: seq<PrQueue>, updates: seq<PrQueue>, ghost line: seq<nat>)
    requires Distinct(all) && forall q :: q in running ==> q in all
    requires Progress(all, items0, updates0, line0) && RunningFirst(all, running, line0)
    requires |line0| == |running| && count0 == |line0| + 1
    ensures Progress(all, items, updates, line) && RunningFirst(all, running, line)
    ensures forall i :: 0 <= i < |all| ==> i in line
  {
    items, updates, line := items0, updates0, line0;
    var count := count0;
    for i := 0 to |items0|
      invariant Progress(all, items, updates, line) && RestUpTo(all, running, line, i) && count == |line| + 1
    {
      var found := IsOneOf(items[i], running);
      if !found {
        NotInLineYet(all, running, line, i);
        items, updates := NumberOne(all, items, updates, i, count, line);
        line := line + [i];
        count := count + 1;
      } else {
        PlaceOfRunning(all, running, line, i);
      }
    }
  }

  // ----- What a reconcile does to the queue it is called for

  /** What the queue in the pull request namespace says about a stage. */
  datatype Answer = Pending | Passed | Failed

  datatype Creation = Created | AlreadyExists | NotCreated

  datatype Env = Env(now: int, team: string, concurrences: int, maxRetry: int, dependencies: seq<Component>,
                     namespaceGone: bool, creation: Creation, deployed: Answer, tested: Answer,
                     rpcOk: bool, reportOk: bool)

  function Start(q: PrQueue): PrQueue {
    q.(finalizer := q.finalizer || !q.deleting, stateLabel := LabelRunning, state := EnvCreating,
       conditions := q.conditions[CondStarted := true],
       components := q.upcomingComponents, commit := q.upcomingCommit)
  }

  function TriggerFailure(q: PrQueue): PrQueue {
    q.(conditions := q.conditions[CondStarted := false][CondEnvCreated := false][CondDependenciesUpdated := false]
                     [CondDeployed := false][CondTested := false],
       state := QCollecting, result := Failure)
  }

  function Retried(q: PrQueue, retry: int, order: int): PrQueue {
    q.(stateLabel := LabelWaiting, state := QWaiting, result := NoResult, conditions := map[], namespace := "",
       hasHistory := false, destroyedTime := None, retry := retry, order := order)
  }

  /** Waiting again with a fresh status and the given counter, for the same commits and components. */
  predicate BackInLine(q: PrQueue, q': PrQueue, retry: int) {
    && q'.stateLabel == LabelWaiting && q'.state == QWaiting && q'.retry == retry && q'.result == NoResult
    && q'.conditions == map[] && q'.namespace == "" && !q'.hasHistory && q'.destroyedTime.None?
    && q'.name == q.name && q'.commit == q.commit && q'.components == q.components
    && q'.upcomingCommit == q.upcomingCommit && q'.upcomingComponents == q.upcomingComponents
    && q'.triggerFailed == q.triggerFailed && q'.criteria == q.criteria && q'.tearDown == q.tearDown
    && q'.finalizer == q.finalizer && q'.deleting == q.deleting
  }

  /** The copy the reconcile goes on with, after its defaults and after a deletion in the destroying step. */
  function InMemory(q: PrQueue): (r: PrQueue)
    ensures r.name == q.name && r.state == q.state && r.result == q.result && r.stateLabel == q.stateLabel
    ensures r.commit == q.commit && r.upcomingCommit == q.upcomingCommit && r.retry == q.retry
    ensures r.components == q.components && r.conditions == q.conditions
    ensures r.destroyedTime == if q.deleting && q.state == EnvDestroying then None else q.destroyedTime
    ensures r.triggerFailed == if q.triggerFailed.None? && q.conditions == map[] then Some(false) else q.triggerFailed
  {
    var p := if q.conditions == map[] && q.triggerFailed.None? then q.(triggerFailed := Some(false)) else q;
    if q.deleting && q.state == EnvDestroying then p.(destroyedTime := None) else p
  }

  predicate Holds(q: PrQueue, c: Step) { c in q.conditions && q.conditions[c] }

  /** isTearDownDurationCriteriaMet */
  predicate Lingers(q: PrQueue) {
    && q.triggerFailed != Some(true) && Holds(q, CondDeployed)
    && match q.criteria
       case OnBoth => true
       case OnFailure => q.result == Failure
       case OnSuccess => q.result == Success
       case NoCriteria => false
  }

  predicate Destroyable(q: PrQueue, now: int) { q.destroyedTime.None? || now > q.destroyedTime.value }

  /** The attempt a queue in EnvDestroying goes back to the waiting line for, if it does. */
  function NextAttempt(q: PrQueue, maxRetry: int): Option<int> {
    if q.commit != q.upcomingCommit then Some(0)
    else if q.result == Failure && q.triggerFailed == Some(false) && q.retry < maxRetry then Some(q.retry + 1)
    else None
  }

  /** What the stage of the queue may save of copy p, going back to the waiting line aside. */
  ghost predicate Advanced(env: Env, p: PrQueue, q: PrQueue) {
    match p.state
    case Unset => q == p.(stateLabel := LabelWaiting, state := QWaiting)
    case QWaiting => false
    case EnvCreating =>
      || (env.creation == AlreadyExists && q == p)
      || (env.creation == Created
          && q == p.(namespace := "s2h-" + env.team + "-" + p.name, conditions := p.conditions[CondEnvCreated := true],
                     state := QDeploying))
    case QDeploying =>
      var r := p.(components := AllRefreshed(p.components, env.dependencies));
      if !Holds(p, CondDependenciesUpdated) then q == r.(conditions := p.conditions[CondDependenciesUpdated := true])
      else
        || (env.deployed == Passed && q == r.(conditions := p.conditions[CondDeployed := true], state := QTesting))
        || (env.deployed == Failed
            && q == r.(conditions := p.conditions[CondDeployed := false][CondTested := false], result := Failure,
                       state := QCollecting))
    case QTesting =>
      || (env.tested == Passed
          && q == p.(conditions := p.conditions[CondTested := true], result := Success, state := QCollecting))
      || (env.tested == Failed
          && q == p.(conditions := p.conditions[CondTested := false], result := Failure, state := QCollecting))
    case QCollecting =>
      q == p.(conditions := p.conditions[CondResultCollected := true], state := EnvDestroying, hasHistory := true,
              destroyedTime := if p.destroyedTime.None? && Lingers(p) then Some(env.now + p.tearDown) else p.destroyedTime)
    case EnvDestroying =>
      && Destroyable(p, env.now) && NextAttempt(p, env.maxRetry).None? && !(p.result == Failure && p.triggerFailed.None?)
      && q == p.(conditions := p.conditions[CondEnvDestroyed := true], state := QFinished)
    case QFinished => false
  }

  predicate Cancellable(q: PrQueue) {
    && q.deleting && q.finalizer && q.result != Canceled
    && (q.state == EnvCreating || q.state == QDeploying || q.state == QTesting || q.state == QCollecting)
  }

  /** One write to the reconciled queue. */
  ghost predicate OwnWrite(env: Env, q: PrQueue, q': PrQueue) {
    || (q.conditions == map[] && q.triggerFailed == Some(true) && q' == TriggerFailure(q))
    || (q.state == QFinished && q.finalizer && !q.deleting && q' == q.(deleting := true))
    || (Cancellable(q) && q' == InMemory(q).(result := Canceled, state := QCollecting))
    || (Proceeds(env, q) && Advanced(env, InMemory(q), q'))
  }

  ghost predicate Vanishes(env: Env, q: PrQueue) {
    || (!q.deleting && !q.finalizer && q.state == QFinished)
    || (q.deleting && q.finalizer
        && (env.namespaceGone || q.state == Unset || q.state == QWaiting || q.state == QFinished))
  }

  // ----- What a reconcile does to the cluster

  ghost predicate SameButOrder(m: Cluster, m': Cluster) {
    m'.Keys == m.Keys && forall n :: n in m ==> m'[n] == m[n].(order := m'[n].order)
  }

  ghost predicate GoesBack(env: Env, m: Cluster, m': Cluster, name: string)
    requires name in m
  {
    var p := InMemory(m[name]);
    && Proceeds(env, m[name]) && p.state == EnvDestroying && Destroyable(p, env.now) && NextAttempt(p, env.maxRetry).Some?
    && exists order :: SameButOrder(m[name := Retried(p, NextAttempt(p, env.maxRetry).value, order)], m')
  }

  ghost predicate OwnPart(env: Env, m: Cluster, m': Cluster, name: string) {
    && name in m
    && (|| m' == m
        || (name in m' && m' == m[name := m'[name]] && OwnWrite(env, m[name], m'[name]))
        || (Vanishes(env, m[name]) && m' == m - {name})
        || GoesBack(env, m, m', name))
  }

  /** x is the first in line, and there is a free slot. */
  ghost predicate MayStart(env: Env, m: Cluster, x: string) {
    && x in WaitingNames(m) && |RunningNames(m)| < env.concurrences
    && forall y :: y in WaitingNames(m) && y != x ==> Less(m[x], m[y])
  }

  /** A reconcile starts at most one queue, and then goes on with its own queue unless that is the one. */
  ghost predicate ReconcileStep(env: Env, m: Cluster, m': Cluster, name: string, started: Option<string>) {
    match started
    case None => m' == m || OwnPart(env, m, m', name)
    case Some(x) =>
      && MayStart(env, m, x)
      && var m1 := m[x := Start(m[x])];
         if x == name then m' == m1 else OwnPart(env, m1, m', name)
  }

  /** Objects are filed under their names, and one that is being deleted still has its finalizer. */
  ghost predicate WellFormed(m: Cluster) {
    WellKeyed(m) && forall n :: n in m && m[n].deleting ==> m[n].finalizer
  }

  /** All queues in the order of their new numbers: the running ones first, as they were sorted. */
  ghost predicate Lineup(m: Cluster, names: seq<string>) {
    && (forall i, j :: 0 <= i < j < |names| ==> names[i] != names[j])
    && (forall n :: n in m <==> n in names)
    && (forall i, j :: 0 <= i < j < |names| && m[names[j]].stateLabel == LabelRunning ==>
          m[names[i]].stateLabel == LabelRunning && Less(m[names[i]], m[names[j]]))
  }

  ghost predicate Numbered(m: Cluster, names: seq<string>) {
    forall k :: 0 <= k < |names| ==> names[k] in m && m[names[k]].order == k + 1
  }

  ghost predicate Saved(m: Cluster, updates: seq<PrQueue>, m': Cluster) {
    && (forall u :: u in updates ==> u.name in m' && m'[u.name] == u)
    && (forall n :: n in m' ==> n in m && (m'[n] == m[n] || m'[n] in updates))
  }

  lemma OnlyOrderDiffers(m: Cluster, all: seq<PrQueue>, items: seq<PrQueue>, u: PrQueue)
    requires Lists(m, m.Keys, all) && SameButOrders(all, items) && u in items
    ensures u.name in m && u == m[u.name].(order := u.order)
  {
    var i :| 0 <= i < |items| && items[i] == u;
    assert all[i] in all;
  }

  lemma SavedNext(m: Cluster, updates: seq<PrQueue>, k: nat, items: seq<PrQueue>, m1: Cluster)
    requires k < |updates| && (forall u :: u in updates ==> u in items) && Distinct(items)
    requires Saved(m, updates[..k], m1) && updates[k].name in m
    ensures Saved(m, updates[..k + 1], m1[updates[k].name := updates[k]])
  {
    var m2 := m1[updates[k].name := updates[k]];
    assert updates[..k + 1] == updates[..k] + [updates[k]];
    forall u | u in updates[..k + 1] ensures u.name in m2 && m2[u.name] == u {
      assert u in items && updates[k] in items;
    }
  }

  lemma SavedEverywhere(m: Cluster, all: seq<PrQueue>, items: seq<PrQueue>, updates: seq<PrQueue>, m': Cluster)
    requires Lists(m, m.Keys, all) && SameButOrders(all, items) && SameButOrder(m, m') && Saved(m, updates, m')
    requires forall u :: u in updates ==> u in items
    requires forall i :: 0 <= i < |all| && items[i] != all[i] ==> items[i] in updates
    ensures forall i :: 0 <= i < |all| ==> all[i].name in m' && m'[all[i].name] == items[i]
  {
    forall i | 0 <= i < |all| ensures all[i].name in m' && m'[all[i].name] == items[i] {
      assert all[i] in all;
      if m'[all[i].name] in updates {
        var j :| 0 <= j < |items| && items[j] == m'[all[i].name];
        assert all[j].name == all[i].name;
      }
    }
  }

  ghost function NamesAt(all: seq<PrQueue>, line: seq<nat>): (names: seq<string>)
    requires forall k :: 0 <= k < |line| ==> line[k] < |all|
    ensures |names| == |line| && forall k :: 0 <= k < |line| ==> names[k] == all[line[k]].name
  {
    seq(|line|, k requires 0 <= k < |line| => all[line[k]].name)
  }

  method PlanOrders(ghost m: Cluster, all: seq<PrQueue>, running: seq<PrQueue>)
    returns (updates: seq<PrQueue>, ghost items: seq<PrQueue>, ghost line: seq<nat>)
    requires ListsRunning(m, all, running)
    ensures Progress(all, items, updates, line) && RunningFirst(all, running, line) && InLine(all, line)
  {
    var items0, updates0, count, line0 := NumberRunning(all, running);
    assert line0[..|running|] == line0;
    var items1, updates1, line1 := NumberRest(all, running, items0, updates0, count, line0);
    updates, items, line := updates1, items1, line1;
  }

  ghost predicate ListsRunning(m: Cluster, all: seq<PrQueue>, running: seq<PrQueue>) {
    && WellKeyed(m) && Lists(m, m.Keys, all) && SortedByOrder(running)
    && forall q :: q in running <==> q in all && q.name in RunningNames(m)
  }

  ghost predicate InLine(all: seq<PrQueue>, line: seq<nat>) {
    && (forall k :: 0 <= k < |line| ==> line[k] < |all|)
    && (forall k, l :: 0 <= k < l < |line| ==> line[k] != line[l])
    && (forall i :: 0 <= i < |all| ==> i in line)
  }

  lemma NamesCover(m: Cluster, all: seq<PrQueue>, line: seq<nat>)
    requires WellKeyed(m) && Lists(m, m.Keys, all) && InLine(all, line)
    ensures forall n :: n in m <==> n in NamesAt(all, line)
  {
    var names := NamesAt(all, line);
    forall n | n in m ensures n in names {
      assert m[n] in all;
      var i :| 0 <= i < |all| && all[i] == m[n];
      assert i in line;
      var k :| 0 <= k < |line| && line[k] == i;
      assert names[k] == n;
    }
    forall n | n in names ensures n in m {
      var k :| 0 <= k < |names| && names[k] == n;
      assert all[line[k]] in all;
    }
  }

  lemma RunningInOrder(m: Cluster, all: seq<PrQueue>, running: seq<PrQueue>, line: seq<nat>, i: nat, j: nat)
    requires ListsRunning(m, all, running) && RunningFirst(all, running, line)
    requires i < j < |line| && (forall k :: 0 <= k < |line| ==> line[k] < |all|)
    requires all[line[j]].stateLabel == LabelRunning
    ensures all[line[i]].stateLabel == LabelRunning && Less(all[line[i]], all[line[j]])
  {
    assert all[line[j]] in all;
    assert all[line[j]] in running;
    assert line[..|running|][i] == line[i] && line[..|running|][j] == line[j];
    assert running[i] in running;
  }

  lemma NumbersGoInLine(m: Cluster, all: seq<PrQueue>, running: seq<PrQueue>, items: seq<PrQueue>, line: seq<nat>, m': Cluster)
    requires ListsRunning(m, all, running) && RunningFirst(all, running, line) && InLine(all, line)
    requires NumberedAt(all, items, line)
    requires forall i :: 0 <= i < |all| ==> all[i].name in m' && m'[all[i].name] == items[i]
    ensures Lineup(m, NamesAt(all, line)) && Numbered(m', NamesAt(all, line))
  {
    var names := NamesAt(all, line);
    NamesCover(m, all, line);
    forall i, j | 0 <= i < j < |names|
      ensures names[i] != names[j]
      ensures m[names[j]].stateLabel == LabelRunning ==>
                m[names[i]].stateLabel == LabelRunning && Less(m[names[i]], m[names[j]])
    {
      assert all[line[i]] in all && all[line[j]] in all;
      if all[line[j]].stateLabel == LabelRunning {
        RunningInOrder(m, all, running, line, i, j);
      }
    }
  }

  lemma FirstInLine(env: Env, m: Cluster, sorted: seq<PrQueue>)
    requires WellFormed(m) && |sorted| > 0 && SortedByOrder(sorted) && |RunningNames(m)| < env.concurrences
    requires forall n :: n in WaitingNames(m) ==> m[n] in sorted
    requires forall q :: q in sorted ==> q.name in WaitingNames(m) && q == m[q.name]
    ensures MayStart(env, m, sorted[0].name) && sorted[0] == m[sorted[0].name]
    ensures sorted[0].deleting ==> sorted[0].finalizer
  {
    assert sorted[0] in sorted;
    forall y | y in WaitingNames(m) && y != sorted[0].name ensures Less(sorted[0], m[y]) {
      var i :| 0 <= i < |sorted| && sorted[i] == m[y];
    }
  }

  lemma AdvancedKeeps(env: Env, p: PrQueue, q: PrQueue)
    requires Advanced(env, p, q)
    ensures q.name == p.name && q.deleting == p.deleting && q.finalizer == p.finalizer
  {
  }

  /** What NewPullRequestQueue builds. */
  ghost predicate IsNew(q: PrQueue) {
    && q.stateLabel == Unlabelled && q.state == Unset && q.result == NoResult && q.conditions == map[]
    && q.commit == q.upcomingCommit && q.components == q.upcomingComponents && q.retry == 0 && q.triggerFailed.Some?
    && !q.finalizer && !q.deleting && q.namespace == "" && !q.hasHistory && q.destroyedTime.None?
  }

  /** A queue of its own behind all others, or a newer commit for the one that is there. */
  ghost predicate AddStep(m: Cluster, m': Cluster, q: PrQueue) {
    || SameButOrder(m, m')
    || (q.name !in m && q.name in m' && m'[q.name] == q.(order := m'[q.name].order) && SameButOrder(m, m' - {q.name})
        && forall n :: n in m ==> m'[n].order < m'[q.name].order)
    || (q.name in m && SameButOrder(m[q.name := Upcoming(m[q.name], q)], m'))
  }

  function Upcoming(q: PrQueue, newer: PrQueue): PrQueue {
    q.(upcomingCommit := newer.upcomingCommit, upcomingComponents := newer.upcomingComponents)
  }

  predicate SameButUpcoming(q: PrQueue, q': PrQueue) {
    q' == q.(upcomingCommit := q'.upcomingCommit, upcomingComponents := q'.upcomingComponents, order := q'.order)
  }

  lemma UpcomingIsStep(m: Cluster, m1: Cluster, m2: Cluster, q: PrQueue)
    requires SameButOrder(m, m1) && q.name in m1 && (m2 == m1 || m2 == m1[q.name := Upcoming(m1[q.name], q)])
    ensures AddStep(m, m2, q) && q.name in m && SameButUpcoming(m[q.name], m2[q.name])
  {
    if m2 != m1 {
      assert SameButOrder(m[q.name := Upcoming(m[q.name], q)], m2);
    }
  }

  lemma CreatedLast(m: Cluster, m1: Cluster, q: PrQueue, order: int)
    requires SameButOrder(m, m1) && q.name !in m && forall n :: n in m1 ==> m1[n].order < order
    ensures AddStep(m, m1[q.name := q.(order := order)], q)
  {
    var m' := m1[q.name := q.(order := order)];
    assert m' - {q.name} == m1;
  }

  /** Where the answers lead the queue, going on with copy p, when no call fails. */
  predicate Leads(env: Env, p: PrQueue, s: Stage) {
    match p.state
    case Unset => s == QWaiting
    case QWaiting => false
    case EnvCreating => s == QDeploying && env.creation == Created
    case QDeploying =>
      && env.rpcOk && Holds(p, CondDependenciesUpdated)
      && ((s == QTesting && env.deployed == Passed) || (s == QCollecting && env.deployed == Failed))
    case QTesting => s == QCollecting && env.tested != Pending
    case QCollecting => s == EnvDestroying && env.rpcOk && (p.hasHistory || env.reportOk)
    case EnvDestroying =>
      && Destroyable(p, env.now) && env.rpcOk && !(p.result == Failure && p.triggerFailed.None?)
      && s == if NextAttempt(p, env.maxRetry).Some? then QWaiting else QFinished
    case QFinished => false
  }

  /** The trigger failed, and the queue has not been told yet. */
  predicate TriggerFails(q: PrQueue) { q.conditions == map[] && q.triggerFailed == Some(true) }

  /** The queue is deleted, and nothing keeps it. */
  predicate Released(env: Env, q: PrQueue) {
    q.deleting && (env.namespaceGone || q.state == Unset || q.state == QWaiting || q.state == QFinished)
  }

  /** The reconcile neither finishes nor cancels the queue and goes on with its stage. */
  predicate Proceeds(env: Env, q: PrQueue) {
    && !TriggerFails(q) && q.state != QFinished && !Released(env, q)
    && (q.deleting ==> q.state == EnvDestroying || q.result == Canceled)
  }

  /** What a reconcile of a queue comes to when no call fails. */
  ghost predicate Reconciled(env: Env, m: Cluster, m': Cluster, name: string, started: Option<string>)
    requires name in m
  {
    var q := m[name];
    && (TriggerFails(q) ==> name in m' && m'[name].state == QCollecting && m'[name].result == Failure)
    && (!TriggerFails(q) && q.state == QFinished && !q.deleting ==> name !in m' || m'[name].deleting)
    && (!TriggerFails(q) && Released(env, q) ==> name !in m')
    && (!TriggerFails(q) && !Released(env, q) && q.deleting && q.state != EnvDestroying && q.result != Canceled ==>
          name in m' && m'[name].state == QCollecting && m'[name].result == Canceled)
    && (Proceeds(env, q) ==>
          && (started.Some? <==> WaitingNames(m) != {} && |RunningNames(m)| < env.concurrences)
          && (started != Some(name) ==> Driven(env, InMemory(q), m', name)))
  }

  /** Whether the reconcile ends with the deletion of its queue, and with what. */
  ghost predicate FinishedIs(env: Env, q: PrQueue, m': Cluster, name: string, skip: bool) {
    && (skip <==> q.state == QFinished || Released(env, q) || (q.deleting && q.state != EnvDestroying && q.result != Canceled))
    && (q.state == QFinished && !q.deleting ==> name !in m' || m'[name].deleting)
    && (Released(env, q) ==> name !in m')
    && (skip && q.deleting && !Released(env, q) ==> name in m' && m'[name].state == QCollecting && m'[name].result == Canceled)
  }

  ghost predicate Driven(env: Env, p: PrQueue, m': Cluster, name: string) {
    && (forall s :: Leads(env, p, s) ==> name in m' && m'[name].state == s)
    && (p.state == EnvCreating && env.creation == Created ==> name in m' && m'[name].namespace == "s2h-" + env.team + "-" + p.name)
    && (p.state == QDeploying && env.rpcOk && !Holds(p, CondDependenciesUpdated) ==>
          name in m' && m'[name].state == QDeploying && Holds(m'[name], CondDependenciesUpdated))
  }

  class Controller {
    var queues: Cluster
    /** Which of the calls to come fail, without effect; those behind the end succeed. */
    var fails: seq<bool>

    ghost predicate Calm()
      reads this`fails
    {
      forall i :: 0 <= i < |fails| ==> !fails[i]
    }

    method Fails() returns (f: bool)
      modifies this`fails
      ensures old(Calm()) ==> Calm() && !f
    {
      f := |fails| > 0 && fails[0];
      fails := if |fails| > 0 then fails[1..] else [];
    }

    // The client

    method List(keys: set<string>) returns (items: seq<PrQueue>)
      requires WellKeyed(queues) && keys <= queues.Keys
      ensures Lists(queues, keys, items)
    {
      items := [];
      var rest := keys;
      while rest != {}
        invariant rest <= keys && Lists(queues, keys - rest, items)
        decreases |rest|
      {
        var n :| n in rest;
        assert forall q :: q in items ==> q.name != n;
        items := items + [queues[n]];
        assert items[|items| - 1] == queues[n];
        rest := rest - {n};
      }
      assert keys - rest == keys;
    }

    method Update(q: PrQueue) returns (ok: bool)
      requires WellFormed(queues)
      modifies this
      ensures WellFormed(queues)
      ensures ok ==> q.name in old(queues)
      ensures ok && !(q.deleting && !q.finalizer) ==> queues == old(queues)[q.name := q]
      ensures ok && q.deleting && !q.finalizer ==> queues == old(queues) - {q.name}
      ensures !ok ==> queues == old(queues)
      ensures old(Calm()) ==> Calm() && (q.name in old(queues) ==> ok)
    {
      var f := Fails();
      if f || q.name !in queues {
        return false;
      }
      if q.deleting && !q.finalizer {
        queues := queues - {q.name};
      } else {
        queues := queues[q.name := q];
      }
      ok := true;
    }

    method Delete(name: string) returns (ok: bool)
      requires WellFormed(queues)
      modifies this
      ensures WellFormed(queues)
      ensures queues == old(queues)
           || (name in old(queues) && queues == if old(queues)[name].finalizer
                 then old(queues)[name := old(queues)[name].(deleting := true)] else old(queues) - {name})
      ensures old(Calm()) ==> Calm() && (name !in queues || queues[name].deleting)
    {
      var f := Fails();
      if f || name !in queues {
        return false;
      }
      if queues[name].finalizer {
        queues := queues[name := queues[name].(deleting := true)];
      } else {
        queues := queues - {name};
      }
      ok := true;
    }

    method SaveOrders(updates: seq<PrQueue>, ghost all: seq<PrQueue>, ghost items: seq<PrQueue>) returns (ghost ok: bool)
      requires WellFormed(queues) && Lists(queues, queues.Keys, all) && SameButOrders(all, items)
      requires forall u :: u in updates ==> u in items
      modifies this
      ensures WellFormed(queues) && SameButOrder(old(queues), queues)
      ensures ok ==> Saved(old(queues), updates, queues)
      ensures old(Calm()) ==> Calm() && ok
    {
      ok := true;
      ghost var m := queues;
      for k := 0 to |updates|
        invariant WellFormed(queues) && SameButOrder(m, queues)
        invariant ok ==> Saved(m, updates[..k], queues)
        invariant old(Calm()) ==> Calm() && ok
      {
        assert updates[k] in updates;
        OnlyOrderDiffers(m, all, items, updates[k]);
        ghost var before := queues;
        var done := Update(updates[k]);
        assert done ==> queues == before[updates[k].name := updates[k]];
        ok := ok && done;
        if ok {
          SavedNext(m, updates, k, items, before);
        }
      }
      assert updates[..|updates|] == updates;
    }

    method ResetQueueOrder() returns (ghost saved: Option<seq<string>>)
      requires WellFormed(queues)
      modifies this
      ensures WellFormed(queues) && SameButOrder(old(queues), queues)
      ensures saved.Some? ==> Lineup(old(queues), saved.value) && Numbered(queues, saved.value)
      ensures old(Calm()) ==> Calm() && saved.Some?
    {
      saved := None;
      var f := Fails();
      if f {
        return;
      }
      var all := List(queues.Keys);
      var running := List(RunningNames(queues));
      var sorted := Sort(running);
      var updates, items, line := PlanOrders(queues, all, sorted);
      var ok := SaveOrders(updates, all, items);
      if ok {
        SavedEverywhere(old(queues), all, items, updates, queues);
        NumbersGoInLine(old(queues), all, sorted, items, line, queues);
        saved := Some(NamesAt(all, line));
      }
    }

    // The steps of a reconcile

    method SetRetryQueue(q: PrQueue, retry: int) returns (ok: bool, ghost order: int)
      requires WellFormed(queues) && q.name in queues && (q.deleting ==> q.finalizer)
      modifies this
      ensures WellFormed(queues)
      ensures ok ==> queues == old(queues)[q.name := Retried(q, retry, order)] && BackInLine(q, queues[q.name], retry)
      ensures ok ==> forall n :: n in old(queues) ==> old(queues)[n].order < order
      ensures !ok ==> queues == old(queues)
      ensures old(Calm()) ==> Calm() && ok
    {
      var f := Fails();
      if f {
        return false, 0;
      }
      var list := List(queues.Keys);
      var last := LastQueueOrder(list);
      order := last;
      ok := Update(q.(stateLabel := LabelWaiting, state := QWaiting, result := NoResult, conditions := map[],
                      namespace := "", hasHistory := false, destroyedTime := None, retry := retry, order := last));
    }

    /** managePullRequestQueue */
    method Manage(env: Env, current: PrQueue) returns (skip: bool, ghost started: Option<string>)
      requires WellFormed(queues)
      modifies this
      ensures WellFormed(queues)
      ensures started.None? ==> queues == old(queues)
      ensures started.Some? ==> MayStart(env, old(queues), started.value)
                                && queues == old(queues)[started.value := Start(old(queues)[started.value])]
      ensures started == Some(current.name) ==> skip
      ensures started.None? && !skip ==> WaitingNames(queues) == {} || |RunningNames(queues)| >= env.concurrences
      ensures old(Calm()) ==> Calm() && (skip <==> started == Some(current.name))
      ensures old(Calm()) ==>
                (started.Some? <==> WaitingNames(old(queues)) != {} && |RunningNames(old(queues))| < env.concurrences)
    {
      started := None;
      var f := Fails();
      if f {
        return true, None;
      }
      var running := List(RunningNames(queues));
      ListSize(queues, RunningNames(queues), running);
      if |running| >= env.concurrences {
        return false, None;
      }
      var waiting := List(WaitingNames(queues));
      if |waiting| == 0 {
        ListSize(queues, WaitingNames(queues), waiting);
        return false, None;
      }
      var sorted := Sort(waiting);
      if env.concurrences - |running| > 0 {
        var first := sorted[0];
        FirstInLine(env, queues, sorted);
        first := first.(finalizer := first.finalizer || !first.deleting, stateLabel := LabelRunning, state := EnvCreating,
                        conditions := first.conditions[CondStarted := true]);
        first := first.(components := first.upcomingComponents);
        first := first.(commit := first.upcomingCommit);
        var ok := Update(first);
        if !ok {
          return true, None;
        }
        return first.name == current.name, Some(first.name);
      }
      return false, None;
    }

    /** ensurePullRequestQueueStatus */
    method EnsureStatus(q: PrQueue) returns (p: PrQueue, changed: bool)
      ensures changed <==> q.conditions == map[] && q.triggerFailed == Some(true)
      ensures if changed then p == TriggerFailure(q)
              else p == if q.conditions == map[] && q.triggerFailed.None? then q.(triggerFailed := Some(false)) else q
    {
      p, changed := q, false;
      if q.conditions != map[] {
        return;
      }
      if q.triggerFailed.None? {
        p := q.(triggerFailed := Some(false));
      } else if q.triggerFailed.value {
        p := p.(conditions := p.conditions[CondStarted := false]);
        p := p.(conditions := p.conditions[CondEnvCreated := false]);
        p := p.(conditions := p.conditions[CondDependenciesUpdated := false]);
        p := p.(conditions := p.conditions[CondDeployed := false]);
        p := p.(conditions := p.conditions[CondTested := false]);
        p := p.(state := QCollecting, result := Failure);
        changed := true;
      }
    }

    /** deleteFinalizerWhenFinished; q0 is the object as it was read, p the copy in memory. */
    method FinishDeletion(env: Env, ghost q0: PrQueue, p: PrQueue) returns (q: PrQueue, skip: bool)
      requires WellFormed(queues) && p.name in queues && q0 == queues[p.name]
      requires (p == q0 || p == q0.(triggerFailed := Some(false))) && !TriggerFails(q0)
      requires InMemory(q0) == if q0.deleting && q0.state == EnvDestroying then p.(destroyedTime := None) else p
      modifies this
      ensures WellFormed(queues) && q.name == p.name
      ensures skip ==> OwnPart(env, old(queues), queues, p.name)
      ensures !skip ==> queues == old(queues) && q == InMemory(q0) && Proceeds(env, q0)
      ensures old(Calm()) ==> Calm() && FinishedIs(env, q0, queues, p.name, skip)
    {
      q, skip := p, false;
      if p.state == QFinished && !p.deleting {
        var _ := Delete(p.name);
        return q, true;
      }
      if p.deleting {
        if env.namespaceGone || p.state == Unset || p.state == QWaiting || p.state == QFinished {
          var _ := Update(p.(finalizer := false));
          return q, true;
        }
        var f := Fails();
        if p.state == EnvDestroying {
          return p.(destroyedTime := None), f;
        }
        if p.result == Canceled {
          return q, f;
        }
        var _ := Update(p.(result := Canceled, state := QCollecting));
        return q, true;
      }
    }

    method Deploying(env: Env, p: PrQueue) returns (q: PrQueue, save: bool)
      requires p.state == QDeploying
      ensures save ==> Advanced(env, p, q)
      ensures save <==> env.rpcOk && (Holds(p, CondDependenciesUpdated) ==> env.deployed != Pending)
    {
      q, save := p, false;
      if !env.rpcOk {
        return;
      }
      var all := UpdateDependencies(p.components, env.dependencies);
      q := p.(components := all[..|p.components|]);
      if !Holds(p, CondDependenciesUpdated) {
        return q.(conditions := q.conditions[CondDependenciesUpdated := true]), true;
      }
      if env.deployed == Pending {
        return;
      }
      if env.deployed == Passed {
        return q.(conditions := q.conditions[CondDeployed := true], state := QTesting), true;
      }
      q := q.(result := Failure);
      q := q.(conditions := q.conditions[CondDeployed := false]);
      q := q.(conditions := q.conditions[CondTested := false]);
      return q.(state := QCollecting), true;
    }

    method Testing(env: Env, p: PrQueue) returns (q: PrQueue, save: bool)
      requires p.state == QTesting
      ensures save ==> Advanced(env, p, q)
      ensures save <==> env.tested != Pending
    {
      if env.tested == Pending {
        return p, false;
      }
      if env.tested == Passed {
        q := p.(result := Success, conditions := p.conditions[CondTested := true]);
      } else {
        q := p.(result := Failure, conditions := p.conditions[CondTested := false]);
      }
      return q.(state := QCollecting), true;
    }

    method Collecting(env: Env, p: PrQueue) returns (q: PrQueue, save: bool)
      requires p.state == QCollecting
      ensures save ==> Advanced(env, p, q)
      ensures save <==> env.rpcOk && (p.hasHistory || env.reportOk)
    {
      if !env.rpcOk {
        return p, false;
      }
      q := p.(state := EnvDestroying, conditions := p.conditions[CondResultCollected := true]);
      if q.destroyedTime.None? && Lingers(q) {
        q := q.(destroyedTime := Some(env.now + q.tearDown));
      }
      if !q.hasHistory {
        q := q.(hasHistory := true);
        return q, env.reportOk;
      }
      return q, true;
    }

    method CreateEnvironment(env: Env, p: PrQueue) returns (q: PrQueue, save: bool)
      requires p.state == EnvCreating
      ensures save ==> Advanced(env, p, q)
      ensures save <==> env.creation != NotCreated
    {
      if env.creation != Created {
        return p, env.creation == AlreadyExists;
      }
      q := p.(namespace := "s2h-" + env.team + "-" + p.name, conditions := p.conditions[CondEnvCreated := true]);
      return q.(state := QDeploying), true;
    }

    method GoBack(env: Env, ghost p: PrQueue, q: PrQueue, retry: int)
      requires WellFormed(queues) && p.name in queues && p == InMemory(queues[p.name]) && p.state == EnvDestroying
      requires Proceeds(env, queues[p.name])
      requires Destroyable(p, env.now) && NextAttempt(p, env.maxRetry) == Some(retry)
      requires q == p.(conditions := q.conditions)
      modifies this
      ensures WellFormed(queues) && OwnPart(env, old(queues), queues, p.name)
      ensures old(Calm()) ==> Calm() && p.name in queues && queues[p.name].state == QWaiting
    {
      var ok, order := SetRetryQueue(q, retry);
      if ok {
        assert Retried(q, retry, order) == Retried(p, retry, order);
        var _ := ResetQueueOrder();
        assert SameButOrder(old(queues)[p.name := Retried(p, retry, order)], queues);
        assert GoesBack(env, old(queues), queues, p.name);
      }
    }

    /** destroyPullRequestEnvironment */
    method Destroy(env: Env, p: PrQueue) returns (q: PrQueue, save: bool)
      requires WellFormed(queues) && p.name in queues && p == InMemory(queues[p.name]) && p.state == EnvDestroying
      requires Proceeds(env, queues[p.name])
      modifies this
      ensures WellFormed(queues) && q.name == p.name
      ensures save ==> Advanced(env, p, q) && queues == old(queues)
      ensures save <==> env.rpcOk && Destroyable(p, env.now) && NextAttempt(p, env.maxRetry).None?
                        && !(p.result == Failure && p.triggerFailed.None?)
      ensures !save ==> OwnPart(env, old(queues), queues, p.name)
      ensures save ==> fails == old(fails) && q.state == QFinished
      ensures old(Calm()) && env.rpcOk && Destroyable(p, env.now) && NextAttempt(p, env.maxRetry).Some?
              && !(p.result == Failure && p.triggerFailed.None?) ==>
                p.name in queues && queues[p.name].state == QWaiting
      ensures old(Calm()) ==> Calm()
    {
      q, save := p, false;
      if p.destroyedTime.Some? && !(env.now > p.destroyedTime.value) {
        return;
      }
      if !env.rpcOk {
        return;
      }
      q := p.(conditions := p.conditions[CondEnvDestroyed := true]);
      if q.commit != q.upcomingCommit {
        GoBack(env, p, q, 0);
        return;
      }
      if q.result == Failure {
        if q.triggerFailed.None? {
          return; // the nil pointer is read here
        }
        if !q.triggerFailed.value && q.retry < env.maxRetry {
          GoBack(env, p, q, q.retry + 1);
          return;
        }
      }
      return q.(state := QFinished), true;
    }

    method Proceed(env: Env, q: PrQueue)
      requires WellFormed(queues) && q.name in queues && q == InMemory(queues[q.name]) && Proceeds(env, queues[q.name])
      modifies this
      ensures WellFormed(queues) && OwnPart(env, old(queues), queues, q.name)
      ensures old(Calm()) ==> Driven(env, q, queues, q.name)
    {
      var r, save := q, true;
      match q.state {
        case Unset => r := q.(stateLabel := LabelWaiting, state := QWaiting);
        case QWaiting => save := false;
        case EnvCreating => r, save := CreateEnvironment(env, q);
        case QDeploying => r, save := Deploying(env, q);
        case QTesting => r, save := Testing(env, q);
        case QCollecting => r, save := Collecting(env, q);
        case EnvDestroying => r, save := Destroy(env, q);
      }
      if save {
        AdvancedKeeps(env, q, r);
        var _ := Update(r);
      }
    }

    method Reconcile(env: Env, name: string) returns (ghost started: Option<string>)
      requires WellFormed(queues)
      modifies this
      ensures WellFormed(queues)
      ensures ReconcileStep(env, old(queues), queues, name, started)
      ensures old(Calm()) && name in old(queues) ==> Reconciled(env, old(queues), queues, name, started)
    {
      started := None;
      if name !in queues {
        return;
      }
      var p, changed := EnsureStatus(queues[name]);
      if changed {
        var _ := Update(p);
        return;
      }
      var q, skip := FinishDeletion(env, queues[name], p);
      if skip {
        return;
      }
      skip, started := Manage(env, q);
      if skip {
        return;
      }
      Proceed(env, q);
    }

    /** addQueue */
    method Add(q: PrQueue)
      requires WellFormed(queues) && IsNew(q)
      modifies this
      ensures WellFormed(queues) && AddStep(old(queues), queues, q)
      ensures q.name in old(queues) ==> q.name in queues && SameButUpcoming(old(queues)[q.name], queues[q.name])
      ensures old(Calm()) ==>
                && q.name in queues && queues[q.name].upcomingCommit == q.upcomingCommit
                && queues[q.name].upcomingComponents == q.upcomingComponents
    {
      var _ := ResetQueueOrder();
      var f := Fails();
      if f {
        return;
      }
      ghost var m := queues;
      var list := List(queues.Keys);
      if q.name !in queues {
        var order := LastQueueOrder(list);
        assert forall n :: n in m ==> m[n] in list;
        queues := queues[q.name := q.(order := order)];
        CreatedLast(old(queues), m, q, order);
        return;
      }
      AddNewer(q);
      UpcomingIsStep(old(queues), m, queues, q);
    }

    /** The newer commit for the queue that is there. */
    method AddNewer(q: PrQueue)
      requires WellFormed(queues) && q.name in queues
      modifies this
      ensures WellFormed(queues)
      ensures queues == old(queues) || queues == old(queues)[q.name := Upcoming(old(queues)[q.name], q)]
      ensures old(Calm()) ==> queues != old(queues) || old(queues)[q.name] == Upcoming(old(queues)[q.name], q)
    {
      var tmp := queues[q.name];
      var currentOrder, currentRetry := tmp.order, tmp.retry;
      tmp := tmp.(upcomingCommit := q.upcomingCommit);
      tmp := tmp.(upcomingComponents := q.upcomingComponents);
      tmp := tmp.(order := currentOrder, retry := currentRetry);
      var ok := Update(tmp);
      if ok {
        assert queues[q.name] == Upcoming(old(queues)[q.name], q);
      }
    }
  }
}
