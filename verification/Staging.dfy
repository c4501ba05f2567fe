/** The staging controller (internal/staging): one call of process at a time, over the queue
    controller and the objects of the staging namespace. Everything outside (configuration, deploy
    engine, test runners, API failures) comes in as one `Env` per call. */
module Staging {
  import opened QueueTypes
  import opened QueueList
  import opened QueueOrdering
  import opened QueueRewriting
  import opened QueueController
  import QueueCleanup

  datatype Missing = MissingError | NothingMissing | SomeMissing

  datatype Deployment = NotDeployed | DeployedWithError | DeployStartedOk

  datatype Releases = ReleasesPending | ReleasesFailed | EnvironmentReady

  /** A runner that could not be triggered, one whose build still runs, or one with a final result:
      only a passed build counts as success; `recorded` tells whether the result gets a condition. */
  datatype RunnerOutcome = NotTriggered | Unfinished | Final(passed: bool, recorded: bool)

  datatype Env = Env(
    now: int,
    writes: nat,
    syncOk: bool,
    hasDeployConfig: bool,
    isCleaned: bool,
    missing: Missing,
    deployTimeout: int,
    configOk: bool,
    components: set<string>,
    bundles: set<string>,
    deployment: Deployment,
    releases: Releases,
    testTimeout: int,
    triggerTimeout: int,
    skipTest: bool,
    hasTestConfig: bool,
    runners: seq<RunnerOutcome>,
    triggerOk: bool,
    logsOk: bool,
    reportOk: bool,
    historyOk: bool,
    listOk: bool,
    maxRetry: int)

  const DAY: int := 86400

  // ----- What one call may do to the queue it processes

  predicate SameCounter(q: Queue, q': Queue) {
    q'.name == q.name && q'.qtype == q.qtype && q'.noOfRetry == q.noOfRetry
  }

  /** What a call writes and leaves in memory: every write has a version of its own, and a copy goes to
      Deleting only out of CleaningAfter, with its components. */
  ghost predicate Wrote(m: map<string, Queue>, rv: nat, m': map<string, Queue>, rv': nat, q: Queue, q': Queue) {
    && Rewritten(m, m', rv, rv') && SameCounter(q, q') && (q'.rv == q.rv || q'.rv < rv')
    && (q'.state == Deleting ==> q.state == CleaningAfter && q'.components == q.components && q'.bundle == q.bundle)
  }

  /** Nothing but the stage of the queue changed; components may have been dropped. */
  ghost predicate Carried(q: Queue, q': Queue) {
    && q'.name == q.name && q'.bundle == q.bundle && q'.qtype == q.qtype && q'.noOfRetry == q.noOfRetry
    && q'.noOfOrder == q.noOfOrder && q'.nextProcessAt == q.nextProcessAt
    && (forall c :: c in q'.components ==> c in q.components) && (DistinctNames(q.components) ==> DistinctNames(q'.components))
  }

  datatype Stage = Stage(state: QueueState, deployed: bool, tested: bool)

  function StageOf(q: Queue): Stage {
    Stage(q.state, q.IsConditionTrue(Deployed), q.IsConditionTrue(Tested))
  }

  /** The stages a queue goes through. A queue reaches Collecting with its deployment marked as
      failed, or out of Testing. */
  predicate Transition(s: Stage, t: Stage) {
    match (s.state, t.state)
    case (Waiting, CleaningBefore) => true
    case (CleaningBefore, DetectingImageMissing) => true
    case (DetectingImageMissing, Creating) => true
    case (DetectingImageMissing, Collecting) => !t.deployed
    case (Creating, Collecting) => !t.deployed
    case (Creating, Testing) => t.deployed
    case (Testing, Collecting) => t.deployed == s.deployed
    case (Collecting, CleaningAfter) => true
    case (CleaningAfter, Deleting) => true
    case _ => s == t
  }

  ghost predicate Edge(q: Queue, q': Queue) {
    Carried(q, q') && Transition(StageOf(q), StageOf(q'))
  }

  /** The conditions a call may set in a state. */
  predicate MayNote(s: QueueState, c: Condition) {
    match s
    case Waiting => c == CleaningBeforeStarted
    case CleaningBefore => c == CleanedBefore
    case DetectingImageMissing => c == Deployed
    case Creating => c == DeployStarted || c == Deployed
    case Testing => c == TestTriggered || c == RunnerResult || c == Tested
    case Collecting => c == CleaningAfterStarted
    case CleaningAfter => c == CleanedAfter
    case Deleting => false
  }

  /** What a call may note on the way. It never takes DeployStarted back, and sets it only in Creating, for a
      deployment of its own; a time is noted once; the rest belongs to single states. */
  predicate Noted(q: Queue, q': Queue, env: Env) {
    && (q.IsConditionTrue(DeployStarted) ==> q'.IsConditionTrue(DeployStarted))
    && (q'.IsConditionTrue(DeployStarted) && !q.IsConditionTrue(DeployStarted) ==>
          q.state == Creating && env.deployment != NotDeployed)
    && TimesNoted(q, q', env)
    && (q'.hasLogs == q.hasLogs || (q.state == Collecting && env.logsOk && q'.hasLogs))
    && (q'.imageMissing == q.imageMissing || (q.state == DetectingImageMissing && env.missing == SomeMissing && q'.imageMissing))
    && q'.noOfProcessed == q.noOfProcessed + (if q.state == Waiting && q'.state == CleaningBefore then 1 else 0)
    && OthersKept(q, q')
  }

  predicate TimesNoted(q: Queue, q': Queue, env: Env) {
    && (|| q'.startDeployTime == q.startDeployTime
        || (q.startDeployTime.None? && q.state == Creating && q'.startDeployTime == Some(env.now)))
    && (|| q'.startTestingTime == q.startTestingTime
        || (q.startTestingTime.None? && q.state == Testing && q'.startTestingTime == Some(env.now)))
  }

  predicate OthersKept(q: Queue, q': Queue) {
    forall c :: !MayNote(q.state, c) ==> q'.IsConditionTrue(c) == q.IsConditionTrue(c)
  }

  /** q' is q before its next transition. */
  ghost predicate Stays(q: Queue, q': Queue, env: Env) {
    Carried(q, q') && StageOf(q') == StageOf(q) && Noted(q, q', env)
  }

  /** The deployment or the test takes too long. */
  predicate Late(q: Queue, env: Env) {
    match q.state
    case Creating => q.startDeployTime.Some? && env.now - q.startDeployTime.value > env.deployTimeout
    case Testing => q.startTestingTime.Some? && env.now - q.startTestingTime.value > env.testTimeout
    case _ => false
  }

  /** The test is decided: by the clock, because there is nothing to run, or by every triggered runner. */
  predicate TestOver(env: Env, late: bool) {
    late || env.skipTest || !env.hasTestConfig || Unfinished !in env.runners
  }

  predicate TestPassed(env: Env, late: bool) {
    !late && (env.skipTest || !env.hasTestConfig || (env.runners != [] && forall r :: r in env.runners && r.Final? ==> r.passed))
  }

  /** Why a queue leaves its state. */
  predicate Caused(q: Queue, q': Queue, env: Env, late: bool) {
    Noted(q, q', env) &&
    match (q.state, q'.state)
    case (Waiting, CleaningBefore) => env.hasDeployConfig && q'.IsConditionTrue(CleaningBeforeStarted)
    case (CleaningBefore, DetectingImageMissing) => env.configOk && env.isCleaned && q'.IsConditionTrue(CleanedBefore)
    case (DetectingImageMissing, Creating) => env.missing == NothingMissing
    case (DetectingImageMissing, Collecting) => env.missing == SomeMissing && q'.imageMissing
    case (Creating, Collecting) => late || env.deployment == DeployedWithError || env.releases == ReleasesFailed
    case (Creating, Testing) => !late && env.configOk && env.releases == EnvironmentReady && q'.IsConditionTrue(DeployStarted)
    case (Testing, Collecting) => TestOver(env, late) && q'.IsConditionTrue(Tested) == TestPassed(env, late)
    case (Collecting, CleaningAfter) => env.configOk && env.historyOk && env.reportOk && q'.IsConditionTrue(CleaningAfterStarted)
    case (CleaningAfter, Deleting) => env.configOk && env.isCleaned && q'.IsConditionTrue(CleanedAfter)
    case _ => true
  }

  /** The deployment is started now or was before. */
  predicate Deployable(q: Queue, env: Env) { q.IsConditionTrue(DeployStarted) || env.deployment == DeployStartedOk }

  /** Where a deployment in time leads. */
  predicate DeployLeads(q: Queue, env: Env, s: QueueState) {
    || (s == Testing && Deployable(q, env) && env.releases == EnvironmentReady)
    || (s == Collecting && Deployable(q, env) && env.releases == ReleasesFailed)
    || (s == Collecting && !q.IsConditionTrue(DeployStarted) && env.deployment == DeployedWithError)
  }

  /** The answers of one call lead the queue out of its state into s, if the writes succeed. */
  predicate Leads(q: Queue, env: Env, s: QueueState) {
    match q.state
    case Waiting => s == CleaningBefore && env.hasDeployConfig
    case CleaningBefore => s == DetectingImageMissing && env.configOk && env.isCleaned
    case DetectingImageMissing =>
      (s == Creating && env.missing == NothingMissing) || (s == Collecting && env.missing == SomeMissing)
    case Creating =>
      if Late(q, env) then s == Collecting
      else env.configOk && !StagingController.NotConfigured(q, env) && DeployLeads(q, env, s)
    case Testing => s == Collecting && TestDecided(q, env)
    case Collecting => s == CleaningAfter && env.configOk && env.historyOk && env.reportOk && (q.hasLogs || env.logsOk)
    case CleaningAfter => s == Deleting && env.configOk && env.isCleaned
    case Deleting => false
  }

  /** Late, nothing to run, or no runner pending once they are triggered. */
  predicate TestDecided(q: Queue, env: Env) {
    || Late(q, env) || env.skipTest || !env.hasTestConfig || env.runners == []
    || ((q.IsConditionTrue(TestTriggered) || env.triggerOk) && Unfinished !in env.runners)
  }

  /** Queue n is stored in state s. */
  ghost predicate At(m: map<string, Queue>, n: string, s: QueueState) { n in m && m[n].state == s }

  /** More writes than one call makes. */
  function Enough(q: Queue, env: Env): nat { 4 + |q.components| + |env.runners| }

  /** At most the object called n was rewritten, by a step of the machine that has its cause. */
  ghost predicate Handled(m: map<string, Queue>, m': map<string, Queue>, n: string, env: Env, late: bool) {
    && (forall x :: x in m' ==> x in m)
    && (forall x :: x in m && x != n ==> x in m' && m'[x] == m[x])
    && (n in m' ==> m'[n] == m[n] || (Edge(m[n], m'[n]) && Caused(m[n], m'[n], env, late)))
  }

  /** What the runners looked at so far say. */
  ghost predicate Polled(runners: seq<RunnerOutcome>, finished: bool, passed: bool) {
    && (finished <==> Unfinished !in runners)
    && (passed <==> forall r :: r in runners && r.Final? ==> r.passed)
  }

  lemma PolledNext(runners: seq<RunnerOutcome>, i: nat, finished: bool, passed: bool)
    requires i < |runners| && Polled(runners[..i], finished, passed)
    ensures Polled(runners[..i + 1], finished && runners[i] != Unfinished, passed && (runners[i].Final? ==> runners[i].passed))
  {
    assert runners[..i + 1] == runners[..i] + [runners[i]];
  }

  lemma DeployStartedStays(q: Queue, rv: nat, env: Env)
    requires q.state == Creating && env.deployment != NotDeployed
    ensures Stays(q, q.SetCondition(DeployStarted, true).(rv := rv), env)
  {
  }

  lemma MissingEdge(q: Queue, env: Env)
    requires q.state == DetectingImageMissing && env.missing == SomeMissing
    ensures var q' := q.(imageMissing := true).SetCondition(Deployed, false).(state := Collecting);
            Edge(q, q') && Caused(q, q', env, false)
  {
  }

  lemma TooLateEdge(q: Queue, env: Env, rv: nat)
    requires q.state == Creating
    ensures var q' := q.SetCondition(Deployed, false).(state := Collecting, rv := rv); Edge(q, q') && Caused(q, q', env, true)
  {
  }

  lemma NothingHandled(m: map<string, Queue>, n: string, env: Env, late: bool)
    ensures Handled(m, m, n, env, late)
  {
  }

  /** The start time does not matter to where a deployment in time leads. */
  lemma LeadsOn(q: Queue, q1: Queue, env: Env)
    requires q.state == Creating && !Late(q, env) && q1 == q.(startDeployTime := q1.startDeployTime, rv := q1.rv)
    ensures forall s :: Leads(q, env, s) <==>
              env.configOk && !StagingController.NotConfigured(q1, env) && DeployLeads(q1, env, s)
  {
  }

  lemma LogsStay(q: Queue, env: Env, rv: nat)
    requires q.state == Collecting && env.logsOk
    ensures Stays(q, q.(hasLogs := true, rv := rv), env)
  {
  }

  lemma TestedEdge(q: Queue, passed: bool, env: Env, late: bool, rv: nat)
    requires q.state == Testing && TestOver(env, late) && passed == TestPassed(env, late)
    ensures var q' := q.SetCondition(Tested, passed).(state := Collecting, rv := rv); Edge(q, q') && Caused(q, q', env, late)
  {
  }

  lemma CollectedEdge(q: Queue, env: Env)
    requires q.state == Collecting && env.configOk && env.historyOk && env.reportOk
    ensures var q' := q.SetCondition(CleaningAfterStarted, true).(state := CleaningAfter);
            Edge(q, q') && Caused(q, q', env, false)
  {
  }

  lemma TimedStays(q: Queue, env: Env, rv: nat)
    ensures q.state == Creating && q.startDeployTime.None? ==> Stays(q, q.(startDeployTime := Some(env.now), rv := rv), env)
    ensures q.state == Testing && q.startTestingTime.None? ==> Stays(q, q.(startTestingTime := Some(env.now), rv := rv), env)
  {
  }

  lemma TriggeredStays(q: Queue, env: Env, rv: nat)
    requires q.state == Testing
    ensures Stays(q, q.SetCondition(TestTriggered, true).(rv := rv), env)
  {
  }

  lemma DeployErrorEdge(q: Queue, env: Env)
    requires q.state == Creating && env.deployment == DeployedWithError
    ensures var q' := q.SetCondition(DeployStarted, true).SetCondition(Deployed, false).(state := Collecting);
            Edge(q, q') && Caused(q, q', env, false)
  {
  }

  lemma ReleasesFailedEdge(q: Queue, env: Env)
    requires q.state == Creating && env.releases == ReleasesFailed
    ensures var q' := q.SetCondition(Deployed, false).(state := Collecting); Edge(q, q') && Caused(q, q', env, false)
  {
  }

  lemma ReadyEdge(q: Queue, env: Env)
    requires q.state == Creating && env.configOk && env.releases == EnvironmentReady && q.IsConditionTrue(DeployStarted)
    ensures var q' := q.SetCondition(Deployed, true).(state := Testing); Edge(q, q') && Caused(q, q', env, false)
  {
  }

  lemma RunnerResultStays(q0: Queue, q: Queue, passed: bool, rv: nat, env: Env)
    requires Stays(q0, q, env) && q0.state == Testing
    ensures Stays(q0, q.SetCondition(RunnerResult, passed).(rv := rv), env)
  {
  }

  lemma SavedIsHandled(m: map<string, Queue>, q0: Queue, q: Queue, env: Env)
    requires q0.name in m && m[q0.name] == q0 && Stays(q0, q, env) && q0.state == Testing
    ensures Handled(m, m[q0.name := q], q0.name, env, false)
  {
  }

  class StagingController {
    const ctrl: Controller
    var current: Option<Queue>

    constructor (ctrl: Controller)
      ensures this.ctrl == ctrl && current == None
    {
      this.ctrl := ctrl;
      current := None;
    }

    ghost predicate Valid()
      reads this, ctrl
    {
      ctrl.Valid() && (current.Some? ==> current.value.rv < ctrl.nextRv)
    }

    /** Saves the queue in its next state. The copy in memory carries the new state even if saving fails. */
    method UpdateQueueWithState(q: Queue, state: QueueState) returns (ok: bool, q': Queue)
      modifies ctrl`queues, ctrl`nextRv, ctrl`writesLeft
      ensures q' == q.(state := state, rv := q'.rv)
      ensures ok <==> old(ctrl.writesLeft) > 0 && q.name in old(ctrl.queues) && old(ctrl.queues)[q.name].rv == q.rv
      ensures ok ==> q.name in old(ctrl.queues) && ctrl.queues == old(ctrl.queues)[q.name := q']
      ensures !ok ==> ctrl.queues == old(ctrl.queues)
      ensures Rewritten(old(ctrl.queues), ctrl.queues, old(ctrl.nextRv), ctrl.nextRv) && (q'.rv == q.rv || q'.rv < ctrl.nextRv)
      ensures ctrl.writesLeft + 1 >= old(ctrl.writesLeft)
    {
      ok, q' := ctrl.Update(q.(state := state));
    }

    /** Saving the next state of the object last seen as `base` is a step of the machine. */
    method Advance(ghost base: Queue, q: Queue, state: QueueState, ghost env: Env, ghost late: bool) returns (q': Queue)
      requires q.name in ctrl.queues ==> ctrl.queues[q.name] == base
      requires Edge(base, q.(state := state)) && Caused(base, q.(state := state), env, late)
      requires state == Deleting ==> q.state == CleaningAfter
      modifies ctrl`queues, ctrl`nextRv, ctrl`writesLeft
      ensures Wrote(old(ctrl.queues), old(ctrl.nextRv), ctrl.queues, ctrl.nextRv, q, q')
      ensures Handled(old(ctrl.queues), ctrl.queues, q.name, env, late)
      ensures q' == q.(state := state, rv := q'.rv) && ctrl.writesLeft + 1 >= old(ctrl.writesLeft)
      ensures ctrl.queues == old(ctrl.queues) || (q.name in old(ctrl.queues) && ctrl.queues == old(ctrl.queues)[q.name := q'])
      ensures old(ctrl.writesLeft) > 0 && q.name in old(ctrl.queues) && base.rv == q.rv ==>
                ctrl.queues == old(ctrl.queues)[q.name := q']
    {
      var ok;
      ok, q' := UpdateQueueWithState(q, state);
    }

    method InitQueue(q: Queue, env: Env) returns (q': Queue)
      requires q.state == Waiting && q.name in ctrl.queues && ctrl.queues[q.name] == q
      modifies ctrl`queues, ctrl`nextRv, ctrl`writesLeft
      ensures Wrote(old(ctrl.queues), old(ctrl.nextRv), ctrl.queues, ctrl.nextRv, q, q')
      ensures Handled(old(ctrl.queues), ctrl.queues, q.name, env, Late(q, env))
      ensures old(ctrl.writesLeft) > 0 && env.hasDeployConfig ==> At(ctrl.queues, q.name, CleaningBefore)
    {
      q' := q;
      if env.hasDeployConfig {
        q' := Advance(q, q.(noOfProcessed := q.noOfProcessed + 1).SetCondition(CleaningBeforeStarted, true), CleaningBefore, env, false);
      }
    }

    method CleanBefore(q: Queue, env: Env) returns (q': Queue)
      requires q.state == CleaningBefore && q.name in ctrl.queues && ctrl.queues[q.name] == q
      modifies ctrl`queues, ctrl`nextRv, ctrl`writesLeft
      ensures Wrote(old(ctrl.queues), old(ctrl.nextRv), ctrl.queues, ctrl.nextRv, q, q')
      ensures Handled(old(ctrl.queues), ctrl.queues, q.name, env, Late(q, env))
      ensures old(ctrl.writesLeft) > 0 && env.configOk && env.isCleaned ==> At(ctrl.queues, q.name, DetectingImageMissing)
    {
      q' := q;
      if env.configOk && env.isCleaned {
        q' := Advance(q, q.SetCondition(CleanedBefore, true), DetectingImageMissing, env, false);
      }
    }

    method DetectImageMissing(q: Queue, env: Env) returns (q': Queue)
      requires q.state == DetectingImageMissing && q.name in ctrl.queues && ctrl.queues[q.name] == q
      modifies ctrl`queues, ctrl`nextRv, ctrl`writesLeft
      ensures Wrote(old(ctrl.queues), old(ctrl.nextRv), ctrl.queues, ctrl.nextRv, q, q')
      ensures Handled(old(ctrl.queues), ctrl.queues, q.name, env, Late(q, env))
      ensures old(ctrl.writesLeft) > 0 && env.missing != MissingError ==>
                At(ctrl.queues, q.name, if env.missing == SomeMissing then Collecting else Creating)
    {
      q' := q;
      match env.missing
      case MissingError =>
      case SomeMissing =>
        MissingEdge(q, env);
        q' := Advance(q, q.(imageMissing := true).SetCondition(Deployed, false), Collecting, env, false);
      case NothingMissing => q' := Advance(q, q, Creating, env, false);
    }

    method CleanAfter(q: Queue, env: Env) returns (q': Queue)
      requires q.state == CleaningAfter && q.name in ctrl.queues && ctrl.queues[q.name] == q
      modifies ctrl`queues, ctrl`nextRv, ctrl`writesLeft
      ensures Wrote(old(ctrl.queues), old(ctrl.nextRv), ctrl.queues, ctrl.nextRv, q, q')
      ensures Handled(old(ctrl.queues), ctrl.queues, q.name, env, Late(q, env))
      ensures old(ctrl.writesLeft) > 0 && env.configOk && env.isCleaned ==> At(ctrl.queues, q.name, Deleting)
      ensures q.name in ctrl.queues ==>
                ctrl.queues[q.name].components == q.components && ctrl.queues[q.name].bundle == q.bundle
    {
      q' := q;
      if env.configOk && env.isCleaned {
        q' := Advance(q, q.SetCondition(CleanedAfter, true), Deleting, env, false);
      }
    }

    // ----- deployEnvironment

    /** In memory and in the cluster the same object, still in the stage of `q`. */
    ghost predicate Saved(m: map<string, Queue>, q: Queue, q': Queue, env: Env)
      reads ctrl`queues
    {
      && q.name in m && m[q.name] == q && Stays(q, q', env)
      && ctrl.queues == m[q.name := q']
    }

    method StartDeployTime(q: Queue, env: Env) returns (go: bool, q': Queue)
      requires q.state == Creating && q.startDeployTime.None? && q.name in ctrl.queues && ctrl.queues[q.name] == q
      modifies ctrl`queues, ctrl`nextRv, ctrl`writesLeft
      ensures Wrote(old(ctrl.queues), old(ctrl.nextRv), ctrl.queues, ctrl.nextRv, q, q')
      ensures Handled(old(ctrl.queues), ctrl.queues, q.name, env, false)
      ensures go ==> Saved(old(ctrl.queues), q, q', env)
      ensures ctrl.writesLeft + 1 >= old(ctrl.writesLeft) && (old(ctrl.writesLeft) > 0 ==> go)
      ensures go ==> q' == q.(startDeployTime := Some(env.now), rv := q'.rv)
    {
      TimedStays(q, env, ctrl.nextRv);
      go, q' := ctrl.Update(q.(startDeployTime := Some(env.now)));
    }

    method GiveUpDeployment(q: Queue, ghost env: Env) returns (q': Queue)
      requires q.state == Creating && q.name in ctrl.queues && ctrl.queues[q.name] == q
      modifies ctrl`queues, ctrl`nextRv, ctrl`writesLeft
      ensures Wrote(old(ctrl.queues), old(ctrl.nextRv), ctrl.queues, ctrl.nextRv, q, q')
      ensures Handled(old(ctrl.queues), ctrl.queues, q.name, env, true)
      ensures old(ctrl.writesLeft) > 0 ==> At(ctrl.queues, q.name, Collecting) && !ctrl.queues[q.name].IsConditionTrue(Deployed)
      ensures ctrl.writesLeft + 1 >= old(ctrl.writesLeft)
    {
      TooLateEdge(q, env, ctrl.nextRv);
      var ok;
      ok, q' := UpdateQueueWithState(q.SetCondition(Deployed, false), Collecting);
    }

    method CheckDeployTimeout(q: Queue, env: Env) returns (go: bool, q': Queue)
      requires q.state == Creating && q.name in ctrl.queues && ctrl.queues[q.name] == q
      modifies ctrl`queues, ctrl`nextRv, ctrl`writesLeft
      ensures Wrote(old(ctrl.queues), old(ctrl.nextRv), ctrl.queues, ctrl.nextRv, q, q')
      ensures Handled(old(ctrl.queues), ctrl.queues, q.name, env, Late(q, env))
      ensures go ==> Saved(old(ctrl.queues), q, q', env) && !Late(q, env)
      ensures Late(q, env) && old(ctrl.writesLeft) > 0 ==>
                q.name in ctrl.queues && ctrl.queues[q.name].state == Collecting && !ctrl.queues[q.name].IsConditionTrue(Deployed)
      ensures ctrl.writesLeft + 1 >= old(ctrl.writesLeft) && (!Late(q, env) && old(ctrl.writesLeft) > 0 ==> go)
      ensures go ==> q'.startDeployTime == if q.startDeployTime.None? then Some(env.now) else q.startDeployTime
      ensures go ==> q' == q.(startDeployTime := q'.startDeployTime, rv := q'.rv)
    {
      if q.startDeployTime.None? {
        go, q' := StartDeployTime(q, env);
      } else if env.now - q.startDeployTime.value > env.deployTimeout {
        go := false;
        q' := GiveUpDeployment(q, env);
      } else {
        go, q' := true, q;
        assert ctrl.queues == ctrl.queues[q.name := q];
      }
    }

    /** The bundle, or the first component of any other queue, is no longer configured. */
    static predicate NotConfigured(q: Queue, env: Env) {
      if q.bundle != "" && q.name == q.bundle then q.name !in env.bundles
      else q.components == [] || q.components[0].name !in env.components
    }

    /** In memory and in the cluster the same object, unless it has been deleted from the cluster. */
    ghost predicate InStep(m: map<string, Queue>, q: Queue, q': Queue, env: Env)
      reads ctrl`queues
    {
      && Stays(q, q', env)
      && if q.name in m then m[q.name] == q && ctrl.queues == m[q.name := q'] else ctrl.queues == m && q' == q
    }

    /** Drops the components that are no longer configured. */
    method UpdateQueueComponentsSpec(q: Queue, env: Env) returns (go: bool, q': Queue)
      requires q.state == Creating && (q.name in ctrl.queues ==> ctrl.queues[q.name] == q)
      modifies ctrl`queues, ctrl`nextRv, ctrl`writesLeft
      ensures Wrote(old(ctrl.queues), old(ctrl.nextRv), ctrl.queues, ctrl.nextRv, q, q')
      ensures (!go ==> ctrl.queues == old(ctrl.queues))
      ensures go ==> InStep(old(ctrl.queues), q, q', env)
      ensures go ==> forall c :: c in q'.components <==> c in q.components && c.name in env.components
      ensures ctrl.writesLeft + 1 >= old(ctrl.writesLeft) && (q.name in old(ctrl.queues) && old(ctrl.writesLeft) > 0 ==> go)
      ensures q' == q.(components := q'.components, rv := q'.rv)
    {
      var known := QueueCleanup.FilterKnown(q.components, env.components);
      QueueCleanup.KnownOnlyFacts(q.components, env.components);
      go, q' := true, q;
      if |known| != |q.components| {
        go, q' := ctrl.Update(q.(components := known));
      } else {
        assert q.name in ctrl.queues ==> ctrl.queues == ctrl.queues[q.name := q];
      }
    }

    /** Starts the deployment unless it was started before. */
    method DeployComponents(q: Queue, env: Env) returns (go: bool, q': Queue)
      requires q.state == Creating && (q.name in ctrl.queues ==> ctrl.queues[q.name] == q)
      modifies ctrl`queues, ctrl`nextRv, ctrl`writesLeft
      ensures Wrote(old(ctrl.queues), old(ctrl.nextRv), ctrl.queues, ctrl.nextRv, q, q')
      ensures Handled(old(ctrl.queues), ctrl.queues, q.name, env, false)
      ensures go ==> InStep(old(ctrl.queues), q, q', env) && q'.IsConditionTrue(DeployStarted)
      ensures ctrl.writesLeft + 1 >= old(ctrl.writesLeft)
      ensures q.name in old(ctrl.queues) && old(ctrl.writesLeft) > 0 && Deployable(q, env) ==> go
      ensures q.name in old(ctrl.queues) && old(ctrl.writesLeft) > 0
              && !q.IsConditionTrue(DeployStarted) && env.deployment == DeployedWithError ==>
                At(ctrl.queues, q.name, Collecting)
    {
      go, q' := true, q;
      if !q.IsConditionTrue(DeployStarted) {
        match env.deployment
        case NotDeployed => go := false;
        case DeployedWithError =>
          go := false;
          DeployErrorEdge(q, env);
          q' := Advance(q, q.SetCondition(DeployStarted, true).SetCondition(Deployed, false), Collecting, env, false);
        case DeployStartedOk =>
          DeployStartedStays(q, ctrl.nextRv, env);
          go, q' := ctrl.Update(q.SetCondition(DeployStarted, true));
      } else {
        assert q.name in ctrl.queues ==> ctrl.queues == ctrl.queues[q.name := q];
      }
    }

    method CheckReleases(q: Queue, env: Env) returns (q': Queue)
      requires q.state == Creating && (q.name in ctrl.queues ==> ctrl.queues[q.name] == q)
      requires env.configOk && q.IsConditionTrue(DeployStarted)
      modifies ctrl`queues, ctrl`nextRv, ctrl`writesLeft
      ensures q.name in old(ctrl.queues) && old(ctrl.writesLeft) > 0 && env.releases != ReleasesPending ==>
                At(ctrl.queues, q.name, if env.releases == ReleasesFailed then Collecting else Testing)
      ensures Wrote(old(ctrl.queues), old(ctrl.nextRv), ctrl.queues, ctrl.nextRv, q, q')
      ensures Handled(old(ctrl.queues), ctrl.queues, q.name, env, false)
    {
      q' := q;
      match env.releases
      case ReleasesPending =>
      case ReleasesFailed =>
        ReleasesFailedEdge(q, env);
        q' := Advance(q, q.SetCondition(Deployed, false), Collecting, env, false);
      case EnvironmentReady =>
        ReadyEdge(q, env);
        q' := Advance(q, q.SetCondition(Deployed, true), Testing, env, false);
    }

    /** Everything from updateQueueComponentsSpec on. The object may have been deleted just before;
        then no write succeeds. */
    method Deploy(q: Queue, env: Env) returns (q': Queue)
      requires q.state == Creating && (q.name in ctrl.queues ==> ctrl.queues[q.name] == q)
      requires env.configOk
      modifies ctrl`queues, ctrl`nextRv, ctrl`writesLeft
      ensures q.name in old(ctrl.queues) && old(ctrl.writesLeft) >= 3 ==>
                forall s :: DeployLeads(q, env, s) ==> At(ctrl.queues, q.name, s)
      ensures Wrote(old(ctrl.queues), old(ctrl.nextRv), ctrl.queues, ctrl.nextRv, q, q')
      ensures Handled(old(ctrl.queues), ctrl.queues, q.name, env, false)
    {
      hide Wrote, Handled, Caused, Noted;
      NothingHandled(ctrl.queues, q.name, env, false);
      ghost var m, rv := ctrl.queues, ctrl.nextRv;
      var go;
      go, q' := UpdateQueueComponentsSpec(q, env);
      if !go {
        return;
      }
      ghost var q1, m1, rv1 := q', ctrl.queues, ctrl.nextRv;
      go, q' := DeployComponents(q', env);
      HandledInStep(m, m1, ctrl.queues, q, q1, env, false);
      WroteThen(m, rv, m1, rv1, ctrl.queues, ctrl.nextRv, q, q1, q');
      if !go {
        return;
      }
      ghost var q2, m2, rv2 := q', ctrl.queues, ctrl.nextRv;
      q' := CheckReleases(q', env);
      WroteThen(m, rv, m2, rv2, ctrl.queues, ctrl.nextRv, q, q2, q');
      HandledInStep(m1, m2, ctrl.queues, q1, q2, env, false);
      HandledInStep(m, m1, ctrl.queues, q, q1, env, false);
    }

    method DeployEnvironment(q: Queue, env: Env) returns (q': Queue, cleared: bool)
      requires q.state == Creating && q.name in ctrl.queues && ctrl.queues[q.name] == q
      modifies ctrl`queues, ctrl`nextRv, ctrl`writesLeft
      ensures Wrote(old(ctrl.queues), old(ctrl.nextRv), ctrl.queues, ctrl.nextRv, q, q')
      ensures Handled(old(ctrl.queues), ctrl.queues, q.name, env, Late(q, env))
      ensures cleared ==> q.name !in ctrl.queues
      ensures old(ctrl.writesLeft) >= 4 ==>
                forall s :: Leads(q, env, s) ==> At(ctrl.queues, q.name, s)
    {
      hide Wrote, Caused, Noted, Edge;
      cleared := false;
      var go, ok;
      go, q' := CheckDeployTimeout(q, env);
      if !go || !env.configOk {
        return;
      }
      ghost var m, q1, rv1 := old(ctrl.queues), q', ctrl.nextRv;
      LeadsOn(q, q1, env);
      if NotConfigured(q', env) {
        ok := ctrl.Delete(q'.name);
        if !ok {
          return;
        }
        cleared := true;
      }
      ghost var m1 := ctrl.queues;
      FewerWrote(m, old(ctrl.nextRv), m[q.name := q1], rv1, q, q1, m1);
      q' := Deploy(q', env);
      WroteThen(m, old(ctrl.nextRv), m1, rv1, ctrl.queues, ctrl.nextRv, q, q1, q');
      HandledAfterStay(m, m1, ctrl.queues, q, q1, env, false);
    }

    // ----- startTesting

    method FinishTesting(q: Queue, passed: bool, ghost env: Env, ghost late: bool) returns (q': Queue)
      requires q.state == Testing && q.name in ctrl.queues && ctrl.queues[q.name] == q
      requires TestOver(env, late) && passed == TestPassed(env, late)
      modifies ctrl`queues, ctrl`nextRv, ctrl`writesLeft
      ensures Wrote(old(ctrl.queues), old(ctrl.nextRv), ctrl.queues, ctrl.nextRv, q, q')
      ensures Handled(old(ctrl.queues), ctrl.queues, q.name, env, late)
      ensures q.name in ctrl.queues && ctrl.queues[q.name] != q ==>
                ctrl.queues[q.name].state == Collecting && ctrl.queues[q.name].IsConditionTrue(Tested) == passed
      ensures old(ctrl.writesLeft) > 0 ==> At(ctrl.queues, q.name, Collecting)
    {
      TestedEdge(q, passed, env, late, ctrl.nextRv);
      var ok;
      ok, q' := UpdateQueueWithState(q.SetCondition(Tested, passed), Collecting);
      TestedEdge(q, passed, env, late, q'.rv);
    }

    method StartTestingTime(q: Queue, env: Env) returns (go: bool, q': Queue)
      requires q.state == Testing && q.name in ctrl.queues && ctrl.queues[q.name] == q
      modifies ctrl`queues, ctrl`nextRv, ctrl`writesLeft
      ensures Wrote(old(ctrl.queues), old(ctrl.nextRv), ctrl.queues, ctrl.nextRv, q, q')
      ensures Handled(old(ctrl.queues), ctrl.queues, q.name, env, false)
      ensures go ==> Saved(old(ctrl.queues), q, q', env)
      ensures ctrl.writesLeft + 1 >= old(ctrl.writesLeft) && (old(ctrl.writesLeft) > 0 ==> go)
      ensures go ==> q'.startTestingTime == (if q.startTestingTime.None? then Some(env.now) else q.startTestingTime)
                     && q'.conditions == q.conditions
    {
      if q.startTestingTime.None? {
        TimedStays(q, env, ctrl.nextRv);
        go, q' := ctrl.Update(q.(startTestingTime := Some(env.now)));
      } else {
        go, q' := true, q;
        assert ctrl.queues == ctrl.queues[q.name := q];
      }
    }

    /** Triggers the tests if they are not running yet and saves the mark. */
    method TriggerTest(q: Queue, env: Env) returns (go: bool, q': Queue)
      requires q.state == Testing && q.name in ctrl.queues && ctrl.queues[q.name] == q
      modifies ctrl`queues, ctrl`nextRv, ctrl`writesLeft
      ensures Wrote(old(ctrl.queues), old(ctrl.nextRv), ctrl.queues, ctrl.nextRv, q, q')
      ensures Handled(old(ctrl.queues), ctrl.queues, q.name, env, false)
      ensures go ==> Saved(old(ctrl.queues), q, q', env)
      ensures ctrl.writesLeft + 1 >= old(ctrl.writesLeft)
      ensures old(ctrl.writesLeft) > 0 && (q.IsConditionTrue(TestTriggered) || env.triggerOk) ==> go
    {
      q' := q;
      var inTime := q.startTestingTime.Some? && env.now - q.startTestingTime.value <= env.triggerTimeout;
      if !q.IsConditionTrue(TestTriggered) && inTime && !env.triggerOk {
        go := false;
        return;
      }
      TriggeredStays(q, env, ctrl.nextRv);
      go, q' := ctrl.Update(q.SetCondition(TestTriggered, true));
    }

    method RecordResult(ghost m: map<string, Queue>, ghost q0: Queue, q: Queue, passed: bool, ghost env: Env)
      returns (go: bool, q': Queue)
      requires q0.state == Testing && q0.name in m && m[q0.name] == q0 && Saved(m, q0, q, env)
      modifies ctrl`queues, ctrl`nextRv, ctrl`writesLeft
      ensures Wrote(old(ctrl.queues), old(ctrl.nextRv), ctrl.queues, ctrl.nextRv, q, q')
      ensures Handled(m, ctrl.queues, q0.name, env, false)
      ensures go ==> Saved(m, q0, q', env)
      ensures ctrl.writesLeft + 1 >= old(ctrl.writesLeft) && (old(ctrl.writesLeft) > 0 ==> go)
    {
      RunnerResultStays(q0, q, passed, ctrl.nextRv, env);
      SavedIsHandled(m, q0, q, env);
      SavedIsHandled(m, q0, q.SetCondition(RunnerResult, passed).(rv := ctrl.nextRv), env);
      go, q' := ctrl.Update(q.SetCondition(RunnerResult, passed));
    }

    /** Polls the runners. `passed` is false once a triggered runner has failed. */
    method PollRunners(q: Queue, env: Env) returns (go: bool, q': Queue, finished: bool, passed: bool)
      requires q.state == Testing && q.name in ctrl.queues && ctrl.queues[q.name] == q
      modifies ctrl`queues, ctrl`nextRv, ctrl`writesLeft
      ensures Wrote(old(ctrl.queues), old(ctrl.nextRv), ctrl.queues, ctrl.nextRv, q, q')
      ensures Handled(old(ctrl.queues), ctrl.queues, q.name, env, false)
      ensures go ==> Saved(old(ctrl.queues), q, q', env)
      ensures go ==> (finished <==> Unfinished !in env.runners)
      ensures go ==> (passed <==> forall r :: r in env.runners && r.Final? ==> r.passed)
      ensures ctrl.writesLeft + |env.runners| >= old(ctrl.writesLeft) && (old(ctrl.writesLeft) >= |env.runners| ==> go)
    {
      go, q', finished, passed := true, q, true, true;
      assert ctrl.queues == ctrl.queues[q.name := q];
      for i := 0 to |env.runners|
        invariant go && Saved(old(ctrl.queues), q, q', env)
        invariant Wrote(old(ctrl.queues), old(ctrl.nextRv), ctrl.queues, ctrl.nextRv, q, q')
        invariant Polled(env.runners[..i], finished, passed)
        invariant ctrl.writesLeft + i >= old(ctrl.writesLeft)
      {
        var r := env.runners[i];
        PolledNext(env.runners, i, finished, passed);
        match r
        case NotTriggered =>
        case Unfinished => finished := false;
        case Final(ok, recorded) =>
          if recorded {
            ghost var q1, m1, rv1 := q', ctrl.queues, ctrl.nextRv;
            go, q' := RecordResult(old(ctrl.queues), q, q', ok, env);
            WroteThen(old(ctrl.queues), old(ctrl.nextRv), m1, rv1, ctrl.queues, ctrl.nextRv, q, q1, q');
            if !go {
              return;
            }
          }
          passed := passed && ok;
      }
      assert env.runners[..|env.runners|] == env.runners;
    }

    method StartTesting(q: Queue, env: Env) returns (q': Queue)
      requires q.state == Testing && q.name in ctrl.queues && ctrl.queues[q.name] == q
      modifies ctrl`queues, ctrl`nextRv, ctrl`writesLeft
      ensures Wrote(old(ctrl.queues), old(ctrl.nextRv), ctrl.queues, ctrl.nextRv, q, q')
      ensures Handled(old(ctrl.queues), ctrl.queues, q.name, env, Late(q, env))
      ensures old(ctrl.writesLeft) >= Enough(q, env) && TestDecided(q, env) ==>
                At(ctrl.queues, q.name, Collecting)
    {
      q' := q;
      if q.startTestingTime.Some? && env.now - q.startTestingTime.value > env.testTimeout {
        q' := FinishTesting(q, false, env, true);
      } else if env.skipTest || !env.hasTestConfig {
        q' := FinishTesting(q, true, env, false);
      } else if env.runners == [] {
        q' := FinishTesting(q, false, env, false);
      } else {
        q' := RunTests(q, env);
      }
    }

    method RunTests(q: Queue, env: Env) returns (q': Queue)
      requires q.state == Testing && q.name in ctrl.queues && ctrl.queues[q.name] == q
      requires !env.skipTest && env.hasTestConfig && env.runners != []
      modifies ctrl`queues, ctrl`nextRv, ctrl`writesLeft
      ensures Wrote(old(ctrl.queues), old(ctrl.nextRv), ctrl.queues, ctrl.nextRv, q, q')
      ensures Handled(old(ctrl.queues), ctrl.queues, q.name, env, false)
      ensures old(ctrl.writesLeft) >= 3 + |env.runners| && (q.IsConditionTrue(TestTriggered) || env.triggerOk)
              && Unfinished !in env.runners ==>
                At(ctrl.queues, q.name, Collecting)
    {
      ghost var m, rv := ctrl.queues, ctrl.nextRv;
      var go;
      go, q' := StartTestingTime(q, env);
      if go {
        ghost var q1, m1, rv1 := q', ctrl.queues, ctrl.nextRv;
        q' := TriggerAndPoll(q', env);
        WroteThen(m, rv, m1, rv1, ctrl.queues, ctrl.nextRv, q, q1, q');
        HandledAfterStay(m, m1, ctrl.queues, q, q1, env, false);
      }
    }

    method TriggerAndPoll(q: Queue, env: Env) returns (q': Queue)
      requires q.state == Testing && q.name in ctrl.queues && ctrl.queues[q.name] == q
      requires !env.skipTest && env.hasTestConfig && env.runners != []
      modifies ctrl`queues, ctrl`nextRv, ctrl`writesLeft
      ensures Wrote(old(ctrl.queues), old(ctrl.nextRv), ctrl.queues, ctrl.nextRv, q, q')
      ensures Handled(old(ctrl.queues), ctrl.queues, q.name, env, false)
      ensures old(ctrl.writesLeft) >= 2 + |env.runners| && (q.IsConditionTrue(TestTriggered) || env.triggerOk)
              && Unfinished !in env.runners ==>
                At(ctrl.queues, q.name, Collecting)
    {
      ghost var m, rv := ctrl.queues, ctrl.nextRv;
      var go, finished, passed;
      go, q' := TriggerTest(q, env);
      if !go {
        return;
      }
      ghost var q1, m1, rv1 := q', ctrl.queues, ctrl.nextRv;
      go, q', finished, passed := PollRunners(q', env);
      WroteThen(m, rv, m1, rv1, ctrl.queues, ctrl.nextRv, q, q1, q');
      HandledAfterStay(m, m1, ctrl.queues, q, q1, env, false);
      if go && finished {
        ghost var q2, m2, rv2 := q', ctrl.queues, ctrl.nextRv;
        q' := FinishTesting(q', passed, env, false);
        WroteThen(m, rv, m2, rv2, ctrl.queues, ctrl.nextRv, q, q2, q');
        HandledAfterStay(m1, m2, ctrl.queues, q1, q2, env, false);
        HandledAfterStay(m, m1, ctrl.queues, q, q1, env, false);
      }
    }

    // ----- collectResult

    method SetStableComponent(q: Queue) returns (ok: bool)
      modifies ctrl`stable, ctrl`writesLeft
      ensures StableFrom(old(ctrl.stable), ctrl.stable, q)
      ensures ok ==> MadeStable(ctrl.stable, q)
      ensures ctrl.writesLeft + |q.components| >= old(ctrl.writesLeft) && (old(ctrl.writesLeft) >= |q.components| ==> ok)
    {
      ok := true;
      for i := 0 to |q.components|
        invariant ok && StableFrom(old(ctrl.stable), ctrl.stable, q) && ctrl.writesLeft + i >= old(ctrl.writesLeft)
        invariant forall j :: 0 <= j < i && (forall d :: d in q.components && d.name == q.components[j].name ==> d == q.components[j])
                    ==> q.components[j].name in ctrl.stable && ctrl.stable[q.components[j].name] == q.components[j]
      {
        var c := q.components[i];
        if c.name !in ctrl.stable || ctrl.stable[c.name] != c {
          if ctrl.writesLeft == 0 {
            return false;
          }
          ctrl.stable := ctrl.stable[c.name := c];
          ctrl.writesLeft := ctrl.writesLeft - 1;
        }
      }
    }

    method Conclude(q: Queue, env: Env) returns (q': Queue)
      requires q.state == Collecting && q.name in ctrl.queues && ctrl.queues[q.name] == q
      modifies ctrl`queues, ctrl`stable, ctrl`nextRv, ctrl`writesLeft
      ensures Wrote(old(ctrl.queues), old(ctrl.nextRv), ctrl.queues, ctrl.nextRv, q, q')
      ensures Handled(old(ctrl.queues), ctrl.queues, q.name, env, Late(q, env))
      ensures ctrl.stable == old(ctrl.stable) || (q.Passed() && StableFrom(old(ctrl.stable), ctrl.stable, q))
      ensures q.Passed() && q.name in ctrl.queues && ctrl.queues[q.name].state == CleaningAfter ==> MadeStable(ctrl.stable, q)
      ensures old(ctrl.writesLeft) > |q.components| && env.configOk && env.historyOk && env.reportOk ==>
                At(ctrl.queues, q.name, CleaningAfter)
    {
      q' := q;
      var ok;
      if !env.configOk || !env.historyOk {
        return;
      }
      if q.Passed() {
        ok := SetStableComponent(q);
        if !ok {
          return;
        }
      }
      if !env.reportOk {
        return;
      }
      CollectedEdge(q, env);
      q' := Advance(q, q.SetCondition(CleaningAfterStarted, true), CleaningAfter, env, false);
    }

    /** The logs are collected once. */
    method KeepLogs(q: Queue, env: Env) returns (go: bool, q': Queue)
      requires q.state == Collecting && q.name in ctrl.queues && ctrl.queues[q.name] == q
      modifies ctrl`queues, ctrl`nextRv, ctrl`writesLeft
      ensures Wrote(old(ctrl.queues), old(ctrl.nextRv), ctrl.queues, ctrl.nextRv, q, q')
      ensures Handled(old(ctrl.queues), ctrl.queues, q.name, env, false)
      ensures go ==> Saved(old(ctrl.queues), q, q', env) && q' == q.(hasLogs := true, rv := q'.rv)
      ensures !go ==> ctrl.queues == old(ctrl.queues)
      ensures ctrl.writesLeft + 1 >= old(ctrl.writesLeft)
      ensures old(ctrl.writesLeft) > 0 && (q.hasLogs || env.logsOk) ==> go
    {
      go, q' := q.hasLogs, q;
      assert ctrl.queues == ctrl.queues[q.name := q];
      if !q.hasLogs && env.logsOk {
        LogsStay(q, env, ctrl.nextRv);
        go, q' := ctrl.Update(q.(hasLogs := true));
      }
    }

    method CollectResult(q: Queue, env: Env) returns (q': Queue)
      requires q.state == Collecting && q.name in ctrl.queues && ctrl.queues[q.name] == q
      modifies ctrl`queues, ctrl`stable, ctrl`nextRv, ctrl`writesLeft
      ensures Wrote(old(ctrl.queues), old(ctrl.nextRv), ctrl.queues, ctrl.nextRv, q, q')
      ensures Handled(old(ctrl.queues), ctrl.queues, q.name, env, Late(q, env))
      ensures ctrl.stable == old(ctrl.stable) || (q.Passed() && StableFrom(old(ctrl.stable), ctrl.stable, q))
      ensures q.Passed() && q.name in ctrl.queues && ctrl.queues[q.name].state == CleaningAfter ==> MadeStable(ctrl.stable, q)
      ensures old(ctrl.writesLeft) >= Enough(q, env) && Leads(q, env, CleaningAfter) ==>
                At(ctrl.queues, q.name, CleaningAfter)
    {
      hide Wrote, Noted, Edge, Caused;
      var go;
      go, q' := KeepLogs(q, env);
      if !go {
        return;
      }
      ghost var m, m1, q1, rv1 := old(ctrl.queues), ctrl.queues, q', ctrl.nextRv;
      q' := Conclude(q', env);
      WroteThen(m, old(ctrl.nextRv), m1, rv1, ctrl.queues, ctrl.nextRv, q, q1, q');
      HandledAfterStay(m, m1, ctrl.queues, q, q1, env, false);
    }

    // ----- deleteQueue

    /** The end of an attempt: the queue is deleted, retried or re-verified. The counter of the copy
        in memory goes up before the calls that may fail. */
    method DeleteQueue(q: Queue, env: Env) returns (q': Queue, cleared: bool)
      requires ctrl.Valid() && env.writes == ctrl.writesLeft
      modifies ctrl`queues, ctrl`nextRv, ctrl`writesLeft
      ensures ctrl.Valid() && Rewritten(old(ctrl.queues), ctrl.queues, old(ctrl.nextRv), ctrl.nextRv)
      ensures q'.name == q.name && q'.components == q.components && q'.bundle == q.bundle
      ensures q'.rv == q.rv || q'.rv < ctrl.nextRv
      ensures cleared <==> LetsGo(q, old(ctrl.queues), env)
      ensures q'.state == Deleting ==> q'.rv == q.rv
      ensures Refused(q, old(ctrl.queues), env) ==> q'.state == Waiting
      ensures !cleared ==> ctrl.queues == old(ctrl.queues)
      ensures cleared && q.Passed() ==> ctrl.queues == old(ctrl.queues) - {q.name}
      ensures cleared && !q.Passed() ==>
                && q.name in old(ctrl.queues) && q.name in ctrl.queues && old(ctrl.queues)[q.name].rv == q.rv
                && ctrl.queues == old(ctrl.queues)[q.name := ctrl.queues[q.name]]
                && AfterFailure(q, ctrl.queues[q.name], env.maxRetry, env.now)
    {
      q', cleared := q, false;
      if !env.historyOk {
        return;
      }
      if q.Passed() {
        cleared := ctrl.Delete(q.name);
        if !cleared && q.name !in ctrl.queues {
          cleared := true;
          assert ctrl.queues == ctrl.queues - {q.name};
        }
      } else if q.qtype == Reverify {
        cleared, q' := ctrl.SetRetryQueue(env.now, q, 0, env.now + DAY, env.listOk);
      } else {
        q' := q.(noOfRetry := q.noOfRetry + 1);
        if !env.configOk {
          return;
        }
        if q'.noOfRetry > env.maxRetry {
          cleared, q' := ctrl.SetReverifyQueueAtFirst(env.now, q', env.listOk);
        } else {
          cleared, q' := ctrl.SetRetryQueue(env.now, q', q'.noOfRetry, env.now, env.listOk);
        }
      }
    }

    // ----- process

    ghost function Abs(): World
      reads this, ctrl
    {
      World(ctrl.queues, ctrl.stable, current)
    }

    /** The step of a queue that is not yet in Deleting. */
    method Act(q: Queue, env: Env) returns (q': Queue, cleared: bool)
      requires q.state != Deleting && q.name in ctrl.queues && ctrl.queues[q.name] == q
      modifies ctrl`queues, ctrl`stable, ctrl`nextRv, ctrl`writesLeft
      ensures Wrote(old(ctrl.queues), old(ctrl.nextRv), ctrl.queues, ctrl.nextRv, q, q')
      ensures Handled(old(ctrl.queues), ctrl.queues, q.name, env, Late(q, env))
      ensures cleared ==> q.name !in ctrl.queues
      ensures old(ctrl.writesLeft) >= Enough(q, env) ==>
                forall s :: Leads(q, env, s) ==> At(ctrl.queues, q.name, s)
      ensures q'.state == Deleting && q.name in ctrl.queues ==>
                ctrl.queues[q.name].components == q.components && ctrl.queues[q.name].bundle == q.bundle
      ensures ctrl.stable == old(ctrl.stable)
           || (q.state == Collecting && q.Passed() && StableFrom(old(ctrl.stable), ctrl.stable, q))
      ensures q.state == Collecting && q.Passed() && q.name in ctrl.queues && ctrl.queues[q.name].state == CleaningAfter ==>
                MadeStable(ctrl.stable, q)
    {
      cleared := false;
      match q.state {
        case Waiting => q' := InitQueue(q, env);
        case CleaningBefore => q' := CleanBefore(q, env);
        case DetectingImageMissing => q' := DetectImageMissing(q, env);
        case Creating => q', cleared := DeployEnvironment(q, env);
        case Testing => q' := StartTesting(q, env);
        case Collecting => q' := CollectResult(q, env);
        case CleaningAfter => q' := CleanAfter(q, env);
      }
    }

    method Dispatch(q: Queue, env: Env)
      requires Valid() && current == Some(q) && env.writes == ctrl.writesLeft
      requires q.state != Deleting ==> q.name in ctrl.queues && ctrl.queues[q.name] == q
      modifies this`current, ctrl`queues, ctrl`stable, ctrl`nextRv, ctrl`writesLeft
      ensures Valid() && HandleStep(old(Abs()), Abs(), env)
      ensures Rewritten(old(ctrl.queues), ctrl.queues, old(ctrl.nextRv), ctrl.nextRv)
    {
      if q.state == Deleting {
        var q', cleared := DeleteQueue(q, env);
        current := if cleared then None else Some(q');
      } else {
        DispatchAct(q, env);
      }
    }

    method DispatchAct(q: Queue, env: Env)
      requires Valid() && current == Some(q) && env.writes == ctrl.writesLeft
      requires q.state != Deleting && q.name in ctrl.queues && ctrl.queues[q.name] == q
      modifies this`current, ctrl`queues, ctrl`stable, ctrl`nextRv, ctrl`writesLeft
      ensures Valid() && HandleStep(old(Abs()), Abs(), env)
      ensures Rewritten(old(ctrl.queues), ctrl.queues, old(ctrl.nextRv), ctrl.nextRv)
    {
      var q', cleared := Act(q, env);
      HandledNames(old(ctrl.queues), ctrl.queues, q.name, env, Late(q, env));
      current := if cleared then None else Some(q');
    }

    /** Asks for a queue if none is held. */
    method Pick(env: Env) returns (ghost complete: bool)
      requires Valid()
      modifies this`current, ctrl`queues, ctrl`nextRv, ctrl`writesLeft
      ensures Valid() && ctrl.stable == old(ctrl.stable)
      ensures Rewritten(old(ctrl.queues), ctrl.queues, old(ctrl.nextRv), ctrl.nextRv)
      ensures PickStep(env.now, old(Abs()), Abs(), complete)
      ensures env.writes >= |old(ctrl.queues)| ==> complete
      ensures old(current).Some? ==> ctrl.writesLeft == env.writes
    {
      hide RenumberedByFirst, InterruptedFirst, RunnerKeepsPlace, OrdersOnly;
      ctrl.writesLeft := env.writes;
      complete := true;
      if current.None? {
        var ok, picked := ctrl.First(env.now);
        PickedByFirst(env.now, old(Abs()), ctrl.queues, ok, picked);
        current, complete := picked, ok;
      }
    }

    /** One call of process: pick a queue if none is held, look it up again, do its next step. What picking left
        of the writes is for the step. */
    method Process(env: Env) returns (ghost mid: World, ghost complete: bool, ghost left: nat)
      requires Valid()
      modifies this`current, ctrl`queues, ctrl`stable, ctrl`nextRv, ctrl`writesLeft
      ensures Valid()
      ensures PickStep(env.now, old(Abs()), mid, complete)
      ensures env.writes >= |old(ctrl.queues)| ==> complete
      ensures old(current).Some? ==> left == env.writes
      ensures if Stands(mid, env) then Abs() == mid else HandleStep(mid, Abs(), env.(writes := left))
      ensures exists rv: nat ::
                && Rewritten(old(ctrl.queues), mid.queues, old(ctrl.nextRv), rv) && (mid.current.Some? ==> mid.current.value.rv < rv)
                && Rewritten(mid.queues, ctrl.queues, rv, ctrl.nextRv)
    {
      complete := Pick(env);
      mid := Abs();
      left := ctrl.writesLeft;
      ghost var rv := ctrl.nextRv;
      if current.Some? {
        Continue(env);
      }
      assert Rewritten(mid.queues, ctrl.queues, rv, ctrl.nextRv);
    }

    /** Looks the held queue up again, unless it is in Deleting, and does its next step. */
    method Continue(env: Env)
      requires Valid() && current.Some?
      modifies this`current, ctrl`queues, ctrl`stable, ctrl`nextRv, ctrl`writesLeft
      ensures Valid() && Rewritten(old(ctrl.queues), ctrl.queues, old(ctrl.nextRv), ctrl.nextRv)
      ensures Stands(old(Abs()), env) ==> Abs() == old(Abs())
      ensures !Stands(old(Abs()), env) ==> HandleStep(old(Abs()), Abs(), env.(writes := old(ctrl.writesLeft)))
    {
      hide HandleStep, Rewritten;
      var q, left := current.value, env.(writes := ctrl.writesLeft);
      if q.state != Deleting {
        if !env.syncOk {
          NothingRewritten(ctrl.queues, ctrl.nextRv);
          return;
        }
        if q.name !in ctrl.queues {
          LetGone(left);
          return;
        }
        DispatchStored(ctrl.queues[q.name], left);
        return;
      }
      Dispatch(q, left);
    }

    /** Deleted by a user: marked Cancelling and, in the same call, let go. */
    method LetGone(ghost env: Env)
      requires Valid() && current.Some? && current.value.state != Deleting && current.value.name !in ctrl.queues
      modifies this`current
      ensures Valid() && HandleStep(old(Abs()), Abs(), env) && ctrl.queues == old(ctrl.queues)
      ensures Rewritten(old(ctrl.queues), ctrl.queues, old(ctrl.nextRv), ctrl.nextRv)
    {
      GoneIsLetGo(Abs(), env);
      current := None;
    }

    method DispatchStored(q: Queue, env: Env)
      requires Valid() && current.Some? && current.value.state != Deleting && current.value.name == q.name
      requires q.name in ctrl.queues && ctrl.queues[q.name] == q && env.writes == ctrl.writesLeft
      modifies this`current, ctrl`queues, ctrl`stable, ctrl`nextRv, ctrl`writesLeft
      ensures Valid() && HandleStep(old(Abs()), Abs(), env)
      ensures Rewritten(old(ctrl.queues), ctrl.queues, old(ctrl.nextRv), ctrl.nextRv)
    {
      hide HandleStep;
      ghost var w := Abs();
      current := Some(q);
      assert Abs() == w.(current := Some(q));
      Dispatch(q, env);
      LookedUp(w, Abs(), q, env);
    }
  }

  datatype World = World(queues: map<string, Queue>, stable: map<string, Component>, current: Option<Queue>)

  /** One part of a call after the other, both in states before CleaningAfter. */
  lemma WroteThen(m: map<string, Queue>, a: nat, m1: map<string, Queue>, b: nat, m2: map<string, Queue>, c: nat, q: Queue,
                  q1: Queue, q2: Queue)
    requires Wrote(m, a, m1, b, q, q1) && Wrote(m1, b, m2, c, q1, q2) && q1.state != CleaningAfter
    ensures Wrote(m, a, m2, c, q, q2)
  {
    RewrittenAgain(m, m1, m2, a, b, c);
  }

  lemma FewerWrote(m: map<string, Queue>, a: nat, m1: map<string, Queue>, b: nat, q: Queue, q1: Queue, m2: map<string, Queue>)
    requires Wrote(m, a, m1, b, q, q1) && forall n :: n in m2 ==> n in m1 && m2[n] == m1[n]
    ensures Wrote(m, a, m2, b, q, q1)
  {
  }

  lemma StayThenStep(q: Queue, q1: Queue, q2: Queue, env: Env, late: bool)
    requires Stays(q, q1, env) && (q2 == q1 || (Edge(q1, q2) && Caused(q1, q2, env, late)))
    ensures Edge(q, q2) && Caused(q, q2, env, late)
  {
  }

  /** A stage kept first, then a step. */
  lemma HandledAfterStay(m: map<string, Queue>, m1: map<string, Queue>, m2: map<string, Queue>, q: Queue, q1: Queue,
                         env: Env, late: bool)
    requires q.name in m && m[q.name] == q && Stays(q, q1, env)
    requires Handled(m1, m2, q.name, env, late)
    requires m1 == m[q.name := q1] || m1 == m - {q.name}
    ensures Handled(m, m2, q.name, env, late)
  {
    hide Edge, Caused, Stays;
    if q.name in m2 {
      StayThenStep(q, q1, m2[q.name], env, late);
    }
  }

  lemma HandledInStep(m: map<string, Queue>, m1: map<string, Queue>, m2: map<string, Queue>, q: Queue, q1: Queue,
                      env: Env, late: bool)
    requires Stays(q, q1, env) && Handled(m1, m2, q.name, env, late)
    requires if q.name in m then m[q.name] == q && m1 == m[q.name := q1] else m1 == m && q1 == q
    ensures Handled(m, m2, q.name, env, late)
  {
    hide Edge, Caused, Stays;
    if q.name in m2 {
      StayThenStep(q, q1, m2[q.name], env, late);
    }
  }

  lemma HandledNames(m: map<string, Queue>, m': map<string, Queue>, n: string, env: Env, late: bool)
    requires Handled(m, m', n, env, late) && forall x :: x in m ==> m[x].name == x
    ensures forall x :: x in m' ==> m'[x].name == x
  {
  }

  /** Every changed stable version is that of a component of `q`. */
  ghost predicate StableFrom(s: map<string, Component>, s': map<string, Component>, q: Queue) {
    && s.Keys <= s'.Keys
    && forall n :: n in s' ==> (n in s && s'[n] == s[n]) || (s'[n] in q.components && s'[n].name == n)
  }

  /** The version of every component with a name of its own is stable. */
  ghost predicate MadeStable(s: map<string, Component>, q: Queue) {
    forall c :: c in q.components && (forall d :: d in q.components && d.name == c.name ==> d == c) ==>
      c.name in s && s[c.name] == c
  }

  lemma PickedByFirst(now: int, w: World, m': map<string, Queue>, ok: bool, r: Option<Queue>)
    requires w.current.None? && OrdersOnly(w.queues, m') && (r.Some? ==> ok && HandedOut(now, m', r.value))
    requires if ok then w.queues != map[] ==> RenumberedByFirst(now, w.queues, m') else InterruptedFirst(now, w.queues, m')
    requires RunnerKeepsPlace(now, w.queues, m', ok, r)
    requires ok && SomeoneIsDue(now, m') ==> r.Some?
    ensures PickStep(now, w, World(m', w.stable, r), ok)
  {
  }

  /** When an attempt that is over can be ended: the answers come, and for a failed one the copy in memory has
      the version of the stored object. */
  ghost predicate LetsGo(q: Queue, m: map<string, Queue>, env: Env) {
    && env.historyOk
    && if q.Passed() then q.name !in m || env.writes > 0
       else (q.qtype == Reverify || env.configOk) && env.listOk && env.writes > 0 && q.name in m && m[q.name].rv == q.rv
  }

  /** No queue is held, or the held one cannot be looked up. */
  predicate Stands(w: World, env: Env) {
    w.current.None? || (w.current.value.state != Deleting && !env.syncOk)
  }

  /** The copy a call works on: the held one in Deleting, else the stored one. */
  function Worked(w: World): Queue
    requires w.current.Some?
  {
    var q := w.current.value;
    if q.state == Deleting || q.name !in w.queues then q else w.queues[q.name]
  }

  /** A queue that was deleted meanwhile is let go, an attempt in Deleting exactly when it can be, and any other
      queue goes where the answers lead when there are writes enough. */
  ghost predicate Driven(w: World, w': World, env: Env)
    requires w.current.Some?
  {
    var n, q := w.current.value.name, Worked(w);
    if q.state == Deleting then w'.current.None? <==> LetsGo(q, w.queues, env)
    else if n !in w.queues then w'.current.None? && w'.queues == w.queues
    else env.writes >= Enough(q, env) ==> forall s :: Leads(q, env, s) ==> At(w'.queues, n, s)
  }

  lemma GoneIsLetGo(w: World, env: Env)
    requires w.current.Some? && w.current.value.state != Deleting && w.current.value.name !in w.queues
    requires forall n :: n in w.queues ==> w.queues[n].name == n
    ensures HandleStep(w, w.(current := None), env)
  {
  }

  /** Looking the held queue up first makes no difference. */
  lemma LookedUp(w: World, w': World, q: Queue, env: Env)
    requires w.current.Some? && w.current.value.state != Deleting && w.current.value.name == q.name
    requires q.name in w.queues && w.queues[q.name] == q && HandleStep(w.(current := Some(q)), w', env)
    ensures HandleStep(w, w', env)
  {
  }

  /** The answers come, but the copy of a failed attempt is not the stored object any more. */
  ghost predicate Refused(q: Queue, m: map<string, Queue>, env: Env) {
    && env.historyOk && !q.Passed() && (q.qtype == Reverify || env.configOk) && env.listOk
    && (q.name in m ==> m[q.name].rv != q.rv)
  }

  /** A resource version names one content of an object: a held copy in Deleting, which is not looked up again,
      with the version of the stored object has its components. */
  ghost predicate VersionsIdentify(w: World) {
    && w.current.Some? && w.current.value.state == Deleting && w.current.value.name in w.queues
    && w.current.value.rv == w.queues[w.current.value.name].rv ==>
      var q := w.queues[w.current.value.name];
      w.current.value.components == q.components && w.current.value.bundle == q.bundle
  }

  /** What a failed attempt leaves behind: a fresh start with the next counter, as a re-verification once the
      counter has passed the limit, or, after that, as an upgrade from the beginning, a day later. */
  ghost predicate AfterFailure(q: Queue, q': Queue, maxRetry: int, now: int) {
    && Restarted(q, q')
    && if q.qtype == Reverify then
         q'.qtype == Upgrade && q'.noOfRetry == 0 && q'.nextProcessAt == Some(now + DAY)
       else if q.noOfRetry + 1 > maxRetry then
         q'.qtype == Reverify && q'.noOfRetry == q.noOfRetry + 1 && q'.nextProcessAt == q.nextProcessAt
       else
         q'.qtype == Upgrade && q'.noOfRetry == q.noOfRetry + 1 && q'.nextProcessAt == Some(now)
  }

  /** Nothing runs, and a queue is due. */
  ghost predicate SomeoneIsDue(now: int, m: map<string, Queue>) {
    (forall n :: n in m ==> m[n].state == Waiting) && exists n :: n in m && Due(now, m[n])
  }

  /** While no queue is held, First may hand one out; if its renumbering was saved completely, a
      running queue that sorts like nobody else goes to the front and nobody else is handed out. */
  ghost predicate PickEffect(now: int, w: World, w': World, complete: bool) {
    if w.current.Some? then w' == w
    else
      && w'.stable == w.stable && OrdersOnly(w.queues, w'.queues)
      && (w'.current.Some? ==> complete && HandedOut(now, w'.queues, w'.current.value))
      && (complete && SomeoneIsDue(now, w'.queues) ==> w'.current.Some?)
      && (complete ==> forall x :: SoleRunner(w.queues, x) && OwnKey(now, w.queues, x) ==>
            AtFront(w'.queues, x) && (w'.current.Some? ==> w'.current.value.name == x))
  }

  /** Picking, with the numbers it leaves. */
  ghost predicate PickStep(now: int, w: World, w': World, complete: bool) {
    && PickEffect(now, w, w', complete)
    && (w.current.None? ==>
          if complete then w.queues != map[] ==> RenumberedByFirst(now, w.queues, w'.queues)
          else InterruptedFirst(now, w.queues, w'.queues))
  }

  /** The attempt of the held queue n is over and failed. A copy in Deleting is not looked up again. */
  ghost predicate Ended(w: World, w': World, maxRetry: int, now: int)
    requires w.current.Some? && w.current.value.name in w'.queues
  {
    var n := w.current.value.name;
    n in w.queues && w'.queues[n].state == Waiting
    && if w.current.value.state == Deleting then
         w.current.value.rv == w.queues[n].rv && AfterFailure(w.current.value, w'.queues[n], maxRetry, now)
       else w.queues[n].state == Deleting && AfterFailure(w.queues[n], w'.queues[n], maxRetry, now)
  }

  ghost predicate Concluded(w: World, w': World, n: string) {
    n in w'.queues && n in w.queues && w.queues[n].state == Collecting && w'.queues[n].state == CleaningAfter
  }

  /** One call of process on the held queue n: only n changes, by an edge of the machine while it is held;
      n is let go only when it is gone or its attempt has failed; the copy in memory keeps the counter
      unless a deletion fails; stable versions change only out of a passed Collecting queue. */
  ghost predicate HandleStep(w: World, w': World, env: Env) {
    w.current.Some? &&
    var n := w.current.value.name;
    && (forall x :: x in w'.queues ==> x in w.queues && w'.queues[x].name == x)
    && (forall x :: x in w.queues && x != n ==> x in w'.queues && w'.queues[x] == w.queues[x])
    && (n in w'.queues ==>
          if w'.current.None? then Ended(w, w', env.maxRetry, env.now)
          else w'.queues[n] == w.queues[n]
               || (Edge(w.queues[n], w'.queues[n]) && Caused(w.queues[n], w'.queues[n], env, Late(w.queues[n], env))))
    && (w'.current.Some? ==> w'.current.value.name == n)
    && (w'.current.Some? && n in w.queues && w.current.value.state != Deleting && w.queues[n].state != Deleting ==>
          SameCounter(w.queues[n], w'.current.value))
    && (VersionsIdentify(w) ==> VersionsIdentify(w')) && Driven(w, w', env)
    && (w.current.value.state == Deleting && Refused(w.current.value, w.queues, env) ==>
          w'.queues == w.queues && w'.current.Some? && w'.current.value.state == Waiting)
    && (Concluded(w, w', n) && w.queues[n].Passed() ==> MadeStable(w'.stable, w.queues[n]))
    && (w'.stable == w.stable ||
        (n in w.queues && w.queues[n].state == Collecting && w.queues[n].Passed() && StableFrom(w.stable, w'.stable, w.queues[n])))
  }
}
