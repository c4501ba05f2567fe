/** Where the result of a pull request queue comes from (internal/pullrequest/queue/queue_deployment.go). */
module PullRequestResults {
  import opened QueueTypes
  import opened PullRequestQueue
  import opened PullRequestRuns

  /** A reconcile of queue n reads answer a of its deployment and goes on with it. */
  predicate Deploys(e: Event, n: string, q: PrQueue, q': PrQueue, a: Answer) {
    && e.Reconciling? && e.name == n && !Cancellable(q) && q.state == QDeploying && e.env.deployed == a
    && ((a == Passed && q'.state == QTesting) || (a == Failed && q'.state == QCollecting))
  }

  /** A reconcile of queue n reads answer a of its test and goes on with it. */
  predicate Tests(e: Event, n: string, q: PrQueue, q': PrQueue, a: Answer) {
    && e.Reconciling? && e.name == n && !Cancellable(q) && q.state == QTesting && e.env.tested == a
    && a != Pending && q'.state == QCollecting
  }

  /** Queue n is there all along. */
  ghost predicate Stays(ms: seq<Cluster>, n: string) { forall m: Cluster :: m in ms ==> n in m }

  /** The deployment has passed since queue n was last started. */
  ghost predicate DeployedSince(ms: seq<Cluster>, es: seq<Event>, n: string, k: nat)
    requires k < |ms| == |es| + 1 && forall i :: 0 <= i < |ms| ==> n in ms[i]
  {
    && k > 0 && !Starts(ms[k - 1][n], ms[k][n])
    && (Deploys(es[k - 1], n, ms[k - 1][n], ms[k][n], Passed) || DeployedSince(ms, es, n, k - 1))
  }

  /** The test has passed since queue n was last started. */
  ghost predicate TestedSince(ms: seq<Cluster>, es: seq<Event>, n: string, k: nat)
    requires k < |ms| == |es| + 1 && forall i :: 0 <= i < |ms| ==> n in ms[i]
  {
    && k > 0 && !Starts(ms[k - 1][n], ms[k][n])
    && (Tests(es[k - 1], n, ms[k - 1][n], ms[k][n], Passed) || TestedSince(ms, es, n, k - 1))
  }

  // ----- One step

  /** A queue in line has nothing left of an earlier attempt. */
  predicate Fresh(q: PrQueue) {
    && q.conditions == map[] && q.result == NoResult && q.namespace == "" && !q.hasHistory && q.destroyedTime.None?
  }

  predicate InLine(q: PrQueue) { q.state == Unset || q.state == QWaiting }

  /** What is known of a queue whose trigger succeeded. */
  predicate Known(q: PrQueue, deployed: bool, tested: bool) {
    && (InLine(q) ==> Fresh(q))
    && (q.state == EnvCreating || q.state == QDeploying || q.state == QTesting ==> q.result == NoResult)
    && (q.state == QTesting ==> deployed)
    && (q.result == Success ==> deployed && tested)
  }

  /** The event is one of queue n if it changes more than numbers, deletion marks, commits or a start. */
  lemma StageStep(m: Cluster, e: Event, m': Cluster, n: string)
    requires Next(m, e, m') && n in m && n in m'
    ensures || m'[n] == m[n].(order := m'[n].order)
            || (e.UserDeletes? && m'[n] == m[n].(deleting := true))
            || (e.Adding? && m'[n] == Upcoming(m[n], e.queue).(order := m'[n].order))
            || (e.Reconciling? && m[n].stateLabel == LabelWaiting && m'[n] == Start(m[n]).(order := m'[n].order))
            || (e.Reconciling? && e.name == n && (OwnWrite(e.env, m[n], m'[n]) || WentBack(e.env, m[n], m'[n])))
  {
    if e.Reconciling? {
      var m1 := if e.started.Some? then m[e.started.value := Start(m[e.started.value])] else m;
      if n != e.name && OwnPart(e.env, m1, m', e.name) {
        OwnPartIsOwn(e.env, m1, m', e.name, n);
      } else {
        EachQueueSteps(m, e, m', n);
      }
    } else {
      EachQueueSteps(m, e, m', n);
    }
  }

  /** What one write makes of the result, stage by stage. */
  lemma WrittenResult(e: Event, n: string, q: PrQueue, q': PrQueue)
    requires e.Reconciling? && e.name == n && OwnWrite(e.env, q, q') && q.triggerFailed == Some(false)
    ensures q.state == QTesting && q'.state == QCollecting && !Cancellable(q) ==>
              || (Tests(e, n, q, q', Passed) && q'.result == Success)
              || (Tests(e, n, q, q', Failed) && q'.result == Failure)
    ensures q.state == QDeploying && q'.state == QTesting ==> Deploys(e, n, q, q', Passed) && q'.result == q.result
    ensures q.state == QDeploying && q'.state == QCollecting && !Cancellable(q) ==>
              Deploys(e, n, q, q', Failed) && q'.result == Failure
    ensures q'.result == q.result || q'.result == Canceled || Tests(e, n, q, q', Passed) || Tests(e, n, q, q', Failed)
            || Deploys(e, n, q, q', Failed)
  {
  }

  lemma WrittenIsKnown(e: Event, n: string, q: PrQueue, q': PrQueue, deployed: bool, tested: bool)
    requires e.Reconciling? && e.name == n && OwnWrite(e.env, q, q') && Sound(q) && Known(q, deployed, tested)
    ensures Known(q', Deploys(e, n, q, q', Passed) || deployed, Tests(e, n, q, q', Passed) || tested)
  {
    WrittenResult(e, n, q, q');
  }

  lemma StepIsKnown(m: Cluster, e: Event, m': Cluster, n: string, deployed: bool, tested: bool)
    requires Next(m, e, m') && n in m && n in m' && Sound(m[n]) && Known(m[n], deployed, tested)
    ensures var q, q' := m[n], m'[n];
            if Starts(q, q') then Known(q', false, false)
            else Known(q', Deploys(e, n, q, q', Passed) || deployed, Tests(e, n, q, q', Passed) || tested)
  {
    StageStep(m, e, m', n);
    if e.Reconciling? && e.name == n && OwnWrite(e.env, m[n], m'[n]) {
      OwnWriteKeepsPlan(e.env, m[n], m'[n]);
      WrittenIsKnown(e, n, m[n], m'[n], deployed, tested);
    }
  }

  // ----- The time of the tear-down

  /** The environment outlives its run when that was asked for and the deployment got through. */
  predicate Outlives(q: PrQueue) {
    && Holds(q, CondDeployed)
    && (q.criteria == OnBoth || (q.criteria == OnFailure && q.result == Failure) || (q.criteria == OnSuccess && q.result == Success))
  }

  /** When the result has been collected, the tear-down is put off exactly then. */
  lemma PutOff(m: Cluster, e: Event, m': Cluster, n: string)
    requires Next(m, e, m') && n in m && n in m' && m[n].triggerFailed == Some(false)
    requires m[n].state == QCollecting && m'[n].state == EnvDestroying && m[n].destroyedTime.None?
    ensures e.Reconciling? && e.name == n && m'[n].result == m[n].result
    ensures m'[n].destroyedTime == if Outlives(m[n]) then Some(e.env.now + m[n].tearDown) else None
  {
    StageStep(m, e, m', n);
  }

  /** Nothing is torn down before its time, unless the queue is deleted. */
  lemma TornDownInTime(m: Cluster, e: Event, m': Cluster, n: string)
    requires Next(m, e, m') && n in m && n in m' && Sound(m[n])
    requires m[n].state == EnvDestroying && m'[n].state != EnvDestroying
    ensures e.Reconciling? && e.name == n
    ensures m[n].deleting || m[n].destroyedTime.None? || e.env.now > m[n].destroyedTime.value
  {
    StageStep(m, e, m', n);
  }

  // ----- Whole runs

  lemma {:induction false} KnownAlways(ms: seq<Cluster>, es: seq<Event>, n: string, k: nat)
    requires Run(ms, es) && k < |ms| && forall i :: 0 <= i < |ms| ==> n in ms[i]
    requires (IsNew(ms[0][n]) || (Sound(ms[0][n]) && InLine(ms[0][n]) && Fresh(ms[0][n]))) && ms[0][n].triggerFailed == Some(false)
    ensures Sound(ms[k][n]) && Known(ms[k][n], DeployedSince(ms, es, n, k), TestedSince(ms, es, n, k))
  {
    if k > 0 {
      KnownAlways(ms, es, n, k - 1);
      assert Next(ms[k - 1], es[k - 1], ms[k]);
      StepIsKnown(ms[k - 1], es[k - 1], ms[k], n, DeployedSince(ms, es, n, k - 1), TestedSince(ms, es, n, k - 1));
      EachQueueSteps(ms[k - 1], es[k - 1], ms[k], n);
      StepIsAccounted(es[k - 1], ms[k - 1][n], ms[k][n], if es[k - 1].Reconciling? then es[k - 1].env.maxRetry else 0);
    }
  }

  /** In every run, from its arrival on: a queue whose trigger succeeded has the result Success only when, since
      it was last started, a reconcile saw its deployment passed and one saw its test passed. */
  lemma SuccessIsEarned(ms: seq<Cluster>, es: seq<Event>, n: string, k: nat)
    requires Run(ms, es) && k < |ms| && forall i :: 0 <= i < |ms| ==> n in ms[i]
    requires IsNew(ms[0][n]) && ms[0][n].triggerFailed == Some(false) && ms[k][n].result == Success
    ensures DeployedSince(ms, es, n, k) && TestedSince(ms, es, n, k)
  {
    KnownAlways(ms, es, n, k);
  }

  /** In every run a queue in line has nothing left of its earlier attempts. */
  lemma InLineIsFresh(ms: seq<Cluster>, es: seq<Event>, n: string, k: nat)
    requires Run(ms, es) && k < |ms| && forall i :: 0 <= i < |ms| ==> n in ms[i]
    requires IsNew(ms[0][n]) && ms[0][n].triggerFailed == Some(false) && InLine(ms[k][n])
    ensures Fresh(ms[k][n])
  {
    KnownAlways(ms, es, n, k);
  }

  lemma FailureStays(m: Cluster, e: Event, m': Cluster, n: string)
    requires Next(m, e, m') && n in m && n in m' && Sound(m[n]) && !InLine(m[n])
    requires m[n].result == Failure && m[n].state != QTesting && m[n].state != QDeploying && m[n].state != EnvCreating
    ensures m'[n].result == Failure || m'[n].result == Canceled || InLine(m'[n])
    ensures !InLine(m'[n]) ==> m'[n].state != QTesting && m'[n].state != QDeploying && m'[n].state != EnvCreating
  {
    StageStep(m, e, m', n);
    if e.Reconciling? && e.name == n && OwnWrite(e.env, m[n], m'[n]) {
      WrittenResult(e, n, m[n], m'[n]);
    }
  }

  lemma FailedNow(m: Cluster, e: Event, m': Cluster, n: string)
    requires Next(m, e, m') && n in m && n in m' && Sound(m[n])
    requires Deploys(e, n, m[n], m'[n], Failed) || Tests(e, n, m[n], m'[n], Failed)
    ensures m'[n].result == Failure && m'[n].state == QCollecting
  {
    StageStep(m, e, m', n);
    if OwnWrite(e.env, m[n], m'[n]) {
      WrittenResult(e, n, m[n], m'[n]);
    }
  }

  /** A failed deployment or test, read by a reconcile that goes on with it, makes the result Failure, and it
      stays so until the queue is back in line or cancelled. */
  lemma {:induction false} FailureIsKept(ms: seq<Cluster>, es: seq<Event>, n: string, j: nat, k: nat)
    requires Run(ms, es) && j < k < |ms| && forall i :: 0 <= i < |ms| ==> n in ms[i]
    requires IsNew(ms[0][n]) && ms[0][n].triggerFailed == Some(false)
    requires Deploys(es[j], n, ms[j][n], ms[j + 1][n], Failed) || Tests(es[j], n, ms[j][n], ms[j + 1][n], Failed)
    requires forall i :: j < i <= k ==> !InLine(ms[i][n]) && ms[i][n].result != Canceled
    ensures ms[k][n].result == Failure && ms[k][n].state != QTesting && ms[k][n].state != QDeploying
            && ms[k][n].state != EnvCreating
  {
    hide Next, OwnWrite, QueueStep;
    assert Next(ms[k - 1], es[k - 1], ms[k]);
    KnownAlways(ms, es, n, k - 1);
    if k == j + 1 {
      FailedNow(ms[j], es[j], ms[k], n);
    } else {
      FailureIsKept(ms, es, n, j, k - 1);
      FailureStays(ms[k - 1], es[k - 1], ms[k], n);
    }
  }
}
