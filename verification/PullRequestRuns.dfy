/** Whole runs of the pull request controllers: reconciles, newly arriving commits and user deletions,
    one after the other in any order. */
module PullRequestRuns {
  import opened QueueTypes
  import opened PullRequestQueue

  datatype Event =
    | Reconciling(env: Env, name: string, started: Option<string>)
    | Adding(queue: PrQueue)
    | UserDeletes(name: string)

  ghost predicate Next(m: Cluster, e: Event, m': Cluster) {
    match e
    case Reconciling(env, name, started) => ReconcileStep(env, m, m', name, started)
    case Adding(q) => IsNew(q) && AddStep(m, m', q)
    case UserDeletes(name) =>
      name in m && m' == if m[name].finalizer then m[name := m[name].(deleting := true)] else m - {name}
  }

  ghost predicate Run(ms: seq<Cluster>, es: seq<Event>) {
    |ms| == |es| + 1 && forall i {:trigger es[i]} :: 0 <= i < |es| ==> Next(ms[i], es[i], ms[i + 1])
  }

  // ----- The number of running queues

  /** What no write of a reconcile touches, unless the queue is started or goes back in line. */
  ghost predicate KeepsPlan(q: PrQueue, q': PrQueue) {
    && q'.name == q.name && q'.upcomingCommit == q.upcomingCommit && q'.upcomingComponents == q.upcomingComponents
    && q'.commit == q.commit && q'.retry == q.retry
    && (q'.stateLabel == q.stateLabel || (q.state == Unset && q'.stateLabel == LabelWaiting))
  }

  lemma InMemoryKeepsPlan(q: PrQueue)
    ensures KeepsPlan(q, InMemory(q)) && InMemory(q).state == q.state
  {
  }

  lemma AdvancedKeepsPlan(env: Env, p: PrQueue, q: PrQueue)
    requires Advanced(env, p, q)
    ensures KeepsPlan(p, q)
  {
  }

  lemma OwnWriteKeepsPlan(env: Env, q: PrQueue, q': PrQueue)
    requires OwnWrite(env, q, q')
    ensures KeepsPlan(q, q')
  {
    InMemoryKeepsPlan(q);
    var p := InMemory(q);
    if Advanced(env, p, q') {
      AdvancedKeepsPlan(env, p, q');
    }
  }

  /** The reconciled queue is the only one that changes, orders aside, and it is not started. */
  lemma OwnPartIsOwn(env: Env, m: Cluster, m': Cluster, name: string, n: string)
    requires OwnPart(env, m, m', name)
    ensures n in m' ==> n in m && (m'[n].stateLabel == LabelRunning ==> m[n].stateLabel == LabelRunning)
    ensures n in m && n != name ==> n in m' && m'[n] == m[n].(order := m'[n].order)
  {
    if name in m' && OwnWrite(env, m[name], m'[name]) {
      OwnWriteKeepsPlan(env, m[name], m'[name]);
    }
  }

  lemma RunningAfterOwnPart(env: Env, m: Cluster, m': Cluster, name: string)
    requires OwnPart(env, m, m', name)
    ensures RunningNames(m') <= RunningNames(m)
  {
    forall n | n in RunningNames(m') ensures n in RunningNames(m) {
      OwnPartIsOwn(env, m, m', name, n);
    }
  }

  lemma SmallerSet(a: set<string>, b: set<string>)
    requires a <= b
    ensures |a| <= |b|
  {
    assert b == a + (b - a);
  }

  /** A reconcile starts at most one queue, never beyond the limit, from its newest components, and
      what it writes afterwards does not undo the start. */
  lemma StartsAtMostOne(env: Env, m: Cluster, m': Cluster, name: string, started: Option<string>)
    requires ReconcileStep(env, m, m', name, started)
    ensures started.None? ==> RunningNames(m') <= RunningNames(m)
    ensures started.Some? ==>
              && RunningNames(m') <= RunningNames(m) + {started.value} && started.value !in RunningNames(m)
              && |RunningNames(m)| < env.concurrences
              && started.value in m' && m'[started.value] == Start(m[started.value]).(order := m'[started.value].order)
    ensures |RunningNames(m')| <= |RunningNames(m)| || |RunningNames(m')| <= env.concurrences
  {
    match started
    case None =>
      if m' != m {
        RunningAfterOwnPart(env, m, m', name);
        SmallerSet(RunningNames(m'), RunningNames(m));
      }
    case Some(x) =>
      var m1 := m[x := Start(m[x])];
      assert RunningNames(m1) == RunningNames(m) + {x};
      if x != name {
        RunningAfterOwnPart(env, m1, m', name);
        OwnPartIsOwn(env, m1, m', name, x);
      }
      SmallerSet(RunningNames(m'), RunningNames(m1));
  }

  lemma OthersStartNothing(m: Cluster, e: Event, m': Cluster)
    requires Next(m, e, m') && !e.Reconciling?
    ensures RunningNames(m') <= RunningNames(m)
  {
    forall n | n in RunningNames(m') ensures n in RunningNames(m) {
      if e.Adding? && n == e.queue.name && n in m {
        assert SameButOrder(m, m') || SameButOrder(m[n := Upcoming(m[n], e.queue)], m');
      } else if e.Adding? && n != e.queue.name {
        assert n in m' - {e.queue.name};
      }
    }
  }

  /** With every reconcile reading at most limit concurrences, never more than limit queues are
      labelled running. */
  lemma {:induction false} NeverMoreThanConcurrences(ms: seq<Cluster>, es: seq<Event>, limit: nat)
    requires Run(ms, es) && |RunningNames(ms[0])| <= limit
    requires forall i :: 0 <= i < |es| && es[i].Reconciling? ==> es[i].env.concurrences <= limit
    ensures forall m :: m in ms ==> |RunningNames(m)| <= limit
  {
    if es == [] {
      assert ms == [ms[0]];
    } else {
      var last := |es| - 1;
      assert forall i {:trigger es[..last][i]} :: 0 <= i < last ==> es[..last][i] == es[i];
      NeverMoreThanConcurrences(ms[..last + 1], es[..last], limit);
      assert ms[last] in ms[..last + 1];
      assert Next(ms[last], es[last], ms[last + 1]);
      if es[last].Reconciling? {
        StartsAtMostOne(es[last].env, ms[last], ms[last + 1], es[last].name, es[last].started);
      } else {
        OthersStartNothing(ms[last], es[last], ms[last + 1]);
        SmallerSet(RunningNames(ms[last + 1]), RunningNames(ms[last]));
      }
      assert ms == ms[..last + 1] + [ms[last + 1]];
    }
  }

  // ----- The way of one queue

  ghost predicate WentBack(env: Env, q: PrQueue, q': PrQueue) {
    var p := InMemory(q);
    && p.state == EnvDestroying && Destroyable(p, env.now) && NextAttempt(p, env.maxRetry).Some?
    && q' == Retried(p, NextAttempt(p, env.maxRetry).value, q'.order)
  }

  /** What one event does to one queue. */
  ghost predicate QueueStep(e: Event, q: PrQueue, q': PrQueue) {
    || q' == q.(order := q'.order)
    || (e.UserDeletes? && q' == q.(deleting := true))
    || (e.Adding? && q' == Upcoming(q, e.queue).(order := q'.order))
    || (e.Reconciling? && q.stateLabel == LabelWaiting && q' == Start(q).(order := q'.order))
    || (e.Reconciling? && OwnWrite(e.env, q, q'))
    || (e.Reconciling? && WentBack(e.env, q, q'))
  }

  lemma OwnPartStep(env: Env, m: Cluster, m': Cluster, name: string, started: Option<string>)
    requires OwnPart(env, m, m', name) && name in m'
    ensures QueueStep(Reconciling(env, name, started), m[name], m'[name])
  {
    if GoesBack(env, m, m', name) {
      var p := InMemory(m[name]);
      var order :| SameButOrder(m[name := Retried(p, NextAttempt(p, env.maxRetry).value, order)], m');
    }
  }

  lemma EachQueueSteps(m: Cluster, e: Event, m': Cluster, n: string)
    requires Next(m, e, m') && n in m && n in m'
    ensures QueueStep(e, m[n], m'[n])
  {
    match e
    case Reconciling(env, name, started) =>
      var m1 := if started.Some? then m[started.value := Start(m[started.value])] else m;
      if OwnPart(env, m1, m', name) {
        if n == name {
          OwnPartStep(env, m1, m', name, started);
        } else {
          OwnPartIsOwn(env, m1, m', name, n);
        }
      }
    case Adding(q) =>
      if n != q.name && q.name !in m && q.name in m' {
        assert n in m' - {q.name} ==> (m' - {q.name})[n] == m'[n];
      }
    case UserDeletes(name) =>
  }

  lemma AdvancedToFinished(env: Env, p: PrQueue, q: PrQueue)
    requires Advanced(env, p, q) && q.state == QFinished
    ensures p.state == EnvDestroying && NextAttempt(p, env.maxRetry).None?
    ensures q == p.(conditions := q.conditions, state := QFinished)
  {
  }

  lemma WrittenFinished(env: Env, q: PrQueue, q': PrQueue)
    requires OwnWrite(env, q, q') && q.state != QFinished && q'.state == QFinished
    ensures Advanced(env, InMemory(q), q')
  {
  }

  /** A queue is Finished only from EnvDestroying, with the newest commit, and if that failed then with
      no attempt left. */
  lemma FinishedWithNewestCommit(e: Event, q: PrQueue, q': PrQueue)
    requires QueueStep(e, q, q') && q.state != QFinished && q'.state == QFinished
    ensures q.state == EnvDestroying && q.commit == q.upcomingCommit
    ensures q'.commit == q'.upcomingCommit == q.commit && q'.result == q.result && q'.stateLabel == q.stateLabel
    ensures q'.result == Failure && q'.triggerFailed == Some(false) ==> e.Reconciling? && q'.retry >= e.env.maxRetry
  {
    WrittenFinished(e.env, q, q');
    AdvancedToFinished(e.env, InMemory(q), q');
  }

  /** A run has the newest commit and components when it starts. */
  lemma StartedFromNewest(e: Event, q: PrQueue, q': PrQueue)
    requires QueueStep(e, q, q') && q.stateLabel != LabelRunning && q'.stateLabel == LabelRunning
    ensures q'.commit == q.upcomingCommit && q'.components == q.upcomingComponents && q'.state == EnvCreating
    ensures q'.finalizer == (q.finalizer || !q.deleting) && Holds(q', CondStarted) && q'.result == q.result
    ensures q'.upcomingCommit == q.upcomingCommit && q'.retry == q.retry && q'.triggerFailed == q.triggerFailed
  {
    if e.Reconciling? && OwnWrite(e.env, q, q') {
      OwnWriteKeepsPlan(e.env, q, q');
    }
  }

  // ----- Attempts between two commits

  /** A queue whose trigger succeeded: it is labelled running exactly while it is out of the waiting line. */
  ghost predicate Sound(q: PrQueue) {
    && q.retry >= 0 && q.triggerFailed == Some(false)
    && (q.stateLabel == LabelRunning <==> q.state != Unset && q.state != QWaiting)
  }

  function AtLeastZero(k: int): nat { if k < 0 then 0 else k }

  /** The attempts a queue can still start with its newest commit. */
  function AttemptsLeft(q: PrQueue, maxRetry: int): nat {
    if q.stateLabel != LabelRunning then 1 + AtLeastZero(maxRetry - q.retry)
    else if q.commit != q.upcomingCommit then 1 + AtLeastZero(maxRetry)
    else AtLeastZero(maxRetry - q.retry)
  }

  predicate Starts(q: PrQueue, q': PrQueue) { q.stateLabel != LabelRunning && q'.stateLabel == LabelRunning }

  ghost predicate Accounted(q: PrQueue, q': PrQueue, maxRetry: int) {
    && Sound(q')
    && (q'.upcomingCommit == q.upcomingCommit ==>
          AttemptsLeft(q, maxRetry) == AttemptsLeft(q', maxRetry) + if Starts(q, q') then 1 else 0)
  }

  lemma AdvancedIsSound(env: Env, p: PrQueue, q: PrQueue)
    requires Advanced(env, p, q) && Sound(p)
    ensures Sound(q) && (p.state == Unset ==> p.stateLabel != LabelRunning && q.stateLabel != LabelRunning)
  {
  }

  lemma WrittenIsAccounted(env: Env, q: PrQueue, q': PrQueue, maxRetry: int)
    requires OwnWrite(env, q, q') && Sound(q)
    ensures Accounted(q, q', maxRetry)
  {
    OwnWriteKeepsPlan(env, q, q');
    InMemoryKeepsPlan(q);
    assert Sound(InMemory(q));
    if Advanced(env, InMemory(q), q') {
      AdvancedIsSound(env, InMemory(q), q');
    }
  }

  lemma WentBackIsAccounted(env: Env, q: PrQueue, q': PrQueue)
    requires WentBack(env, q, q') && Sound(q)
    ensures Accounted(q, q', env.maxRetry)
  {
    InMemoryKeepsPlan(q);
  }

  lemma StepIsAccounted(e: Event, q: PrQueue, q': PrQueue, maxRetry: int)
    requires QueueStep(e, q, q') && Sound(q)
    requires e.Reconciling? ==> e.env.maxRetry == maxRetry
    ensures Accounted(q, q', maxRetry)
  {
    if e.Reconciling? && OwnWrite(e.env, q, q') {
      WrittenIsAccounted(e.env, q, q', maxRetry);
    } else if e.Reconciling? && WentBack(e.env, q, q') {
      WentBackIsAccounted(e.env, q, q');
    }
  }

  /** How often queue n is started along ms. */
  function StartsOf(ms: seq<Cluster>, n: string): nat
    requires forall m :: m in ms ==> n in m
  {
    if |ms| < 2 then 0
    else
      assert ms[|ms| - 2] in ms && ms[|ms| - 1] in ms;
      StartsOf(ms[..|ms| - 1], n) + if Starts(ms[|ms| - 2][n], ms[|ms| - 1][n]) then 1 else 0
  }

  /** Queue n is there all along, with one upcoming commit, and MaxRetry does not change. */
  ghost predicate OneCommit(ms: seq<Cluster>, es: seq<Event>, n: string, commit: string, maxRetry: int) {
    && (forall m: Cluster :: m in ms ==> n in m && m[n].upcomingCommit == commit)
    && (forall i :: 0 <= i < |es| && es[i].Reconciling? ==> es[i].env.maxRetry == maxRetry)
  }

  lemma OneCommitPrefix(ms: seq<Cluster>, es: seq<Event>, n: string, commit: string, maxRetry: int)
    requires Run(ms, es) && OneCommit(ms, es, n, commit, maxRetry) && es != []
    ensures Run(ms[..|es|], es[..|es| - 1]) && OneCommit(ms[..|es|], es[..|es| - 1], n, commit, maxRetry)
    ensures ms[|es| - 1] in ms && ms[|es|] in ms && Next(ms[|es| - 1], es[|es| - 1], ms[|es|])
    ensures ms == ms[..|es|] + [ms[|es|]] && ms[..|es|][|es| - 1] == ms[|es| - 1]
  {
    var last := |es| - 1;
    assert forall i {:trigger es[..last][i]} :: 0 <= i < last ==> es[..last][i] == es[i];
    assert Next(ms[last], es[last], ms[last + 1]);
  }

  /** Between two commits every start uses up one attempt, and nothing else does: at most MaxRetry + 1. */
  lemma {:induction false} RunsBetweenCommits(ms: seq<Cluster>, es: seq<Event>, n: string, commit: string, maxRetry: int)
    requires Run(ms, es) && OneCommit(ms, es, n, commit, maxRetry)
    requires ms[0] in ms && Sound(ms[0][n])
    ensures ms[|es|] in ms && Sound(ms[|es|][n])
    ensures StartsOf(ms, n) == AttemptsLeft(ms[0][n], maxRetry) - AttemptsLeft(ms[|es|][n], maxRetry)
    ensures StartsOf(ms, n) <= AtLeastZero(maxRetry) + 1
  {
    if es != [] {
      OneCommitPrefix(ms, es, n, commit, maxRetry);
      var last := |es| - 1;
      assert ms[..|es|][0] == ms[0];
      RunsBetweenCommits(ms[..|es|], es[..last], n, commit, maxRetry);
      EachQueueSteps(ms[last], es[last], ms[|es|], n);
      StepIsAccounted(es[last], ms[last][n], ms[|es|][n], maxRetry);
    }
  }

  /** A Finished queue stays Finished until it is gone: a commit that arrives now is not run by it. */
  lemma FinishedIsFinal(e: Event, q: PrQueue, q': PrQueue)
    requires QueueStep(e, q, q') && Sound(q) && q.state == QFinished
    ensures q'.state == QFinished && q'.commit == q.commit && q'.result == q.result && !Starts(q, q')
  {
    if e.Reconciling? && OwnWrite(e.env, q, q') {
      OwnWriteKeepsPlan(e.env, q, q');
      InMemoryKeepsPlan(q);
    }
  }

  ghost predicate FailedForGood(q: PrQueue) { q.state == QFinished && q.result == Failure }

  lemma {:induction false} NothingLeftWhenFailed(ms: seq<Cluster>, es: seq<Event>, n: string, commit: string, maxRetry: int)
    requires Run(ms, es) && OneCommit(ms, es, n, commit, maxRetry)
    requires ms[0] in ms && Sound(ms[0][n]) && ms[0][n].stateLabel != LabelRunning
    ensures ms[|es|] in ms && (FailedForGood(ms[|es|][n]) ==> AttemptsLeft(ms[|es|][n], maxRetry) == 0)
  {
    if es != [] {
      OneCommitPrefix(ms, es, n, commit, maxRetry);
      var last := |es| - 1;
      var before, after := ms[..|es|], es[..last];
      assert before[0] == ms[0];
      NothingLeftWhenFailed(before, after, n, commit, maxRetry);
      RunsBetweenCommits(before, after, n, commit, maxRetry);
      EachQueueSteps(ms[last], es[last], ms[|es|], n);
      LeftWhenFailedStep(es[last], ms[last][n], ms[|es|][n], maxRetry);
    }
  }

  lemma LeftWhenFailedStep(e: Event, q: PrQueue, q': PrQueue, maxRetry: int)
    requires QueueStep(e, q, q') && Sound(q) && (e.Reconciling? ==> e.env.maxRetry == maxRetry)
    requires q'.upcomingCommit == q.upcomingCommit
    requires FailedForGood(q) ==> AttemptsLeft(q, maxRetry) == 0
    ensures FailedForGood(q') ==> AttemptsLeft(q', maxRetry) == 0
  {
    StepIsAccounted(e, q, q', maxRetry);
    if q.state == QFinished {
      FinishedIsFinal(e, q, q');
    } else if q'.state == QFinished {
      FinishedWithNewestCommit(e, q, q');
    }
  }

  /** A waiting queue that ends Finished with a failure has made all its attempts: MaxRetry + 1 of them
      when it had none behind it. */
  lemma FailureTakesAllAttempts(ms: seq<Cluster>, es: seq<Event>, n: string, commit: string, maxRetry: int)
    requires Run(ms, es) && OneCommit(ms, es, n, commit, maxRetry)
    requires ms[0] in ms && Sound(ms[0][n]) && ms[0][n].stateLabel != LabelRunning
    requires ms[|es|] in ms && FailedForGood(ms[|es|][n])
    ensures StartsOf(ms, n) == 1 + AtLeastZero(maxRetry - ms[0][n].retry)
  {
    RunsBetweenCommits(ms, es, n, commit, maxRetry);
    NothingLeftWhenFailed(ms, es, n, commit, maxRetry);
  }

  /** The line between running and waiting, for the whole life of a queue whose trigger succeeded. */
  lemma {:induction false} AlwaysSound(ms: seq<Cluster>, es: seq<Event>, n: string)
    requires Run(ms, es) && (forall m :: m in ms ==> n in m)
    requires ms[0] in ms && (IsNew(ms[0][n]) || Sound(ms[0][n])) && ms[0][n].triggerFailed == Some(false)
    ensures ms[|es|] in ms && Sound(ms[|es|][n])
  {
    if es != [] {
      var last := |es| - 1;
      assert forall i {:trigger es[..last][i]} :: 0 <= i < last ==> es[..last][i] == es[i];
      assert ms[..|es|][0] == ms[0] && ms[..|es|][last] == ms[last];
      AlwaysSound(ms[..|es|], es[..last], n);
      assert Next(ms[last], es[last], ms[|es|]);
      EachQueueSteps(ms[last], es[last], ms[|es|], n);
      StepIsAccounted(es[last], ms[last][n], ms[|es|][n], if es[last].Reconciling? then es[last].env.maxRetry else 0);
    }
  }
}
