/** Where an attempt of a queue comes from: when a queue is re-verified, and with which conditions a pass
    begins (internal/staging/util.go, internal/queue/controller.go). */
module StagingAttempts {
  import opened QueueTypes
  import opened QueueList
  import opened QueueOrdering
  import opened QueueRewriting
  import opened QueueController
  import opened Staging
  import opened StagingRuns
  import opened StagingDeploys
  import QueueCleanup

  /** What NewQueue builds: upgrades with an empty status. */
  ghost predicate NewUpgrades(es: seq<Event>) {
    forall i :: 0 <= i < |es| && es[i].Adding? ==> es[i].queue.qtype == Upgrade && es[i].queue.conditions == map[]
  }

  /** This call ends a failed attempt of queue n. */
  ghost predicate FailedAttempt(w: World, e: Event, w': World, n: string) {
    e.Handle? && w.current.Some? && w.current.value.name == n && w'.current.None? && n in w'.queues
  }

  /** The copy the attempt was made with. */
  ghost function AttemptOf(w: World, n: string): Queue
    requires w.current.Some? && (w.current.value.state == Deleting || n in w.queues)
  {
    if w.current.value.state == Deleting then w.current.value else w.queues[n]
  }

  lemma FailedAttemptEnds(now: int, w: World, e: Event, now': int, w': World, n: string)
    requires Next(now, w, e, now', w') && FailedAttempt(w, e, w', n)
    ensures n in w.queues && AfterFailure(AttemptOf(w, n), w'.queues[n], e.env.maxRetry, now)
  {
  }

  // ----- Re-verifications

  /** The type of a queue changes only at the end of a failed attempt; a queue that appears is as it came. */
  lemma TypeStep(now: int, w: World, e: Event, now': int, w': World, n: string)
    requires Next(now, w, e, now', w') && n in w'.queues && !FailedAttempt(w, e, w', n)
    ensures (n in w.queues && w'.queues[n].qtype == w.queues[n].qtype) || (e.Adding? && w'.queues[n].qtype == e.queue.qtype)
  {
    match e
    case Pick(complete) => PickKeepsFields(now, w, w', complete, n);
    case Handle(env) =>
    case Adding(queue, prios, bundles, complete) => AddedKeepsFields(now, w.queues, w'.queues, queue, prios, bundles, complete, n);
    case Removing => RemovedKeepsFields(w.queues, w'.queues, n);
    case _ =>
  }

  lemma PickKeepsFields(now: int, w: World, w': World, complete: bool, n: string)
    requires PickStep(now, w, w', complete) && n in w'.queues
    ensures n in w.queues && w'.queues[n].qtype == w.queues[n].qtype && w'.queues[n].state == w.queues[n].state
    ensures w'.queues[n].conditions == w.queues[n].conditions
  {
    assert w.current.None? ==> SameButOrder(w.queues[n], w'.queues[n]);
  }

  lemma AddedKeepsFields(now: int, m: map<string, Queue>, m': map<string, Queue>, queue: Queue, prios: seq<string>,
                         bundles: set<string>, complete: bool, n: string)
    requires AddedBy(now, m, m', queue, prios, bundles, complete) && n in m'
    ensures || (n in m && m'[n].qtype == m[n].qtype && m'[n].conditions == m[n].conditions)
            || (m'[n].qtype == queue.qtype && m'[n].conditions == queue.conditions)
  {
  }

  lemma RemovedKeepsFields(m: map<string, Queue>, m': map<string, Queue>, n: string)
    requires QueueCleanup.Thinned(m, m') && n in m'
    ensures n in m && m'[n].qtype == m[n].qtype && m'[n].conditions == m[n].conditions && m'[n].state == m[n].state
  {
    assert m'[n] == m[n] || QueueCleanup.ThinnedQueue(m[n], m'[n]);
  }

  /** Queue n is there and a re-verification from world j on up to world k. */
  ghost predicate ReverifySince(ws: seq<World>, n: string, j: nat, k: nat)
    requires k < |ws|
  {
    forall i :: j <= i <= k ==> n in ws[i].queues && ws[i].queues[n].qtype == Reverify
  }

  /** In every run from an empty namespace to which upgrades are added, a queue is a re-verification only since
      the end of a failed upgrade attempt whose counter went past MaxRetry. */
  lemma {:induction false} ReverifyHasCause(ws: seq<World>, ts: seq<int>, es: seq<Event>, n: string, k: nat) returns (j: nat)
    requires Run(ws, ts, es) && ws[0].queues == map[] && NewUpgrades(es) && k < |ws|
    requires n in ws[k].queues && ws[k].queues[n].qtype == Reverify
    ensures j < k && FailedAttempt(ws[j], es[j], ws[j + 1], n) && n in ws[j].queues
    ensures var q := AttemptOf(ws[j], n);
            q.qtype == Upgrade && q.noOfRetry + 1 > es[j].env.maxRetry && ws[j + 1].queues[n].noOfRetry == q.noOfRetry + 1
    ensures ReverifySince(ws, n, j + 1, k)
  {
    hide Next, AfterFailure;
    assert Next(ts[k - 1], ws[k - 1], es[k - 1], ts[k], ws[k]);
    if FailedAttempt(ws[k - 1], es[k - 1], ws[k], n) {
      j := k - 1;
      FailedAttemptEnds(ts[j], ws[j], es[j], ts[k], ws[k], n);
      FailureTypes(AttemptOf(ws[j], n), ws[k].queues[n], es[j].env.maxRetry, ts[j]);
    } else {
      TypeStep(ts[k - 1], ws[k - 1], es[k - 1], ts[k], ws[k], n);
      j := ReverifyHasCause(ws, ts, es, n, k - 1);
    }
  }

  lemma FailureTypes(q: Queue, q': Queue, maxRetry: int, now: int)
    requires AfterFailure(q, q', maxRetry, now) && q'.qtype == Reverify
    ensures q.qtype == Upgrade && q.noOfRetry + 1 > maxRetry && q'.noOfRetry == q.noOfRetry + 1
  {
  }

  // ----- The conditions a pass begins with

  /** A Waiting queue has DeployStarted only if it had it before, and from a running one only through an Add. */
  lemma WaitingStep(now: int, w: World, e: Event, now': int, w': World, n: string)
    requires Next(now, w, e, now', w') && n in w'.queues && w'.queues[n].state == Waiting && StartedAt(w', n)
    requires e.Adding? ==> e.queue.conditions == map[]
    ensures n in w.queues && StartedAt(w, n) && (w.queues[n].state != Waiting ==> e.Adding?)
  {
    match e
    case Pick(complete) => PickKeepsFields(now, w, w', complete, n);
    case Handle(env) => HandledWaiting(now, w, w', env, n);
    case Adding(queue, prios, bundles, complete) => AddedKeepsFields(now, w.queues, w'.queues, queue, prios, bundles, complete, n);
    case Removing => RemovedKeepsFields(w.queues, w'.queues, n);
    case _ =>
  }

  lemma HandledWaiting(now: int, w: World, w': World, env: Env, n: string)
    requires HandleStep(w, w', env) && n in w'.queues && w'.queues[n].state == Waiting && StartedAt(w', n)
    ensures n in w.queues && StartedAt(w, n) && w.queues[n].state == Waiting
  {
  }

  /** DeployStarted is true in a Waiting queue only because an Add sent the queue back while it was being
      processed. */
  lemma {:induction false} StartedWaitingHasCause(ws: seq<World>, ts: seq<int>, es: seq<Event>, n: string, k: nat)
    returns (j: nat)
    requires Run(ws, ts, es) && ws[0].queues == map[] && NewUpgrades(es) && k < |ws|
    requires n in ws[k].queues && ws[k].queues[n].state == Waiting && StartedAt(ws[k], n)
    ensures j < k && es[j].Adding? && n in ws[j].queues && ws[j].queues[n].state != Waiting && StartedAt(ws[j], n)
    ensures forall i :: j < i <= k ==> n in ws[i].queues && ws[i].queues[n].state == Waiting && StartedAt(ws[i], n)
  {
    hide Next;
    assert Next(ts[k - 1], ws[k - 1], es[k - 1], ts[k], ws[k]);
    WaitingStep(ts[k - 1], ws[k - 1], es[k - 1], ts[k], ws[k], n);
    if ws[k - 1].queues[n].state != Waiting {
      j := k - 1;
    } else {
      j := StartedWaitingHasCause(ws, ts, es, n, k - 1);
    }
  }

  /** Queue n is Waiting from world j on up to world i. */
  ghost predicate WaitsFrom(ws: seq<World>, n: string, j: nat, i: nat)
    requires i < |ws|
  {
    forall l :: j <= l <= i ==> n in ws[l].queues && ws[l].queues[n].state == Waiting
  }

  /** After a failed attempt the queue waits without DeployStarted. */
  lemma {:induction false} FailedStartsClean(ws: seq<World>, ts: seq<int>, es: seq<Event>, n: string, j: nat, i: nat)
    requires Run(ws, ts, es) && NewUpgrades(es) && j < i < |ws|
    requires FailedAttempt(ws[j], es[j], ws[j + 1], n) && WaitsFrom(ws, n, j + 1, i)
    ensures n in ws[i].queues && !StartedAt(ws[i], n)
  {
    assert Next(ts[i - 1], ws[i - 1], es[i - 1], ts[i], ws[i]);
    if i == j + 1 {
      FailedAttemptEnds(ts[j], ws[j], es[j], ts[i], ws[i], n);
    } else {
      FailedStartsClean(ws, ts, es, n, j, i - 1);
      if StartedAt(ws[i], n) {
        WaitingStep(ts[i - 1], ws[i - 1], es[i - 1], ts[i], ws[i], n);
      }
    }
  }

  /** Queue n has been processed from world i on up to world k. */
  ghost predicate RunsFrom(ws: seq<World>, n: string, i: nat, k: nat)
    requires k < |ws|
  {
    forall l :: i <= l <= k ==> n in ws[l].queues && ws[l].queues[n].state != Waiting
  }

  lemma {:induction false} BeganAt(ws: seq<World>, n: string, i: nat, k: nat)
    requires i <= k < |ws| && n in ws[i].queues && ws[i].queues[n].state == Waiting && RunsFrom(ws, n, i + 1, k)
    ensures StartedBefore(ws, n, k) <==> StartedAt(ws[i], n)
  {
    if i < k {
      BeganAt(ws, n, i, k - 1);
    }
  }

  /** In every run a retry deploys: versions that become stable on a pass that began after a failed attempt
      were deployed by a call of that pass. */
  lemma RetriedIsDeployed(ws: seq<World>, ts: seq<int>, es: seq<Event>, n: string, j: nat, i: nat, k: nat)
    requires Run(ws, ts, es) && ws[0].queues == map[] && NewUpgrades(es) && j < i <= k && k + 1 < |ws|
    requires FailedAttempt(ws[j], es[j], ws[j + 1], n) && WaitsFrom(ws, n, j + 1, i) && RunsFrom(ws, n, i + 1, k)
    requires ws[k + 1].stable != ws[k].stable && ws[k].current.Some? && ws[k].current.value.name == n
    ensures DeployedOnPass(ws, es, n, k)
  {
    hide Next;
    FailedStartsClean(ws, ts, es, n, j, i);
    BeganAt(ws, n, i, k);
    var x := StableIsDeployedIff(ws, ts, es, k);
  }
}
