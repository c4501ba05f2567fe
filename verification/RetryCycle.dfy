/** The attempts of a queue that keeps failing (internal/staging/util.go, deleteQueue). */
module RetryCycle {
  import opened QueueTypes
  import opened QueueOrdering
  import opened QueueRewriting
  import opened QueueController
  import opened Staging
  import opened StagingRuns
  import QueueRuns

  lemma {:induction false} TurnStep(i: nat, n: nat)
    requires n > 1
    ensures QueueRuns.Turn(i + 1, n) == if QueueRuns.Turn(i, n) == n - 1 then 0 else QueueRuns.Turn(i, n) + 1
  {
    if i >= n {
      TurnStep(i - n, n);
    }
  }

  /** maxRetry + 1 upgrade attempts with counters 0, 1, ..., maxRetry, then one re-verification with
      counter maxRetry + 1, and again from the start. */
  ghost predicate AsPlanned(q: Queue, i: nat, maxRetry: nat) {
    var r := QueueRuns.Turn(i, maxRetry + 2);
    if r <= maxRetry then q.qtype == Upgrade && q.noOfRetry == r
    else q.qtype == Reverify && q.noOfRetry == maxRetry + 1
  }

  /** What a failed attempt i leaves behind is what attempt i + 1 starts with; after the re-verification,
      and only then, the queue is postponed by a day. */
  lemma NextAsPlanned(q: Queue, q': Queue, i: nat, maxRetry: nat, now: int)
    requires AsPlanned(q, i, maxRetry) && AfterFailure(q, q', maxRetry, now)
    ensures AsPlanned(q', i + 1, maxRetry)
    ensures QueueRuns.Turn(i, maxRetry + 2) == maxRetry + 1 ==> q'.nextProcessAt == Some(now + DAY)
    ensures QueueRuns.Turn(i, maxRetry + 2) < maxRetry ==> q'.nextProcessAt == Some(now)
    ensures QueueRuns.Turn(i, maxRetry + 2) == maxRetry ==> q'.nextProcessAt == q.nextProcessAt
  {
    TurnStep(i, maxRetry + 2);
  }

  // ----- Along a run

  /** The call ends an attempt of queue n. */
  ghost predicate Ends(w: World, e: Event, w': World, n: string) {
    e.Handle? && w.current.Some? && w.current.value.name == n && w'.current.None?
  }

  /** Queue n is held and has reached Deleting. */
  ghost predicate Deleted(w: World, n: string) {
    && w.current.Some? && w.current.value.name == n && n in w.queues
    && (w.current.value.state == Deleting || w.queues[n].state == Deleting)
  }

  /** Queue n is there before and after; nobody but process touches its type, counter or state; the calls
      that end an attempt succeed. */
  ghost predicate Undisturbed(w: World, e: Event, w': World, n: string, maxRetry: int) {
    && n in w.queues && n in w'.queues
    && (e.Adding? || e.Removing? || e.UserDelete? ==>
          SameCounter(w.queues[n], w'.queues[n]) && w'.queues[n].state == w.queues[n].state)
    && (e.Handle? ==> e.env.maxRetry == maxRetry)
    && (e.Handle? && Deleted(w, n) ==> w'.current.None?)
  }

  /** The attempts of n that have ended up to world k. */
  ghost function Attempts(ws: seq<World>, es: seq<Event>, n: string, k: nat): nat
    requires k < |ws| && k <= |es|
  {
    if k == 0 then 0
    else Attempts(ws, es, n, k - 1) + if Ends(ws[k - 1], es[k - 1], ws[k], n) then 1 else 0
  }

  ghost predicate UndisturbedRun(ws: seq<World>, es: seq<Event>, n: string, maxRetry: int) {
    && |ws| == |es| + 1 && n in ws[0].queues
    && forall i {:trigger es[i]} :: 0 <= i < |es| ==> Undisturbed(ws[i], es[i], ws[i + 1], n, maxRetry)
  }

  /** The object, and the copy in memory while n is held, are as planned for attempt i. */
  ghost predicate OnPlan(w: World, n: string, i: nat, maxRetry: nat) {
    && n in w.queues && w.queues[n].name == n && AsPlanned(w.queues[n], i, maxRetry)
    && (w.current.Some? && w.current.value.name == n ==> SameCounter(w.queues[n], w.current.value))
  }

  lemma SameCounterAsPlanned(q: Queue, q': Queue, i: nat, maxRetry: nat)
    requires AsPlanned(q, i, maxRetry) && SameCounter(q, q')
    ensures AsPlanned(q', i, maxRetry)
  {
  }

  lemma PickStaysOnPlan(now: int, w: World, w': World, complete: bool, n: string, i: nat, maxRetry: nat)
    requires OnPlan(w, n, i, maxRetry) && PickStep(now, w, w', complete) && n in w'.queues
    ensures OnPlan(w', n, i, maxRetry)
  {
    if w.current.None? {
      assert SameButOrder(w.queues[n], w'.queues[n]);
    }
  }

  lemma HandleStaysOnPlan(now: int, w: World, e: Event, w': World, n: string, i: nat, maxRetry: nat)
    requires OnPlan(w, n, i, maxRetry) && e.Handle? && HandleStep(w, w', e.env) && e.env.now == now
    requires Undisturbed(w, e, w', n, maxRetry)
    ensures OnPlan(w', n, if Ends(w, e, w', n) then i + 1 else i, maxRetry)
  {
    if w.current.value.name == n {
      if w'.current.None? {
        var q := if w.current.value.state == Deleting then w.current.value else w.queues[n];
        SameCounterAsPlanned(w.queues[n], q, i, maxRetry);
        NextAsPlanned(q, w'.queues[n], i, maxRetry, now);
      } else {
        assert SameCounter(w.queues[n], w'.queues[n]);
      }
    }
  }

  lemma StaysOnPlan(now: int, w: World, e: Event, now': int, w': World, n: string, i: nat, maxRetry: nat)
    requires OnPlan(w, n, i, maxRetry) && Next(now, w, e, now', w') && Undisturbed(w, e, w', n, maxRetry)
    ensures OnPlan(w', n, if Ends(w, e, w', n) then i + 1 else i, maxRetry)
  {
    match e
    case Pick(complete) => PickStaysOnPlan(now, w, w', complete, n, i, maxRetry);
    case Handle(_) => HandleStaysOnPlan(now, w, e, w', n, i, maxRetry);
    case _ =>
  }

  /** Along every run that leaves a failing queue to process, after i ended attempts the queue is at place i
      of its cycle: maxRetry + 1 upgrades, one re-verification, and again. */
  lemma {:induction false} AttemptsCycle(ws: seq<World>, ts: seq<int>, es: seq<Event>, n: string, k: nat, maxRetry: nat)
    requires Run(ws, ts, es) && UndisturbedRun(ws, es, n, maxRetry) && k < |ws|
    requires OnPlan(ws[0], n, 0, maxRetry)
    ensures OnPlan(ws[k], n, Attempts(ws, es, n, k), maxRetry)
  {
    hide Next, OnPlan, Undisturbed, Ends;
    if k > 0 {
      AttemptsCycle(ws, ts, es, n, k - 1, maxRetry);
      assert Undisturbed(ws[k - 1], es[k - 1], ws[k], n, maxRetry);
      assert Next(ts[k - 1], ws[k - 1], es[k - 1], ts[k], ws[k]);
      StaysOnPlan(ts[k - 1], ws[k - 1], es[k - 1], ts[k], ws[k], n, Attempts(ws, es, n, k - 1), maxRetry);
    }
  }

  /** The type says where the counter is: no more than maxRetry while upgrading, maxRetry + 1 while
      re-verifying. */
  lemma CounterBounds(ws: seq<World>, ts: seq<int>, es: seq<Event>, n: string, k: nat, maxRetry: nat)
    requires Run(ws, ts, es) && UndisturbedRun(ws, es, n, maxRetry) && k < |ws|
    requires OnPlan(ws[0], n, 0, maxRetry)
    ensures n in ws[k].queues
    ensures ws[k].queues[n].qtype == Upgrade ==> 0 <= ws[k].queues[n].noOfRetry <= maxRetry
    ensures ws[k].queues[n].qtype == Reverify ==> ws[k].queues[n].noOfRetry == maxRetry + 1
  {
    AttemptsCycle(ws, ts, es, n, k, maxRetry);
  }

  /** The call that ends the re-verification sends the queue back to upgrading, with no retries behind
      it, a day from now. */
  lemma PostponedAfterReverify(ws: seq<World>, ts: seq<int>, es: seq<Event>, n: string, k: nat, maxRetry: nat)
    requires Run(ws, ts, es) && UndisturbedRun(ws, es, n, maxRetry) && k < |es|
    requires OnPlan(ws[0], n, 0, maxRetry) && Ends(ws[k], es[k], ws[k + 1], n)
    requires n in ws[k].queues && ws[k].queues[n].qtype == Reverify
    ensures n in ws[k + 1].queues
    ensures var q := ws[k + 1].queues[n];
            q.qtype == Upgrade && q.noOfRetry == 0 && q.nextProcessAt == Some(ts[k] + 24 * 60 * 60) && q.state == Waiting
  {
    AttemptsCycle(ws, ts, es, n, k, maxRetry);
    assert Next(ts[k], ws[k], es[k], ts[k + 1], ws[k + 1]);
    assert Undisturbed(ws[k], es[k], ws[k + 1], n, maxRetry);
  }
}
