/** The version lookup of a pull request trigger (internal/pullrequest/trigger/controller.go,
    getPRQueueComponentsIfImageExisted): one goroutine per component source sends first its version
    or its error and then its source over unbuffered channels to a collecting loop. */
module TriggerFanIn {

  datatype Source = Source(componentName: string, repository: string, tag: string)

  /** What GetComponentVersion answers for a source. */
  datatype Lookup = Found(version: string) | Failed

  datatype Component = Component(name: string, repository: string, version: string)

  datatype Image = Image(repository: string, tag: string)

  /** Looking up; about to send version or error; about to send the source; finished. */
  datatype Worker = Looking | Answering | Naming | Done

  /** The collecting loop: in its select with `received` rounds done, or waiting for the source that
      belongs to the answer it has just received, or back at the caller. */
  datatype Loop =
    | Selecting(received: nat)
    | Awaiting(received: nat, answer: Lookup)
    | Returned(timedOut: bool)

  datatype State = State(workers: seq<Worker>, loop: Loop, found: seq<Component>, failed: bool, missing: seq<Image>)

  datatype Job = Job(sources: seq<Source>, lookups: seq<Lookup>)

  ghost predicate ValidJob(job: Job) { |job.sources| == |job.lookups| }

  datatype Step = Answer(i: nat) | SendAnswer(i: nat) | SendSource(i: nat) | Timeout | Return

  function Init(job: Job): State {
    State(seq(|job.sources|, _ => Looking), Selecting(0), [], false, [])
  }

  /** A send and the matching receive happen together: the channels have no buffer. */
  ghost predicate Enabled(job: Job, s: State, step: Step)
    requires ValidJob(job)
  {
    match step
    case Answer(i) => i < |s.workers| && s.workers[i] == Looking
    case SendAnswer(i) =>
      && i < |s.workers| == |job.sources| && s.workers[i] == Answering
      && s.loop.Selecting? && s.loop.received < |job.sources|
    case SendSource(i) => i < |s.workers| == |job.sources| && s.workers[i] == Naming && s.loop.Awaiting?
    case Timeout => s.loop.Selecting? && s.loop.received < |job.sources|
    case Return => s.loop == Selecting(|job.sources|)
  }

  function After(job: Job, s: State, step: Step): State
    requires ValidJob(job) && Enabled(job, s, step)
  {
    match step
    case Answer(i) => s.(workers := s.workers[i := Answering])
    case SendAnswer(i) => s.(workers := s.workers[i := Naming], loop := Awaiting(s.loop.received, job.lookups[i]))
    case SendSource(i) =>
      var src := job.sources[i];
      var s' := s.(workers := s.workers[i := Done], loop := Selecting(s.loop.received + 1));
      (match s.loop.answer
       case Found(version) => s'.(found := s.found + [Component(src.componentName, src.repository, version)])
       case Failed => s'.(failed := true, missing := [Image(src.repository, src.tag)]))
    case Timeout => s.(loop := Returned(true))
    case Return => s.(loop := Returned(false))
  }

  // ----- The sequential result

  /** Looking up the sources one after the other, keeping those selected by `done`. */
  ghost function Collected(job: Job, done: seq<bool>): seq<Component>
    requires ValidJob(job) && |done| <= |job.sources|
  {
    if done == [] then []
    else
      var k := |done| - 1;
      Collected(job, done[..k]) +
      if done[k] && job.lookups[k].Found? then
        [Component(job.sources[k].componentName, job.sources[k].repository, job.lookups[k].version)]
      else []
  }

  ghost function Sequential(job: Job): seq<Component>
    requires ValidJob(job)
  {
    Collected(job, seq(|job.sources|, _ => true))
  }

  ghost function DoneFlags(s: State): seq<bool> {
    seq(|s.workers|, i requires 0 <= i < |s.workers| => s.workers[i] == Done)
  }

  function CountDone(ws: seq<Worker>): nat {
    if ws == [] then 0 else CountDone(ws[..|ws| - 1]) + if ws[|ws| - 1] == Done then 1 else 0
  }

  lemma {:induction false} CountDoneBounds(ws: seq<Worker>)
    ensures CountDone(ws) <= |ws|
    ensures CountDone(ws) == |ws| <==> forall i :: 0 <= i < |ws| ==> ws[i] == Done
  {
    if ws != [] {
      CountDoneBounds(ws[..|ws| - 1]);
    }
  }

  lemma {:induction false} CountDoneUpdate(ws: seq<Worker>, i: nat, w: Worker)
    requires i < |ws| && ws[i] != Done
    ensures CountDone(ws[i := w]) == CountDone(ws) + if w == Done then 1 else 0
  {
    var k := |ws| - 1;
    if i < k {
      CountDoneUpdate(ws[..k], i, w);
      assert ws[i := w][..k] == ws[..k][i := w];
    } else {
      assert ws[i := w][..k] == ws[..k];
    }
  }

  lemma {:induction false} CollectedUpdate(job: Job, done: seq<bool>, i: nat)
    requires ValidJob(job) && |done| <= |job.sources| && i < |done| && !done[i]
    ensures multiset(Collected(job, done[i := true])) ==
            multiset(Collected(job, done)) +
            if job.lookups[i].Found? then
              multiset{Component(job.sources[i].componentName, job.sources[i].repository, job.lookups[i].version)}
            else multiset{}
  {
    var k := |done| - 1;
    if i < k {
      CollectedUpdate(job, done[..k], i);
      assert done[i := true][..k] == done[..k][i := true];
    } else {
      assert done[i := true][..k] == done[..k];
    }
  }

  // ----- What holds between any two steps

  /** At most one worker is between its two sends, exactly while the loop awaits a source, and the
      answer the loop holds is that worker's. */
  ghost predicate Paired(job: Job, s: State)
    requires ValidJob(job)
  {
    && |s.workers| == |job.sources|
    && match s.loop
       case Selecting(r) => r == CountDone(s.workers) && forall i :: 0 <= i < |s.workers| ==> s.workers[i] != Naming
       case Awaiting(r, answer) =>
         && r == CountDone(s.workers)
         && (exists i :: 0 <= i < |s.workers| && s.workers[i] == Naming)
         && (forall i, j :: 0 <= i < |s.workers| && 0 <= j < |s.workers| && s.workers[i] == Naming && s.workers[j] == Naming
               ==> i == j)
         && (forall i :: 0 <= i < |s.workers| && s.workers[i] == Naming ==> job.lookups[i] == answer)
       case Returned(timedOut) => timedOut || forall i :: 0 <= i < |s.workers| ==> s.workers[i] == Done
  }

  /** The collected components are those of the finished workers, in whatever order they finished. */
  ghost predicate Accounted(job: Job, s: State)
    requires ValidJob(job)
  {
    && |s.workers| == |job.sources|
    && multiset(s.found) == multiset(Collected(job, DoneFlags(s)))
    && (s.failed <==> exists i :: 0 <= i < |s.workers| && s.workers[i] == Done && job.lookups[i].Failed?)
    && (!s.failed ==> s.missing == [])
    && (s.failed ==> exists i :: 0 <= i < |s.workers| && s.workers[i] == Done && job.lookups[i].Failed?
                                 && s.missing == [Image(job.sources[i].repository, job.sources[i].tag)])
  }

  ghost predicate Inv(job: Job, s: State)
    requires ValidJob(job)
  {
    Paired(job, s) && Accounted(job, s)
  }

  lemma {:induction false} NothingCollected(job: Job, done: seq<bool>)
    requires ValidJob(job) && |done| <= |job.sources| && forall i :: 0 <= i < |done| ==> !done[i]
    ensures Collected(job, done) == []
  {
    if done != [] {
      NothingCollected(job, done[..|done| - 1]);
    }
  }

  lemma {:induction false} NothingDone(ws: seq<Worker>)
    requires forall i :: 0 <= i < |ws| ==> ws[i] != Done
    ensures CountDone(ws) == 0
  {
    if ws != [] {
      NothingDone(ws[..|ws| - 1]);
    }
  }

  lemma InvInit(job: Job)
    requires ValidJob(job)
    ensures Inv(job, Init(job))
  {
    NothingDone(Init(job).workers);
    NothingCollected(job, DoneFlags(Init(job)));
  }

  lemma InvStep(job: Job, s: State, step: Step)
    requires ValidJob(job) && Inv(job, s) && Enabled(job, s, step)
    ensures Inv(job, After(job, s, step))
  {
    PairedStep(job, s, step);
    AccountedStep(job, s, step);
  }

  lemma PairedStep(job: Job, s: State, step: Step)
    requires ValidJob(job) && Paired(job, s) && Enabled(job, s, step)
    ensures Paired(job, After(job, s, step))
  {
    match step
    case Answer(i) => CountDoneUpdate(s.workers, i, Answering);
    case SendAnswer(i) => PairedSendAnswer(job, s, i);
    case SendSource(i) => PairedSendSource(job, s, i);
    case Timeout =>
    case Return => CountDoneBounds(s.workers);
  }

  lemma PairedSendAnswer(job: Job, s: State, i: nat)
    requires ValidJob(job) && Paired(job, s) && Enabled(job, s, SendAnswer(i))
    ensures Paired(job, After(job, s, SendAnswer(i)))
  {
    CountDoneUpdate(s.workers, i, Naming);
    assert After(job, s, SendAnswer(i)).workers[i] == Naming;
  }

  lemma PairedSendSource(job: Job, s: State, i: nat)
    requires ValidJob(job) && Paired(job, s) && Enabled(job, s, SendSource(i))
    ensures Paired(job, After(job, s, SendSource(i)))
  {
    CountDoneUpdate(s.workers, i, Done);
  }

  lemma AccountedStep(job: Job, s: State, step: Step)
    requires ValidJob(job) && Inv(job, s) && Enabled(job, s, step)
    ensures Accounted(job, After(job, s, step))
  {
    var s' := After(job, s, step);
    if step.SendSource? {
      NamingAccounted(job, s, step.i);
    } else {
      AccountedSame(job, s, s');
    }
  }

  lemma AccountedSame(job: Job, s: State, s': State)
    requires ValidJob(job) && Accounted(job, s) && |s'.workers| == |s.workers|
    requires forall i :: 0 <= i < |s.workers| ==> (s'.workers[i] == Done <==> s.workers[i] == Done)
    requires s'.found == s.found && s'.failed == s.failed && s'.missing == s.missing
    ensures Accounted(job, s')
  {
    assert DoneFlags(s') == DoneFlags(s);
  }

  lemma NamingAccounted(job: Job, s: State, i: nat)
    requires ValidJob(job) && Inv(job, s) && Enabled(job, s, SendSource(i))
    ensures Accounted(job, After(job, s, SendSource(i)))
  {
    var s' := After(job, s, SendSource(i));
    assert job.lookups[i] == s.loop.answer;
    FoundAccounted(job, s, s', i);
    ErrorsAccounted(job, s, s', i);
  }

  lemma FoundAccounted(job: Job, s: State, s': State, i: nat)
    requires ValidJob(job) && |s.workers| == |job.sources| && i < |s.workers| && s.workers[i] != Done
    requires multiset(s.found) == multiset(Collected(job, DoneFlags(s)))
    requires s'.workers == s.workers[i := Done]
    requires s'.found == if job.lookups[i].Found? then
                           s.found + [Component(job.sources[i].componentName, job.sources[i].repository, job.lookups[i].version)]
                         else s.found
    ensures multiset(s'.found) == multiset(Collected(job, DoneFlags(s')))
  {
    CollectedUpdate(job, DoneFlags(s), i);
    assert DoneFlags(s') == DoneFlags(s)[i := true];
  }

  lemma ErrorsAccounted(job: Job, s: State, s': State, i: nat)
    requires ValidJob(job) && Accounted(job, s) && i < |s.workers| && s.workers[i] != Done
    requires s'.workers == s.workers[i := Done] && multiset(s'.found) == multiset(Collected(job, DoneFlags(s')))
    requires if job.lookups[i].Found? then s'.failed == s.failed && s'.missing == s.missing
             else s'.failed && s'.missing == [Image(job.sources[i].repository, job.sources[i].tag)]
    ensures Accounted(job, s')
  {
    assert s'.workers[i] == Done;
    if s.failed && job.lookups[i].Found? {
      var j :| 0 <= j < |s.workers| && s.workers[j] == Done && job.lookups[j].Failed?
               && s.missing == [Image(job.sources[j].repository, job.sources[j].tag)];
      assert s'.workers[j] == Done;
    }
    if !s.failed && job.lookups[i].Found? {
      forall j | 0 <= j < |s'.workers| && s'.workers[j] == Done ensures !job.lookups[j].Failed? {
        assert j == i || s.workers[j] == Done;
      }
    }
  }

  // ----- Runs

  ghost predicate Run(job: Job, ss: seq<State>, steps: seq<Step>)
    requires ValidJob(job)
  {
    && |ss| == |steps| + 1 && ss[0] == Init(job)
    && forall k {:trigger steps[k]} :: 0 <= k < |steps| ==>
         Enabled(job, ss[k], steps[k]) && ss[k + 1] == After(job, ss[k], steps[k])
  }

  lemma {:induction false} InvAlways(job: Job, ss: seq<State>, steps: seq<Step>, k: nat)
    requires ValidJob(job) && Run(job, ss, steps) && k < |ss|
    ensures Inv(job, ss[k])
  {
    if k == 0 {
      InvInit(job);
    } else {
      InvAlways(job, ss, steps, k - 1);
      InvStep(job, ss[k - 1], steps[k - 1]);
    }
  }

  /** For every interleaving that returns without a timeout: the components are a permutation of the
      sequential lookup, each version beside the source that produced it, and the call fails exactly
      when some lookup failed. */
  lemma CollectsSequentialResult(job: Job, ss: seq<State>, steps: seq<Step>)
    requires ValidJob(job) && Run(job, ss, steps) && ss[|ss| - 1].loop == Returned(false)
    ensures var s := ss[|ss| - 1];
            && multiset(s.found) == multiset(Sequential(job))
            && (s.failed <==> exists i :: 0 <= i < |job.lookups| && job.lookups[i].Failed?)
  {
    var s := ss[|ss| - 1];
    InvAlways(job, ss, steps, |ss| - 1);
    assert DoneFlags(s) == seq(|job.sources|, _ => true);
  }

  /** The list of missing images is started anew on every error, so it names one image only: it lists
      every failed source exactly when no two failed sources differ in their image. */
  lemma MissingListIsComplete(job: Job, ss: seq<State>, steps: seq<Step>)
    requires ValidJob(job) && Run(job, ss, steps) && ss[|ss| - 1].loop == Returned(false)
    ensures (forall i :: 0 <= i < |job.lookups| && job.lookups[i].Failed? ==>
               Image(job.sources[i].repository, job.sources[i].tag) in ss[|ss| - 1].missing)
            <==>
            (forall i, j :: 0 <= i < |job.lookups| && 0 <= j < |job.lookups| && job.lookups[i].Failed? && job.lookups[j].Failed?
               ==> Image(job.sources[i].repository, job.sources[i].tag) == Image(job.sources[j].repository, job.sources[j].tag))
  {
    InvAlways(job, ss, steps, |ss| - 1);
  }

  // ----- Every run comes to an end

  function Left(w: Worker): nat {
    match w case Looking => 3 case Answering => 2 case Naming => 1 case Done => 0
  }

  function AllLeft(ws: seq<Worker>): nat {
    if ws == [] then 0 else AllLeft(ws[..|ws| - 1]) + Left(ws[|ws| - 1])
  }

  function Measure(s: State): nat {
    AllLeft(s.workers) + if s.loop.Returned? then 0 else 1
  }

  lemma {:induction false} AllLeftUpdate(ws: seq<Worker>, i: nat, w: Worker)
    requires i < |ws|
    ensures AllLeft(ws[i := w]) == AllLeft(ws) - Left(ws[i]) + Left(w)
  {
    var k := |ws| - 1;
    if i < k {
      AllLeftUpdate(ws[..k], i, w);
      assert ws[i := w][..k] == ws[..k][i := w];
    } else {
      assert ws[i := w][..k] == ws[..k];
    }
  }

  lemma EveryStepLeavesLess(job: Job, s: State, step: Step)
    requires ValidJob(job) && Enabled(job, s, step)
    ensures Measure(After(job, s, step)) < Measure(s)
  {
    match step
    case Answer(i) => AllLeftUpdate(s.workers, i, Answering);
    case SendAnswer(i) => AllLeftUpdate(s.workers, i, Naming);
    case SendSource(i) => AllLeftUpdate(s.workers, i, Done);
    case Timeout =>
    case Return =>
  }

  /** No deadlock: until the loop has returned, a step other than the timeout is always possible. */
  lemma AlwaysAStep(job: Job, s: State) returns (step: Step)
    requires ValidJob(job) && Inv(job, s) && !s.loop.Returned?
    ensures Enabled(job, s, step) && !step.Timeout?
  {
    CountDoneBounds(s.workers);
    match s.loop
    case Selecting(r) =>
      if r == |job.sources| {
        step := Return;
      } else {
        var i :| 0 <= i < |s.workers| && s.workers[i] != Done;
        step := if s.workers[i] == Looking then Answer(i) else SendAnswer(i);
      }
    case Awaiting(r, answer) =>
      var i :| 0 <= i < |s.workers| && s.workers[i] == Naming;
      step := SendSource(i);
  }
}
