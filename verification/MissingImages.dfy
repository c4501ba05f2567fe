/** The concurrent search for missing images (internal/samsahai/rpc.go, getMissingVersions): one
    goroutine per stable component and one per component of the current queue report to two
    collectors, whose results the caller joins. */
module MissingImages {

  datatype Image = Image(repository: string, tag: string)

  datatype Component = Component(name: string, repository: string, version: string)

  /** What the registry checker says about a version. */
  datatype Verdict = Exists | NotFound | TimedOut | OtherError

  /** `sources` are the components with a configured source that has a checker; `ensure` is the checker. */
  datatype Registry = Registry(sources: set<string>, ensure: (string, string, string) -> Verdict)

  /** What a goroutine sends: an image, empty when nothing is missing, or an error. */
  datatype Message = Found(image: Image) | Error

  const NO_IMAGE := Image("", "")

  function DetectMissingImage(reg: Registry, c: Component): Message {
    if c.repository == "" then Found(NO_IMAGE)
    else
      match reg.ensure(c.repository, c.name, c.version)
      case Exists => Found(NO_IMAGE)
      case NotFound => Found(Image(c.repository, c.version))
      case TimedOut => Found(Image(c.repository, c.version))
      case OtherError => Error
  }

  function CurrentMessage(reg: Registry, c: Component): Message {
    if c.name !in reg.sources then Error else DetectMissingImage(reg, c)
  }

  function StableMessage(reg: Registry, current: seq<Component>, c: Component): Message {
    if c.name !in reg.sources then Error
    else if exists q :: q in current && q.name == c.name then Found(NO_IMAGE)
    else DetectMissingImage(reg, c)
  }

  /** The registry misses this component's image. */
  predicate IsMissing(reg: Registry, c: Component) {
    && c.name in reg.sources && c.repository != ""
    && reg.ensure(c.repository, c.name, c.version) in {NotFound, TimedOut}
  }

  predicate Reports(m: Message) { m.Found? && m.image.repository != "" }

  lemma ReportsExactlyTheMissing(reg: Registry, current: seq<Component>, c: Component)
    ensures Reports(CurrentMessage(reg, c)) <==> IsMissing(reg, c)
    ensures Reports(StableMessage(reg, current, c)) <==> IsMissing(reg, c) && forall q :: q in current ==> q.name != c.name
    ensures Reports(CurrentMessage(reg, c)) ==> CurrentMessage(reg, c).image == Image(c.repository, c.version)
    ensures Reports(StableMessage(reg, current, c)) ==> StableMessage(reg, current, c).image == Image(c.repository, c.version)
  {
  }

  // ----- The sequential result

  /** The images reported by the messages selected by `got`, in order. */
  ghost function Reported(ms: seq<Message>, got: seq<bool>): seq<Image>
    requires |got| <= |ms|
  {
    if got == [] then []
    else
      var k := |got| - 1;
      Reported(ms, got[..k]) + if got[k] && Reports(ms[k]) then [ms[k].image] else []
  }

  ghost function AllReported(ms: seq<Message>): seq<Image> {
    Reported(ms, seq(|ms|, _ => true))
  }

  lemma {:induction false} ReportedUpdate(ms: seq<Message>, got: seq<bool>, i: nat)
    requires |got| <= |ms| && i < |got| && !got[i]
    ensures multiset(Reported(ms, got[i := true])) ==
            multiset(Reported(ms, got)) + if Reports(ms[i]) then multiset{ms[i].image} else multiset{}
  {
    var k := |got| - 1;
    if i < k {
      ReportedUpdate(ms, got[..k], i);
      assert got[i := true][..k] == got[..k][i := true];
    } else {
      assert got[i := true][..k] == got[..k];
    }
  }

  // ----- The concurrent collection

  /** A collector gathers one message per goroutine, then posts its list, then the caller takes it. */
  datatype Phase = Gathering | Posted | Taken

  datatype Group = Group(messages: seq<Message>, got: seq<bool>, images: seq<Image>, phase: Phase)

  datatype State = State(stable: Group, current: Group, result: seq<Image>, returned: bool, timedOut: bool)

  datatype Step = Receive(ofStable: bool, i: nat) | Post(ofStable: bool) | Take(ofStable: bool) | Timeout | Return

  function Start(messages: seq<Message>): Group {
    Group(messages, seq(|messages|, _ => false), [], Gathering)
  }

  function Init(stable: seq<Message>, current: seq<Message>): State {
    State(Start(stable), Start(current), [], false, false)
  }

  function Of(s: State, ofStable: bool): Group { if ofStable then s.stable else s.current }

  function With(s: State, ofStable: bool, g: Group): State {
    if ofStable then s.(stable := g) else s.(current := g)
  }

  ghost predicate Enabled(s: State, step: Step) {
    match step
    case Receive(which, i) =>
      var g := Of(s, which);
      g.phase == Gathering && i < |g.got| == |g.messages| && !g.got[i]
    case Post(which) =>
      var g := Of(s, which);
      g.phase == Gathering && forall i :: 0 <= i < |g.got| ==> g.got[i]
    case Take(which) => !s.returned && Of(s, which).phase == Posted
    case Timeout => !s.returned && !(s.stable.phase == Taken && s.current.phase == Taken)
    case Return => !s.returned && s.stable.phase == Taken && s.current.phase == Taken
  }

  function After(s: State, step: Step): State
    requires Enabled(s, step)
  {
    match step
    case Receive(which, i) =>
      var g := Of(s, which);
      var m := g.messages[i];
      With(s, which, g.(got := g.got[i := true],
                        images := if Reports(m) then g.images + [m.image] else g.images))
    case Post(which) => With(s, which, Of(s, which).(phase := Posted))
    case Take(which) =>
      With(s, which, Of(s, which).(phase := Taken)).(result := s.result + Of(s, which).images)
    case Timeout => s.(returned := true, timedOut := true)
    case Return => s.(returned := true)
  }

  ghost predicate GroupInv(g: Group) {
    && |g.got| == |g.messages|
    && multiset(g.images) == multiset(Reported(g.messages, g.got))
    && (g.phase != Gathering ==> forall i :: 0 <= i < |g.got| ==> g.got[i])
  }

  function TakenImages(g: Group): seq<Image> { if g.phase == Taken then g.images else [] }

  ghost predicate Inv(s: State) {
    && GroupInv(s.stable) && GroupInv(s.current)
    && multiset(s.result) == multiset(TakenImages(s.stable)) + multiset(TakenImages(s.current))
    && (s.returned && !s.timedOut ==> s.stable.phase == Taken && s.current.phase == Taken)
  }

  lemma {:induction false} NothingReported(ms: seq<Message>, got: seq<bool>)
    requires |got| <= |ms| && forall i :: 0 <= i < |got| ==> !got[i]
    ensures Reported(ms, got) == []
  {
    if got != [] {
      NothingReported(ms, got[..|got| - 1]);
    }
  }

  lemma InvInit(stable: seq<Message>, current: seq<Message>)
    ensures Inv(Init(stable, current))
  {
    NothingReported(stable, Start(stable).got);
    NothingReported(current, Start(current).got);
  }

  lemma ReceiveKeeps(g: Group, i: nat)
    requires GroupInv(g) && g.phase == Gathering && i < |g.got| && !g.got[i]
    ensures var m := g.messages[i];
            GroupInv(g.(got := g.got[i := true], images := if Reports(m) then g.images + [m.image] else g.images))
  {
    ReportedUpdate(g.messages, g.got, i);
  }

  lemma InvStep(s: State, step: Step)
    requires Inv(s) && Enabled(s, step)
    ensures Inv(After(s, step))
  {
    match step
    case Receive(which, i) => ReceiveKeeps(Of(s, which), i);
    case Post(which) =>
    case Take(which) =>
    case Timeout =>
    case Return =>
  }

  lemma MessagesKept(s: State, step: Step)
    requires Enabled(s, step)
    ensures After(s, step).stable.messages == s.stable.messages && After(s, step).current.messages == s.current.messages
  {
  }

  ghost predicate StartedWith(s: State, stable: seq<Message>, current: seq<Message>) {
    Inv(s) && s.stable.messages == stable && s.current.messages == current
  }

  lemma StartedWithStep(s: State, step: Step, stable: seq<Message>, current: seq<Message>)
    requires StartedWith(s, stable, current) && Enabled(s, step)
    ensures StartedWith(After(s, step), stable, current)
  {
    InvStep(s, step);
    MessagesKept(s, step);
  }

  ghost predicate Run(stable: seq<Message>, current: seq<Message>, ss: seq<State>, steps: seq<Step>) {
    && |ss| == |steps| + 1 && ss[0] == Init(stable, current)
    && forall k {:trigger steps[k]} :: 0 <= k < |steps| ==>
         Enabled(ss[k], steps[k]) && ss[k + 1] == After(ss[k], steps[k])
  }

  lemma {:induction false} InvAlways(stable: seq<Message>, current: seq<Message>, ss: seq<State>, steps: seq<Step>, k: nat)
    requires Run(stable, current, ss, steps) && k < |ss|
    ensures StartedWith(ss[k], stable, current)
  {
    if k == 0 {
      InvInit(stable, current);
    } else {
      InvAlways(stable, current, ss, steps, k - 1);
      StartedWithStep(ss[k - 1], steps[k - 1], stable, current);
    }
  }

  /** For every interleaving that returns without a timeout, the result is a permutation of the images
      reported one after the other. */
  lemma CollectsSequentialResult(stable: seq<Message>, current: seq<Message>, ss: seq<State>, steps: seq<Step>)
    requires Run(stable, current, ss, steps) && ss[|ss| - 1].returned && !ss[|ss| - 1].timedOut
    ensures multiset(ss[|ss| - 1].result) == multiset(AllReported(stable) + AllReported(current))
  {
    var s := ss[|ss| - 1];
    InvAlways(stable, current, ss, steps, |ss| - 1);
    assert s.stable.got == seq(|stable|, _ => true);
    assert s.current.got == seq(|current|, _ => true);
  }

  // ----- What that result is

  /** The components whose images the call has to report, in order. */
  ghost function MissingComponents(reg: Registry, cs: seq<Component>, skip: seq<Component>): seq<Image> {
    if cs == [] then []
    else
      var k := |cs| - 1;
      MissingComponents(reg, cs[..k], skip) +
      if IsMissing(reg, cs[k]) && (forall q :: q in skip ==> q.name != cs[k].name)
      then [Image(cs[k].repository, cs[k].version)] else []
  }

  lemma {:induction false} ReportedIsMissing(reg: Registry, cs: seq<Component>, skip: seq<Component>, ms: seq<Message>,
                                             n: nat)
    requires n <= |cs| == |ms|
    requires forall i :: 0 <= i < |cs| ==>
               && (Reports(ms[i]) <==> IsMissing(reg, cs[i]) && forall q :: q in skip ==> q.name != cs[i].name)
               && (Reports(ms[i]) ==> ms[i].image == Image(cs[i].repository, cs[i].version))
    ensures Reported(ms, seq(n, _ => true)) == MissingComponents(reg, cs[..n], skip)
  {
    if n > 0 {
      ReportedIsMissing(reg, cs, skip, ms, n - 1);
      assert seq(n, _ => true)[..n - 1] == seq(n - 1, _ => true);
      assert cs[..n][..n - 1] == cs[..n - 1];
    }
  }

  /** The call reports the missing image of every stable component outside the current queue and of every
      current component, each exactly once, and nothing else. */
  lemma ReportsAllMissingOnce(reg: Registry, stable: seq<Component>, current: seq<Component>, ss: seq<State>, steps: seq<Step>)
    requires var sm := seq(|stable|, i requires 0 <= i < |stable| => StableMessage(reg, current, stable[i]));
             var cm := seq(|current|, i requires 0 <= i < |current| => CurrentMessage(reg, current[i]));
             Run(sm, cm, ss, steps)
    requires ss[|ss| - 1].returned && !ss[|ss| - 1].timedOut
    ensures multiset(ss[|ss| - 1].result) ==
            multiset(MissingComponents(reg, stable, current)) + multiset(MissingComponents(reg, current, []))
  {
    var sm := seq(|stable|, i requires 0 <= i < |stable| => StableMessage(reg, current, stable[i]));
    var cm := seq(|current|, i requires 0 <= i < |current| => CurrentMessage(reg, current[i]));
    CollectsSequentialResult(sm, cm, ss, steps);
    StableReported(reg, stable, current, sm);
    CurrentReported(reg, current, cm);
  }

  lemma StableReported(reg: Registry, stable: seq<Component>, current: seq<Component>, sm: seq<Message>)
    requires |sm| == |stable| && forall i :: 0 <= i < |stable| ==> sm[i] == StableMessage(reg, current, stable[i])
    ensures AllReported(sm) == MissingComponents(reg, stable, current)
  {
    forall i | 0 <= i < |stable|
      ensures Reports(sm[i]) <==> IsMissing(reg, stable[i]) && forall q :: q in current ==> q.name != stable[i].name
      ensures Reports(sm[i]) ==> sm[i].image == Image(stable[i].repository, stable[i].version)
    {
      ReportsExactlyTheMissing(reg, current, stable[i]);
    }
    ReportedIsMissing(reg, stable, current, sm, |stable|);
    assert stable[..|stable|] == stable;
  }

  lemma CurrentReported(reg: Registry, current: seq<Component>, cm: seq<Message>)
    requires |cm| == |current| && forall i :: 0 <= i < |current| ==> cm[i] == CurrentMessage(reg, current[i])
    ensures AllReported(cm) == MissingComponents(reg, current, [])
  {
    forall i | 0 <= i < |current|
      ensures Reports(cm[i]) <==> IsMissing(reg, current[i])
      ensures Reports(cm[i]) ==> cm[i].image == Image(current[i].repository, current[i].version)
    {
      ReportsExactlyTheMissing(reg, current, current[i]);
    }
    ReportedIsMissing(reg, current, [], cm, |current|);
    assert current[..|current|] == current;
  }
}
