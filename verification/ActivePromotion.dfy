/** The failure path of an active promotion (internal/samsahai/activepromotion, internal/samsahai/controller.go). */
module ActivePromotion {
  import opened QueueTypes

  datatype State = New | AtpWaiting | CreatingPreActive | DeployingComponents | TestingPreActive | CollectingPreActiveResult
                 | Demoting | PromotingActive | DestroyingPreviousActive | DestroyingPreActive | Rollback | AtpFinished

  datatype Result = Undecided | Success | Failure | Canceled

  /** verified is the Verified condition, target is Status.TargetNamespace. */
  datatype Promotion = Promotion(state: State, result: Result, verified: Option<bool>, isTimeout: bool, target: string,
                                 noDowntime: bool, finalizer: bool, deleting: bool)

  datatype Team = Team(staging: string, active: string, preActive: string, previousActive: string)

  /** The namespaces of the cluster, each with whether it is being terminated. */
  type Namespaces = map<string, bool>

  datatype World = World(atp: Promotion, team: Team, namespaces: Namespaces)

  predicate CannotBeTimeoutOrCancel(s: State) {
    s == AtpWaiting || s == DestroyingPreviousActive || s == DestroyingPreActive || s == AtpFinished || s == Rollback
  }

  predicate ToRollback(a: Promotion) { a.verified == Some(true) }

  /** The states this model follows: from the deployment of the pre-active environment to its removal. */
  predicate Followed(s: State) {
    s == DeployingComponents || s == TestingPreActive || s == CollectingPreActiveResult || s == DestroyingPreActive
  }

  predicate Cancelled(a: Promotion) {
    a.deleting && a.finalizer && a.result != Canceled && !CannotBeTimeoutOrCancel(a.state)
  }

  function AfterCancel(a: Promotion): Promotion {
    if ToRollback(a) then a.(result := Canceled, state := Rollback)
    else a.(result := Canceled, verified := Some(false), state := CollectingPreActiveResult)
  }

  predicate TimedOut(a: Promotion, late: bool) { late && !a.isTimeout && !CannotBeTimeoutOrCancel(a.state) }

  function AfterTimeout(a: Promotion): Promotion {
    if ToRollback(a) then a.(isTimeout := true, result := Failure, state := Rollback)
    else a.(isTimeout := true, result := Failure, verified := Some(false), state := CollectingPreActiveResult)
  }

  /** What the queue in the pre-active namespace says about a stage. */
  datatype Answer = Pending | Passed | Failed

  /** late: the promotion timeout is over; collectable: the pre-active queue can be read and, unless the
      promotion is cancelled or timed out, has finished; */
  datatype Env = Env(late: bool, deployed: Answer, tested: Answer, collectable: bool, imageMissing: bool)

  /** What one reconcile may save of the promotion, cancel and timeout aside. */
  predicate Advanced(env: Env, a: Promotion, a': Promotion) {
    match a.state
    case DeployingComponents =>
      || (env.deployed == Passed && a' == a.(state := TestingPreActive))
      || (env.deployed == Failed && a' == a.(result := Failure, verified := Some(true), state := CollectingPreActiveResult))
    case TestingPreActive =>
      || (env.tested == Passed && a' == a.(verified := Some(true), state := CollectingPreActiveResult))
      || (env.tested == Failed && a' == a.(result := Failure, verified := Some(true), state := CollectingPreActiveResult))
    case CollectingPreActiveResult =>
      env.collectable && a' == a.(verified := if env.imageMissing then Some(true) else a.verified, state :=
        if a.result == Failure || a.result == Canceled then DestroyingPreActive
        else if a.noDowntime then PromotingActive else Demoting)
    case DestroyingPreActive => a' == a.(state := AtpFinished)
    case _ => false
  }

  /** The namespace getTargetNamespace may answer with: the team decides when none is recorded. */
  predicate MayTarget(w: World, ns: string) {
    if w.atp.target == "" then ns == w.team.preActive || ns == "" else ns == w.atp.target
  }

  /** The removal of the pre-active environment, a saved Finished state included. */
  ghost predicate Destroyed(env: Env, w: World, w': World, ns: string) {
    && (w'.team == w.team || ((ns !in w.namespaces || ns == "") && w'.team == w.team.(preActive := "")))
    && (w'.namespaces == w.namespaces || (ns in w.namespaces && w'.namespaces == w.namespaces[ns := true]))
    && (w'.atp == w.atp || (Advanced(env, w.atp, w'.atp) && ns !in w'.namespaces))
  }

  ghost predicate ReconcileStep(w: World, w': World, env: Env) {
    || w' == w
    || (Cancelled(w.atp) && w' == w.(atp := AfterCancel(w.atp)))
    || (!Cancelled(w.atp) && TimedOut(w.atp, env.late) && w' == w.(atp := AfterTimeout(w.atp)))
    || (!Cancelled(w.atp) && !TimedOut(w.atp, env.late) && w.atp.state != DestroyingPreActive
        && w' == w.(atp := w'.atp) && Advanced(env, w.atp, w'.atp))
    || (w.atp.state == DestroyingPreActive && exists ns :: MayTarget(w, ns) && Destroyed(env, w, w', ns))
  }

  /** The namespace to remove, when the team can be read. */
  function Target(w: World): string { if w.atp.target == "" then w.team.preActive else w.atp.target }

  /** The pre-active environment is rolled back if the verification was over, or the result is collected. */
  predicate GivenUp(a: Promotion, a': Promotion) {
    if a.verified == Some(true) then a'.state == Rollback
    else a'.state == CollectingPreActiveResult && a'.verified == Some(false)
  }

  /** What a reconcile comes to when no call fails: a cancel or timeout first, then the verdict of its stage. */
  predicate Reconciled(env: Env, w: World, w': World) {
    var a, a' := w.atp, w'.atp;
    if Cancelled(a) then a'.result == Canceled && GivenUp(a, a')
    else if TimedOut(a, env.late) then a'.result == Failure && a'.isTimeout && GivenUp(a, a')
    else match a.state
      case DeployingComponents =>
        && (env.deployed == Passed ==> a'.state == TestingPreActive && a'.result == a.result)
        && (env.deployed == Failed ==> a'.state == CollectingPreActiveResult && a'.result == Failure && a'.verified == Some(true))
      case TestingPreActive =>
        && (env.tested == Passed ==> a'.state == CollectingPreActiveResult && a'.result == a.result && a'.verified == Some(true))
        && (env.tested == Failed ==> a'.state == CollectingPreActiveResult && a'.result == Failure && a'.verified == Some(true))
      case CollectingPreActiveResult =>
        env.collectable ==>
          a'.result == a.result
          && a'.state == if a.result == Failure || a.result == Canceled then DestroyingPreActive
                         else if a.noDowntime then PromotingActive else Demoting
      case DestroyingPreActive =>
        if Target(w) !in w.namespaces then a'.state == AtpFinished
        else Target(w) != "" ==> Target(w) in w'.namespaces && w'.namespaces[Target(w)]
      case _ => true
  }

  class Controller {
    var atp: Promotion
    var team: Team
    var namespaces: Namespaces
    /** Which of the calls to come fail, without effect; those behind the end succeed. */
    var fails: seq<bool>

    ghost predicate Calm()
      reads this`fails
    {
      forall i :: 0 <= i < |fails| ==> !fails[i]
    }

    method Fails() returns (f: bool)
      modifies this`fails
      ensures old(Calm()) ==> Calm() && !f
    {
      f := |fails| > 0 && fails[0];
      fails := if |fails| > 0 then fails[1..] else [];
    }

    ghost function State(): World
      reads this`atp, this`team, this`namespaces
    {
      World(atp, team, namespaces)
    }

    method GetTargetNamespace() returns (ns: string)
      modifies this`fails
      ensures MayTarget(State(), ns)
      ensures old(Calm()) ==> Calm() && ns == Target(State())
    {
      if atp.target == "" {
        var f := Fails();
        return if f then "" else team.preActive;
      }
      return atp.target;
    }

    method UpdatePromotion(a: Promotion)
      modifies this`atp, this`fails
      ensures atp == old(atp) || atp == a
      ensures old(Calm()) ==> atp == a
    {
      var f := Fails();
      if !f {
        atp := a;
      }
    }

    /** DestroyPreActiveEnvironment: destroyNamespaces with its single option. gone means no error. */
    method DestroyPreActiveEnvironment(ns: string) returns (gone: bool)
      modifies this`team, this`namespaces, this`fails
      ensures old(Calm()) ==> Calm() && (gone <==> ns == "" || ns !in old(namespaces) || old(namespaces)[ns])
      ensures old(Calm()) && ns != "" && ns in old(namespaces) ==> ns in namespaces && namespaces[ns]
      ensures old(Calm()) && (ns == "" || ns !in old(namespaces)) ==> team.preActive == "" && namespaces == old(namespaces)
      ensures team == old(team) || ((ns !in old(namespaces) || ns == "") && team == old(team).(preActive := ""))
      ensures namespaces == old(namespaces) || (ns in old(namespaces) && namespaces == old(namespaces)[ns := true])
    {
      var copy := team.(preActive := ns);
      copy := copy.(preActive := "");
      if ns == "" {
        var teamFails := Fails();
        if !teamFails {
          team := copy;
        }
        return !teamFails;
      }
      var cleanupFails := Fails();
      if cleanupFails {
        return false;
      }
      var f := Fails();
      if ns !in namespaces {
        if !f {
          team := copy;
        }
        return !f;
      }
      if f {
        return false;
      }
      if namespaces[ns] {
        return true;
      }
      namespaces := namespaces[ns := true];
      return false;
    }

    /** destroyPreActiveEnvironment */
    method DestroyPreActive(ghost env: Env) returns (a: Promotion, save: bool)
      requires atp.state == DestroyingPreActive
      modifies this`team, this`namespaces, this`fails
      ensures old(Calm()) ==> Calm() && (save <==> Target(old(State())) !in old(namespaces))
      ensures old(Calm()) && Target(old(State())) in old(namespaces) && Target(old(State())) != "" ==>
                Target(old(State())) in namespaces && namespaces[Target(old(State()))]
      ensures a == atp.(state := AtpFinished) || !save
      ensures exists ns :: MayTarget(old(State()), ns) && Destroyed(env, old(State()), State(), ns) && (save ==> ns !in namespaces)
    {
      var ns := GetTargetNamespace();
      assert MayTarget(old(State()), ns);
      a, save := atp, false;
      var f := Fails();
      if f {
        assert Destroyed(env, old(State()), State(), ns);
        return;
      }
      var gone := DestroyPreActiveEnvironment(ns);
      assert Destroyed(env, old(State()), State(), ns);
      if !gone || ns in namespaces {
        return;
      }
      return atp.(state := AtpFinished), true;
    }

    method CollectResult(env: Env) returns (a: Promotion, save: bool)
      requires atp.state == CollectingPreActiveResult
      ensures save ==> Advanced(env, atp, a)
      ensures save <==> env.collectable
    {
      a, save := atp, false;
      if !env.collectable {
        return;
      }
      if env.imageMissing {
        a := a.(verified := Some(true));
      }
      if a.result == Failure || a.result == Canceled {
        return a.(state := DestroyingPreActive), true;
      }
      if a.noDowntime {
        return a.(state := PromotingActive), true;
      }
      return a.(state := Demoting), true;
    }

    method DeployComponents(env: Env) returns (a: Promotion, save: bool)
      requires atp.state == DeployingComponents
      ensures save ==> Advanced(env, atp, a)
      ensures save <==> env.deployed != Pending
    {
      a, save := atp, false;
      if env.deployed == Pending {
        return;
      }
      if env.deployed == Passed {
        return a.(state := TestingPreActive), true;
      }
      return a.(result := Failure, verified := Some(true), state := CollectingPreActiveResult), true;
    }

    method TestPreActive(env: Env) returns (a: Promotion, save: bool)
      requires atp.state == TestingPreActive
      ensures save ==> Advanced(env, atp, a)
      ensures save <==> env.tested != Pending
    {
      a, save := atp, false;
      if env.tested == Pending {
        return;
      }
      if env.tested == Failed {
        a := a.(result := Failure);
      }
      return a.(verified := Some(true), state := CollectingPreActiveResult), true;
    }

    /** One reconcile in a followed state. */
    method Reconcile(env: Env)
      requires Followed(atp.state)
      modifies this
      ensures ReconcileStep(old(State()), State(), env)
      ensures old(Calm()) ==> Reconciled(env, old(State()), State())
    {
      if atp.deleting && atp.finalizer && atp.result != Canceled && !CannotBeTimeoutOrCancel(atp.state) {
        UpdatePromotion(AfterCancel(atp));
        return;
      }
      if !atp.isTimeout && !CannotBeTimeoutOrCancel(atp.state) && env.late {
        UpdatePromotion(AfterTimeout(atp));
        return;
      }
      Proceed(env);
    }

    /** The stage of the promotion. */
    method Proceed(env: Env)
      requires Followed(atp.state) && !Cancelled(atp) && !TimedOut(atp, env.late)
      modifies this
      ensures ReconcileStep(old(State()), State(), env)
      ensures old(Calm()) ==> Reconciled(env, old(State()), State())
    {
      if atp.state == DestroyingPreActive {
        var a, save := DestroyPreActive(env);
        if save {
          UpdatePromotion(a);
        }
      } else {
        Verify(env);
      }
    }

    method Verify(env: Env)
      requires Followed(atp.state) && atp.state != DestroyingPreActive && !Cancelled(atp) && !TimedOut(atp, env.late)
      modifies this
      ensures ReconcileStep(old(State()), State(), env)
      ensures old(Calm()) ==> Reconciled(env, old(State()), State())
    {
      var a, save;
      if atp.state == CollectingPreActiveResult {
        a, save := CollectResult(env);
      } else if atp.state == TestingPreActive {
        a, save := TestPreActive(env);
      } else {
        a, save := DeployComponents(env);
      }
      if save {
        UpdatePromotion(a);
      }
    }
  }

  // ----- Runs

  /** Reconciles, the cluster finishing the removal of a namespace, a user deleting the promotion, and
      other controllers creating namespaces or writing other fields of the team. */
  datatype Event = Reconciling(env: Env) | NamespaceRemoved(ns: string) | UserDeletes | OtherWrites

  ghost predicate Next(w: World, e: Event, w': World) {
    match e
    case Reconciling(env) => Followed(w.atp.state) && ReconcileStep(w, w', env)
    case NamespaceRemoved(ns) => ns in w.namespaces && w.namespaces[ns] && w' == w.(namespaces := w.namespaces - {ns})
    case UserDeletes => w' == w.(atp := w.atp.(deleting := true))
    case OtherWrites =>
      && w'.atp == w.atp && w'.team == w.team.(staging := w'.team.staging, previousActive := w'.team.previousActive)
      && (forall ns :: ns in w.namespaces ==> ns in w'.namespaces && w'.namespaces[ns] == w.namespaces[ns])
  }

  /** A timeout or a deletion while the result is still being collected. */
  predicate Disturbs(w: World, e: Event) {
    match e
    case Reconciling(env) => Cancelled(w.atp) || TimedOut(w.atp, env.late)
    case _ => false
  }

  /** After a failed deployment or test, on the way to Finished. */
  predicate Failing(a: Promotion) {
    a.result == Failure && (a.state == CollectingPreActiveResult || a.state == DestroyingPreActive || a.state == AtpFinished)
  }

  /** The active namespace is there and not being terminated. */
  predicate ActiveAlive(w: World) { w.team.active in w.namespaces && !w.namespaces[w.team.active] }

  /** Unless disturbed, a step on the failure path stays on it, goes forward, and leaves the active
      namespace alone; it ends in Finished only when the target namespace is absent. */
  lemma FailureStep(w: World, e: Event, w': World)
    requires Next(w, e, w') && Failing(w.atp) && w.atp.target != "" && !Disturbs(w, e)
    ensures Failing(w'.atp) && w'.atp.target == w.atp.target && w'.team.active == w.team.active
    ensures w.atp.target != w.team.active && ActiveAlive(w) ==> ActiveAlive(w')
    ensures w'.atp.state == AtpFinished && w.atp.state != AtpFinished ==> w.atp.target !in w'.namespaces
  {
  }

  ghost predicate Run(ws: seq<World>, es: seq<Event>) {
    |ws| == |es| + 1 && forall i {:trigger es[i]} :: 0 <= i < |es| ==> Next(ws[i], es[i], ws[i + 1])
  }

  ghost predicate FinishesClean(ws: seq<World>, i: int, target: string) {
    0 <= i < |ws| - 1 && (ws[i].atp.state != AtpFinished && ws[i + 1].atp.state == AtpFinished ==> target !in ws[i + 1].namespaces)
  }

  /** Every undisturbed run from a failed verification keeps the team's active namespace, and enters
      Finished only once the pre-active namespace is absent. */
  lemma {:induction false} FailureLeavesActive(ws: seq<World>, es: seq<Event>)
    requires Run(ws, es) && Failing(ws[0].atp) && ws[0].atp.target != ""
    requires forall i {:trigger es[i]} :: 0 <= i < |es| ==> !Disturbs(ws[i], es[i])
    ensures Failing(ws[|es|].atp) && ws[|es|].atp.target == ws[0].atp.target && ws[|es|].team.active == ws[0].team.active
    ensures ws[0].atp.target != ws[0].team.active && ActiveAlive(ws[0]) ==> ActiveAlive(ws[|es|])
    ensures forall i :: 0 <= i < |es| ==> FinishesClean(ws, i, ws[0].atp.target)
  {
    if es != [] {
      var last := |es| - 1;
      assert forall i {:trigger es[..last][i]} :: 0 <= i < last ==> es[..last][i] == es[i];
      FailureLeavesActive(ws[..|es|], es[..last]);
      FailureStep(ws[last], es[last], ws[|es|]);
      forall i | 0 <= i < |es| ensures FinishesClean(ws, i, ws[0].atp.target) {
        if i < last {
          assert FinishesClean(ws[..|es|], i, ws[0].atp.target);
        }
      }
    }
  }

  /** The condition is exact: right after a failed verification a reconcile that saves anything leaves the
      failure path, for a rollback of the active environment, if and only if it is disturbed. */
  lemma DisturbedIffRollback(w: World, env: Env, w': World)
    requires Next(w, Reconciling(env), w') && w'.atp != w.atp
    requires w.atp.state == CollectingPreActiveResult && w.atp.result == Failure && w.atp.verified == Some(true)
    ensures Disturbs(w, Reconciling(env)) <==> w'.atp.state == Rollback
    ensures !Disturbs(w, Reconciling(env)) <==> w'.atp.state == DestroyingPreActive
  {
  }

  /** A failed deployment or test always leaves Verified true, which is why. */
  lemma FailedVerification(w: World, env: Env, w': World)
    requires Next(w, Reconciling(env), w') && !Disturbs(w, Reconciling(env))
    requires w.atp.state == DeployingComponents || w.atp.state == TestingPreActive
    requires w'.atp.state == CollectingPreActiveResult
    ensures w'.atp.verified == Some(true)
    ensures w'.atp.result == (if w.atp.state == DeployingComponents || env.tested == Failed then Failure else w.atp.result)
    ensures w'.team == w.team && w'.namespaces == w.namespaces
  {
  }

  /** Without a recorded target a failed look-up of the team finishes the promotion with its pre-active
      namespace still there. */
  lemma UnrecordedTargetFinishesEarly(w: World, env: Env)
    requires w.atp.state == DestroyingPreActive && w.atp.target == "" && "" !in w.namespaces
    requires w.team.preActive in w.namespaces
    ensures var w' := w.(atp := w.atp.(state := AtpFinished));
            Next(w, Reconciling(env), w') && w'.team.preActive in w'.namespaces
  {
    var w' := w.(atp := w.atp.(state := AtpFinished));
    assert MayTarget(w, "") && Destroyed(env, w, w', "");
  }
}
