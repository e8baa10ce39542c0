/** Deletion: it removes everything and releases the cluster in a bounded number of changes, exactly when
    the terminate worker can mount the inventories; and nothing is installed any more when it does. */
module Deletion {
  import opened WorkerNodes
  import opened KubeVersion
  import opened CustomCluster
  import opened ClusterRuns
  import opened RecordAgreement
  import opened ClusterSafety
  import opened Convergence
  import opened LostInventory
  import opened FailedWorkers

  /** Both inventories are gone and the cluster's finalizer is, so that the object vanishes. */
  predicate Released(st: State) {
    HostsMap !in st.maps && ConfigMap !in st.maps && !st.finalizer
  }

  const PODS: set<Action> := {Init, ScaleUp, ScaleDown}

  // ----- one fault-free reconcile -----

  /** The pods go; then the terminate worker is started, waited for, or followed by the release. */
  function AfterDelete(st: State): State {
    var swept := st.(workers := st.workers - PODS, phase := Deleting);
    match StatusOf(st, Terminate)
    case None => AddWorker(swept, Terminate, Worker(TERMINATE_CMD, Active))
    case Some(Active) => swept
    case Some(Failed) => swept.(phase := Unknown)
    case Some(Succeeded) => swept.(maps := st.maps - {HostsMap, ConfigMap}, finalizer := false)
  }

  lemma {:induction false} CleanPods(ses: Session)
    requires ses.budget >= 6
    ensures var o := DeleteWorkerPods(ses);
            && o.Go? && o.ses == ses.(st := ses.st.(workers := ses.st.workers - PODS), budget := o.ses.budget)
            && o.ses.budget + 6 >= ses.budget
  {
    hide EnsureWorkerDeleted;
    assert ses.st.workers - {Init} - {ScaleUp} - {ScaleDown} == ses.st.workers - PODS;
  }

  lemma {:induction false} CleanResource(ses: Session)
    requires ses.budget >= 9
    ensures var o := DeleteResource(ses);
            && o.Go? && o.ses.phase == ses.phase && !o.ses.finalizer
            && o.ses.st == ses.st.(maps := ses.st.maps - {HostsMap, ConfigMap}, finalizer := false)
  {
    hide EnsureMapDeleted;
    assert ses.st.maps - {HostsMap} - {ConfigMap} == ses.st.maps - {HostsMap, ConfigMap};
  }

  lemma {:induction false} CleanTerminate(ses: Session)
    requires ses.budget >= 2
    ensures var o := EnsureWorkerCreated(ses, Terminate, TERMINATE_CMD);
            && o.Go? && (Terminate in ses.st.workers ==>
                           o.ses == ses.(budget := ses.budget - 1) && o.value == ses.st.workers[Terminate])
  {
  }

  lemma {:induction false} DeleteReconcile(st: State, f: Faults)
    requires st.deleting && Clean(f)
    ensures Reconcile(st, f) == AfterDelete(st)
  {
    hide DeleteWorkerPods, EnsureWorkerCreated, DeleteResource;
    var ses := Open(st, f);
    CleanPods(ses);
    var p := DeleteWorkerPods(ses).ses;
    CleanTerminate(p);
    assert StatusOf(p.st, Terminate) == StatusOf(st, Terminate);
    if HasStatus(st, Terminate, Succeeded) {
      CleanResource(EnsureWorkerCreated(p, Terminate, TERMINATE_CMD).ses);
    }
  }

  /** After the terminate worker's success, the next reconcile whose calls all succeed releases. */
  lemma {:induction false} SucceededReleases(st: State, f: Faults)
    requires st.deleting && HasStatus(st, Terminate, Succeeded) && Clean(f)
    ensures Released(Reconcile(st, f)) && Cleared(Reconcile(st, f))
  {
    hide Reconcile;
    DeleteReconcile(st, f);
  }

  // ----- fair runs -----

  function One(b: bool): nat {
    if b then 1 else 0
  }

  /** The other workers that may still succeed. */
  function Busy(st: State): nat {
    One(HasStatus(st, Init, Active)) + One(HasStatus(st, ScaleUp, Active)) + One(HasStatus(st, ScaleDown, Active))
    + One(HasStatus(st, Upgrade, Active))
  }

  /** What the terminate worker still takes: to be started, to succeed, to be followed by the release. */
  function LeftTerminate(st: State): nat {
    match StatusOf(st, Terminate)
    case None => 3
    case Some(Active) => 2
    case Some(_) => One(!Released(st))
  }

  function Left(st: State): (n: nat)
    ensures n <= 8
  {
    LeftTerminate(st) + One(!(Cleared(st) && st.phase == Deleting)) + Busy(st)
  }

  /** Under deletion, and the terminate worker has not failed. */
  predicate OnItsWayOut(st: State) {
    st.deleting && !HasStatus(st, Terminate, Failed)
  }

  lemma {:induction false} SweptIs(st: State)
    requires Cleared(st)
    ensures st.workers - PODS == st.workers
  {
  }

  lemma {:induction false} DeleteAdvances(st: State)
    requires OnItsWayOut(st)
    ensures var x := AfterDelete(st);
            OnItsWayOut(x) && x.spec == st.spec && (x == st || Left(x) < Left(st))
  {
    if Cleared(st) { SweptIs(st); }
    var x := AfterDelete(st);
    assert Cleared(x);
    assert HasStatus(x, Upgrade, Active) == HasStatus(st, Upgrade, Active);
    match StatusOf(st, Terminate)
    case None =>
    case Some(t) =>
      match t
      case Active =>
      case Succeeded => if Released(st) { assert st.maps - {HostsMap, ConfigMap} == st.maps; }
      case Failed =>
  }

  lemma {:induction false} SuccessAdvances(st: State, a: Action)
    requires OnItsWayOut(st) && HasStatus(st, a, Active)
    ensures var x := SetStatus(st, a, Succeeded);
            OnItsWayOut(x) && x.spec == st.spec && Left(x) < Left(st)
  {
    match a case Init => case ScaleUp => case ScaleDown => case Upgrade => case Terminate =>
  }

  lemma {:induction false} FairDeletion(w: World, e: Event)
    requires OnItsWayOut(w.st) && Enabled(w, e) && Fair(e)
    ensures var x := Apply(w, e);
            && OnItsWayOut(x.st) && x.st.spec == w.st.spec && (x == w || Left(x.st) < Left(w.st))
            && (Terminate in w.st.workers ==> Terminate in x.st.workers)
  {
    hide Reconcile, Left, AfterDelete, RecordedNameSet, CommandNodes, VersionIn, WithV, CommandVersion, Elements;
    hide OnItsWayOut, Clean;
    assert w.st.deleting by { WayOutIs(w.st); }
    if e.Reconciled? {
      DeleteReconcile(w.st, e.faults);
      DeleteAdvances(w.st);
      DeleteSteps(w.st, e.faults);
    } else {
      SuccessState(w, e.action);
      SuccessAdvances(w.st, e.action);
    }
  }

  lemma {:induction false} WayOutIs(st: State)
    ensures OnItsWayOut(st) ==> st.deleting
  {
  }

  /** How often the run starts a terminate worker. */
  ghost function TerminateStarts(w: World, es: seq<Event>): nat
    requires Legal(w, es)
    decreases es
  {
    if es == [] then 0
    else
      var x := Apply(w, es[0]);
      One(Terminate !in w.st.workers && Terminate in x.st.workers) + TerminateStarts(x, es[1..])
  }

  lemma {:induction false} FairDeletionRun(w: World, es: seq<Event>)
    requires OnItsWayOut(w.st) && FairRun(w, es)
    ensures var x := Run(w, es);
            && OnItsWayOut(x.st) && x.st.spec == w.st.spec && Changes(w, es) + Left(x.st) <= Left(w.st)
            && TerminateStarts(w, es) <= One(Terminate !in w.st.workers)
    decreases es
  {
    hide OnItsWayOut, Left, Apply, Enabled, Fair;
    if es != [] {
      FairDeletion(w, es[0]);
      FairDeletionRun(Apply(w, es[0]), es[1..]);
    }
  }

  /** The terminate worker has done its work, or has the configmaps it mounts. */
  predicate Mountable(st: State) {
    HasStatus(st, Terminate, Succeeded) || (HostsMap in st.maps && ConfigMap in st.maps)
  }

  lemma {:induction false} StaysMountable(w: World, e: Event)
    requires w.st.deleting && Mountable(w.st) && Enabled(w, e)
    ensures Apply(w, e).st.deleting && Mountable(Apply(w, e).st)
  {
    hide Reconcile, ValidSpec, RecordedNameSet, CommandNodes, VersionIn, WithV, CommandVersion, Elements;
    if e.Reconciled? { DeleteSteps(w.st, e.faults); }
  }

  lemma {:induction false} RunMountable(w: World, es: seq<Event>)
    requires w.st.deleting && Mountable(w.st) && Legal(w, es)
    ensures Mountable(Run(w, es).st)
    decreases es
  {
    hide Mountable, Apply, Enabled;
    if es != [] {
      StaysMountable(w, es[0]);
      RunMountable(Apply(w, es[0]), es[1..]);
    }
  }

  /** The terminate worker has succeeded and the cluster is released. */
  predicate Deleted(st: State) {
    HasStatus(st, Terminate, Succeeded) && Released(st)
  }

  lemma {:induction false} NothingLeft(st: State)
    requires OnItsWayOut(st) && Left(st) == 0
    ensures Deleted(st)
  {
    match StatusOf(st, Terminate)
    case None =>
    case Some(t) => match t case Active => case Succeeded => case Failed =>
  }

  lemma {:induction false} DeletionMoves(w: World)
    requires OnItsWayOut(w.st) && Mountable(w.st) && !Deleted(w.st)
    ensures AfterDelete(w.st) != w.st || Enabled(w, WorkerSucceeds(Terminate))
  {
    match StatusOf(w.st, Terminate)
    case None => assert Terminate in AfterDelete(w.st).workers;
    case Some(t) => match t case Active => case Succeeded => case Failed =>
  }

  /** From every state under deletion without a failed terminate worker, whose inventories it can mount:
      every fair run makes at most eight changes, starts at most one terminate worker, none if there is
      one, and has released the cluster after the last change; until it has, it can go on. */
  lemma {:induction false} DeletionFinishes(w: World, es: seq<Event>, f: Faults)
    requires OnItsWayOut(w.st) && Mountable(w.st) && FairRun(w, es) && Clean(f)
    ensures var x := Run(w, es);
            && Changes(w, es) <= Left(w.st) <= 8 && (Changes(w, es) == Left(w.st) ==> Deleted(x.st))
            && TerminateStarts(w, es) <= One(Terminate !in w.st.workers)
            && (!Deleted(x.st) ==> Reconcile(x.st, f) != x.st || Enabled(x, WorkerSucceeds(Terminate)))
  {
    assert Legal(w, es) && w.st.deleting;
    hide *;
    FairDeletionRun(w, es);
    RunMountable(w, es);
    var x := Run(w, es);
    WayOutIs(x.st);
    DeleteReconcile(x.st, f);
    if Changes(w, es) == Left(w.st) { NothingLeft(x.st); }
    if !Deleted(x.st) { DeletionMoves(x); }
  }

  // ----- exactly when it can finish -----

  lemma {:induction false} HangingEvent(w: World, e: Event)
    requires w.st.deleting && w.st.finalizer && !Mountable(w.st) && Enabled(w, e)
    ensures var x := Apply(w, e).st; x.deleting && x.finalizer && !Mountable(x)
  {
    hide Reconcile, ValidSpec, RecordedNameSet, CommandNodes, VersionIn, WithV, CommandVersion, Elements;
    if e.Reconciled? { DeleteSteps(w.st, e.faults); }
  }

  lemma {:induction false} Hangs(w: World, es: seq<Event>)
    requires w.st.deleting && w.st.finalizer && !Mountable(w.st) && Legal(w, es)
    ensures Run(w, es).st.finalizer
    decreases es
  {
    hide Mountable, Apply, Enabled;
    if es != [] {
      HangingEvent(w, es[0]);
      Hangs(Apply(w, es[0]), es[1..]);
    }
  }

  lemma {:induction false} Prefixed(w: World, e: Event, es: seq<Event>)
    requires Enabled(w, e) && Legal(Apply(w, e), es)
    ensures Legal(w, [e] + es) && Run(w, [e] + es) == Run(Apply(w, e), es)
  {
    hide Apply, Enabled;
    assert ([e] + es)[1..] == es;
  }

  lemma {:induction false} OneEvent(w: World, e: Event)
    requires Enabled(w, e)
    ensures Legal(w, [e]) && Run(w, [e]) == Apply(w, e)
  {
    hide Apply, Enabled;
    assert Legal(Apply(w, e), []) && [e][1..] == [];
    assert Run(Apply(w, e), []) == Apply(w, e);
  }

  lemma {:induction false} WayToRelease(w: World, f: Faults) returns (es: seq<Event>)
    requires w.st.deleting && Mountable(w.st) && Clean(f)
    ensures Legal(w, es) && Released(Run(w, es).st)
    decreases match StatusOf(w.st, Terminate)
              case Some(Failed) => 3 case None => 2 case Some(Active) => 1 case Some(Succeeded) => 0
  {
    hide Reconcile, Legal, Run, Clean, RecordedNameSet, VersionIn;
    DeleteReconcile(w.st, f);
    var e := match StatusOf(w.st, Terminate)
             case Some(Failed) => FailedWorkerRemoved(Terminate)
             case Some(Active) => WorkerSucceeds(Terminate)
             case _ => Reconciled(f);
    if HasStatus(w.st, Terminate, Succeeded) {
      SucceededReleases(w.st, f);
      OneEvent(w, e);
      es := [e];
    } else {
      var rest := WayToRelease(Apply(w, e), f);
      Prefixed(w, e, rest);
      es := [e] + rest;
    }
  }

  /** A cluster under deletion can still be released, by whatever events, if and only if its terminate worker
      has succeeded or both configmaps it mounts are there. */
  lemma {:induction false} DeletionFinishesIff(w: World)
    requires w.st.deleting && w.st.finalizer
    ensures (exists es :: Legal(w, es) && Released(Run(w, es).st)) <==> Mountable(w.st)
  {
    hide Mountable, Legal, Run;
    if Mountable(w.st) {
      var es := WayToRelease(w, Faults(20, false, true, true));
    } else if es :| Legal(w, es) && Released(Run(w, es).st) {
      Hangs(w, es);
    }
  }

  lemma {:induction false} StrandedStep(w: World, e: Event)
    requires (Stranded(w.st) && Terminate !in w.st.workers) || (w.st.deleting && !Mountable(w.st))
    requires w.st.finalizer && Enabled(w, e) && HostsMap !in w.st.maps
    ensures var x := Apply(w, e).st;
            && ((Stranded(x) && Terminate !in x.workers) || (x.deleting && !Mountable(x)))
            && x.finalizer && HostsMap !in x.maps
  {
    if w.st.deleting {
      hide Stranded, Apply, Enabled, Mountable;
      HangingEvent(w, e);
      InventoryGone(w, e);
    } else if e.DeletionRequested? {
      hide Reconcile;
    } else {
      hide Apply, Enabled, Reconcile;
      StrandedEvent(w, e);
      FinalizerStays(w, e);
    }
  }

  lemma {:induction false} InventoryGone(w: World, e: Event)
    requires w.st.deleting && HostsMap !in w.st.maps && Enabled(w, e)
    ensures HostsMap !in Apply(w, e).st.maps
  {
    hide Reconcile, ValidSpec, RecordedNameSet, CommandNodes, VersionIn, WithV, CommandVersion, Elements;
    if e.Reconciled? { DeleteSteps(w.st, e.faults); }
  }

  lemma {:induction false} FinalizerStays(w: World, e: Event)
    requires !w.st.deleting && w.st.finalizer && Enabled(w, e)
    ensures Apply(w, e).st.finalizer
  {
    hide Reconcile, ValidSpec, RecordedNameSet, CommandNodes, VersionIn, WithV, CommandVersion, Elements;
    if e.Reconciled? { ReconcileSteps(w.st, e.faults); }
  }

  /** A provisioned cluster that has lost its inventory is never released, deletion or not. */
  lemma {:induction false} StrandedNeverReleased(w: World, es: seq<Event>)
    requires (Stranded(w.st) && Terminate !in w.st.workers) || (w.st.deleting && !Mountable(w.st))
    requires w.st.finalizer && HostsMap !in w.st.maps && Legal(w, es)
    ensures Run(w, es).st.finalizer
    decreases es
  {
    hide Stranded, Mountable, Apply, Enabled;
    if es != [] {
      StrandedStep(w, es[0]);
      StrandedNeverReleased(Apply(w, es[0]), es[1..]);
    }
  }

  // ----- a failed terminate worker -----

  lemma {:induction false} FailedTerminate(st: State, f: Faults)
    requires st.deleting && HasStatus(st, Terminate, Failed)
    ensures var x := Reconcile(st, f);
            && x.deleting && HasStatus(x, Terminate, Failed) && x.maps == st.maps && x.finalizer == st.finalizer
            && x.phase in {st.phase, Deleting, Unknown}
            && (f.budget >= PREAMBLE + 7 && f.statusOk ==> x.phase == Unknown && Cleared(x))
  {
    hide DeleteWorkerPods, EnsureWorkerCreated, DeleteResource;
    if f.budget >= PREAMBLE {
      var ses := Open(st, f);
      DeleteWorkerPodsClears(ses);
      if ses.budget >= 6 { CleanPods(ses); }
      var p := DeleteWorkerPods(ses);
      if p.Go? && p.ses.budget >= 1 { FoundTerminate(p.ses); }
    }
  }

  lemma {:induction false} FoundTerminate(ses: Session)
    requires Terminate in ses.st.workers && ses.budget >= 1
    ensures var o := EnsureWorkerCreated(ses, Terminate, TERMINATE_CMD);
            o.Go? && o.ses.st == ses.st && o.value == ses.st.workers[Terminate]
  {
  }

  /** While the terminate worker has failed, any number of reconciles with any faults removes no configmap and
      keeps the finalizer, and a last one that gets through shows Unknown. */
  lemma {:induction false} FailedTerminateHalts(st: State, fs: seq<Faults>)
    requires st.deleting && HasStatus(st, Terminate, Failed)
    ensures var x := Reconciles(st, fs);
            && x.deleting && HasStatus(x, Terminate, Failed) && x.maps == st.maps && x.finalizer == st.finalizer
            && (fs != [] && fs[|fs| - 1].budget >= PREAMBLE + 7 && fs[|fs| - 1].statusOk ==> x.phase == Unknown)
  {
    hide Reconcile;
    if fs != [] {
      var n := |fs| - 1;
      FailedTerminateHalts(st, fs[..n]);
      FailedTerminate(Reconciles(st, fs[..n]), fs[n]);
    }
  }

  // ----- the worker that deletion forgets -----

  lemma {:induction false} PodsKeepUpgrade(ses: Session)
    ensures Upgrade in ses.st.workers ==> Upgrade in DeleteWorkerPods(ses).ses.st.workers
  {
    hide EnsureWorkerDeleted;
  }

  lemma {:induction false} DeletionKeepsUpgrade(st: State, f: Faults)
    requires st.deleting && Upgrade in st.workers
    ensures Upgrade in Reconcile(st, f).workers
  {
    hide DeleteWorkerPods, EnsureWorkerCreated, DeleteResource;
    if f.budget >= PREAMBLE {
      var ses := Open(st, f);
      PodsKeepUpgrade(ses);
      var o := DeleteWorkerPods(ses);
      if o.Go? {
        var p := EnsureWorkerCreated(o.ses, Terminate, TERMINATE_CMD);
        if p.Go? { DeleteResourceReleases(p.ses); }
      }
    }
  }

  /** An upgrade worker outlives deletion: no reconcile removes it, so that it may run beside the terminate worker
      and after it. */
  lemma {:induction false} UpgradeOutlivesDeletion(w: World, es: seq<Event>)
    requires w.st.deleting && Upgrade in w.st.workers && Legal(w, es)
    requires forall i | 0 <= i < |es| :: es[i] != FailedWorkerRemoved(Upgrade)
    ensures Upgrade in Run(w, es).st.workers
    decreases es
  {
    hide Reconcile, ValidSpec, RecordedNameSet, CommandNodes, VersionIn, WithV, CommandVersion, Elements;
    if es != [] {
      if es[0].Reconciled? { DeletionKeepsUpgrade(w.st, es[0].faults); DeleteSteps(w.st, es[0].faults); }
      assert Upgrade in Apply(w, es[0]).st.workers && Apply(w, es[0]).st.deleting;
      UpgradeOutlivesDeletion(Apply(w, es[0]), es[1..]);
    }
  }

  // ----- nothing is left on the machines -----

  /** A terminate worker is alone with at most an upgrade, and when it has succeeded nothing is installed. */
  ghost predicate Resetting(w: World) {
    && (Terminate in w.st.workers ==> w.st.deleting && Cleared(w.st))
    && (HasStatus(w.st, Terminate, Succeeded) ==> w.installed == {})
  }

  lemma {:induction false} DeletionStartsOne(st: State, f: Faults)
    requires st.deleting
    ensures Reconcile(st, f).workers.Keys <= st.workers.Keys + {Terminate}
  {
    hide DeleteWorkerPods, EnsureWorkerCreated, DeleteResource;
    if f.budget >= PREAMBLE {
      var ses := Open(st, f);
      DeleteWorkerPodsClears(ses);
      var o := DeleteWorkerPods(ses);
      if o.Go? {
        var p := EnsureWorkerCreated(o.ses, Terminate, TERMINATE_CMD);
        if p.Go? { DeleteResourceReleases(p.ses); }
      }
    }
  }

  lemma {:induction false} ReconcileResetting(w: World, f: Faults)
    requires Resetting(w)
    ensures Resetting(w.(st := Reconcile(w.st, f)))
  {
    hide Reconcile;
    if w.st.deleting {
      DeleteSteps(w.st, f);
      DeletionStartsOne(w.st, f);
      assert forall a :: a in w.st.workers.Keys <==> a in w.st.workers;
      assert forall a :: a in Reconcile(w.st, f).workers ==> a in Reconcile(w.st, f).workers.Keys;
    } else if Terminate in Reconcile(w.st, f).workers {
      TerminateStartsAlone(w.st, f);
    }
  }

  lemma {:induction false} EventResetting(w: World, e: Event)
    requires Resetting(w) && Enabled(w, e)
    ensures Resetting(Apply(w, e))
  {
    if e.Reconciled? {
      hide Reconcile, Resetting;
      ReconcileResetting(w, e.faults);
    } else {
      hide Reconcile, ValidSpec, RecordedNameSet, CommandNodes, VersionIn, WithV, CommandVersion, Elements;
    }
  }

  lemma {:induction false} RunResetting(w: World, es: seq<Event>)
    requires Resetting(w) && Legal(w, es)
    ensures Resetting(Run(w, es))
    decreases es
  {
    hide Resetting, Apply, Enabled;
    if es != [] {
      EventResetting(w, es[0]);
      RunResetting(Apply(w, es[0]), es[1..]);
    }
  }

  /** Over every run from creation, deletion, faults and spec changes included: when a reconcile takes the
      finalizer away, nothing is installed on the machines. */
  lemma {:induction false} ReleasedMeansReset(w: World, es: seq<Event>, f: Faults)
    requires Initial(w) && Legal(w, es)
    requires Run(w, es).st.finalizer && !Reconcile(Run(w, es).st, f).finalizer
    ensures Run(w, es).installed == {}
  {
    assert Resetting(w);
    RunResetting(w, es);
    var x := Run(w, es);
    hide Reconcile, Run, Legal, Initial;
    if x.st.deleting { DeleteSteps(x.st, f); } else { ReconcileSteps(x.st, f); }
  }
}
