/** What a failed worker does to its cluster: it is never retried and never replaced, so the cluster
    halts until somebody removes the pod. */
module FailedWorkers {
  import opened Inventory
  import opened WorkerNodes
  import opened KubeVersion
  import opened CustomCluster
  import opened ClusterRuns
  import opened RecordAgreement
  import opened ClusterSafety
  import opened Convergence

  /** The worker of the chosen step has failed; a scale-up worker still has its inventory. */
  predicate Failing(st: State) {
    match Choose(st)
    case NoMove => false
    case MoveUp(_) => HasStatus(st, ScaleUp, Failed) && ScaleUpMap in st.maps
    case MoveDown(_) => HasStatus(st, ScaleDown, Failed)
    case MoveVersion(_) => HasStatus(st, Upgrade, Failed)
  }

  /** A failed upgrade ends in Unknown, whatever the comment beside it says. */
  function HaltedIn(m: Move): Phase {
    if m.MoveVersion? then Unknown else Provisioned
  }

  /** The step writes nothing, and shows the phase unless a call fails. */
  ghost predicate Halts(ses: Session, s: Session, p: Phase, calls: nat) {
    && s.st == ses.st && s.finalizer == ses.finalizer && (s.phase == ses.phase || s.phase == p)
    && (ses.budget >= calls ==> s.phase == p)
  }

  lemma {:induction false} FailedSteps(ses: Session, ns: seq<NodeInfo>, version: string)
    ensures HasStatus(ses.st, ScaleUp, Failed) && ScaleUpMap in ses.st.maps ==>
              Halts(ses, ReconcileScaleUp(ses, ns).ses, Provisioned, 5)
    ensures HasStatus(ses.st, ScaleDown, Failed) ==> Halts(ses, ReconcileScaleDown(ses, ns).ses, Provisioned, 2)
    ensures HasStatus(ses.st, Upgrade, Failed) ==> Halts(ses, ReconcileUpgrade(ses, version).ses, Unknown, 2)
  {
    hide EnsureScaleUpHostsCreated, EnsureWorkerCreated, FinishScaleUp, ScaleDownCmd, UpgradeCmd, RecreateClusterHosts;
    hide UpdateKubeVersion;
  }

  lemma {:induction false} FailedNormal(ses: Session)
    requires HasInfo(ses.phase) && RecordedInfo(ses.st).Some? && Failing(ses.st)
    ensures Halts(ses, ReconcileNormal(ses).ses, HaltedIn(Choose(ses.st)), 7)
  {
    hide GetProvisionedClusterInfo, ReconcileScaleUp, ReconcileScaleDown, ReconcileUpgrade, Additional;
    hide UpgradeSupported, RecordedInfo, HasStatus;
    var o := GetProvisionedClusterInfo(ses);
    if o.Go? {
      var m := Choose(ses.st);
      FailedSteps(o.ses, if m.MoveUp? || m.MoveDown? then m.ns else [], ses.st.spec.version);
    }
  }

  lemma {:induction false} FailedReconcile(st: State, f: Faults)
    requires !st.deleting && HasInfo(st.phase) && RecordedInfo(st).Some? && Failing(st)
    ensures Reconcile(st, f) == st || Reconcile(st, f) == st.(phase := HaltedIn(Choose(st)))
    ensures f.budget >= PREAMBLE + 7 && f.statusOk ==> Reconcile(st, f) == st.(phase := HaltedIn(Choose(st)))
  {
    hide ReconcileNormal, Failing, Choose, RecordedInfo;
    if f.budget >= PREAMBLE { FailedNormal(Open(st, f)); }
  }

  function Reconciles(st: State, fs: seq<Faults>): State {
    if fs == [] then st else Reconcile(Reconciles(st, fs[..|fs| - 1]), fs[|fs| - 1])
  }

  lemma {:induction false} FailingAgain(st: State, p: Phase)
    ensures Choose(st.(phase := p)) == Choose(st) && RecordedInfo(st.(phase := p)) == RecordedInfo(st)
    ensures Failing(st.(phase := p)) == Failing(st)
  {
    hide Additional, UpgradeSupported, ReadWorkers, VersionIn;
  }

  /** Any number of reconciles with any faults: no configmap and no worker is touched, and one that gets
      through shows the phase in which the cluster stays. */
  lemma {:induction false} FailedWorkerHalts(st: State, fs: seq<Faults>)
    requires !st.deleting && HasInfo(st.phase) && RecordedInfo(st).Some? && Failing(st)
    ensures Reconciles(st, fs) == st || Reconciles(st, fs) == st.(phase := HaltedIn(Choose(st)))
    ensures (exists i :: 0 <= i < |fs| && fs[i].budget >= PREAMBLE + 7 && fs[i].statusOk) ==>
              Reconciles(st, fs) == st.(phase := HaltedIn(Choose(st)))
  {
    hide Reconcile, Failing, Choose, RecordedInfo;
    if fs != [] {
      var n := |fs| - 1;
      var before := Reconciles(st, fs[..n]);
      FailedWorkerHalts(st, fs[..n]);
      FailingAgain(st, HaltedIn(Choose(st)));
      assert forall i | 0 <= i < n :: fs[..n][i] == fs[i];
      if HasInfo(before.phase) { FailedReconcile(before, fs[n]); } else { ReconcileSteps(before, fs[n]); }
    }
  }

  /** Provisioning, with both configmaps written and an init worker that has failed. */
  predicate FailingInit(st: State) {
    && !st.deleting && InProvision(Shown(st.phase)) && HasStatus(st, Init, Failed)
    && HostsMap in st.maps && ConfigMap in st.maps
  }

  lemma {:induction false} FailedProvision(ses: Session)
    requires InProvision(ses.phase) && FailingInit(ses.st)
    ensures var s := ReconcileNormal(ses).ses;
            && s.st == ses.st && (s.finalizer == ses.finalizer || s.finalizer)
            && (s.phase == ses.phase || s.phase == ProvisionFailed)
            && (ses.budget >= 11 ==> s.phase == ProvisionFailed && s.finalizer)
  {
    hide RenderHosts, RenderConfig, EnsureMapCreated, EnsureWorkerCreated, EnsureFinalizerAndOwnerRef;
  }

  lemma {:induction false} FailedInitReconcile(st: State, f: Faults)
    requires FailingInit(st)
    ensures var x := Reconcile(st, f);
            && x == st.(phase := x.phase, finalizer := x.finalizer) && FailingInit(x)
            && x.phase in {st.phase, ProvisionFailed} && (st.finalizer ==> x.finalizer)
            && (f.budget >= PREAMBLE + 11 && f.statusOk ==> x.phase == ProvisionFailed)
  {
    hide ReconcileNormal;
    if f.budget >= PREAMBLE { FailedProvision(Open(st, f)); }
  }

  /** The same while provisioning: nothing but the phase and the finalizer changes, and a reconcile that
      gets through shows ProvisionFailed, in which the cluster stays. */
  lemma {:induction false} FailedInitHalts(st: State, fs: seq<Faults>)
    requires FailingInit(st)
    ensures var x := Reconciles(st, fs);
            && x == st.(phase := x.phase, finalizer := x.finalizer) && FailingInit(x)
            && x.phase in {st.phase, ProvisionFailed} && (st.finalizer ==> x.finalizer)
            && ((exists i :: 0 <= i < |fs| && fs[i].budget >= PREAMBLE + 11 && fs[i].statusOk) ==>
                  x.phase == ProvisionFailed)
  {
    hide Reconcile, FailingInit;
    if fs != [] {
      var n := |fs| - 1;
      FailedInitHalts(st, fs[..n]);
      FailedInitReconcile(Reconciles(st, fs[..n]), fs[n]);
      assert forall i | 0 <= i < n :: fs[..n][i] == fs[i];
    }
  }

  // ----- removing the failed worker -----

  function ActionOf(m: Move): Action
    requires m != NoMove
  {
    match m case MoveUp(_) => ScaleUp case MoveDown(_) => ScaleDown case MoveVersion(_) => Upgrade
  }

  function Removed(st: State, a: Action): State {
    st.(workers := st.workers - {a})
  }

  lemma {:induction false} ChoiceStays(st: State, a: Action)
    ensures Choose(Removed(st, a)) == Choose(st) && RecordedInfo(Removed(st, a)) == RecordedInfo(st)
  {
    hide Additional, UpgradeSupported, ReadWorkers, VersionIn;
  }

  lemma {:induction false} RestartSteps(ses: Session, ns: seq<NodeInfo>)
    requires ses.budget >= 5
    ensures ScaleUp !in ses.st.workers && ScaleUpMap in ses.st.maps ==>
              var s := ReconcileScaleUp(ses, ns).ses;
              s.st == AddWorker(ses.st, ScaleUp, Worker(SCALE_UP_CMD, Active)) && s.phase == ScalingUp
              && s.finalizer == ses.finalizer
    ensures ScaleDown !in ses.st.workers ==>
              var s := ReconcileScaleDown(ses, ns).ses;
              s.st == AddWorker(ses.st, ScaleDown, Worker(ScaleDownCmd(ns), Active)) && s.phase == ScalingDown
              && s.finalizer == ses.finalizer
  {
    hide EnsureScaleUpHostsCreated, EnsureWorkerCreated, FinishScaleUp, ScaleDownCmd, RecreateClusterHosts;
  }

  /** Deleting the failed pod makes a halted cluster start a new one, as promised for all three kinds,
      exactly when it was not an upgrade; after a failed upgrade nothing happens any more. */
  lemma {:induction false} RemovalRetriesIff(st: State, f: Faults)
    requires !st.deleting && HasInfo(st.phase) && RecordedInfo(st).Some? && Failing(st) && Clean(f)
    ensures Choose(st) != NoMove
    ensures var a := ActionOf(Choose(st));
            var removed := Removed(st.(phase := HaltedIn(Choose(st))), a);
            && (HasStatus(Reconcile(removed, f), a, Active) <==> a != Upgrade)
            && (a == Upgrade ==> Reconcile(removed, f) == removed)
  {
    hide Choose, RecordedInfo, Reconcile, ReconcileScaleUp, ReconcileScaleDown, ReconcileUpgrade;
    var m := Choose(st);
    var a := ActionOf(m);
    var halted := st.(phase := HaltedIn(m));
    FailingAgain(st, HaltedIn(m));
    ChoiceStays(halted, a);
    var removed := Removed(halted, a);
    if a == Upgrade {
      ReconcileSteps(removed, f);
    } else {
      var from, s := CleanReconcile(removed, f);
      RestartSteps(from, m.ns);
    }
  }

  /** Provisioning is retried as well. */
  lemma {:induction false} RemovalRetriesInit(st: State, f: Faults)
    requires FailingInit(st) && Clean(f)
    ensures Reconcile(Removed(st, Init), f)
         == AddWorker(st, Init, Worker(INIT_CMD, Active)).(phase := Provisioning, finalizer := true)
  {
    hide ReconcileProvision, RenderHosts, RenderConfig, Rendered;
    var removed := Removed(st, Init);
    NormalIsProvision(Open(removed, f));
    CleanProvision(Open(removed, f));
    assert removed.workers[Init := Worker(INIT_CMD, Active)] == st.workers[Init := Worker(INIT_CMD, Active)];
  }
}
