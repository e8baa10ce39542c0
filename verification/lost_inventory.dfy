/** `cluster-hosts` is rewritten by deleting and creating it. Exactly when a reconcile loses it, exactly
    when a run does, and what becomes of the cluster. */
module LostInventory {
  import opened Text
  import opened Inventory
  import opened WorkerNodes
  import opened KubeVersion
  import opened CustomCluster
  import opened ClusterRuns
  import opened RecordAgreement
  import opened ClusterSafety

  /** A succeeded scale-down is about to be recorded, and the delete is the last call that takes effect:
      it reports an error, or the create after it fails. */
  predicate Loses(st: State, f: Faults) {
    && HasInfo(st.phase) && Choose(st).MoveDown? && HasStatus(st, ScaleDown, Succeeded)
    && ((f.budget == 9 && f.lost) || (f.budget == 10 && !f.lost))
  }

  // ----- one reconcile -----

  lemma {:induction false} InfoCost(ses: Session)
    requires RecordedInfo(ses.st).Some?
    ensures GetProvisionedClusterInfo(ses).ses.st == ses.st
    ensures GetProvisionedClusterInfo(ses).Go? <==> ses.budget >= 2
    ensures ses.budget >= 2 ==>
              GetProvisionedClusterInfo(ses) == Go(ses.(budget := ses.budget - 2), RecordedInfo(ses.st).value)
  {
    hide ReadWorkers, VersionIn;
  }

  lemma {:induction false} RecreateLoses(ses: Session)
    requires HostsMap in ses.st.maps
    ensures HostsMap !in RecreateClusterHosts(ses).ses.st.maps <==>
            (ses.budget == 2 && ses.lost) || (ses.budget == 3 && !ses.lost)
  {
    hide RenderHosts;
  }

  lemma {:induction false} DownLoses(ses: Session, ns: seq<NodeInfo>)
    requires HostsMap in ses.st.maps
    ensures HostsMap !in ReconcileScaleDown(ses, ns).ses.st.maps <==>
            HasStatus(ses.st, ScaleDown, Succeeded) && ((ses.budget == 3 && ses.lost) || (ses.budget == 4 && !ses.lost))
  {
    hide RecreateClusterHosts, EnsureWorkerDeleted, RenderHosts, ScaleDownCmd;
    var o := EnsureWorkerCreated(ses, ScaleDown, ScaleDownCmd(ns));
    if o.Go? && HasStatus(ses.st, ScaleDown, Succeeded) {
      RecreateLoses(o.ses.(phase := ScalingDown));
    }
  }

  lemma {:induction false} UpKeeps(ses: Session, ns: seq<NodeInfo>)
    requires HostsMap in ses.st.maps
    ensures HostsMap in ReconcileScaleUp(ses, ns).ses.st.maps
  {
    hide EnsureScaleUpHostsCreated, EnsureWorkerCreated, FinishScaleUp, Grown, Trim;
    var o := EnsureScaleUpHostsCreated(ses, ns);
    var p := EnsureWorkerCreated(o.ses, ScaleUp, SCALE_UP_CMD);
    assert HostsMap in o.ses.st.maps && HostsMap in p.ses.st.maps;
    FinishKeeps(p.ses.(phase := ScalingUp), ns);
  }

  lemma {:induction false} FinishKeeps(ses: Session, ns: seq<NodeInfo>)
    requires HostsMap in ses.st.maps
    ensures HostsMap in FinishScaleUp(ses, ns).ses.st.maps
  {
    hide UpdateClusterNodes, EnsureMapDeleted, EnsureWorkerDeleted, Grown;
  }

  lemma {:induction false} UpgradeKeeps(ses: Session, version: string)
    requires HostsMap in ses.st.maps
    ensures HostsMap in ReconcileUpgrade(ses, version).ses.st.maps
  {
    hide ReconcileUpgrade, UpgradeCmd, UpdateVersion;
    UpgradeTouches(ses, version);
  }

  lemma {:induction false} ProvisionKeeps(ses: Session)
    requires HostsMap in ses.st.maps
    ensures HostsMap in ReconcileProvision(ses).ses.st.maps
  {
    hide EnsureMapCreated, RunInit, RenderHosts, RenderConfig;
    var spec := ses.st.spec;
    var o := EnsureMapCreated(ses, HostsMap, RenderHosts(spec.machine));
    var p := EnsureMapCreated(o.ses, ConfigMap, RenderConfig(spec.version, spec.settings));
    InitKeeps(p.ses);
  }

  lemma {:induction false} InitKeeps(ses: Session)
    ensures RunInit(ses).ses.st.maps == ses.st.maps
  {
    hide EnsureWorkerCreated, EnsureFinalizerAndOwnerRef, Get;
  }

  lemma {:induction false} NormalLoses(ses: Session)
    requires HasInfo(ses.phase) && RecordedInfo(ses.st).Some?
    ensures HostsMap !in ReconcileNormal(ses).ses.st.maps <==>
            && Choose(ses.st).MoveDown? && HasStatus(ses.st, ScaleDown, Succeeded)
            && ((ses.budget == 5 && ses.lost) || (ses.budget == 6 && !ses.lost))
  {
    assert HostsMap in ses.st.maps;
    hide GetProvisionedClusterInfo, ReconcileScaleUp, ReconcileScaleDown, ReconcileUpgrade, Additional;
    hide UpgradeSupported;
    hide RecordedInfo, HasStatus;
    InfoCost(ses);
    if ses.budget >= 2 {
      var from := ses.(budget := ses.budget - 2);
      match Choose(ses.st)
      case NoMove =>
      case MoveUp(ns) => UpKeeps(from, ns);
      case MoveDown(ns) => DownLoses(from, ns);
      case MoveVersion(v) => UpgradeKeeps(from, v);
    }
  }

  /** A reconcile past provisioning loses the inventory if and only if it meets the guard. */
  lemma {:induction false} ReconcileLosesIff(st: State, f: Faults)
    requires !st.deleting && HasInfo(st.phase) && RecordedInfo(st).Some?
    ensures HostsMap !in Reconcile(st, f).maps <==> Loses(st, f)
  {
    assert HostsMap in st.maps;
    hide ReconcileNormal, Choose, RecordedInfo, HasStatus;
    if f.budget >= PREAMBLE { NormalLoses(Open(st, f)); }
  }

  // ----- runs -----

  /** Past provisioning, not under deletion, and no inventory. */
  predicate Stranded(st: State) {
    HasInfo(st.phase) && HostsMap !in st.maps && !st.deleting
  }

  lemma {:induction false} StrandedEvent(w: World, e: Event)
    requires Stranded(w.st) && Enabled(w, e) && !e.DeletionRequested?
    ensures var x := Apply(w, e).st;
            Stranded(x) && x.maps == w.st.maps && x.workers.Keys <= w.st.workers.Keys
    ensures e.Reconciled? ==> Apply(w, e) == w
  {
    hide ReconcileTowards, ReadWorkers, VersionIn, ValidSpec, RecordedNameSet, CommandNodes, CommandVersion, WithV;
    hide Elements;
  }

  /** Nothing but deletion gets a cluster without inventory going again: no reconcile changes anything
      and no worker is ever started, whatever the spec asks for. */
  lemma {:induction false} StrandedForever(w: World, es: seq<Event>)
    requires Stranded(w.st) && Legal(w, es) && NoDeletion(es)
    ensures var x := Run(w, es).st;
            Stranded(x) && x.maps == w.st.maps && x.workers.Keys <= w.st.workers.Keys
    decreases es
  {
    hide Apply, Enabled, Stranded;
    if es != [] {
      StrandedEvent(w, es[0]);
      StrandedForever(Apply(w, es[0]), es[1..]);
    }
  }

  /** No reconcile of the run meets the guard. */
  ghost predicate NeverLoses(w: World, es: seq<Event>)
    requires Legal(w, es)
    decreases es
  {
    es == [] || ((es[0].Reconciled? ==> !Loses(w.st, es[0].faults)) && NeverLoses(Apply(w, es[0]), es[1..]))
  }

  lemma {:induction false} EventLoses(w: World, e: Event)
    requires Agrees(w, false) && Enabled(w, e) && !e.DeletionRequested? && HostsMap in w.st.maps
    ensures var x := Apply(w, e);
            if e.Reconciled? && Loses(w.st, e.faults) then Stranded(x.st) else HostsMap in x.st.maps
  {
    if e.Reconciled? {
      ReconcileEventLoses(w, e.faults);
      ReconciledIs(w, e.faults);
    } else {
      hide Agrees, ValidSpec, RecordedNameSet, CommandNodes, CommandVersion, VersionIn, WithV, Elements;
    }
  }

  lemma {:induction false} ReconcileEventLoses(w: World, f: Faults)
    requires Agrees(w, false) && HostsMap in w.st.maps
    ensures var x := Reconcile(w.st, f); if Loses(w.st, f) then Stranded(x) else HostsMap in x.maps
  {
    hide Agrees, Choose, ReconcileProvision, ReadWorkers, VersionIn;
    NotDeleting(w, false);
    ReconcileSteps(w.st, f);
    if InProvision(Shown(w.st.phase)) {
      if f.budget >= PREAMBLE {
        ProvisionKeeps(Open(w.st, f));
        NormalIsProvision(Open(w.st, f));
      }
    } else {
      SoundPhase(w, false);
      SoundHosts(w, false);
      if HasInfo(w.st.phase) {
        assert RecordedInfo(w.st).Some?;
        hide Reconcile, RecordedInfo;
        ReconcileLosesIff(w.st, f);
        ReconcileKeeps(w, f, false);
        StillInfo(w, f);
      }
    }
  }

  lemma {:induction false} StillInfo(w: World, f: Faults)
    requires Agrees(w, false) && HasInfo(w.st.phase)
    ensures Loses(w.st, f) ==> HasInfo(Reconcile(w.st, f).phase)
    ensures !Reconcile(w.st, f).deleting
  {
    hide Agrees, Choose, RecordedInfo, ReconcileScaleDown;
    NotDeleting(w, false);
    ReconcileSteps(w.st, f);
    if Loses(w.st, f) {
      hide Reconcile;
      LosingPhase(w.st, f);
    }
  }

  lemma {:induction false} LosingPhase(st: State, f: Faults)
    requires Loses(st, f) && !st.deleting
    ensures HasInfo(Reconcile(st, f).phase)
  {
    hide ReconcileNormal, Choose, HasStatus, ReconcileScaleDown, ScaleDownCmd;
    var ses := Open(st, f);
    NormalMoves(ses);
    var s := ReconcileNormal(ses).ses;
    if !SameBut(ses, s) {
      var from: Session :| SameBut(ses, from) && Makes(from, Choose(ses.st), s);
      ScaleDownTouches(from, Choose(st).ns);
    }
  }

  /** Along any run without deletion the inventory stays if and only if no reconcile meets the guard. */
  lemma {:induction false} InventoryStaysIff(w: World, es: seq<Event>)
    requires Agrees(w, false) && HostsMap in w.st.maps && Legal(w, es) && NoDeletion(es)
    ensures HostsMap in Run(w, es).st.maps <==> NeverLoses(w, es)
    decreases es
  {
    hide Agrees, Apply, Enabled, Loses;
    if es != [] {
      var x := Apply(w, es[0]);
      EventLoses(w, es[0]);
      EventKeeps(w, es[0], false);
      if es[0].Reconciled? && Loses(w.st, es[0].faults) {
        StrandedForever(x, es[1..]);
      } else {
        InventoryStaysIff(x, es[1..]);
      }
    }
  }
}
