/** What kubespray is told along every run: which hosts the inventories it mounts put into which group. */
module AnsibleRuns {
  import opened Text
  import opened Inventory
  import opened InventoryGroups
  import opened WorkerNodes
  import opened KubeVersion
  import opened CustomCluster
  import opened ClusterRuns
  import opened RecordAgreement
  import opened ClusterSafety
  import opened Convergence
  import opened LostInventory
  import opened Leftovers

  /** An inventory that puts the masters, and nothing else, into the control plane and into etcd. */
  ghost predicate Staffs(text: string, masters: seq<NodeInfo>) {
    exists s: Sheet :: Lists(text, s) && s.control == Names(masters) && s.etcd == Names(masters)
  }

  ghost predicate Staffed(st: State) {
    forall n | n in {HostsMap, ScaleUpMap} && n in st.maps :: Staffs(st.maps[n], st.spec.machine.masters)
  }

  // ----- what a reconcile can write into an inventory -----

  /** Unchanged, printed from the spec, or the recorded one with the missing nodes added. */
  ghost predicate FromSpec(st: State, n: MapName, text: string) {
    || (n in st.maps && text == st.maps[n])
    || text == RenderHosts(st.spec.machine)
    || (Grown(st, Missing(st)).Some? && text in {Grown(st, Missing(st)).value, Trim(Grown(st, Missing(st)).value)})
  }

  ghost predicate AllFromSpec(st: State, x: State) {
    x.spec == st.spec && forall n | n in {HostsMap, ScaleUpMap} && n in x.maps :: FromSpec(st, n, x.maps[n])
  }

  lemma {:induction false} FinishScaleUpMap(ses: Session, ns: seq<NodeInfo>)
    ensures var x := FinishScaleUp(ses, ns).ses.st;
            ScaleUpMap in x.maps ==> ScaleUpMap in ses.st.maps && x.maps[ScaleUpMap] == ses.st.maps[ScaleUpMap]
  {
    hide UpdateClusterNodes, EnsureMapDeleted, EnsureWorkerDeleted, Grown;
  }

  lemma {:induction false} UpScaleUpMap(ses: Session, ns: seq<NodeInfo>)
    requires Grown(ses.st, ns).Some?
    ensures var x := ReconcileScaleUp(ses, ns).ses.st;
            ScaleUpMap in x.maps ==>
              || (ScaleUpMap in ses.st.maps && x.maps[ScaleUpMap] == ses.st.maps[ScaleUpMap])
              || x.maps[ScaleUpMap] == Trim(Grown(ses.st, ns).value)
  {
    hide EnsureScaleUpHostsCreated, EnsureWorkerCreated, FinishScaleUp, Grown, Trim;
    var o := EnsureScaleUpHostsCreated(ses, ns);
    var p := EnsureWorkerCreated(o.ses, ScaleUp, SCALE_UP_CMD);
    FinishScaleUpMap(p.ses.(phase := ScalingUp), ns);
  }

  lemma {:induction false} ProvisionHosts(ses: Session)
    requires InProvision(ses.phase)
    ensures var x := ReconcileProvision(ses).ses.st;
            HostsMap in x.maps ==>
              || (HostsMap in ses.st.maps && x.maps[HostsMap] == ses.st.maps[HostsMap])
              || x.maps[HostsMap] == RenderHosts(ses.st.spec.machine)
  {
    hide EnsureMapCreated, RunInit, RenderHosts, RenderConfig;
    var spec := ses.st.spec;
    var o := EnsureMapCreated(ses, HostsMap, RenderHosts(spec.machine));
    var p := EnsureMapCreated(o.ses, ConfigMap, RenderConfig(spec.version, spec.settings));
    InitKeeps(p.ses);
  }

  lemma {:induction false} MoveFromSpec(ses: Session, s: Session)
    requires HostsMap in ses.st.maps && ConfigMap in ses.st.maps && Makes(ses, Choose(ses.st), s)
    requires Choose(ses.st).MoveUp? ==>
               Choose(ses.st) == MoveUp(Missing(ses.st)) && Grown(ses.st, Missing(ses.st)).Some?
    ensures AllFromSpec(ses.st, s.st)
  {
    hide Choose, ReconcileScaleUp, ReconcileScaleDown, ReconcileUpgrade, Grown, RenderHosts, ScaleDownCmd, UpgradeCmd;
    hide UpdateVersion, Trim, Missing;
    match Choose(ses.st)
    case NoMove =>
    case MoveUp(ns) =>
      ScaleUpTouches(ses, ns);
      UpHosts(ses, ns);
      UpScaleUpMap(ses, ns);
    case MoveDown(ns) =>
      ScaleDownTouches(ses, ns);
      DownHosts(ses, ns);
    case MoveVersion(v) => UpgradeTouches(ses, v);
  }

  lemma {:induction false} NothingWritten(st: State)
    ensures AllFromSpec(st, st)
  {
    hide Grown, RenderHosts, Missing, Trim;
  }

  lemma {:induction false} LaterFromSpec(st: State, f: Faults)
    requires !st.deleting && !InProvision(Shown(st.phase)) && HostsMap in st.maps && ConfigMap in st.maps
    requires Choose(st).MoveUp? ==> Choose(st) == MoveUp(Missing(st)) && Grown(st, Missing(st)).Some?
    ensures AllFromSpec(st, Reconcile(st, f))
  {
    hide Choose, ReconcileNormal, Makes, Grown, RenderHosts, Missing, FromSpec;
    NothingWritten(st);
    if f.budget >= PREAMBLE {
      var ses := Open(st, f);
      NormalMoves(ses);
      var s := ReconcileNormal(ses).ses;
      if !SameBut(ses, s) {
        var from: Session :| SameBut(ses, from) && Makes(from, Choose(ses.st), s);
        MoveFromSpec(from, s);
      }
    }
  }

  lemma {:induction false} EarlyFromSpec(st: State, f: Faults)
    requires !st.deleting && InProvision(Shown(st.phase))
    ensures AllFromSpec(st, Reconcile(st, f))
  {
    hide ReconcileProvision, Grown, RenderHosts, Missing, Trim;
    NothingWritten(st);
    if f.budget >= PREAMBLE {
      var ses := Open(st, f);
      NormalIsProvision(ses);
      ProvisionTouches(ses);
      ProvisionHosts(ses);
    }
  }

  lemma {:induction false} ReconcileFromSpec(w: World, f: Faults)
    requires Agrees(w, false)
    ensures AllFromSpec(w.st, Reconcile(w.st, f))
  {
    hide *;
    NotDeleting(w, false);
    if InProvision(Shown(w.st.phase)) {
      EarlyFromSpec(w.st, f);
    } else {
      SoundPhase(w, false);
      ReadyIs(w, false);
      PhaseStays(w.st, f);
      if w.st.phase == Unknown {
        NothingWritten(w.st);
      } else if HostsMap in w.st.maps {
        FirstNeed(w);
        GrownRecords(w, false);
        LaterFromSpec(w.st, f);
      } else {
        StrandedIdle(w, f);
        NothingWritten(w.st);
      }
    }
  }

  // ----- along runs -----

  lemma {:induction false} RenderStaffs(spec: Spec)
    requires ValidSpec(spec)
    ensures Staffs(RenderHosts(spec.machine), spec.machine.masters)
  {
    hide Lists, PlainNode, RenderHosts;
    RenderedGroups(spec.machine);
  }

  lemma {:induction false} GrownStaffs(st: State)
    requires HostsMap in st.maps && GoodHosts(st.maps[HostsMap]) && ValidSpec(st.spec)
    requires Staffs(st.maps[HostsMap], st.spec.machine.masters)
    ensures Grown(st, Missing(st)).Some?
    ensures var text := Grown(st, Missing(st)).value;
            Staffs(text, st.spec.machine.masters) && Trim(text) == text
  {
    hide Lists, ReadWorkers, AddNodes, Trim, PlainNode, GoodHosts, ValidSpec, Entry, Additional, Recorded;
    var text, masters := st.maps[HostsMap], Names(st.spec.machine.masters);
    var s: Sheet :| Lists(text, s) && s.control == masters && s.etcd == masters;
    var ns := Missing(st);
    MissingFresh(text, st.spec);
    ScaleUpGrowsGroups(text, s, ns);
    ListedIsTrimmed(AddNodes(text, ns).value, s.Grow(ns));
    assert s.Grow(ns).control == masters && s.Grow(ns).etcd == masters;
  }

  lemma {:induction false} MissingFresh(text: string, spec: Spec)
    requires GoodHosts(text) && ValidSpec(spec)
    ensures var ns := Additional(Recorded(text), spec.machine.workers);
            && PlainNodes(ns) && DistinctNames(ns)
            && forall i | 0 <= i < |Recorded(text)| :: Recorded(text)[i].name !in Names(ns)
  {
    hide ReadWorkers, WellFormed, ValidSpec, PlainNode, NameSet;
    var d, r := spec.machine.workers, Recorded(text);
    SpecNodes(spec);
    AdditionalKeeps(r, d);
    AdditionalNames(r, d);
    FreshNames(r, Additional(r, d));
  }

  lemma {:induction false} SoundParts(w: World)
    requires Agrees(w, false)
    ensures ValidSpec(w.st.spec) && (HostsMap in w.st.maps ==> GoodHosts(w.st.maps[HostsMap]))
  {
    hide ValidSpec, GoodHosts, Canonical, InStep;
  }

  lemma {:induction false} ReconcileStaffs(w: World, f: Faults)
    requires Agrees(w, false) && Staffed(w.st)
    ensures Staffed(Reconcile(w.st, f))
  {
    assert HostsMap in w.st.maps ==> Staffs(w.st.maps[HostsMap], w.st.spec.machine.masters);
    hide *;
    ReconcileFromSpec(w, f);
    SoundParts(w);
    RenderStaffs(w.st.spec);
    if HostsMap in w.st.maps { GrownStaffs(w.st); } else { NoGrown(w.st); }
    StaffedFrom(w.st, Reconcile(w.st, f));
  }

  lemma {:induction false} NoGrown(st: State)
    requires HostsMap !in st.maps
    ensures Grown(st, Missing(st)).None?
  {
  }

  lemma {:induction false} StaffedFrom(st: State, x: State)
    requires AllFromSpec(st, x) && Staffed(st) && Staffs(RenderHosts(st.spec.machine), st.spec.machine.masters)
    requires var t := Grown(st, Missing(st));
             t.Some? ==> Staffs(t.value, st.spec.machine.masters) && Trim(t.value) == t.value
    ensures Staffed(x)
  {
    hide Staffs, Grown, Missing, RenderHosts, Trim;
    forall n | n in {HostsMap, ScaleUpMap} && n in x.maps ensures Staffs(x.maps[n], x.spec.machine.masters) {
      assert FromSpec(st, n, x.maps[n]);
    }
  }

  /** Every spec change keeps the masters' names. */
  ghost predicate KeepsMasters(masters: seq<string>, es: seq<Event>) {
    forall i | 0 <= i < |es| && es[i].SpecChanged? :: Names(es[i].spec.machine.masters) == masters
  }

  lemma {:induction false} EventStaffs(w: World, e: Event)
    requires Agrees(w, false) && Staffed(w.st) && Enabled(w, e) && !e.DeletionRequested?
    requires e.SpecChanged? ==> Names(e.spec.machine.masters) == Names(w.st.spec.machine.masters)
    ensures var x := Apply(w, e);
            Staffed(x.st) && Names(x.st.spec.machine.masters) == Names(w.st.spec.machine.masters)
  {
    if e.Reconciled? {
      hide *;
      ReconcileStaffs(w, e.faults);
      ReconcileFromSpec(w, e.faults);
      SameSpec(w.st, Reconcile(w.st, e.faults));
      ReconciledIs(w, e.faults);
    } else {
      hide Agrees, Lists, RecordedNameSet, CommandNodes, VersionIn, WithV, CommandVersion, Elements, ValidSpec, Names;
      hide Reconcile;
      if e.WorkerSucceeds? { SuccessState(w, e.action); }
      var x := Apply(w, e);
      assert x.st.maps == w.st.maps;
      forall n | n in {HostsMap, ScaleUpMap} && n in x.st.maps ensures Staffs(x.st.maps[n], x.st.spec.machine.masters) {
        assert Staffs(w.st.maps[n], w.st.spec.machine.masters);
      }
    }
  }

  lemma {:induction false} SameSpec(st: State, x: State)
    requires AllFromSpec(st, x)
    ensures x.spec == st.spec
  {
    hide FromSpec;
  }

  lemma {:induction false} RunStaffs(w: World, es: seq<Event>)
    requires Agrees(w, false) && Staffed(w.st) && Legal(w, es) && NoDeletion(es)
    requires KeepsMasters(Names(w.st.spec.machine.masters), es)
    ensures var x := Run(w, es);
            Staffed(x.st) && Names(x.st.spec.machine.masters) == Names(w.st.spec.machine.masters)
    decreases es
  {
    hide Agrees, Staffed, Apply, Enabled, Names;
    if es != [] {
      EventKeeps(w, es[0], false);
      EventStaffs(w, es[0]);
      RunStaffs(Apply(w, es[0]), es[1..]);
    }
  }

  /** In every state of every run from creation that keeps the masters, with any faults and any other spec
      changes: each inventory that a worker may mount makes exactly the masters the control plane and the
      etcd members, in their order, and its nodes are exactly the workers that the operator reads back. */
  lemma {:induction false} KubesprayIsToldTheMasters(w: World, es: seq<Event>, n: MapName)
    requires Initial(w) && Legal(w, es) && NoDeletion(es) && KeepsMasters(Names(w.st.spec.machine.masters), es)
    requires n in {HostsMap, ScaleUpMap} && n in Run(w, es).st.maps
    ensures var text, masters := Run(w, es).st.maps[n], Names(w.st.spec.machine.masters);
            && GroupOf(text, CONTROL_PLANE) == masters && GroupOf(text, ETCD) == masters
            && GroupOf(text, KUBE_NODE) == Names(Recorded(text))
  {
    InitialAgrees(w, false);
    assert Staffed(w.st);
    var x := Run(w, es);
    RunStaffs(w, es);
    hide *;
    var s := StaffedSheet(x.st, n);
    ListedGroups(x.st.maps[n], s);
    RecordIsNodes(x.st.maps[n], s);
  }

  lemma {:induction false} StaffedSheet(st: State, n: MapName) returns (s: Sheet)
    requires Staffed(st) && n in {HostsMap, ScaleUpMap} && n in st.maps
    ensures Lists(st.maps[n], s) && s.control == s.etcd == Names(st.spec.machine.masters)
  {
    hide Lists;
    assert Staffs(st.maps[n], st.spec.machine.masters);
    s :| Lists(st.maps[n], s) && s.control == Names(st.spec.machine.masters)
    && s.etcd == Names(st.spec.machine.masters);
  }
}
