/** With a fixed spec, no failing call and workers that succeed, a cluster reaches its spec from wherever
    faults left it: by provisioning, then at most one scale-up, one scale-down and one upgrade. */
module Convergence {
  import opened Text
  import opened Inventory
  import opened WorkerNodes
  import opened KubeVersion
  import opened CustomCluster
  import opened ClusterRuns
  import opened Agreement
  import opened RecordAgreement
  import opened ClusterSafety
  import opened Stages

  /** Enough calls for any reconcile, and both patches succeed. */
  predicate Clean(f: Faults) {
    f.budget >= 20 && f.metaOk && f.statusOk
  }

  predicate Fair(e: Event) {
    (e.Reconciled? && Clean(e.faults)) || e.WorkerSucceeds?
  }

  predicate NeedUp(w: World) { HostsMap in w.st.maps && !(D(w) <= R(w)) }

  predicate NeedDown(w: World) { HostsMap in w.st.maps && !(R(w) <= D(w)) }

  predicate NeedVersion(w: World) { Wanted(RecordedVersion(w.st), w.st.spec.version) }

  function StageOf(w: World): Stage {
    Stage(w.st.phase, w.st.finalizer, StatusOf(w.st, Init), StatusOf(w.st, ScaleUp), StatusOf(w.st, ScaleDown),
          StatusOf(w.st, Upgrade), NeedUp(w), NeedDown(w), NeedVersion(w))
  }

  predicate NoneFailed(st: State) {
    forall a | a in st.workers :: st.workers[a].status != Failed
  }

  /** In provisioning, or past it with an inventory and in a phase that reads it. */
  predicate OnItsWay(st: State) {
    InProvision(Shown(st.phase)) || (HasInfo(st.phase) && HostsMap in st.maps)
  }

  /** Any state that agreement allows, leftovers and half-finished steps included, in which no worker has
      failed, the phase is not Unknown and the inventory is not lost. */
  ghost predicate Sane(w: World) {
    Agrees(w, true) && NoneFailed(w.st) && OnItsWay(w.st)
  }

  /** At the spec: nothing is needed, nothing runs, and record and machines say the same. */
  ghost predicate Done(w: World) {
    && !InProvision(Shown(w.st.phase)) && HostsMap in w.st.maps && ConfigMap in w.st.maps
    && R(w) == D(w) == w.installed
    && !NeedVersion(w) && w.version == WithV(RecordedVersion(w.st))
    && forall a | a in w.st.workers :: w.st.workers[a].status == Succeeded
  }

  // ----- fault-free reconciles, computed -----

  lemma {:induction false} CleanScaleUp(ses: Session, ns: seq<NodeInfo>)
    requires ses.budget >= 12 && Grown(ses.st, ns).Some?
    ensures var o, st := ReconcileScaleUp(ses, ns), ses.st;
            var text := Grown(st, ns).value;
            && o.ses.finalizer == ses.finalizer
            && (ScaleUp !in st.workers ==>
                  && o.ses.phase == ScalingUp
                  && o.ses.st == AddWorker(if ScaleUpMap in st.maps then st else PutMap(st, ScaleUpMap, Trim(text)),
                                           ScaleUp, Worker(SCALE_UP_CMD, Active)))
            && (HasStatus(st, ScaleUp, Active) && ScaleUpMap in st.maps ==> o.ses.phase == ScalingUp && o.ses.st == st)
            && (HasStatus(st, ScaleUp, Succeeded) ==>
                  && o.ses.phase == Provisioned
                  && o.ses.st == DropWorker(DropMap(PutMap(st, HostsMap, text), ScaleUpMap), ScaleUp))
  {
    hide EnsureScaleUpHostsCreated, EnsureWorkerCreated, FinishScaleUp, Trim, Grown, Touched;
    ScaleUpTouches(ses, ns);
    if HasStatus(ses.st, ScaleUp, Succeeded) {
      var st, text := ses.st, Grown(ses.st, ns).value;
      var o := EnsureScaleUpHostsCreated(ses, ns);
      var p := EnsureWorkerCreated(o.ses, ScaleUp, SCALE_UP_CMD);
      SameGrown(st, o.ses.st, ns);
      CleanFinish(p.ses.(phase := ScalingUp), ns);
      assert DropMap(PutMap(PutMap(st, ScaleUpMap, Trim(text)), HostsMap, text), ScaleUpMap)
          == DropMap(PutMap(st, HostsMap, text), ScaleUpMap) by { DroppedAnyway(st, Trim(text), text); }
    }
  }

  lemma {:induction false} SameGrown(st: State, x: State, ns: seq<NodeInfo>)
    requires HostsMap in st.maps <==> HostsMap in x.maps
    requires HostsMap in st.maps ==> st.maps[HostsMap] == x.maps[HostsMap]
    ensures Grown(st, ns) == Grown(x, ns)
  {
    hide AddNodes;
  }

  lemma {:induction false} DroppedAnyway(st: State, a: string, b: string)
    ensures DropMap(PutMap(PutMap(st, ScaleUpMap, a), HostsMap, b), ScaleUpMap)
            == DropMap(PutMap(st, HostsMap, b), ScaleUpMap)
  {
    assert st.maps[ScaleUpMap := a][HostsMap := b] - {ScaleUpMap} == st.maps[HostsMap := b] - {ScaleUpMap};
  }

  lemma {:induction false} CleanFinish(ses: Session, ns: seq<NodeInfo>)
    requires ses.budget >= 7 && Grown(ses.st, ns).Some?
    ensures var o := FinishScaleUp(ses, ns);
            && o.ses.phase == Provisioned && o.ses.finalizer == ses.finalizer
            && o.ses.st == DropWorker(DropMap(PutMap(ses.st, HostsMap, Grown(ses.st, ns).value), ScaleUpMap), ScaleUp)
  {
    hide UpdateClusterNodes, EnsureMapDeleted, EnsureWorkerDeleted, Grown;
  }

  lemma {:induction false} CleanScaleDown(ses: Session, ns: seq<NodeInfo>)
    requires ses.budget >= 8
    ensures var o, st := ReconcileScaleDown(ses, ns), ses.st;
            && o.ses.finalizer == ses.finalizer
            && (ScaleDown !in st.workers ==>
                  o.ses.phase == ScalingDown && o.ses.st == AddWorker(st, ScaleDown, Worker(ScaleDownCmd(ns), Active)))
            && (HasStatus(st, ScaleDown, Active) ==> o.ses.phase == ScalingDown && o.ses.st == st)
            && (HasStatus(st, ScaleDown, Succeeded) ==>
                  && o.ses.phase == Provisioned
                  && o.ses.st == DropWorker(PutMap(st, HostsMap, RenderHosts(st.spec.machine)), ScaleDown))
  {
    hide EnsureWorkerCreated, RecreateClusterHosts, EnsureWorkerDeleted, RenderHosts, ScaleDownCmd;
  }

  lemma {:induction false} CleanUpgrade(ses: Session, version: string)
    requires ses.budget >= 6 && ConfigMap in ses.st.maps
    ensures var o, st := ReconcileUpgrade(ses, version), ses.st;
            && o.ses.finalizer == ses.finalizer
            && (Upgrade !in st.workers ==>
                  o.ses.phase == Upgrading && o.ses.st == AddWorker(st, Upgrade, Worker(UpgradeCmd(version), Active)))
            && (HasStatus(st, Upgrade, Active) ==> o.ses.phase == Upgrading && o.ses.st == st)
            && (HasStatus(st, Upgrade, Succeeded) ==>
                  && o.ses.phase == Provisioned
                  && o.ses.st == DropWorker(PutMap(st, ConfigMap, UpdateVersion(st.maps[ConfigMap], version)), Upgrade))
  {
    hide EnsureWorkerCreated, UpdateKubeVersion, EnsureWorkerDeleted, UpgradeCmd, UpdateVersion;
  }

  /** Both configmaps, the missing ones rendered from the spec. */
  function Furnished(st: State): State {
    var one := if HostsMap in st.maps then st else PutMap(st, HostsMap, Rendered(st.spec, HostsMap));
    if ConfigMap in st.maps then one else PutMap(one, ConfigMap, Rendered(st.spec, ConfigMap))
  }

  lemma {:induction false} CleanInit(ses: Session)
    requires ses.budget >= 7
    ensures var o := RunInit(ses);
            && o.ses.finalizer
            && (Init !in ses.st.workers ==>
                  o.ses.phase == Provisioning && o.ses.st == AddWorker(ses.st, Init, Worker(INIT_CMD, Active)))
            && (HasStatus(ses.st, Init, Active) ==> o.ses.phase == Provisioning && o.ses.st == ses.st)
            && (HasStatus(ses.st, Init, Succeeded) ==> o.ses.phase == Provisioned && o.ses.st == ses.st)
  {
  }

  lemma {:induction false} CleanProvision(ses: Session)
    requires ses.budget >= 11
    ensures var o, st := ReconcileProvision(ses), Furnished(ses.st);
            && o.ses.finalizer
            && (Init !in st.workers ==>
                  o.ses.phase == Provisioning && o.ses.st == AddWorker(st, Init, Worker(INIT_CMD, Active)))
            && (HasStatus(st, Init, Active) ==> o.ses.phase == Provisioning && o.ses.st == st)
            && (HasStatus(st, Init, Succeeded) ==> o.ses.phase == Provisioned && o.ses.st == st)
  {
    hide RunInit, RenderHosts, RenderConfig, EnsureMapCreated;
    var spec := ses.st.spec;
    var o := EnsureMapCreated(ses, HostsMap, RenderHosts(spec.machine));
    var p := EnsureMapCreated(o.ses, ConfigMap, RenderConfig(spec.version, spec.settings));
    CleanInit(p.ses);
  }

  /** A fault-free reconcile makes the chosen move in full. */
  lemma {:induction false} CleanReconcile(st: State, f: Faults) returns (from: Session, s: Session)
    requires !st.deleting && HasInfo(st.phase) && RecordedInfo(st).Some? && f.budget >= 6 && f.metaOk && f.statusOk
    ensures SameBut(Open(st, f), from) && from.budget + 6 >= f.budget && from.lost == f.lost
    ensures Makes(from, Choose(st), s)
    ensures s.finalizer == st.finalizer && s.st.phase == st.phase && s.st.finalizer == st.finalizer ==>
              Reconcile(st, f) == s.st.(phase := s.phase)
  {
    hide GetProvisionedClusterInfo, ReconcileScaleUp, ReconcileScaleDown, ReconcileUpgrade, Additional;
    hide UpgradeSupported;
    hide RecordedInfo;
    var ses := Open(st, f);
    var o := GetProvisionedClusterInfo(ses);
    from := o.ses;
    s := ReconcileNormal(ses).ses;
  }

  // ----- one fair event, as a move between stages -----

  lemma {:induction false} SaneReady(w: World)
    requires Sane(w) && !InProvision(Shown(w.st.phase))
    ensures Ready(w, true) && HasInfo(w.st.phase) && RecordedInfo(w.st).Some? && !w.st.deleting
    ensures ScalingOf(w).Fits() && VersioningOf(w).Fits() && HostsMap in w.st.maps && ConfigMap in w.st.maps
    ensures HasStatus(w.st, Init, Succeeded)
  {
    hide Agrees, Ready, ScalingOf, VersioningOf, ReadWorkers, VersionIn, Recorded, Scaling.Fits, Versioning.Fits;
    hide HasStatus;
    ReadyIs(w, true);
    ReadySolid(w, true);
    SolidIs(w.st);
    SoundHosts(w, true);
  }

  lemma {:induction false} SaneCoherent(w: World)
    requires Sane(w)
    ensures StageOf(w).Coherent()
  {
    hide Agrees, ScalingOf, VersioningOf, R, D, NeedVersion;
    Pictures(w);
    NeedsAre(w);
    if InProvision(Shown(w.st.phase)) { EarlyIs(w); } else { SaneReady(w); }
  }

  lemma {:induction false} EarlyIs(w: World)
    requires Agrees(w, true) && InProvision(Shown(w.st.phase))
    ensures ScaleUp !in w.st.workers && ScaleDown !in w.st.workers && Upgrade !in w.st.workers
    ensures ScaleUpMap !in w.st.maps && !w.st.deleting && ValidSpec(w.st.spec)
    ensures Init in w.st.workers ==> HostsMap in w.st.maps && ConfigMap in w.st.maps
  {
    hide GoodHosts, ValidSpec, Canonical, InStep;
  }

  /** The choice is the first need. */
  lemma {:induction false} FirstNeed(w: World)
    requires Ready(w, false)
    ensures RecordedInfo(w.st).Some? && !w.st.deleting
    ensures Choose(w.st) == if NeedUp(w) then MoveUp(Missing(w.st))
                            else if NeedDown(w) then MoveDown(Surplus(w.st))
                            else if NeedVersion(w) then MoveVersion(w.st.spec.version) else NoMove
  {
    ReadySolid(w, false);
    SolidIs(w.st);
    hide Additional, UpgradeSupported, Solid, Ready, R, D, ReadWorkers, VersionIn, Recorded, ScalingOf, VersioningOf;
    hide GoodHosts, Canonical, ValidSpec;
    ReadyIs(w, false);
    SoundHosts(w, false);
    Differences(w);
  }

  lemma {:induction false} LessReady(w: World)
    requires Ready(w, true)
    ensures Ready(w, false)
  {
    hide Solid, ScalingOf, VersioningOf;
  }

  /** How the recorded names may change on the way. */
  ghost predicate Approaches(w: World, x: World) {
    || R(x) == R(w)
    || (HostsMap !in w.st.maps && R(x) == D(w))
    || (NeedUp(w) && R(x) == R(w) + D(w))
    || (!NeedUp(w) && NeedDown(w) && R(x) == D(w))
  }

  /** The store follows the stage. */
  ghost predicate Follows(w: World, x: World, s: Stage) {
    && StageOf(x) == s && x.st.spec == w.st.spec && NoneFailed(x.st) && OnItsWay(x.st)
    && (s == StageOf(w) ==> x == w) && Approaches(w, x)
  }

  /** Needs depend on the two records and the spec. */
  lemma {:induction false} SameNeeds(w: World, x: World)
    requires HostsMap in w.st.maps && HostsMap in x.st.maps && w.st.maps[HostsMap] == x.st.maps[HostsMap]
    requires w.st.spec == x.st.spec
    ensures R(x) == R(w) && D(x) == D(w) && NeedUp(w) == NeedUp(x) && NeedDown(w) == NeedDown(x)
    ensures RecordedVersion(w.st) == RecordedVersion(x.st) ==> NeedVersion(w) == NeedVersion(x)
  {
    hide RecordedVersion, Wanted, R, D;
    SameHosts(w, x);
  }

  lemma {:induction false} SameRecordedVersion(st: State, x: State)
    requires ConfigMap in st.maps && ConfigMap in x.maps && st.maps[ConfigMap] == x.maps[ConfigMap]
    ensures RecordedVersion(st) == RecordedVersion(x)
  {
  }

  // The stage after each kind of write.

  lemma {:induction false} StageWorker(w: World, x: World, a: Action)
    requires x.st == w.st.(workers := x.st.workers) && forall b | b != a :: StatusOf(x.st, b) == StatusOf(w.st, b)
    ensures StageOf(x) == StageOf(w).With(a, StatusOf(x.st, a))
  {
    SameMaps(w, x);
    StageParts(w);
    StageParts(x);
    hide StageOf, StatusOf, NeedUp, NeedDown, NeedVersion, R, D, RecordedVersion;
  }

  lemma {:induction false} StatusAfter(st: State, k: Worker, a: Action)
    ensures var x := AddWorker(st, a, k);
            StatusOf(x, a) == Some(k.status) && forall b | b != a :: StatusOf(x, b) == StatusOf(st, b)
    ensures var x := DropWorker(st, a); StatusOf(x, a) == None && forall b | b != a :: StatusOf(x, b) == StatusOf(st, b)
  {
  }

  lemma {:induction false} StageWorkers(w: World, k: Worker, a: Action)
    ensures StageOf(w.(st := AddWorker(w.st, a, k))) == StageOf(w).With(a, Some(k.status))
    ensures StageOf(w.(st := DropWorker(w.st, a))) == StageOf(w).With(a, None)
  {
    hide StageOf, StatusOf, Stage.With;
    StatusAfter(w.st, k, a);
    StageWorker(w, w.(st := AddWorker(w.st, a, k)), a);
    StageWorker(w, w.(st := DropWorker(w.st, a)), a);
  }

  lemma {:induction false} StageMaps(w: World, text: string)
    ensures StageOf(w.(st := PutMap(w.st, ScaleUpMap, text))) == StageOf(w)
    ensures StageOf(w.(st := DropMap(w.st, ScaleUpMap))) == StageOf(w)
    ensures var n := RecordedNameSet(text);
            StageOf(w.(st := PutMap(w.st, HostsMap, text)))
            == StageOf(w).(needUp := !(D(w) <= n), needDown := !(n <= D(w)))
    ensures StageOf(w.(st := PutMap(w.st, ConfigMap, text)))
         == StageOf(w).(needVersion := Wanted(VersionIn(text), w.st.spec.version))
  {
    hide RecordedNameSet, NameSet, VersionIn, Wanted;
  }

  lemma {:induction false} StagePhase(w: World, p: Phase, fin: bool)
    ensures StageOf(w.(st := w.st.(phase := p, finalizer := fin))) == StageOf(w).(phase := p, finalizer := fin)
    ensures R(w.(st := w.st.(phase := p, finalizer := fin))) == R(w)
  {
    hide RecordedNameSet, NameSet, VersionIn, Wanted;
  }

  lemma {:induction false} StageParts(w: World)
    ensures var s := StageOf(w);
            && s.phase == w.st.phase && s.finalizer == w.st.finalizer && s.init == StatusOf(w.st, Init)
            && s.up == StatusOf(w.st, ScaleUp) && s.down == StatusOf(w.st, ScaleDown)
            && s.upgrade == StatusOf(w.st, Upgrade)
            && s.needUp == NeedUp(w) && s.needDown == NeedDown(w) && s.needVersion == NeedVersion(w)
            && s.Provisioning() == InProvision(Shown(w.st.phase))
  {
    hide StatusOf, NeedUp, NeedDown, NeedVersion;
  }

  // Nodes to add.

  function AfterUp(st: State, text: string): State {
    match StatusOf(st, ScaleUp)
    case None =>
      var one := if ScaleUpMap in st.maps then st else PutMap(st, ScaleUpMap, Trim(text));
      AddWorker(one, ScaleUp, Worker(SCALE_UP_CMD, Active)).(phase := ScalingUp)
    case Some(Succeeded) =>
      DropWorker(DropMap(PutMap(st, HostsMap, text), ScaleUpMap), ScaleUp).(phase := Provisioned)
    case _ => st.(phase := ScalingUp)
  }

  /** What a fault-free reconcile needs to see. */
  ghost predicate Readable(st: State, f: Faults) {
    Clean(f) && !st.deleting && HasInfo(st.phase) && RecordedInfo(st).Some?
  }

  lemma {:induction false} UpReconcile(st: State, f: Faults)
    requires Readable(st, f) && Choose(st) == MoveUp(Missing(st)) && Grown(st, Missing(st)).Some?
    requires StatusOf(st, ScaleUp) != Some(Failed) && (HasStatus(st, ScaleUp, Active) ==> ScaleUpMap in st.maps)
    ensures Reconcile(st, f) == AfterUp(st, Grown(st, Missing(st)).value)
  {
    OneOf(StatusOf(st, ScaleUp));
    hide Reconcile, RecordedInfo, ReconcileScaleUp, Trim, Grown, Missing, Choose;
    var from, s := CleanReconcile(st, f);
    CleanScaleUp(from, Missing(st));
  }

  lemma {:induction false} SaneReadable(w: World, f: Faults)
    requires Sane(w) && Clean(f) && !InProvision(Shown(w.st.phase))
    ensures Readable(w.st, f) && forall a :: StatusOf(w.st, a) != Some(Failed)
    ensures NeedUp(w) && ScaleUp in w.st.workers ==> ScaleUpMap in w.st.maps
  {
    assert NoneFailed(w.st);
    hide Agrees, NoneFailed, RecordedInfo, ScalingOf, VersioningOf, Clean, R, D, Ready, HasInfo, Sane, Versioning.Fits;
    SaneReady(w);
    Pictures(w);
    NeedsAre(w);
    NotFailed(w.st);
    OneOf(StatusOf(w.st, ScaleUp));
  }

  lemma {:induction false} NotFailed(st: State)
    requires NoneFailed(st)
    ensures forall a :: StatusOf(st, a) != Some(Failed)
  {
  }

  lemma {:induction false} UpStage(w: World, text: string)
    requires StageOf(w).Coherent() && NoneFailed(w.st) && !InProvision(Shown(w.st.phase)) && NeedUp(w)
    requires RecordedNameSet(text) == R(w) + D(w)
    ensures Follows(w, w.(st := AfterUp(w.st, text)), StageOf(w).Step())
  {
    StageParts(w);
    OneOf(StatusOf(w.st, ScaleUp));
    hide StageOf, R, D, NeedDown, NeedVersion, RecordedNameSet, AfterUp, Follows, Stage.Step, NoneFailed;
    if StatusOf(w.st, ScaleUp).None? {
      UpStarts(w, text);
    } else if StatusOf(w.st, ScaleUp) == Some(Succeeded) {
      UpFinishes(w, text);
    } else {
      UpRuns(w, text);
    }
  }

  lemma {:induction false} UpStarts(w: World, text: string)
    requires NoneFailed(w.st) && !InProvision(Shown(w.st.phase)) && NeedUp(w) && StatusOf(w.st, ScaleUp).None?
    ensures Follows(w, w.(st := AfterUp(w.st, text)), StageOf(w).Step())
  {
    StageParts(w);
    hide StageOf, R, D, NeedDown, NeedVersion, RecordedNameSet, Trim;
    StageMaps(w, Trim(text));
    var w1 := w.(st := if ScaleUpMap in w.st.maps then w.st else PutMap(w.st, ScaleUpMap, Trim(text)));
    StageWorkers(w1, Worker(SCALE_UP_CMD, Active), ScaleUp);
    var w2 := w1.(st := AddWorker(w1.st, ScaleUp, Worker(SCALE_UP_CMD, Active)));
    StagePhase(w2, ScalingUp, w2.st.finalizer);
    SameNeeds(w, w.(st := AfterUp(w.st, text)));
  }

  lemma {:induction false} UpRuns(w: World, text: string)
    requires NoneFailed(w.st) && !InProvision(Shown(w.st.phase)) && NeedUp(w) && StatusOf(w.st, ScaleUp) == Some(Active)
    ensures Follows(w, w.(st := AfterUp(w.st, text)), StageOf(w).Step())
  {
    StageParts(w);
    hide StageOf, R, D, NeedDown, NeedVersion, RecordedNameSet, Trim;
    StagePhase(w, ScalingUp, w.st.finalizer);
  }

  lemma {:induction false} UpFinishes(w: World, text: string)
    requires NoneFailed(w.st) && !InProvision(Shown(w.st.phase)) && NeedUp(w)
             && StatusOf(w.st, ScaleUp) == Some(Succeeded)
    requires RecordedNameSet(text) == R(w) + D(w)
    ensures Follows(w, w.(st := AfterUp(w.st, text)), StageOf(w).Step())
  {
    StageParts(w);
    NeedsIs(w);
    hide StageOf, R, D, NeedDown, NeedVersion, RecordedNameSet, Trim;
    StageMaps(w, text);
    var w1 := w.(st := PutMap(w.st, HostsMap, text));
    StageMaps(w1, text);
    var w2 := w1.(st := DropMap(w1.st, ScaleUpMap));
    StageWorkers(w2, Worker("", Active), ScaleUp);
    var w3 := w2.(st := DropWorker(w2.st, ScaleUp));
    StagePhase(w3, Provisioned, w3.st.finalizer);
    DesiredIs(w.(st := AfterUp(w.st, text)));
    DesiredSame(w, w1);
  }

  lemma {:induction false} NeedsIs(w: World)
    ensures HostsMap in w.st.maps ==> NeedUp(w) == !(D(w) <= R(w)) && NeedDown(w) == !(R(w) <= D(w))
  {
    hide R, D;
  }

  lemma {:induction false} UpMoves(w: World, f: Faults)
    requires Sane(w) && Clean(f) && !InProvision(Shown(w.st.phase)) && NeedUp(w)
    ensures Follows(w, w.(st := Reconcile(w.st, f)), StageOf(w).Step())
  {
    assert NoneFailed(w.st);
    hide *;
    SaneReadable(w, f);
    SaneReady(w);
    LessReady(w);
    FirstNeed(w);
    SaneCoherent(w);
    GrownRecords(w, true);
    UpReconcile(w.st, f);
    UpStage(w, Grown(w.st, Missing(w.st)).value);
  }

  // Nodes to remove.

  function AfterDown(st: State): State {
    match StatusOf(st, ScaleDown)
    case None => AddWorker(st, ScaleDown, Worker(ScaleDownCmd(Surplus(st)), Active)).(phase := ScalingDown)
    case Some(Succeeded) => DropWorker(PutMap(st, HostsMap, RenderHosts(st.spec.machine)),
                                       ScaleDown).(phase := Provisioned)
    case _ => st.(phase := ScalingDown)
  }

  lemma {:induction false} DownReconcile(st: State, f: Faults)
    requires Readable(st, f) && Choose(st) == MoveDown(Surplus(st)) && StatusOf(st, ScaleDown) != Some(Failed)
    ensures Reconcile(st, f) == AfterDown(st)
  {
    OneOf(StatusOf(st, ScaleDown));
    hide Reconcile, RecordedInfo, ReconcileScaleDown, Surplus, ScaleDownCmd, Choose, RenderHosts;
    var from, s := CleanReconcile(st, f);
    CleanScaleDown(from, Surplus(st));
  }

  lemma {:induction false} DownStage(w: World)
    requires StageOf(w).Coherent() && NoneFailed(w.st) && !InProvision(Shown(w.st.phase)) && !NeedUp(w) && NeedDown(w)
    requires RecordedNameSet(RenderHosts(w.st.spec.machine)) == D(w)
    ensures Follows(w, w.(st := AfterDown(w.st)), StageOf(w).Step())
  {
    StageParts(w);
    NeedsIs(w);
    OneOf(StatusOf(w.st, ScaleDown));
    hide StageOf, R, D, NeedUp, NeedVersion, RecordedNameSet, RenderHosts, ScaleDownCmd, Surplus, Stage.Coherent;
    var x := w.(st := AfterDown(w.st));
    match StatusOf(w.st, ScaleDown)
    case None =>
      var k := Worker(ScaleDownCmd(Surplus(w.st)), Active);
      StageWorkers(w, k, ScaleDown);
      var w1 := w.(st := AddWorker(w.st, ScaleDown, k));
      StagePhase(w1, ScalingDown, w1.st.finalizer);
      SameNeeds(w, x);
    case Some(st) =>
      if st == Succeeded {
        var text := RenderHosts(w.st.spec.machine);
        StageMaps(w, text);
        var w1 := w.(st := PutMap(w.st, HostsMap, text));
        StageWorkers(w1, Worker("", Active), ScaleDown);
        var w2 := w1.(st := DropWorker(w1.st, ScaleDown));
        StagePhase(w2, Provisioned, w2.st.finalizer);
        DesiredIs(x);
      } else {
        StagePhase(w, ScalingDown, w.st.finalizer);
      }
  }

  lemma {:induction false} DownRenders(w: World)
    requires Ready(w, false)
    ensures RecordedNameSet(RenderHosts(w.st.spec.machine)) == D(w)
  {
    ReadySolid(w, false);
    SolidIs(w.st);
    hide ValidSpec, RenderHosts, RecordedNameSet, NameSet, Solid, Ready, GoodHosts, Canonical, RenderConfig, VersionIn;
    RenderingRecords(w.st.spec);
  }

  lemma {:induction false} DownMoves(w: World, f: Faults)
    requires Sane(w) && Clean(f) && !InProvision(Shown(w.st.phase)) && !NeedUp(w) && NeedDown(w)
    ensures Follows(w, w.(st := Reconcile(w.st, f)), StageOf(w).Step())
  {
    assert NoneFailed(w.st);
    hide *;
    SaneReadable(w, f);
    SaneReady(w);
    LessReady(w);
    FirstNeed(w);
    SaneCoherent(w);
    DownReconcile(w.st, f);
    DownRenders(w);
    DownStage(w);
  }

  // A version to install.

  function AfterVersion(st: State): State
    requires ConfigMap in st.maps
  {
    match StatusOf(st, Upgrade)
    case None => AddWorker(st, Upgrade, Worker(UpgradeCmd(st.spec.version), Active)).(phase := Upgrading)
    case Some(Succeeded) =>
      DropWorker(PutMap(st, ConfigMap, UpdateVersion(st.maps[ConfigMap], st.spec.version)),
                 Upgrade).(phase := Provisioned)
    case _ => st.(phase := Upgrading)
  }

  lemma {:induction false} VersionReconcile(st: State, f: Faults)
    requires Readable(st, f) && Choose(st) == MoveVersion(st.spec.version) && StatusOf(st, Upgrade) != Some(Failed)
    requires ConfigMap in st.maps
    ensures Reconcile(st, f) == AfterVersion(st)
  {
    OneOf(StatusOf(st, Upgrade));
    hide Reconcile, RecordedInfo, ReconcileUpgrade, UpgradeCmd, UpdateVersion, Choose;
    var from, s := CleanReconcile(st, f);
    CleanUpgrade(from, st.spec.version);
  }

  lemma {:induction false} VersionStage(w: World)
    requires StageOf(w).Coherent() && NoneFailed(w.st) && !InProvision(Shown(w.st.phase))
    requires HostsMap in w.st.maps && ConfigMap in w.st.maps && !NeedUp(w) && !NeedDown(w) && NeedVersion(w)
    requires HasStatus(w.st, Upgrade, Succeeded) ==>
               VersionIn(UpdateVersion(w.st.maps[ConfigMap], w.st.spec.version)) == w.st.spec.version
    ensures Follows(w, w.(st := AfterVersion(w.st)), StageOf(w).Step())
  {
    StageParts(w);
    OneOf(StatusOf(w.st, Upgrade));
    hide StageOf, R, D, NeedUp, NeedDown, NeedVersion, UpgradeCmd, UpdateVersion, VersionIn, UpgradeSupported;
    hide Stage.Coherent;
    var x := w.(st := AfterVersion(w.st));
    SameNeeds(w, x);
    match StatusOf(w.st, Upgrade)
    case None =>
      var k := Worker(UpgradeCmd(w.st.spec.version), Active);
      StageWorkers(w, k, Upgrade);
      var w1 := w.(st := AddWorker(w.st, Upgrade, k));
      StagePhase(w1, Upgrading, w1.st.finalizer);
    case Some(st) =>
      if st == Succeeded {
        var text := UpdateVersion(w.st.maps[ConfigMap], w.st.spec.version);
        StageMaps(w, text);
        var w1 := w.(st := PutMap(w.st, ConfigMap, text));
        StageWorkers(w1, Worker("", Active), Upgrade);
        var w2 := w1.(st := DropWorker(w1.st, Upgrade));
        StagePhase(w2, Provisioned, w2.st.finalizer);
      } else {
        StagePhase(w, Upgrading, w.st.finalizer);
      }
  }

  lemma {:induction false} VersionRewritten(w: World)
    requires Ready(w, false) && ConfigMap in w.st.maps
    ensures VersionIn(UpdateVersion(w.st.maps[ConfigMap], w.st.spec.version)) == w.st.spec.version
  {
    hide *;
    ReadySolid(w, false);
    SolidIs(w.st);
    SpecVersion(w.st.spec);
    UpdateKeepsCanonical(w.st.maps[ConfigMap], w.st.spec.version);
  }

  lemma {:induction false} VersionMoves(w: World, f: Faults)
    requires Sane(w) && Clean(f) && !InProvision(Shown(w.st.phase)) && !NeedUp(w) && !NeedDown(w) && NeedVersion(w)
    ensures Follows(w, w.(st := Reconcile(w.st, f)), StageOf(w).Step())
  {
    assert NoneFailed(w.st);
    hide *;
    SaneReadable(w, f);
    SaneReady(w);
    LessReady(w);
    FirstNeed(w);
    SaneCoherent(w);
    VersionReconcile(w.st, f);
    VersionRewritten(w);
    VersionStage(w);
  }

  lemma {:induction false} IdleMoves(w: World, f: Faults)
    requires Sane(w) && Clean(f) && !InProvision(Shown(w.st.phase)) && !NeedUp(w) && !NeedDown(w) && !NeedVersion(w)
    ensures Follows(w, w.(st := Reconcile(w.st, f)), StageOf(w).Step())
  {
    SaneReady(w);
    LessReady(w);
    FirstNeed(w);
    hide Reconcile, RecordedInfo, Choose, Ready, NeedUp, NeedDown, NeedVersion;
    var from, s := CleanReconcile(w.st, f);
    assert Reconcile(w.st, f) == w.st;
  }

  // Provisioning.

  function AfterInit(st: State): State {
    match StatusOf(st, Init)
    case None => AddWorker(Furnished(st), Init, Worker(INIT_CMD, Active)).(phase := Provisioning, finalizer := true)
    case Some(Succeeded) => st.(phase := Provisioned, finalizer := true)
    case _ => st.(phase := Provisioning, finalizer := true)
  }

  lemma {:induction false} InitReconcile(w: World, f: Faults)
    requires Sane(w) && Clean(f) && InProvision(Shown(w.st.phase))
    ensures Reconcile(w.st, f) == AfterInit(w.st)
  {
    EarlyIs(w);
    OneOf(StatusOf(w.st, Init));
    hide Agrees, ReconcileProvision, Rendered, ValidSpec;
    CleanProvision(Open(w.st, f));
    NormalIsProvision(Open(w.st, f));
  }

  lemma {:induction false} InitStage(w: World)
    requires StageOf(w).Coherent() && NoneFailed(w.st) && InProvision(Shown(w.st.phase)) && ValidSpec(w.st.spec)
    requires Init in w.st.workers ==> HostsMap in w.st.maps
    ensures Follows(w, w.(st := AfterInit(w.st)), StageOf(w).Step())
  {
    StageParts(w);
    OneOf(StatusOf(w.st, Init));
    hide StageOf, R, D, NeedUp, NeedDown, NeedVersion, ValidSpec, AfterInit, Follows, Stage.Step, NoneFailed;
    if StatusOf(w.st, Init).None? { InitStarts(w); } else { InitRuns(w); }
  }

  lemma {:induction false} InitStarts(w: World)
    requires NoneFailed(w.st) && InProvision(Shown(w.st.phase)) && ValidSpec(w.st.spec) && StatusOf(w.st, Init).None?
    ensures Follows(w, w.(st := AfterInit(w.st)), StageOf(w).Step())
  {
    StageParts(w);
    hide StageOf, R, D, NeedUp, NeedDown, NeedVersion, ValidSpec, Furnished;
    FurnishedStage(w);
    var w1 := w.(st := Furnished(w.st));
    FurnishedRecord(w);
    StageWorkers(w1, Worker(INIT_CMD, Active), Init);
    var w2 := w1.(st := AddWorker(w1.st, Init, Worker(INIT_CMD, Active)));
    StagePhase(w2, Provisioning, true);
    SameMaps(w1, w2);
  }

  lemma {:induction false} InitRuns(w: World)
    requires NoneFailed(w.st) && InProvision(Shown(w.st.phase)) && HostsMap in w.st.maps
    requires StatusOf(w.st, Init) == Some(Active) || StatusOf(w.st, Init) == Some(Succeeded)
    ensures Follows(w, w.(st := AfterInit(w.st)), StageOf(w).Step())
  {
    StageParts(w);
    hide StageOf, R, D, NeedUp, NeedDown, NeedVersion, Furnished;
    StagePhase(w, if HasStatus(w.st, Init, Succeeded) then Provisioned else Provisioning, true);
  }

  /** Rendering what is missing from the spec leaves nothing to do about it. */
  lemma {:induction false} FurnishedStage(w: World)
    requires ValidSpec(w.st.spec)
    ensures StageOf(w.(st := Furnished(w.st))) == StageOf(w)
  {
    hide StageOf, ValidSpec, RenderHosts, RenderConfig, RecordedNameSet, NameSet, VersionIn, UpgradeSupported;
    var spec := w.st.spec;
    var w1 := w.(st := if HostsMap in w.st.maps then w.st else PutMap(w.st, HostsMap, Rendered(spec, HostsMap)));
    RenderingRecords(spec);
    StageMaps(w, Rendered(spec, HostsMap));
    StageMaps(w1, Rendered(spec, ConfigMap));
    StageParts(w);
    StageParts(w1);
    Unneeded(w);
    Unneeded(w1);
    DesiredIs(w);
  }

  lemma {:induction false} Unneeded(w: World)
    ensures HostsMap !in w.st.maps ==> !NeedUp(w) && !NeedDown(w)
    ensures ConfigMap !in w.st.maps ==> !NeedVersion(w)
  {
    hide UpgradeSupported;
    EmptyVersionUnsupported(w.st.spec.version);
  }

  lemma {:induction false} FurnishedRecord(w: World)
    requires ValidSpec(w.st.spec)
    ensures var x := w.(st := Furnished(w.st));
            && x.st.spec == w.st.spec && x.st.workers == w.st.workers && x.st.phase == w.st.phase
            && x.st.finalizer == w.st.finalizer && HostsMap in x.st.maps
            && R(x) == if HostsMap in w.st.maps then R(w) else D(w)
  {
    hide ValidSpec, RenderHosts, RenderConfig, RecordedNameSet, NameSet, GoodHosts, Canonical, VersionIn;
    RenderingRecords(w.st.spec);
  }

  lemma {:induction false} InitMoves(w: World, f: Faults)
    requires Sane(w) && Clean(f) && InProvision(Shown(w.st.phase))
    ensures Follows(w, w.(st := Reconcile(w.st, f)), StageOf(w).Step())
  {
    InitReconcile(w, f);
    SaneCoherent(w);
    EarlyIs(w);
    assert NoneFailed(w.st);
    hide *;
    InitStage(w);
  }

  lemma {:induction false} ReconcileMoves(w: World, f: Faults)
    requires Sane(w) && Clean(f)
    ensures var x := w.(st := Reconcile(w.st, f)); Sane(x) && Follows(w, x, StageOf(w).Step())
  {
    var x := w.(st := Reconcile(w.st, f));
    ReconcileKeeps(w, f, true);
    hide Reconcile, Agrees, NeedUp, NeedDown, NeedVersion, Stage.Step;
    if InProvision(Shown(w.st.phase)) {
      InitMoves(w, f);
    } else if NeedUp(w) {
      UpMoves(w, f);
    } else if NeedDown(w) {
      DownMoves(w, f);
    } else if NeedVersion(w) {
      VersionMoves(w, f);
    } else {
      IdleMoves(w, f);
    }
  }

  lemma {:induction false} SuccessMoves(w: World, a: Action)
    requires Sane(w) && Enabled(w, WorkerSucceeds(a))
    ensures StageOf(w).Worker(a) == Some(Active)
    ensures var x := Apply(w, WorkerSucceeds(a)); Sane(x) && Follows(w, x, StageOf(w).Succeed(a))
  {
    SuccessKeeps(w, a, true);
    SuccessState(w, a);
    SuccessSound(w.st, a);
    assert NoneFailed(w.st) && OnItsWay(w.st);
    hide Agrees, Apply, Enabled, Sound;
    SuccessStage(w, Apply(w, WorkerSucceeds(a)), a);
  }

  lemma {:induction false} SuccessStage(w: World, x: World, a: Action)
    requires HasStatus(w.st, a, Active) && a != Terminate && NoneFailed(w.st) && OnItsWay(w.st)
    requires x.st == SetStatus(w.st, a, Succeeded)
    ensures StageOf(w).Worker(a) == Some(Active) && Follows(w, x, StageOf(w).Succeed(a))
  {
    SameMaps(w, x);
    StageParts(w);
    SameWay(w.st, x.st);
    StageWorker(w, x, a);
    hide StageOf, NeedUp, NeedDown, NeedVersion, R, D, OnItsWay;
    assert StageOf(w).Worker(a) == Some(Active) && StageOf(w).Succeed(a).Worker(a) == Some(Succeeded);
  }

  lemma {:induction false} SameWay(st: State, x: State)
    requires OnItsWay(st) && x.phase == st.phase && x.maps == st.maps
    ensures OnItsWay(x)
  {
  }

  lemma {:induction false} SameMaps(w: World, x: World)
    requires x.st.maps == w.st.maps && x.st.spec == w.st.spec
    ensures R(x) == R(w) && D(x) == D(w) && RecordedVersion(x.st) == RecordedVersion(w.st)
    ensures NeedUp(x) == NeedUp(w) && NeedDown(x) == NeedDown(w) && NeedVersion(x) == NeedVersion(w)
  {
    hide RecordedNameSet, NameSet, VersionIn, Wanted;
  }

  // ----- the version to end with -----

  /** What the record comes to say: the desired version if it is supported from what is recorded, else
      what is recorded; and the desired version where nothing is recorded yet. */
  function EndVersion(w: World): string {
    var desired := w.st.spec.version;
    if ConfigMap in w.st.maps then Final(RecordedVersion(w.st), desired) else desired
  }

  lemma {:induction false} EndVersionStays(w: World, x: World)
    requires x.st.spec == w.st.spec && ConfigMap in w.st.maps && ConfigMap in x.st.maps
    requires x.st.maps[ConfigMap] == w.st.maps[ConfigMap]
    ensures EndVersion(x) == EndVersion(w)
  {
    SameRecordedVersion(w.st, x.st);
    hide RecordedVersion, Wanted;
  }

  lemma {:induction false} InitKeepsEnd(w: World)
    requires ValidSpec(w.st.spec)
    ensures EndVersion(w.(st := AfterInit(w.st))) == EndVersion(w)
  {
    hide ValidSpec, RenderHosts, RenderConfig, RecordedNameSet, NameSet, VersionIn, GoodHosts, Canonical, Wanted;
    RenderingRecords(w.st.spec);
  }

  lemma {:induction false} UpKeepsEnd(w: World, text: string)
    requires ConfigMap in w.st.maps
    ensures EndVersion(w.(st := AfterUp(w.st, text))) == EndVersion(w)
  {
    hide EndVersion, Trim;
    EndVersionStays(w, w.(st := AfterUp(w.st, text)));
  }

  lemma {:induction false} DownKeepsEnd(w: World)
    requires ConfigMap in w.st.maps
    ensures EndVersion(w.(st := AfterDown(w.st))) == EndVersion(w)
  {
    hide EndVersion, RenderHosts, ScaleDownCmd, Surplus;
    EndVersionStays(w, w.(st := AfterDown(w.st)));
  }

  lemma {:induction false} VersionKeepsEnd(w: World)
    requires ConfigMap in w.st.maps && NeedVersion(w)
    requires VersionIn(UpdateVersion(w.st.maps[ConfigMap], w.st.spec.version)) == w.st.spec.version
    ensures EndVersion(w.(st := AfterVersion(w.st))) == EndVersion(w)
  {
    hide VersionIn, UpdateVersion, UpgradeCmd, Wanted;
  }

  lemma {:induction false} IdleKeepsEnd(w: World, x: World)
    requires x.st.maps == w.st.maps && x.st.spec == w.st.spec
    ensures EndVersion(x) == EndVersion(w)
  {
    hide VersionIn, Wanted;
  }

  lemma {:induction false} MoveKeepsEnd(w: World, f: Faults)
    requires Sane(w) && Clean(f) && !InProvision(Shown(w.st.phase)) && (NeedUp(w) || NeedDown(w) || NeedVersion(w))
    ensures EndVersion(w.(st := Reconcile(w.st, f))) == EndVersion(w)
  {
    hide *;
    SaneReadable(w, f);
    SaneReady(w);
    LessReady(w);
    FirstNeed(w);
    if NeedUp(w) {
      GrownRecords(w, true);
      Statuses(w.st, ScaleUp);
      UpReconcile(w.st, f);
      UpKeepsEnd(w, Grown(w.st, Missing(w.st)).value);
    } else if NeedDown(w) {
      DownReconcile(w.st, f);
      DownKeepsEnd(w);
    } else {
      VersionReconcile(w.st, f);
      VersionRewritten(w);
      VersionKeepsEnd(w);
    }
  }

  lemma {:induction false} FairKeepsEnd(w: World, e: Event)
    requires Sane(w) && Enabled(w, e) && Fair(e)
    ensures EndVersion(Apply(w, e)) == EndVersion(w)
  {
    hide Sane, Clean, EndVersion, Apply, Enabled, Reconcile, StageOf, NeedUp, NeedDown, NeedVersion, Approaches;
    hide NoneFailed, OnItsWay;
    if e.WorkerSucceeds? {
      SuccessState(w, e.action);
      IdleKeepsEnd(w, Apply(w, e));
    } else {
      ReconciledIs(w, e.faults);
      if InProvision(Shown(w.st.phase)) {
        InitReconcile(w, e.faults);
        SaneEarly(w);
        InitKeepsEnd(w);
      } else if NeedUp(w) || NeedDown(w) || NeedVersion(w) {
        MoveKeepsEnd(w, e.faults);
      } else {
        IdleMoves(w, e.faults);
        StageParts(w);
      }
    }
  }

  lemma {:induction false} SaneEarly(w: World)
    requires Sane(w) && InProvision(Shown(w.st.phase))
    ensures ValidSpec(w.st.spec) && (Init in w.st.workers ==> HostsMap in w.st.maps && ConfigMap in w.st.maps)
  {
    hide Agrees, ValidSpec;
    EarlyIs(w);
  }

  // ----- whole runs -----

  ghost predicate FairRun(w: World, es: seq<Event>) {
    Legal(w, es) && forall i | 0 <= i < |es| :: Fair(es[i])
  }

  /** The workers started along a run, and the number of events that changed anything. */
  ghost function Starts(w: World, es: seq<Event>): seq<Action>
    requires Legal(w, es)
    decreases es
  {
    if es == [] then []
    else var x := Apply(w, es[0]); StageOf(x).NewSince(StageOf(w)) + Starts(x, es[1..])
  }

  ghost function Changes(w: World, es: seq<Event>): nat
    requires Legal(w, es)
    decreases es
  {
    if es == [] then 0
    else var x := Apply(w, es[0]); (if x == w then 0 else 1) + Changes(x, es[1..])
  }

  lemma {:induction false} FairEventAdvances(w: World, e: Event)
    requires Sane(w) && Enabled(w, e) && Fair(e)
    ensures var x := Apply(w, e);
            && Sane(x) && Advances(StageOf(w), StageOf(x)) && x.st.spec == w.st.spec
            && (StageOf(x) == StageOf(w) ==> x == w) && Approaches(w, x) && EndVersion(x) == EndVersion(w)
  {
    SaneCoherent(w);
    StepAdvances(StageOf(w));
    FairKeepsEnd(w, e);
    hide EndVersion, Sane, Enabled, Apply, StageOf, Clean, Advances, Approaches, NoneFailed, OnItsWay, Stage.Step;
    if e.Reconciled? {
      ReconcileMoves(w, e.faults);
      ReconciledIs(w, e.faults);
    } else {
      SuccessMoves(w, e.action);
      SucceedAdvances(StageOf(w), e.action);
    }
  }

  /** The recorded names along a run: `r`, then `r` and `d` together, then `d`. */
  ghost predicate OnTheWay(r: set<string>, d: set<string>, now: set<string>) {
    now == r || now == r + d || now == d
  }

  /** Along every fair run: the workers started so far and those that remain make up the plan, in its
      order; every change brings the end closer; what was left over stays; the phase and the version to
      end with stay; the recorded names move from the old set through the union to the desired set. */
  lemma {:induction false} FairRunConserves(w: World, es: seq<Event>)
    requires Sane(w) && FairRun(w, es)
    ensures var x := Run(w, es);
            && Sane(x) && x.st.spec == w.st.spec
            && Starts(w, es) + StageOf(x).Remaining() == StageOf(w).Remaining()
            && StageOf(x).Leftover() == StageOf(w).Leftover()
            && Changes(w, es) + StageOf(x).Rank() <= StageOf(w).Rank()
            && OnTheWay(R(w), D(w), R(x))
            && StageOf(x).EndPhase() == StageOf(w).EndPhase() && EndVersion(x) == EndVersion(w)
    decreases es
  {
    hide Stage.EndPhase, EndVersion, Sane, Apply, Enabled, R, D, Fair, StageOf, Stage.NewSince, Stage.Remaining;
    hide Stage.Leftover, Stage.Rank, NeedUp;
    hide NeedDown;
    if es != [] {
      var w1 := Apply(w, es[0]);
      FairEventAdvances(w, es[0]);
      FairRunConserves(w1, es[1..]);
      DesiredSame(w, w1);
    }
  }

  /** The scaling and upgrade workers that are there. */
  function Scalers(st: State): set<Action> {
    set a | a in {ScaleUp, ScaleDown, Upgrade} && a in st.workers
  }

  lemma {:induction false} DoneIsRankZero(w: World)
    requires Sane(w)
    ensures Done(w) <==> StageOf(w).Rank() == 0
    ensures Done(w) ==> StageOf(w).Leftover() == Scalers(w.st) && StageOf(w).Remaining() == []
    ensures Done(w) ==> w.st.phase == StageOf(w).EndPhase() && RecordedVersion(w.st) == EndVersion(w)
  {
    hide *;
    SaneCoherent(w);
    StageParts(w);
    RankZero(StageOf(w));
    ScalersAre(w);
    if Done(w) {
      DoneIsPast(w);
      DoneVersion(w);
    }
    if !InProvision(Shown(w.st.phase)) { DonePast(w); }
  }

  lemma {:induction false} ScalersAre(w: World)
    ensures Scalers(w.st) == set a | a in {ScaleUp, ScaleDown, Upgrade} && StageOf(w).Worker(a).Some?
  {
    StageParts(w);
    hide StageOf;
  }

  lemma {:induction false} DoneIsPast(w: World)
    requires Done(w)
    ensures !InProvision(Shown(w.st.phase))
  {
    hide R, D, NeedVersion, RecordedVersion;
  }

  lemma {:induction false} DoneVersion(w: World)
    requires Done(w)
    ensures RecordedVersion(w.st) == EndVersion(w)
  {
    hide R, D, RecordedVersion, Wanted, WithV;
  }

  lemma {:induction false} DonePast(w: World)
    requires Sane(w) && !InProvision(Shown(w.st.phase))
    ensures Done(w) <==> !NeedUp(w) && !NeedDown(w) && !NeedVersion(w) && StatusOf(w.st, Upgrade) != Some(Active)
  {
    hide Sane, Done, NeedUp, NeedDown, NeedVersion;
    if Done(w) { DoneNeedsNothing(w); }
    if !NeedUp(w) && !NeedDown(w) && !NeedVersion(w) && StatusOf(w.st, Upgrade) != Some(Active) { NoNeedIsDone(w); }
  }

  lemma {:induction false} DoneNeedsNothing(w: World)
    requires Done(w)
    ensures !NeedUp(w) && !NeedDown(w) && !NeedVersion(w) && StatusOf(w.st, Upgrade) != Some(Active)
  {
    hide R, D, RecordedVersion, Wanted, WithV;
  }

  lemma {:induction false} NoNeedIsDone(w: World)
    requires Sane(w) && !InProvision(Shown(w.st.phase))
    requires !NeedUp(w) && !NeedDown(w) && !NeedVersion(w) && StatusOf(w.st, Upgrade) != Some(Active)
    ensures Done(w)
  {
    assert NoneFailed(w.st);
    hide Sane, Agrees, R, D, NeedVersion, NeedUp, NeedDown, ScalingOf, VersioningOf, RecordedVersion, WithV, Ready;
    hide Scaling.Fits, Scaling.NeedUp, Scaling.NeedDown, Versioning.Need, HasInfo, InProvision, RecordedInfo;
    SaneReady(w);
    NeedsIs(w);
    Pictures(w);
    NeedsAre(w);
    NothingNeeded(ScalingOf(w));
    NeedVersionIs(w);
    NoTerminate(w);
    NoneActive(w.st);
  }

  lemma {:induction false} NoneActive(st: State)
    requires NoneFailed(st) && Terminate !in st.workers && HasStatus(st, Init, Succeeded)
    requires StatusOf(st, ScaleUp) != Some(Active) && StatusOf(st, ScaleDown) != Some(Active)
    requires StatusOf(st, Upgrade) != Some(Active)
    ensures forall a | a in st.workers :: st.workers[a].status == Succeeded
  {
    forall a | a in st.workers ensures st.workers[a].status == Succeeded {
      OneOf(StatusOf(st, a));
      match a case Init => case ScaleUp => case ScaleDown => case Upgrade => case Terminate =>
    }
  }

  lemma {:induction false} NeedVersionIs(w: World)
    ensures NeedVersion(w) <==> VersioningOf(w).Need()
  {
    hide VersioningOf, RecordedVersion, Wanted;
    NeedsAre(w);
  }

  lemma {:induction false} NoTerminate(w: World)
    requires Sane(w)
    ensures Terminate !in w.st.workers
  {
    hide GoodHosts, ValidSpec, Canonical, InStep;
  }

  /** A sane cluster that is not done can move: a reconcile changes it, or a worker can succeed. */
  lemma {:induction false} NeverStuck(w: World, f: Faults)
    requires Sane(w) && Clean(f)
    ensures Done(w) ==> Reconcile(w.st, f) == w.st
    ensures !Done(w) ==> Reconcile(w.st, f) != w.st || exists a :: Enabled(w, WorkerSucceeds(a))
  {
    SaneCoherent(w);
    RankZero(StageOf(w));
    DoneIsRankZero(w);
    ReconcileMoves(w, f);
    hide Reconcile, Sane, StageOf, Stage.Rank, Stage.Step, Stage.Coherent, Done, Approaches, Stage.Leftover;
    hide Stage.Remaining, Scalers;
    if !Done(w) && Reconcile(w.st, f) == w.st {
      var a :| a in WORKERS && StageOf(w).Worker(a) == Some(Active);
      ActiveEnabled(w, a);
    }
  }

  lemma {:induction false} ActiveEnabled(w: World, a: Action)
    requires Sane(w) && StageOf(w).Worker(a) == Some(Active)
    ensures Enabled(w, WorkerSucceeds(a))
  {
    StageParts(w);
    hide StageOf, Agrees, NeedUp, NeedDown, NeedVersion, ScalingOf, VersioningOf, R, D;
    if InProvision(Shown(w.st.phase)) {
      EarlyIs(w);
    } else {
      SaneReady(w);
      Pictures(w);
    }
  }

  /** What a fair run comes to: it changes at most `Rank` things and starts the workers of the plan in its
      order; it is either at the spec, which nothing changes any more, with the whole plan carried out,
      exactly those workers still there that were left over at the start, and the phase and the recorded
      version that the start determines; or it can go on. */
  ghost predicate Reaches(w: World, es: seq<Event>, f: Faults)
    requires Legal(w, es)
  {
    var x, s := Run(w, es), StageOf(w);
    && Changes(w, es) <= s.Rank() <= 12 && Starts(w, es) <= s.Remaining() && x.st.spec == w.st.spec
    && (Changes(w, es) == s.Rank() ==> Done(x))
    && (Done(x) ==> Reconcile(x.st, f) == x.st && Starts(w, es) == s.Remaining() && Scalers(x.st) == s.Leftover())
    && (Done(x) ==> x.st.phase == s.EndPhase() && RecordedVersion(x.st) == EndVersion(w))
    && (!Done(x) ==> Reconcile(x.st, f) != x.st || exists a :: Enabled(x, WorkerSucceeds(a)))
  }

  /** Main result. From every sane state, in or past provisioning, every fair run comes to its spec. */
  lemma {:induction false} FairRunConverges(w: World, es: seq<Event>, f: Faults)
    requires Sane(w) && FairRun(w, es) && Clean(f)
    ensures Reaches(w, es, f)
  {
    assert Legal(w, es);
    hide Sane, FairRun, Clean, Run, Legal, Changes, Starts, Done, Reconcile, StageOf, Stage.Remaining, Stage.Leftover;
    hide Scalers, Enabled, RecordedVersion, EndVersion, Stage.EndPhase;
    FairRunConserves(w, es);
    var x := Run(w, es);
    NeverStuck(x, f);
    DoneIsRankZero(x);
  }

  /** "Provisioned at the end" is not what the code does: a fair run that reaches the spec shows Provisioned
      if and only if there was something to do at its start or the phase was Provisioned already. */
  lemma {:induction false} EndsProvisionedIff(w: World, es: seq<Event>)
    requires Sane(w) && FairRun(w, es) && Done(Run(w, es))
    ensures Run(w, es).st.phase == Provisioned <==>
            || w.st.phase == Provisioned
            || InProvision(Shown(w.st.phase)) || NeedUp(w) || NeedDown(w) || NeedVersion(w)
  {
    assert Legal(w, es);
    hide *;
    FairRunConserves(w, es);
    DoneIsRankZero(Run(w, es));
    EndPhaseIs(w);
  }

  lemma {:induction false} EndPhaseIs(w: World)
    ensures var todo := InProvision(Shown(w.st.phase)) || NeedUp(w) || NeedDown(w) || NeedVersion(w);
            StageOf(w).EndPhase() == if todo then Provisioned else w.st.phase
  {
    StageParts(w);
    hide StageOf, NeedUp, NeedDown, NeedVersion;
  }

  /** A reconcile in which only the patch of the status is lost. */
  predicate LosesStatus(f: Faults) {
    f.budget >= 20 && f.metaOk && !f.statusOk
  }

  /** It does all the work and leaves the phase. */
  lemma {:induction false} StatusLost(st: State, f: Faults)
    requires LosesStatus(f) && !st.deleting && HasInfo(st.phase)
    ensures Reconcile(st, f) == Reconcile(st, f.(statusOk := true)).(phase := st.phase)
  {
    hide ReconcileNormal, OneStep;
    NormalStep(Open(st, f));
  }

  lemma {:induction false} StatusLostStage(w: World, f: Faults)
    requires Sane(w) && !InProvision(Shown(w.st.phase)) && LosesStatus(f)
    ensures var x := w.(st := Reconcile(w.st, f));
            && Sane(x) && x.st.phase == w.st.phase
            && StageOf(x) == StageOf(w).Step().(phase := w.st.phase)
  {
    var c := f.(statusOk := true);
    assert Agrees(w, true) && Clean(c);
    hide *;
    var y := w.(st := Reconcile(w.st, c));
    SaneReady(w);
    ReconcileKeeps(w, f, true);
    ReconcileMoves(w, c);
    StatusLost(w.st, f);
    FollowsIs(w, y, StageOf(w).Step());
    StageParts(w);
    StageParts(y);
    StepPast(StageOf(w));
    SaneReady(y);
    StagePhase(y, w.st.phase, y.st.finalizer);
    OtherPhase(y, w.st.phase);
  }

  lemma {:induction false} FollowsIs(w: World, x: World, s: Stage)
    requires Follows(w, x, s)
    ensures StageOf(x) == s
  {
    hide StageOf;
  }

  lemma {:induction false} StepPast(s: Stage)
    requires !s.Provisioning()
    ensures !s.Step().Provisioning()
  {
  }

  lemma {:induction false} OtherPhase(y: World, p: Phase)
    requires Sane(y) && HostsMap in y.st.maps && HasInfo(p) && Agrees(y.(st := y.st.(phase := p)), true)
    ensures Sane(y.(st := y.st.(phase := p)))
  {
    hide Agrees;
  }

  lemma {:induction false} RecordedStage(s: Stage)
    requires s.Coherent() && s.OneToRecord()
    ensures s.Step().(phase := s.phase).Rank() == 0 && s.Step().(phase := s.phase).EndPhase() == s.phase
  {
  }

  /** When the last worker is recorded and the patch of the status is lost, the cluster is at its spec and
      shows a phase as if the worker were still running; it does so for good. */
  lemma {:induction false} LostStatusStays(w: World, f: Faults)
    requires Sane(w) && StageOf(w).OneToRecord() && LosesStatus(f)
    ensures var x := w.(st := Reconcile(w.st, f));
            Done(x) && forall es | FairRun(x, es) :: Done(Run(x, es)) && Run(x, es).st.phase == w.st.phase
  {
    var x := w.(st := Reconcile(w.st, f));
    hide Reconcile, Sane, StageOf, Stage.OneToRecord, Done, Fair;
    forall es | FairRun(x, es) ensures Done(Run(x, es)) && Run(x, es).st.phase == w.st.phase {
      LostStatusRun(w, f, es);
    }
    assert FairRun(x, []) && Run(x, []) == x;
  }

  lemma {:induction false} LostStatusRun(w: World, f: Faults, es: seq<Event>)
    requires Sane(w) && StageOf(w).OneToRecord() && LosesStatus(f)
    requires FairRun(w.(st := Reconcile(w.st, f)), es)
    ensures var x := Run(w.(st := Reconcile(w.st, f)), es); Done(x) && x.st.phase == w.st.phase
  {
    var x := w.(st := Reconcile(w.st, f));
    assert Legal(x, es);
    OneToRecordPast(w);
    hide *;
    StageParts(w);
    SaneCoherent(w);
    StatusLostStage(w, f);
    RecordedStage(StageOf(w));
    FairRunConserves(x, es);
    DoneIsRankZero(Run(x, es));
  }

  lemma {:induction false} OneToRecordPast(w: World)
    requires StageOf(w).OneToRecord()
    ensures !InProvision(Shown(w.st.phase))
  {
    hide NeedUp, NeedDown, NeedVersion;
  }

  /** From wherever faults and harmless spec changes left a cluster since its creation: once calls and
      workers succeed, and unless a worker had failed, an upgrade had ended in Unknown or the inventory
      had been lost, every fair run comes to the spec. */
  lemma {:induction false} RecoversFromFaults(w: World, before: seq<Event>, es: seq<Event>, f: Faults)
    requires Initial(w) && Legal(w, before) && HarmlessRun(w, before) && NoDeletion(before)
    requires NoneFailed(Run(w, before).st) && OnItsWay(Run(w, before).st)
    requires FairRun(Run(w, before), es) && Clean(f)
    ensures Reaches(Run(w, before), es, f)
  {
    InitialAgrees(w, true);
    RunKeeps(w, before, true);
    var x := Run(w, before);
    assert Legal(x, es) && Sane(x);
    hide *;
    FairRunConverges(x, es, f);
  }
}
