/** Safety of whole runs that does not depend on a quiet spec: phases, which workers start and why,
    what a scale-down removes, how the recorded version moves, and deletion. */
module ClusterSafety {
  import opened Text
  import opened Inventory
  import opened WorkerNodes
  import opened KubeVersion
  import opened CustomCluster
  import opened ClusterRuns
  import opened RecordAgreement

  // ----- what each reconcile function can touch -----

  /** Nothing but the worker of `a` and the configmaps other than `kept` changed; a worker of `a` that
      is new is running `cmd`. */
  ghost predicate Touched(st: State, st': State, a: Action, cmd: string, kept: set<MapName>) {
    && st'.spec == st.spec && st'.deleting == st.deleting && st'.phase == st.phase && st'.finalizer == st.finalizer
    && (forall b | b != a ::
          (b in st'.workers <==> b in st.workers) && (b in st.workers ==> st'.workers[b] == st.workers[b]))
    && (a in st'.workers ==> st'.workers[a] == if a in st.workers then st.workers[a] else Worker(cmd, Active))
    && (forall m | m in kept :: (m in st'.maps <==> m in st.maps) && (m in st.maps ==> st'.maps[m] == st.maps[m]))
  }

  lemma {:induction false} TouchedBy(st: State, a: Action, cmd: string, kept: set<MapName>, name: MapName, text: string)
    ensures Touched(st, st, a, cmd, kept)
    ensures Touched(st, DropWorker(st, a), a, cmd, kept)
    ensures a !in st.workers ==> Touched(st, AddWorker(st, a, Worker(cmd, Active)), a, cmd, kept)
    ensures name !in kept ==>
              Touched(st, PutMap(st, name, text), a, cmd, kept) && Touched(st, DropMap(st, name), a, cmd, kept)
  {
    hide *;
    TouchedByWorker(st, a, cmd, kept);
    if name !in kept { TouchedByMap(st, a, cmd, kept, name, text); }
  }

  lemma {:induction false} TouchedByWorker(st: State, a: Action, cmd: string, kept: set<MapName>)
    ensures Touched(st, st, a, cmd, kept) && Touched(st, DropWorker(st, a), a, cmd, kept)
    ensures a !in st.workers ==> Touched(st, AddWorker(st, a, Worker(cmd, Active)), a, cmd, kept)
  {
  }

  lemma {:induction false} TouchedByMap(st: State, a: Action, cmd: string, kept: set<MapName>, name: MapName,
                                        text: string)
    requires name !in kept
    ensures Touched(st, PutMap(st, name, text), a, cmd, kept) && Touched(st, DropMap(st, name), a, cmd, kept)
  {
  }

  lemma {:induction false} TouchedThen(st: State, mid: State, st': State, a: Action, cmd: string, kept: set<MapName>)
    requires Touched(st, mid, a, cmd, kept) && Touched(mid, st', a, cmd, kept) && (a in st.workers ==> a in mid.workers)
    ensures Touched(st, st', a, cmd, kept)
  {
  }

  lemma {:induction false} ScaleUpTouches(ses: Session, ns: seq<NodeInfo>)
    ensures var s := ReconcileScaleUp(ses, ns).ses;
            Touched(ses.st, s.st, ScaleUp, SCALE_UP_CMD, {ConfigMap}) && s.phase in {ses.phase, ScalingUp, Provisioned}
            && s.finalizer == ses.finalizer
  {
    hide EnsureScaleUpHostsCreated, EnsureWorkerCreated, FinishScaleUp, Trim, Grown, Touched;
    var grown := if Grown(ses.st, ns).Some? then Trim(Grown(ses.st, ns).value) else "";
    TouchedBy(ses.st, ScaleUp, SCALE_UP_CMD, {ConfigMap}, ScaleUpMap, grown);
    var o := EnsureScaleUpHostsCreated(ses, ns);
    if o.Stop? { return; }
    TouchedBy(o.ses.st, ScaleUp, SCALE_UP_CMD, {ConfigMap}, ScaleUpMap, "");
    var p := EnsureWorkerCreated(o.ses, ScaleUp, SCALE_UP_CMD);
    TouchedThen(ses.st, o.ses.st, p.ses.st, ScaleUp, SCALE_UP_CMD, {ConfigMap});
    if p.Stop? { return; }
    var s := p.ses.(phase := ScalingUp);
    FinishScaleUpTouches(s, ns);
    TouchedThen(ses.st, s.st, FinishScaleUp(s, ns).ses.st, ScaleUp, SCALE_UP_CMD, {ConfigMap});
  }

  lemma {:induction false} FinishScaleUpTouches(ses: Session, ns: seq<NodeInfo>)
    requires ScaleUp in ses.st.workers
    ensures var s := FinishScaleUp(ses, ns).ses;
            Touched(ses.st, s.st, ScaleUp, SCALE_UP_CMD, {ConfigMap}) && s.phase in {ses.phase, Provisioned}
            && s.finalizer == ses.finalizer
  {
    hide UpdateClusterNodes, EnsureMapDeleted, EnsureWorkerDeleted, Grown;
  }

  lemma {:induction false} ScaleDownTouches(ses: Session, ns: seq<NodeInfo>)
    ensures var s := ReconcileScaleDown(ses, ns).ses;
            Touched(ses.st, s.st, ScaleDown, ScaleDownCmd(ns), {ConfigMap, ScaleUpMap})
            && s.phase in {ses.phase, ScalingDown, Provisioned} && s.finalizer == ses.finalizer
  {
    hide EnsureWorkerCreated, RecreateClusterHosts, EnsureWorkerDeleted, RenderHosts, ScaleDownCmd, Touched;
    var cmd, kept := ScaleDownCmd(ns), {ConfigMap, ScaleUpMap};
    TouchedBy(ses.st, ScaleDown, cmd, kept, HostsMap, RenderHosts(ses.st.spec.machine));
    var o := EnsureWorkerCreated(ses, ScaleDown, cmd);
    if o.Stop? || o.value.status != Succeeded { return; }
    var p := RecreateClusterHosts(o.ses.(phase := ScalingDown));
    if p.Stop? { return; }
    TouchedBy(p.ses.st, ScaleDown, cmd, kept, HostsMap, "");
    TouchedThen(ses.st, p.ses.st, DropWorker(p.ses.st, ScaleDown), ScaleDown, cmd, kept);
  }

  lemma {:induction false} UpgradeTouches(ses: Session, version: string)
    ensures var s := ReconcileUpgrade(ses, version).ses;
            && Touched(ses.st, s.st, Upgrade, UpgradeCmd(version), {HostsMap, ScaleUpMap})
            && s.phase in {ses.phase, Upgrading, Provisioned, Unknown} && s.finalizer == ses.finalizer
            && (ConfigMap in ses.st.maps ==>
                  ConfigMap in s.st.maps
                  && s.st.maps[ConfigMap] in {ses.st.maps[ConfigMap], UpdateVersion(ses.st.maps[ConfigMap], version)})
  {
    hide EnsureWorkerCreated, UpdateKubeVersion, EnsureWorkerDeleted, UpgradeCmd, UpdateVersion, Touched;
    var cmd, kept := UpgradeCmd(version), {HostsMap, ScaleUpMap};
    var text := if ConfigMap in ses.st.maps then UpdateVersion(ses.st.maps[ConfigMap], version) else "";
    TouchedBy(ses.st, Upgrade, cmd, kept, ConfigMap, text);
    var o := EnsureWorkerCreated(ses, Upgrade, cmd);
    if o.Stop? || o.value.status != Succeeded { return; }
    var p := UpdateKubeVersion(o.ses.(phase := Upgrading), version);
    if p.Stop? { return; }
    TouchedBy(p.ses.st, Upgrade, cmd, kept, ConfigMap, "");
    TouchedThen(ses.st, p.ses.st, DropWorker(p.ses.st, Upgrade), Upgrade, cmd, kept);
  }

  lemma {:induction false} ProvisionTouches(ses: Session)
    requires InProvision(ses.phase)
    ensures var s := ReconcileProvision(ses).ses;
            && Touched(ses.st, s.st, Init, INIT_CMD, {ScaleUpMap}) && (InProvision(s.phase) || s.phase == Provisioned)
            && (ConfigMap in ses.st.maps ==> ConfigMap in s.st.maps && s.st.maps[ConfigMap] == ses.st.maps[ConfigMap])
            && (ses.finalizer ==> s.finalizer)
  {
    hide EnsureMapCreated, RunInit, RenderHosts, RenderConfig, Touched;
    var hosts, config := RenderHosts(ses.st.spec.machine), RenderConfig(ses.st.spec.version, ses.st.spec.settings);
    TouchedBy(ses.st, Init, INIT_CMD, {ScaleUpMap}, HostsMap, hosts);
    var o := EnsureMapCreated(ses, HostsMap, hosts);
    if o.Stop? { return; }
    TouchedBy(o.ses.st, Init, INIT_CMD, {ScaleUpMap}, ConfigMap, config);
    var p := EnsureMapCreated(o.ses, ConfigMap, config);
    TouchedThen(ses.st, o.ses.st, p.ses.st, Init, INIT_CMD, {ScaleUpMap});
    if p.Stop? { return; }
    RunInitTouches(p.ses);
    TouchedThen(ses.st, p.ses.st, RunInit(p.ses).ses.st, Init, INIT_CMD, {ScaleUpMap});
  }

  lemma {:induction false} RunInitTouches(ses: Session)
    requires InProvision(ses.phase)
    ensures var s := RunInit(ses).ses;
            Touched(ses.st, s.st, Init, INIT_CMD, {ScaleUpMap}) && s.st.maps == ses.st.maps
            && (InProvision(s.phase) || s.phase == Provisioned) && (ses.finalizer ==> s.finalizer)
  {
    hide EnsureWorkerCreated, EnsureFinalizerAndOwnerRef, Get, Touched;
    TouchedBy(ses.st, Init, INIT_CMD, {ScaleUpMap}, HostsMap, "");
  }

  /** Which step a reconcile past provisioning takes. */
  datatype Move = NoMove | MoveUp(ns: seq<NodeInfo>) | MoveDown(ns: seq<NodeInfo>) | MoveVersion(version: string)

  function Choose(st: State): Move {
    match RecordedInfo(st)
    case None => NoMove
    case Some(info) =>
      var desired := st.spec.machine.workers;
      var up, down := Additional(info.workers, desired), Additional(desired, info.workers);
      if up != [] then MoveUp(up)
      else if down != [] then MoveDown(down)
      else if st.spec.version == info.version || !UpgradeSupported(info.version, st.spec.version) then NoMove
      else MoveVersion(st.spec.version)
  }

  /** The same session, some calls later. */
  predicate SameBut(ses: Session, s: Session) {
    s.st == ses.st && s.phase == ses.phase && s.finalizer == ses.finalizer
  }

  /** A reconcile that reads the record and makes the chosen move, or does nothing. */
  ghost predicate Moved(ses: Session, s: Session) {
    || SameBut(ses, s)
    || exists from: Session :: SameBut(ses, from) && Makes(from, Choose(ses.st), s)
  }

  predicate Makes(from: Session, m: Move, s: Session) {
    match m
    case NoMove => s == from
    case MoveUp(ns) => s == ReconcileScaleUp(from, ns).ses
    case MoveDown(ns) => s == ReconcileScaleDown(from, ns).ses
    case MoveVersion(v) => s == ReconcileUpgrade(from, v).ses
  }

  lemma {:induction false} NormalMoves(ses: Session)
    requires !InProvision(ses.phase)
    ensures Moved(ses, ReconcileNormal(ses).ses)
    ensures !HasInfo(ses.phase) ==> ReconcileNormal(ses) == Go(ses, ())
  {
    hide GetProvisionedClusterInfo, ReconcileScaleUp, ReconcileScaleDown, ReconcileUpgrade, RecordedInfo, Additional;
    hide UpgradeSupported;
    EmptyVersionUnsupported(ses.st.spec.version);
    if HasInfo(ses.phase) {
      var o := GetProvisionedClusterInfo(ses);
      if o.Go? { assert Makes(o.ses, Choose(ses.st), ReconcileNormal(ses).ses); }
    }
  }

  // ----- one reconcile -----

  /** What one reconcile of a cluster that is not being deleted can do. */
  ghost predicate OneStep(st: State, st': State) {
    && st'.spec == st.spec && st'.deleting == st.deleting
    && (st.phase == Unknown ==> st' == st)
    && (!InProvision(Shown(st.phase)) ==> !InProvision(Shown(st'.phase)))
    && (forall a | a !in st.workers && a in st'.workers :: Started(st, a, st'.workers[a]))
    && (ConfigMap in st.maps ==> ConfigMap in st'.maps && VersionMove(st, st'.maps[ConfigMap]))
    && (Terminate in st.workers ==> Terminate in st'.workers && st'.workers[Terminate] == st.workers[Terminate])
    && (st.finalizer ==> st'.finalizer)
  }

  /** Why a worker was started. */
  ghost predicate Started(st: State, a: Action, w: Worker) {
    match a
    case Init => InProvision(Shown(st.phase)) && w == Worker(INIT_CMD, Active)
    case ScaleUp => HasInfo(st.phase) && Choose(st).MoveUp? && w == Worker(SCALE_UP_CMD, Active)
    case ScaleDown => HasInfo(st.phase) && Choose(st).MoveDown? && w == Worker(ScaleDownCmd(Choose(st).ns), Active)
    case Upgrade => HasInfo(st.phase) && Choose(st).MoveVersion? && w == Worker(UpgradeCmd(st.spec.version), Active)
    case Terminate => false
  }

  ghost predicate VersionMove(st: State, text: string)
    requires ConfigMap in st.maps
  {
    || text == st.maps[ConfigMap]
    || (Choose(st).MoveVersion? && text == UpdateVersion(st.maps[ConfigMap], st.spec.version))
  }

  lemma {:induction false} NormalStep(ses: Session)
    requires !InProvision(ses.phase) && ses.phase == ses.st.phase && !ses.st.deleting && ses.phase != Unset
    ensures var s := ReconcileNormal(ses).ses;
            && OneStep(ses.st, s.st) && !InProvision(s.phase) && s.st.phase == ses.st.phase && s.phase != Unset
            && s.finalizer == ses.finalizer && (ses.phase == Unknown ==> s.phase == Unknown && s.st == ses.st)
  {
    hide ReconcileNormal, ReconcileScaleUp, ReconcileScaleDown, ReconcileUpgrade, RecordedInfo, Additional;
    hide UpgradeSupported, ScaleDownCmd, UpgradeCmd, UpdateVersion;
    NormalMoves(ses);
    var s := ReconcileNormal(ses).ses;
    if !SameBut(ses, s) {
      var from: Session :| SameBut(ses, from) && Makes(from, Choose(ses.st), s);
      match Choose(ses.st)
      case NoMove =>
      case MoveUp(ns) => ScaleUpTouches(from, ns);
      case MoveDown(ns) => ScaleDownTouches(from, ns);
      case MoveVersion(v) => UpgradeTouches(from, v);
    }
  }

  /** When only the patch of the metadata is lost, a reconcile does the same and leaves the stored finalizer. */
  lemma {:induction false} MetadataLost(st: State, f: Faults)
    requires !st.deleting && !f.metaOk
    ensures Reconcile(st, f) == Reconcile(st, f.(metaOk := true)).(finalizer := st.finalizer)
  {
    hide ReconcileNormal, ReconcileProvision, Choose, ScaleDownCmd, UpgradeCmd, UpdateVersion, ReconcileScaleUp;
    hide ReconcileScaleDown, ReconcileUpgrade;
    if f.budget >= PREAMBLE {
      var ses := Open(st, f);
      if InProvision(ses.phase) {
        ProvisionTouches(ses);
        NormalIsProvision(ses);
      } else {
        NormalMoves(ses);
        var s := ReconcileNormal(ses).ses;
        if !SameBut(ses, s) {
          var from: Session :| SameBut(ses, from) && Makes(from, Choose(ses.st), s);
          match Choose(ses.st)
          case NoMove =>
          case MoveUp(ns) => ScaleUpTouches(from, ns);
          case MoveDown(ns) => ScaleDownTouches(from, ns);
          case MoveVersion(v) => UpgradeTouches(from, v);
        }
      }
    }
  }

  lemma {:induction false} ReconcileSteps(st: State, f: Faults)
    requires !st.deleting
    ensures OneStep(st, Reconcile(st, f))
  {
    hide ReconcileNormal, ReconcileProvision, Choose, ScaleDownCmd, UpgradeCmd, UpdateVersion;
    if f.budget >= PREAMBLE {
      var ses := Open(st, f);
      if InProvision(ses.phase) {
        ProvisionTouches(ses);
        NormalIsProvision(ses);
      } else {
        NormalStep(ses);
      }
    }
  }

  // ----- phases -----

  /** Past provisioning a cluster that is not being deleted never provisions again; Unknown is
      absorbing: no reconcile changes anything any more. */
  ghost predicate Forward(w: World, w': World) {
    && !w'.st.deleting
    && (!InProvision(Shown(w.st.phase)) ==> !InProvision(Shown(w'.st.phase)))
    && (w.st.phase == Unknown ==>
          w'.st.phase == Unknown && w'.st.maps == w.st.maps && w'.st.workers.Keys <= w.st.workers.Keys)
  }

  lemma {:induction false} EventForward(w: World, e: Event)
    requires !w.st.deleting && Enabled(w, e) && !e.DeletionRequested?
    ensures Forward(w, Apply(w, e))
  {
    hide Reconcile, ValidSpec, RecordedNameSet, CommandNodes, CommandVersion, VersionIn, WithV, Elements;
    if e.Reconciled? { ReconcileSteps(w.st, e.faults); }
  }

  lemma {:induction false} PhasesMoveForward(w: World, es: seq<Event>)
    requires !w.st.deleting && Legal(w, es) && NoDeletion(es)
    ensures Forward(w, Run(w, es))
    decreases es
  {
    hide Apply, Enabled;
    if es != [] {
      EventForward(w, es[0]);
      PhasesMoveForward(Apply(w, es[0]), es[1..]);
    }
  }

  /** A scaling or upgrade worker starts only in a phase that has a record, and for the first
      difference in the order up, down, version; an init worker only while provisioning. */
  lemma {:induction false} WorkersStartForAReason(st: State, f: Faults, a: Action)
    requires !st.deleting && a !in st.workers && a in Reconcile(st, f).workers
    ensures a != Terminate && Started(st, a, Reconcile(st, f).workers[a])
    ensures a != Init ==> st.phase in {Provisioned, ScalingUp, ScalingDown, Upgrading}
  {
    hide Reconcile, Choose, ScaleDownCmd, UpgradeCmd;
    ReconcileSteps(st, f);
  }

  // ----- what a scale-down removes -----

  /** In every reachable state, with any spec changes and failures: a scale-down command names exactly
      the recorded workers missing from the spec, in recorded order, so never a wanted host, and it is
      issued only when every desired worker is already recorded. */
  lemma {:induction false} ScaleDownRemovesSurplus(w: World, es: seq<Event>, f: Faults)
    requires Initial(w) && Legal(w, es) && NoDeletion(es)
    requires var st := Run(w, es).st; ScaleDown !in st.workers && ScaleDown in Reconcile(st, f).workers
    ensures var st := Run(w, es).st;
            var named := CommandNodes(Reconcile(st, f).workers[ScaleDown].cmd);
            && HostsMap in st.maps && named == Names(Surplus(st))
            && (forall n | n in named :: n !in DesiredNames(st))
            && DesiredNames(st) <= RecordedNameSet(st.maps[HostsMap])
  {
    InitialAgrees(w, false);
    RunKeeps(w, es, false);
    SurplusNamed(Run(w, es), f);
  }

  lemma {:induction false} SurplusNamed(w: World, f: Faults)
    requires Agrees(w, false) && ScaleDown !in w.st.workers && ScaleDown in Reconcile(w.st, f).workers
    ensures var st := w.st;
            var named := CommandNodes(Reconcile(st, f).workers[ScaleDown].cmd);
            && HostsMap in st.maps && named == Names(Surplus(st))
            && (forall n | n in named :: n !in DesiredNames(st))
            && DesiredNames(st) <= RecordedNameSet(st.maps[HostsMap])
  {
    hide Reconcile, ScaleDownCmd, CommandNodes, Additional, Recorded, ReadWorkers, NameSet, Agrees, UpgradeSupported;
    hide VersionIn, Names;
    var st := w.st;
    NotDeleting(w, false);
    WorkersStartForAReason(st, f, ScaleDown);
    SoundHosts(w, false);
    Differences(w);
    assert Choose(st).ns == Surplus(st);
    SoundGood(w, false);
    RemovalNames(st.maps[HostsMap], st.spec);
    assert forall n | n in Names(Surplus(st)) :: n in Elements(Names(Surplus(st)));
  }

  lemma {:induction false} SoundGood(w: World, q: bool)
    requires Agrees(w, q)
    ensures HostsMap in w.st.maps ==> GoodHosts(w.st.maps[HostsMap])
    ensures ConfigMap in w.st.maps ==> Canonical(w.st.maps[ConfigMap])
    ensures ValidSpec(w.st.spec)
  {
    hide GoodHosts, Canonical, ValidSpec, InStep;
  }

  // ----- how the recorded version moves -----

  /** The number of times the recorded version changed. */
  ghost function Upgrades(w: World, es: seq<Event>): nat
    requires Legal(w, es)
    decreases es
  {
    if es == [] then 0
    else
      var w' := Apply(w, es[0]);
      (if RecordedVersion(w'.st) == RecordedVersion(w.st) then 0 else 1) + Upgrades(w', es[1..])
  }

  lemma {:induction false} EventVersion(w: World, e: Event)
    requires Agrees(w, false) && Enabled(w, e) && !e.DeletionRequested? && ConfigMap in w.st.maps
    ensures var st' := Apply(w, e).st;
            && ConfigMap in st'.maps
            && (RecordedVersion(st') == RecordedVersion(w.st)
                || UpgradeSupported(RecordedVersion(w.st), RecordedVersion(st')))
  {
    hide Reconcile, VersionIn, UpdateVersion, UpgradeSupported, Agrees, Additional, ReadWorkers, RecordedNameSet;
    hide CommandNodes, CommandVersion, WithV, Elements, ValidSpec;
    if e.Reconciled? {
      NotDeleting(w, false);
      ReconcileSteps(w.st, e.faults);
      SoundGood(w, false);
      SpecVersion(w.st.spec);
      UpdateKeepsCanonical(w.st.maps[ConfigMap], w.st.spec.version);
    }
  }

  lemma {:induction false} SupportedDrift(v: string, v': string)
    requires UpgradeSupported(v, v')
    ensures Parse(v).Some? && Parse(v').Some? && Parse(v).value.major == Parse(v').value.major
    ensures -1 <= Parse(v').value.minor - Parse(v).value.minor <= 1
  {
  }

  /** Same major version and a minor version at most `n` apart; an unreadable version stays itself. */
  ghost predicate Drifted(v: string, v': string, n: nat) {
    match (Parse(v), Parse(v'))
    case (Some(a), Some(b)) => a.major == b.major && a.minor <= b.minor + n && b.minor <= a.minor + n
    case (None, _) => v' == v && n == 0
    case _ => false
  }

  /** Over any run without deletion the recorded major version never changes, and `n` recorded upgrades
      move the minor version by at most `n`; a version that does not parse never changes at all. */
  lemma {:induction false} VersionDrift(w: World, es: seq<Event>)
    requires Agrees(w, false) && Legal(w, es) && NoDeletion(es) && ConfigMap in w.st.maps
    ensures ConfigMap in Run(w, es).st.maps
    ensures Drifted(RecordedVersion(w.st), RecordedVersion(Run(w, es).st), Upgrades(w, es))
    decreases es
  {
    hide Apply, Enabled, Agrees, UpgradeSupported, Parse, VersionIn;
    if es != [] {
      var w1 := Apply(w, es[0]);
      EventKeeps(w, es[0], false);
      EventVersion(w, es[0]);
      VersionDrift(w1, es[1..]);
      var v, v1 := RecordedVersion(w.st), RecordedVersion(w1.st);
      if v1 != v { SupportedDrift(v, v1); }
    }
  }

  // ----- deletion -----

  /** Only removals, and nothing released before both inventories are gone. */
  ghost predicate Releases(ses: Session, s: Session) {
    && s.st.workers == ses.st.workers && s.st.maps.Keys <= ses.st.maps.Keys && s.st.deleting == ses.st.deleting
    && (s.finalizer != ses.finalizer || s.st.finalizer != ses.st.finalizer ==>
          HostsMap !in s.st.maps && ConfigMap !in s.st.maps)
  }

  lemma {:induction false} DeleteResourceReleases(ses: Session)
    ensures Releases(ses, DeleteResource(ses).ses)
  {
    hide EnsureMapDeleted, Get, Call;
  }

  /** No init or scaling worker. */
  predicate Cleared(st: State) {
    Init !in st.workers && ScaleUp !in st.workers && ScaleDown !in st.workers
  }

  lemma {:induction false} DeleteWorkerPodsClears(ses: Session)
    ensures var o := DeleteWorkerPods(ses);
            && o.ses.st.workers.Keys <= ses.st.workers.Keys
            && o.ses.finalizer == ses.finalizer && o.ses.phase == ses.phase
            && (Terminate in ses.st.workers ==>
                  Terminate in o.ses.st.workers && o.ses.st.workers[Terminate] == ses.st.workers[Terminate])
            && o.ses.st == ses.st.(workers := o.ses.st.workers)
            && (o.Go? ==> Cleared(o.ses.st))
  {
    hide EnsureWorkerDeleted;
  }

  /** What one reconcile of a cluster under deletion can do. */
  ghost predicate DeleteStep(st: State, st': State) {
    && st'.deleting && st'.maps.Keys <= st.maps.Keys
    && (Terminate !in st.workers && Terminate in st'.workers ==>
          Cleared(st') && st'.workers[Terminate] == Worker(TERMINATE_CMD, Active))
    && (Terminate in st.workers ==> Terminate in st'.workers && st'.workers[Terminate] == st.workers[Terminate])
    && (st'.maps.Keys != st.maps.Keys ==> HasStatus(st', Terminate, Succeeded))
    && (st.finalizer && !st'.finalizer ==>
          HasStatus(st', Terminate, Succeeded) && HostsMap !in st'.maps && ConfigMap !in st'.maps)
  }

  lemma {:induction false} DeleteSteps(st: State, f: Faults)
    requires st.deleting
    ensures DeleteStep(st, Reconcile(st, f))
  {
    hide DeleteWorkerPods, EnsureWorkerCreated, DeleteResource;
    if f.budget >= PREAMBLE {
      var ses := Open(st, f);
      DeleteWorkerPodsClears(ses);
      var o := DeleteWorkerPods(ses);
      if o.Go? {
        var p := EnsureWorkerCreated(o.ses, Terminate, TERMINATE_CMD);
        if p.Go? { DeleteResourceReleases(p.ses); }
      }
    }
  }

  /** The terminate worker starts only when no init or scaling worker is left. */
  lemma {:induction false} TerminateStartsAlone(st: State, f: Faults)
    requires Terminate !in st.workers && Terminate in Reconcile(st, f).workers
    ensures st.deleting && Cleared(Reconcile(st, f))
  {
    hide Reconcile;
    if st.deleting {
      DeleteSteps(st, f);
    } else {
      ReconcileSteps(st, f);
    }
  }

  ghost predicate Gone(st: State) {
    st.deleting && HasStatus(st, Terminate, Succeeded) && HostsMap !in st.maps && ConfigMap !in st.maps
  }

  lemma {:induction false} EventKeepsGone(w: World, e: Event)
    requires Gone(w.st) && Enabled(w, e)
    ensures Gone(Apply(w, e).st)
  {
    hide Reconcile, ValidSpec, RecordedNameSet, CommandNodes, CommandVersion, VersionIn, WithV, Elements;
    if e.Reconciled? { DeleteSteps(w.st, e.faults); }
  }

  lemma {:induction false} RunKeepsGone(w: World, es: seq<Event>)
    requires Gone(w.st) && Legal(w, es)
    ensures Gone(Run(w, es).st)
    decreases es
  {
    hide Apply, Enabled, Gone;
    if es != [] {
      EventKeepsGone(w, es[0]);
      RunKeepsGone(Apply(w, es[0]), es[1..]);
    }
  }

  /** A reconcile that takes the finalizer away, in any state: the cluster is under deletion, a
      terminate worker has succeeded and both inventories are gone, and they stay gone in every
      continuation of the run. */
  lemma {:induction false} FinalizerMeansGone(w: World, f: Faults, es: seq<Event>)
    requires w.st.finalizer && !Reconcile(w.st, f).finalizer
    requires Legal(Apply(w, Reconciled(f)), es)
    ensures Gone(Reconcile(w.st, f)) && Gone(Run(Apply(w, Reconciled(f)), es).st)
  {
    hide Reconcile, Apply, Enabled, Run, Legal;
    ReconciledIs(w, f);
    if w.st.deleting {
      DeleteSteps(w.st, f);
    } else {
      ReconcileSteps(w.st, f);
    }
    RunKeepsGone(Apply(w, Reconciled(f)), es);
  }
}
