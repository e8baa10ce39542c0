/** One CustomCluster as the API server holds it, and what each reconcile function does to it.

    A reconcile is a chain of API calls that stops at the first one that fails. The functions below
    thread a `Session`: the stored state, the in-memory phase and finalizer that the deferred patch
    writes back, and the faults of this reconcile. */
module CustomCluster {
  import opened Text
  import opened Inventory
  import opened WorkerNodes
  import opened KubeVersion

  datatype Action = Init | ScaleUp | ScaleDown | Upgrade | Terminate

  datatype Status = Active | Succeeded | Failed

  /** A worker pod of this cluster; its action is the key it is filed under. */
  datatype Worker = Worker(cmd: string, status: Status)

  datatype Phase = Unset | Pending | Provisioning | Provisioned | ProvisionFailed
                 | ScalingUp | ScalingDown | Upgrading | Deleting | Unknown

  datatype MapName = HostsMap | ConfigMap | ScaleUpMap

  /** The desired cluster: CustomMachine, KubeadmControlPlane version, and the settings that fill the
      rest of `cluster-config`. */
  datatype Spec = Spec(machine: Machine, version: string, settings: string)

  datatype State = State(
    phase: Phase,
    finalizer: bool,
    maps: map<MapName, string>,
    workers: map<Action, Worker>,
    spec: Spec,
    deleting: bool)

  /** `budget` API calls succeed before one fails; `lost` says whether the failing call took effect
      although it reported an error; the deferred patch writes metadata and status separately. */
  datatype Faults = Faults(budget: nat, lost: bool, metaOk: bool, statusOk: bool)

  datatype Session = Session(st: State, phase: Phase, finalizer: bool, budget: nat, lost: bool)

  datatype Outcome<+T> = Go(ses: Session, value: T) | Stop(ses: Session) {
    predicate IsFailure() { Stop? }
    function PropagateFailure<U>(): Outcome<U> requires Stop? { Stop(ses) }
    function Extract(): (Session, T) requires Go? { (ses, value) }
  }

  /** A step that writes the store at most once: it leaves the store alone or as `after`, and as
      `after` when it reports success; with enough calls left it succeeds. */
  predicate Wrote<T>(ses: Session, o: Outcome<T>, after: State, calls: nat) {
    && o.ses.phase == ses.phase && o.ses.finalizer == ses.finalizer && o.ses.lost == ses.lost
    && (o.ses.st == ses.st || o.ses.st == after)
    && (o.Go? ==> o.ses.st == after)
    && (ses.budget >= calls ==> o.Go? && o.ses.budget + calls >= ses.budget)
  }

  /** One API call that would leave the store as `after`. */
  function Call(ses: Session, after: State): (o: Outcome<()>)
    ensures Wrote(ses, o, after, 1)
  {
    if ses.budget > 0 then Go(ses.(st := after, budget := ses.budget - 1), ())
    else Stop(if ses.lost then ses.(st := after) else ses)
  }

  function Get(ses: Session): (o: Outcome<()>)
    ensures Wrote(ses, o, ses.st, 1)
  {
    Call(ses, ses.st)
  }

  function PutMap(st: State, name: MapName, data: string): State {
    st.(maps := st.maps[name := data])
  }

  function DropMap(st: State, name: MapName): State {
    st.(maps := st.maps - {name})
  }

  function AddWorker(st: State, a: Action, w: Worker): State {
    st.(workers := st.workers[a := w])
  }

  function DropWorker(st: State, a: Action): State {
    st.(workers := st.workers - {a})
  }

  // ----- ensure* -----

  /** The existing worker of this action, whatever its command, or else a new one. */
  function EnsureWorkerCreated(ses: Session, a: Action, cmd: string): (o: Outcome<Worker>)
    ensures a in ses.st.workers ==> Wrote(ses, o, ses.st, 2) && (o.Go? ==> o.value == ses.st.workers[a])
    ensures a !in ses.st.workers ==>
              Wrote(ses, o, AddWorker(ses.st, a, Worker(cmd, Active)), 2) && (o.Go? ==> o.value == Worker(cmd, Active))
  {
    var (s, _) :- Get(ses);
    if a in s.st.workers then Go(s, s.st.workers[a])
    else
      var w := Worker(cmd, Active);
      var (s, _) :- Call(s, AddWorker(s.st, a, w));
      Go(s, w)
  }

  function EnsureWorkerDeleted(ses: Session, a: Action): (o: Outcome<()>)
    ensures Wrote(ses, o, DropWorker(ses.st, a), 2)
  {
    var (s, _) :- Get(ses);
    if a in s.st.workers then Call(s, DropWorker(s.st, a))
    else
      assert s.st.workers - {a} == s.st.workers;
      Go(s, ())
  }

  function EnsureMapCreated(ses: Session, name: MapName, data: string): (o: Outcome<()>)
    ensures Wrote(ses, o, if name in ses.st.maps then ses.st else PutMap(ses.st, name, data), 2)
  {
    var (s, _) :- Get(ses);
    if name in s.st.maps then Go(s, ()) else Call(s, PutMap(s.st, name, data))
  }

  /** The finalizer is dropped by an update before the delete. */
  function EnsureMapDeleted(ses: Session, name: MapName): (o: Outcome<()>)
    ensures Wrote(ses, o, DropMap(ses.st, name), 3)
  {
    var (s, _) :- Get(ses);
    if name !in s.st.maps then
      assert s.st.maps - {name} == s.st.maps;
      Go(s, ())
    else
      var (s, _) :- Get(s);
      Call(s, DropMap(s.st, name))
  }

  /** The edited inventory, when there is one to edit. */
  function Grown(st: State, ns: seq<NodeInfo>): Option<string> {
    if HostsMap in st.maps then AddNodes(st.maps[HostsMap], ns) else None
  }

  function EnsureScaleUpHostsCreated(ses: Session, ns: seq<NodeInfo>): (o: Outcome<()>)
    ensures ScaleUpMap in ses.st.maps ==> Wrote(ses, o, ses.st, 3)
    ensures ScaleUpMap !in ses.st.maps && Grown(ses.st, ns).Some? ==>
              Wrote(ses, o, PutMap(ses.st, ScaleUpMap, Trim(Grown(ses.st, ns).value)), 3)
    ensures ScaleUpMap !in ses.st.maps && Grown(ses.st, ns).None? ==>
              o.Stop? && o.ses.st == ses.st && o.ses.phase == ses.phase && o.ses.finalizer == ses.finalizer
  {
    var (s, _) :- Get(ses);
    if ScaleUpMap in s.st.maps then Go(s, ())
    else
      var (s, _) :- Get(s);
      match Grown(s.st, ns)
      case None => Stop(s)
      case Some(text) => Call(s, PutMap(s.st, ScaleUpMap, Trim(text)))
  }

  function UpdateClusterNodes(ses: Session, ns: seq<NodeInfo>): (o: Outcome<()>)
    ensures Grown(ses.st, ns).Some? ==> Wrote(ses, o, PutMap(ses.st, HostsMap, Grown(ses.st, ns).value), 2)
    ensures Grown(ses.st, ns).None? ==>
              o.Stop? && o.ses.st == ses.st && o.ses.phase == ses.phase && o.ses.finalizer == ses.finalizer
  {
    var (s, _) :- Get(ses);
    match Grown(s.st, ns)
    case None => Stop(s)
    case Some(text) => Call(s, PutMap(s.st, HostsMap, text))
  }

  /** Delete, then create: a failure in between leaves no inventory at all. */
  function RecreateClusterHosts(ses: Session): (o: Outcome<()>)
    ensures var anew := PutMap(ses.st, HostsMap, RenderHosts(ses.st.spec.machine));
            && o.ses.phase == ses.phase && o.ses.finalizer == ses.finalizer && o.ses.lost == ses.lost
            && (o.ses.st == ses.st || o.ses.st == DropMap(ses.st, HostsMap) || o.ses.st == anew)
            && (o.Go? ==> o.ses.st == anew)
            && (ses.budget >= 4 ==> o.Go? && o.ses.budget + 4 >= ses.budget)
  {
    var text := RenderHosts(ses.st.spec.machine);
    assert (ses.st.maps - {HostsMap})[HostsMap := text] == ses.st.maps[HostsMap := text];
    var (s, _) :- EnsureMapDeleted(ses, HostsMap);
    Call(s, PutMap(s.st, HostsMap, text))
  }

  function UpdateKubeVersion(ses: Session, version: string): (o: Outcome<()>)
    ensures ConfigMap in ses.st.maps ==>
              Wrote(ses, o, PutMap(ses.st, ConfigMap, UpdateVersion(ses.st.maps[ConfigMap], version)), 2)
    ensures ConfigMap !in ses.st.maps ==>
              o.Stop? && o.ses.st == ses.st && o.ses.phase == ses.phase && o.ses.finalizer == ses.finalizer
  {
    var (s, _) :- Get(ses);
    if ConfigMap !in s.st.maps then Stop(s)
    else Call(s, PutMap(s.st, ConfigMap, UpdateVersion(s.st.maps[ConfigMap], version)))
  }

  // ----- reconcile* -----

  function ReconcileScaleUp(ses: Session, ns: seq<NodeInfo>): Outcome<()> {
    var (s, _) :- EnsureScaleUpHostsCreated(ses, ns);
    var (s, w) :- EnsureWorkerCreated(s, ScaleUp, SCALE_UP_CMD);
    var s := s.(phase := ScalingUp);
    match w.status
    case Active => Go(s, ())
    case Failed => Go(s.(phase := Provisioned), ())
    case Succeeded => FinishScaleUp(s, ns)
  }

  /** The record is written before the scale-up inventory and the worker are removed. */
  function FinishScaleUp(ses: Session, ns: seq<NodeInfo>): Outcome<()> {
    var (s, _) :- UpdateClusterNodes(ses, ns);
    var s := s.(phase := Provisioned);
    var (s, _) :- EnsureMapDeleted(s, ScaleUpMap);
    EnsureWorkerDeleted(s, ScaleUp)
  }

  function ReconcileScaleDown(ses: Session, ns: seq<NodeInfo>): Outcome<()> {
    var (s, w) :- EnsureWorkerCreated(ses, ScaleDown, ScaleDownCmd(ns));
    var s := s.(phase := ScalingDown);
    match w.status
    case Active => Go(s, ())
    case Failed => Go(s.(phase := Provisioned), ())
    case Succeeded =>
      var (s, _) :- RecreateClusterHosts(s);
      var s := s.(phase := Provisioned);
      EnsureWorkerDeleted(s, ScaleDown)
  }

  function ReconcileUpgrade(ses: Session, version: string): Outcome<()> {
    var (s, w) :- EnsureWorkerCreated(ses, Upgrade, UpgradeCmd(version));
    var s := s.(phase := Upgrading);
    match w.status
    case Active => Go(s, ())
    case Failed => Go(s.(phase := Unknown), ())
    case Succeeded =>
      var (s, _) :- UpdateKubeVersion(s, version);
      var s := s.(phase := Provisioned);
      EnsureWorkerDeleted(s, Upgrade)
  }

  /** Four updates set finalizers and owner references; the cluster's own finalizer is set in memory. */
  function EnsureFinalizerAndOwnerRef(ses: Session): (o: Outcome<()>)
    ensures Wrote(ses.(finalizer := true), o, ses.st, 4)
  {
    var s := ses.(finalizer := true);
    var (s, _) :- Get(s);
    var (s, _) :- Get(s);
    var (s, _) :- Get(s);
    Get(s)
  }

  function ReconcileProvision(ses: Session): Outcome<()> {
    var spec := ses.st.spec;
    var (s, _) :- EnsureMapCreated(ses, HostsMap, RenderHosts(spec.machine));
    var (s, _) :- EnsureMapCreated(s, ConfigMap, RenderConfig(spec.version, spec.settings));
    RunInit(s)
  }

  function RunInit(ses: Session): Outcome<()> {
    var (s, w) :- EnsureWorkerCreated(ses, Init, INIT_CMD);
    var (s, _) :- EnsureFinalizerAndOwnerRef(s);
    var s := s.(phase := Provisioning);
    match w.status
    case Active => Go(s, ())
    case Failed => Go(s.(phase := ProvisionFailed), ())
    case Succeeded =>
      var (s, _) :- Get(s); // fetch the kubeconfig over SSH and store it
      Go(s.(phase := Provisioned), ())
  }

  predicate InProvision(p: Phase) {
    p == Pending || p == ProvisionFailed || p == Provisioning
  }

  /** `hasProvisionClusterInfo`. */
  predicate HasInfo(p: Phase) {
    p == Provisioned || p == ScalingDown || p == ScalingUp || p == Upgrading
  }

  datatype ClusterInfo = ClusterInfo(workers: seq<NodeInfo>, version: string)

  /** What the two configmaps record; `None` when one is missing or unreadable. */
  function RecordedInfo(st: State): Option<ClusterInfo> {
    if HostsMap !in st.maps || ConfigMap !in st.maps then None
    else match ReadWorkers(st.maps[HostsMap])
      case None => None
      case Some(workers) => Some(ClusterInfo(workers, VersionIn(st.maps[ConfigMap])))
  }

  function GetProvisionedClusterInfo(ses: Session): (o: Outcome<ClusterInfo>)
    ensures o.ses.st == ses.st && o.ses.phase == ses.phase && o.ses.finalizer == ses.finalizer && o.ses.lost == ses.lost
    ensures o.Go? ==> RecordedInfo(ses.st) == Some(o.value)
    ensures RecordedInfo(ses.st).Some? ==> Wrote(ses, o, ses.st, 2)
  {
    var (s, _) :- Get(ses);
    if HostsMap !in s.st.maps then Stop(s)
    else match ReadWorkers(s.st.maps[HostsMap])
      case None => Stop(s)
      case Some(workers) =>
        var (s, _) :- Get(s);
        if ConfigMap !in s.st.maps then Stop(s)
        else Go(s, ClusterInfo(workers, VersionIn(s.st.maps[ConfigMap])))
  }

  /** Scale up before scaling down before upgrading. */
  function ReconcileTowards(ses: Session, info: ClusterInfo): Outcome<()> {
    var desired := ses.st.spec.machine.workers;
    var version := ses.st.spec.version;
    var up, down := Additional(info.workers, desired), Additional(desired, info.workers);
    if up != [] then ReconcileScaleUp(ses, up)
    else if down != [] then ReconcileScaleDown(ses, down)
    else Reversion(ses, info.version, version)
  }

  function Reversion(ses: Session, recorded: string, desired: string): Outcome<()> {
    if desired != recorded && UpgradeSupported(recorded, desired) then ReconcileUpgrade(ses, desired) else Go(ses, ())
  }

  function ReconcileNormal(ses: Session): Outcome<()> {
    if InProvision(ses.phase) then ReconcileProvision(ses)
    else if HasInfo(ses.phase) then
      var (s, info) :- GetProvisionedClusterInfo(ses);
      ReconcileTowards(s, info)
    else Reversion(ses, "", ses.st.spec.version)
  }

  function DeleteWorkerPods(ses: Session): Outcome<()> {
    var (s, _) :- EnsureWorkerDeleted(ses, Init);
    var (s, _) :- EnsureWorkerDeleted(s, ScaleUp);
    EnsureWorkerDeleted(s, ScaleDown)
  }

  /** Both inventories go, then the finalizers of the machine, the control plane and the cluster. */
  function DeleteResource(ses: Session): Outcome<()> {
    var (s, _) :- EnsureMapDeleted(ses, HostsMap);
    var (s, _) :- EnsureMapDeleted(s, ConfigMap);
    var (s, _) :- Get(s);
    var (s, _) :- Get(s);
    var s := s.(finalizer := false);
    Call(s, s.st.(finalizer := false))
  }

  function ReconcileDelete(ses: Session): Outcome<()> {
    var (s, _) :- DeleteWorkerPods(ses);
    var (s, w) :- EnsureWorkerCreated(s, Terminate, TERMINATE_CMD);
    match w.status
    case Active => Go(s, ())
    case Failed => Go(s.(phase := Unknown), ())
    case Succeeded => DeleteResource(s)
  }

  /** What the four reads before the patch helper is set up leave of the budget. */
  const PREAMBLE: nat := 4

  /** An unset phase is shown as Pending before anything else looks at it. */
  function Shown(p: Phase): Phase {
    if p == Unset then Pending else p
  }

  function Open(st: State, f: Faults): Session
    requires f.budget >= PREAMBLE
  {
    Session(st, if st.deleting then Deleting else Shown(st.phase), st.finalizer, f.budget - PREAMBLE, f.lost)
  }

  /** The deferred patch: it writes what differs from the snapshot taken when the reconcile began. */
  function Patch(snapshot: Phase, ses: Session, f: Faults): State {
    ses.st.(phase := if f.statusOk && ses.phase != snapshot then ses.phase else ses.st.phase,
            finalizer := if f.metaOk then ses.finalizer else ses.st.finalizer)
  }

  function Body(ses: Session): Session {
    (if ses.st.deleting then ReconcileDelete(ses) else ReconcileNormal(ses)).ses
  }

  /** `Reconcile`. */
  function Reconcile(st: State, f: Faults): State {
    if f.budget < PREAMBLE then st else Patch(Shown(st.phase), Body(Open(st, f)), f)
  }
}
