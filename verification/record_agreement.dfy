/** The recorded inventory and version agree with what is installed, in every state that a run without
    deletion can reach by harmless spec changes, whatever API calls fail. */
module RecordAgreement {
  import opened Text
  import opened Inventory
  import opened WorkerNodes
  import opened KubeVersion
  import opened CustomCluster
  import opened ClusterRuns
  import opened Agreement

  ghost predicate GoodHosts(text: string) {
    WellFormed(text) && PlainNodes(Recorded(text))
  }

  function DesiredNames(st: State): set<string> {
    NameSet(st.spec.machine.workers)
  }

  function R(w: World): set<string> {
    if HostsMap in w.st.maps then RecordedNameSet(w.st.maps[HostsMap]) else {}
  }

  function D(w: World): set<string> {
    DesiredNames(w.st)
  }

  function RecordedVersion(st: State): string {
    if ConfigMap in st.maps then VersionIn(st.maps[ConfigMap]) else ""
  }

  function StatusOf(st: State, a: Action): Option<Status> {
    if a in st.workers then Some(st.workers[a].status) else None
  }

  function ScalingOf(w: World): Scaling {
    Scaling(R(w), D(w), w.installed,
            StatusOf(w.st, ScaleUp),
            if ScaleUpMap in w.st.maps then Some(RecordedNameSet(w.st.maps[ScaleUpMap])) else None,
            StatusOf(w.st, ScaleDown),
            if ScaleDown in w.st.workers then Elements(CommandNodes(w.st.workers[ScaleDown].cmd)) else {})
  }

  function VersioningOf(w: World): Versioning {
    Versioning(RecordedVersion(w.st), w.st.spec.version, w.version,
               StatusOf(w.st, Upgrade),
               if Upgrade in w.st.workers then CommandVersion(w.st.workers[Upgrade].cmd) else "")
  }

  /** What holds whatever the spec does. */
  ghost predicate Sound(st: State) {
    && ValidSpec(st.spec) && !st.deleting && st.phase != Deleting && Terminate !in st.workers
    && (HostsMap in st.maps ==> GoodHosts(st.maps[HostsMap]))
    && (ScaleUpMap in st.maps ==> GoodHosts(st.maps[ScaleUpMap]))
    && (ConfigMap in st.maps ==> Canonical(st.maps[ConfigMap]))
    && (InProvision(Shown(st.phase)) ==> Unprovisioned(st))
    && (!InProvision(Shown(st.phase)) ==> HasStatus(st, Init, Succeeded) && ConfigMap in st.maps)
  }

  ghost predicate Unprovisioned(st: State) {
    && ScaleUp !in st.workers && ScaleDown !in st.workers && Upgrade !in st.workers && ScaleUpMap !in st.maps
    && (Init in st.workers ==> HostsMap in st.maps && ConfigMap in st.maps)
  }

  /** Once the init worker has succeeded, names and version fit as far as there is a record of them. */
  ghost predicate InStep(w: World) {
    HasStatus(w.st, Init, Succeeded) ==>
      && (HostsMap in w.st.maps ==> ScalingOf(w).Fits())
      && (ConfigMap in w.st.maps ==> VersioningOf(w).Fits())
  }

  /** The invariant: sound, and in step when every spec change so far was harmless (`q`). */
  ghost predicate Agrees(w: World, q: bool) {
    Sound(w.st) && (q ==> InStep(w))
  }

  /** A spec change that keeps the record in step, as can be seen before it is made. */
  ghost predicate HarmlessChange(w: World, spec: Spec) {
    HasStatus(w.st, Init, Succeeded) ==>
      && (HostsMap in w.st.maps ==> ScalingOf(w).Harmless(NameSet(spec.machine.workers)))
      && (ConfigMap in w.st.maps ==> VersioningOf(w).Harmless(spec.version))
  }

  ghost predicate HarmlessEvent(w: World, e: Event) {
    e.SpecChanged? ==> HarmlessChange(w, e.spec)
  }

  ghost predicate HarmlessRun(w: World, es: seq<Event>)
    requires Legal(w, es)
    decreases es
  {
    es == [] || (HarmlessEvent(w, es[0]) && HarmlessRun(Apply(w, es[0]), es[1..]))
  }

  // ----- what the text results mean for the state machine -----

  lemma {:induction false} SpecNodes(s: Spec)
    requires ValidSpec(s)
    ensures PlainNodes(s.machine.masters) && PlainNodes(s.machine.workers) && DistinctNames(s.machine.workers)
  {
    hide PlainNodes, Token;
    var all, m := s.machine.masters + s.machine.workers, |s.machine.masters|;
    assert forall i | 0 <= i < |s.machine.workers| :: all[m + i] == s.machine.workers[i];
  }

  lemma {:induction false} GoodHostsRead(text: string)
    requires GoodHosts(text)
    ensures ReadWorkers(text) == Some(Recorded(text))
  {
    hide ReadWorkers, PlainNodes;
    TrimKeepsRecord(text);
  }

  /** Scaling up records the union. */
  lemma {:induction false} AddingRecords(text: string, spec: Spec)
    requires GoodHosts(text) && ValidSpec(spec)
    ensures var ns := Additional(Recorded(text), spec.machine.workers);
            var t := AddNodes(text, ns);
            && t.Some? && GoodHosts(t.value) && GoodHosts(Trim(t.value))
            && RecordedNameSet(t.value) == RecordedNameSet(text) + NameSet(spec.machine.workers)
            && RecordedNameSet(Trim(t.value)) == RecordedNameSet(t.value)
  {
    hide ReadWorkers, AddNodes, WellFormed, ValidSpec, Trim, PlainNode, NameSet;
    var d, r := spec.machine.workers, Recorded(text);
    var ns := Additional(r, d);
    SpecNodes(spec);
    AdditionalKeeps(r, d);
    AdditionalNames(r, d);
    FreshNames(r, ns);
    ScaleUpRefinesAppend(text, ns);
    var t := AddNodes(text, ns).value;
    TrimKeepsRecord(t);
    NameSetConcat(r, ns);
    assert NameSet(r) + (NameSet(d) - NameSet(r)) == NameSet(r) + NameSet(d);
  }

  lemma {:induction false} FreshNames(r: seq<NodeInfo>, ns: seq<NodeInfo>)
    requires forall i | 0 <= i < |ns| :: ns[i].name !in NameSet(r)
    ensures forall i | 0 <= i < |r| :: r[i].name !in Names(ns)
  {
    forall i | 0 <= i < |r| ensures r[i].name !in Names(ns) {
      assert r[i].name in NameSet(r);
      assert forall k | 0 <= k < |ns| :: Names(ns)[k] == ns[k].name;
    }
  }

  lemma {:induction false} RenderingRecords(spec: Spec)
    requires ValidSpec(spec)
    ensures GoodHosts(RenderHosts(spec.machine))
    ensures RecordedNameSet(RenderHosts(spec.machine)) == NameSet(spec.machine.workers)
    ensures Canonical(RenderConfig(spec.version, spec.settings))
    ensures VersionIn(RenderConfig(spec.version, spec.settings)) == spec.version
  {
    hide ReadWorkers, RenderHosts, RenderConfig, WellFormed, PlainNodes, NameSet, Canonical, VersionIn, NamesIdentify;
    SpecNodes(spec);
    SpecVersion(spec);
    DistinctIdentify(spec.machine.workers);
    PrintReadRoundTrip(spec.machine);
    RenderConfigCanonical(spec.version, spec.settings);
  }

  lemma {:induction false} DistinctIdentify(ns: seq<NodeInfo>)
    requires DistinctNames(ns)
    ensures NamesIdentify(ns)
  {
  }

  /** A scale-down command names the recorded workers that are not desired. */
  lemma {:induction false} RemovalNames(text: string, spec: Spec)
    requires GoodHosts(text)
    ensures var r, d := Recorded(text), spec.machine.workers;
            Additional(d, r) != [] ==> CommandNodes(ScaleDownCmd(Additional(d, r))) == Names(Additional(d, r))
    ensures var r, d := Recorded(text), spec.machine.workers;
            Additional(d, r) != [] ==> Elements(Names(Additional(d, r))) == NameSet(r) - NameSet(d)
  {
    hide ReadWorkers, WellFormed, PlainNode, CommandNodes, ScaleDownCmd;
    var r, d := Recorded(text), spec.machine.workers;
    AdditionalKeeps(d, r);
    AdditionalNames(d, r);
    var ns := Additional(d, r);
    if ns != [] { ScaleDownCmdRoundTrip(ns); }
    assert Elements(Names(ns)) == NameSet(ns) by {
      assert forall i | 0 <= i < |ns| :: Names(ns)[i] == ns[i].name;
      assert forall i | 0 <= i < |ns| :: Names(ns)[i] in Names(ns);
    }
  }

  lemma {:induction false} RecordedIs(text: string)
    ensures RecordedNameSet(text) == NameSet(Recorded(text))
  {
    hide Recorded, NameSet;
  }

  lemma {:induction false} SpecVersion(s: Spec)
    requires ValidSpec(s)
    ensures s.version != "" && Token(s.version) && Quiet(s.settings, "", [KEY])
  {
  }

  /** The nodes to add. */
  function Missing(st: State): seq<NodeInfo> {
    if HostsMap in st.maps then Additional(Recorded(st.maps[HostsMap]), st.spec.machine.workers) else []
  }

  /** The nodes to remove. */
  function Surplus(st: State): seq<NodeInfo> {
    if HostsMap in st.maps then Additional(st.spec.machine.workers, Recorded(st.maps[HostsMap])) else []
  }

  lemma {:induction false} Differences(w: World)
    requires HostsMap in w.st.maps
    ensures Missing(w.st) == [] <==> D(w) <= R(w)
    ensures Surplus(w.st) == [] <==> R(w) <= D(w)
  {
    hide Recorded, NameSet, Additional;
    var r, d := Recorded(w.st.maps[HostsMap]), w.st.spec.machine.workers;
    AdditionalNames(r, d);
    AdditionalNames(d, r);
  }

  // ----- what a write does to the two pictures -----

  lemma {:induction false} MapWrites(w: World, text: string)
    ensures var x := w.(st := PutMap(w.st, HostsMap, text));
            ScalingOf(x) == ScalingOf(w).(recorded := RecordedNameSet(text)) && VersioningOf(x) == VersioningOf(w)
    ensures var x := w.(st := PutMap(w.st, ScaleUpMap, text));
            ScalingOf(x) == ScalingOf(w).(grown := Some(RecordedNameSet(text))) && VersioningOf(x) == VersioningOf(w)
    ensures var x := w.(st := PutMap(w.st, ConfigMap, text));
            ScalingOf(x) == ScalingOf(w) && VersioningOf(x) == VersioningOf(w).(recorded := VersionIn(text))
    ensures var x := w.(st := DropMap(w.st, ScaleUpMap));
            ScalingOf(x) == ScalingOf(w).(grown := None) && VersioningOf(x) == VersioningOf(w)
    ensures VersioningOf(w.(st := DropMap(w.st, HostsMap))) == VersioningOf(w)
  {
    hide RecordedNameSet, CommandNodes, Elements, NameSet, VersionIn, CommandVersion;
  }

  lemma {:induction false} WorkerWrites(w: World, k: Worker)
    ensures var x := w.(st := AddWorker(w.st, ScaleUp, k));
            ScalingOf(x) == ScalingOf(w).(up := Some(k.status)) && VersioningOf(x) == VersioningOf(w)
    ensures var x := w.(st := AddWorker(w.st, ScaleDown, k));
            && ScalingOf(x) == ScalingOf(w).(down := Some(k.status), removed := Elements(CommandNodes(k.cmd)))
            && VersioningOf(x) == VersioningOf(w)
    ensures var x := w.(st := AddWorker(w.st, Upgrade, k));
            && ScalingOf(x) == ScalingOf(w)
            && VersioningOf(x) == VersioningOf(w).(upgrade := Some(k.status), command := CommandVersion(k.cmd))
    ensures var x := w.(st := AddWorker(w.st, Init, k));
            ScalingOf(x) == ScalingOf(w) && VersioningOf(x) == VersioningOf(w)
    ensures var x := w.(st := DropWorker(w.st, ScaleUp));
            ScalingOf(x) == ScalingOf(w).(up := None) && VersioningOf(x) == VersioningOf(w)
    ensures var x := w.(st := DropWorker(w.st, ScaleDown));
            ScalingOf(x) == ScalingOf(w).(down := None, removed := {}) && VersioningOf(x) == VersioningOf(w)
    ensures var x := w.(st := DropWorker(w.st, Upgrade));
            ScalingOf(x) == ScalingOf(w) && VersioningOf(x) == VersioningOf(w).(upgrade := None, command := "")
    ensures var x := w.(st := DropWorker(w.st, Init));
            ScalingOf(x) == ScalingOf(w) && VersioningOf(x) == VersioningOf(w)
  {
    hide RecordedNameSet, CommandNodes, Elements, NameSet, VersionIn, CommandVersion;
  }

  lemma {:induction false} OtherWrites(w: World, p: Phase, fin: bool)
    ensures var x := w.(st := w.st.(phase := p, finalizer := fin));
            ScalingOf(x) == ScalingOf(w) && VersioningOf(x) == VersioningOf(w)
  {
    hide RecordedNameSet, CommandNodes, Elements, NameSet, VersionIn, CommandVersion;
  }

  lemma {:induction false} Pictures(w: World)
    ensures ScalingOf(w).recorded == R(w) && ScalingOf(w).desired == D(w) && ScalingOf(w).installed == w.installed
    ensures ScalingOf(w).up == StatusOf(w.st, ScaleUp) && ScalingOf(w).down == StatusOf(w.st, ScaleDown)
    ensures ScalingOf(w).grown.Some? <==> ScaleUpMap in w.st.maps
    ensures VersioningOf(w).recorded == RecordedVersion(w.st) && VersioningOf(w).desired == w.st.spec.version
    ensures VersioningOf(w).installed == w.version && VersioningOf(w).upgrade == StatusOf(w.st, Upgrade)
  {
    hide R, D, CommandNodes, Elements, RecordedVersion, CommandVersion, RecordedNameSet;
  }

  // ----- the writes of a reconcile, one at a time -----

  /** Past provisioning, with an inventory to read. */
  ghost predicate Solid(st: State) {
    Sound(st) && !InProvision(Shown(st.phase)) && HostsMap in st.maps
  }

  ghost predicate Ready(w: World, q: bool) {
    Solid(w.st) && (q ==> ScalingOf(w).Fits() && VersioningOf(w).Fits())
  }

  lemma {:induction false} ReadyIs(w: World, q: bool)
    ensures Ready(w, q) <==> Agrees(w, q) && !InProvision(Shown(w.st.phase)) && HostsMap in w.st.maps
  {
    hide GoodHosts, ValidSpec, Canonical, ScalingOf, VersioningOf;
  }

  lemma {:induction false} SolidWrites(st: State, text: string, k: Worker, a: Action)
    requires Solid(st)
    ensures GoodHosts(text) ==> Solid(PutMap(st, HostsMap, text)) && Solid(PutMap(st, ScaleUpMap, text))
    ensures Canonical(text) ==> Solid(PutMap(st, ConfigMap, text))
    ensures Solid(DropMap(st, ScaleUpMap)) && Sound(DropMap(st, HostsMap)) && HostsMap !in DropMap(st, HostsMap).maps
    ensures a in {ScaleUp, ScaleDown, Upgrade} ==> Solid(AddWorker(st, a, k)) && Solid(DropWorker(st, a))
  {
    hide GoodHosts, ValidSpec, Canonical;
  }

  lemma {:induction false} SolidIs(st: State)
    requires Solid(st)
    ensures HostsMap in st.maps && ConfigMap in st.maps && HasStatus(st, Init, Succeeded) && !st.deleting
    ensures GoodHosts(st.maps[HostsMap]) && Canonical(st.maps[ConfigMap]) && ValidSpec(st.spec)
  {
    hide GoodHosts, ValidSpec, Canonical;
  }

  lemma {:induction false} ReadySolid(w: World, q: bool)
    requires Ready(w, q)
    ensures Solid(w.st) && (q ==> ScalingOf(w).Fits() && VersioningOf(w).Fits())
  {
    hide Solid, ScalingOf, VersioningOf, Scaling.Fits, Versioning.Fits;
  }

  lemma {:induction false} MakeReady(w: World, q: bool)
    requires Solid(w.st) && (q ==> ScalingOf(w).Fits() && VersioningOf(w).Fits())
    ensures Ready(w, q)
  {
    hide Solid, ScalingOf, VersioningOf, Scaling.Fits, Versioning.Fits;
  }

  lemma {:induction false} NeedsAre(w: World)
    ensures ScalingOf(w).NeedUp() <==> !(D(w) <= R(w))
    ensures ScalingOf(w).NeedDown() <==> !(R(w) <= D(w))
    ensures VersioningOf(w).Need() <==> Wanted(RecordedVersion(w.st), w.st.spec.version)
  {
    hide ScalingOf, VersioningOf, R, D, RecordedVersion, Wanted;
    Pictures(w);
  }

  lemma {:induction false} Statuses(st: State, a: Action)
    ensures StatusOf(st, a).None? <==> a !in st.workers
    ensures forall s :: StatusOf(st, a) == Some(s) <==> HasStatus(st, a, s)
  {
  }

  lemma {:induction false} GrownRecords(w: World, q: bool)
    requires Ready(w, q)
    ensures var t := Grown(w.st, Missing(w.st));
            && t.Some? && GoodHosts(t.value) && GoodHosts(Trim(t.value))
            && RecordedNameSet(t.value) == R(w) + D(w) && RecordedNameSet(Trim(t.value)) == R(w) + D(w)
  {
    ReadySolid(w, q);
    SolidIs(w.st);
    hide GoodHosts, ValidSpec, Canonical, AddNodes, Trim, RecordedNameSet, Recorded, NameSet, Additional, Ready, Solid;
    AddingRecords(w.st.maps[HostsMap], w.st.spec);
  }

  lemma {:induction false} ScaleUpMapCreated(w: World, q: bool)
    requires Ready(w, q) && !(D(w) <= R(w)) && ScaleUpMap !in w.st.maps
    ensures Grown(w.st, Missing(w.st)).Some?
    ensures Ready(w.(st := PutMap(w.st, ScaleUpMap, Trim(Grown(w.st, Missing(w.st)).value))), q)
  {
    hide *;
    GrownRecords(w, q);
    ReadySolid(w, q);
    Pictures(w);
    NeedsAre(w);
    var text := Trim(Grown(w.st, Missing(w.st)).value);
    MapWrites(w, text);
    SolidWrites(w.st, text, Worker("", Active), ScaleUp);
    if q { GrowKeeps(ScalingOf(w)); }
    MakeReady(w.(st := PutMap(w.st, ScaleUpMap, text)), q);
  }

  lemma {:induction false} ScaleUpStarted(w: World, q: bool)
    requires Ready(w, q) && !(D(w) <= R(w)) && ScaleUpMap in w.st.maps && ScaleUp !in w.st.workers
    ensures Ready(w.(st := AddWorker(w.st, ScaleUp, Worker(SCALE_UP_CMD, Active))), q)
  {
    hide *;
    ReadySolid(w, q);
    Pictures(w);
    NeedsAre(w);
    Statuses(w.st, ScaleUp);
    var k := Worker(SCALE_UP_CMD, Active);
    WorkerWrites(w, k);
    SolidWrites(w.st, "", k, ScaleUp);
    if q { StartUpKeeps(ScalingOf(w)); }
    MakeReady(w.(st := AddWorker(w.st, ScaleUp, k)), q);
  }

  lemma {:induction false} ScaleUpRecorded(w: World, q: bool)
    requires Ready(w, q) && !(D(w) <= R(w)) && HasStatus(w.st, ScaleUp, Succeeded)
    ensures Grown(w.st, Missing(w.st)).Some?
    ensures var x := w.(st := PutMap(w.st, HostsMap, Grown(w.st, Missing(w.st)).value));
            Ready(x, q) && R(x) == R(w) + D(w)
  {
    hide *;
    GrownRecords(w, q);
    ReadySolid(w, q);
    Pictures(w);
    NeedsAre(w);
    Statuses(w.st, ScaleUp);
    var text := Grown(w.st, Missing(w.st)).value;
    var x := w.(st := PutMap(w.st, HostsMap, text));
    MapWrites(w, text);
    SolidWrites(w.st, text, Worker("", Active), ScaleUp);
    if q { RecordUpKeeps(ScalingOf(w)); }
    MakeReady(x, q);
    Pictures(x);
  }

  lemma {:induction false} ScaleUpMapDropped(w: World, q: bool)
    requires Ready(w, q) && D(w) <= R(w)
    ensures Ready(w.(st := DropMap(w.st, ScaleUpMap)), q)
  {
    hide *;
    ReadySolid(w, q);
    NeedsAre(w);
    MapWrites(w, "");
    SolidWrites(w.st, "", Worker("", Active), ScaleUp);
    if q { CleanUpKeeps(ScalingOf(w)); }
    MakeReady(w.(st := DropMap(w.st, ScaleUpMap)), q);
  }

  lemma {:induction false} ScaleUpDropped(w: World, q: bool)
    requires Ready(w, q) && D(w) <= R(w)
    ensures Ready(w.(st := DropWorker(w.st, ScaleUp)), q)
  {
    hide *;
    ReadySolid(w, q);
    NeedsAre(w);
    WorkerWrites(w, Worker("", Active));
    SolidWrites(w.st, "", Worker("", Active), ScaleUp);
    if q { CleanUpKeeps(ScalingOf(w)); }
    MakeReady(w.(st := DropWorker(w.st, ScaleUp)), q);
  }

  lemma {:induction false} RemovalIs(w: World, q: bool)
    requires Ready(w, q) && D(w) <= R(w) && R(w) != D(w)
    ensures Elements(CommandNodes(ScaleDownCmd(Surplus(w.st)))) == R(w) - D(w)
  {
    ReadySolid(w, q);
    SolidIs(w.st);
    hide GoodHosts, Recorded, NameSet, Additional, CommandNodes, ScaleDownCmd, Elements, Names, Ready, Solid, ValidSpec;
    hide Canonical;
    var text := w.st.maps[HostsMap];
    RemovalNames(text, w.st.spec);
    Differences(w);
    RecordedIs(text);
  }

  lemma {:induction false} ScaleDownStarted(w: World, q: bool)
    requires Ready(w, q) && D(w) <= R(w) && R(w) != D(w) && ScaleDown !in w.st.workers
    ensures Ready(w.(st := AddWorker(w.st, ScaleDown, Worker(ScaleDownCmd(Surplus(w.st)), Active))), q)
  {
    hide *;
    RemovalIs(w, q);
    ReadySolid(w, q);
    Pictures(w);
    NeedsAre(w);
    Statuses(w.st, ScaleDown);
    var k := Worker(ScaleDownCmd(Surplus(w.st)), Active);
    WorkerWrites(w, k);
    SolidWrites(w.st, "", k, ScaleDown);
    if q { StartDownKeeps(ScalingOf(w)); }
    MakeReady(w.(st := AddWorker(w.st, ScaleDown, k)), q);
  }

  lemma {:induction false} HostsDropped(w: World, q: bool)
    requires Ready(w, q)
    ensures Agrees(w.(st := DropMap(w.st, HostsMap)), q)
  {
    SolidWrites(w.st, "", Worker("", Active), ScaleUp);
    MapWrites(w, "");
    hide Sound, ScalingOf, VersioningOf, Scaling.Fits, Versioning.Fits;
  }

  lemma {:induction false} ScaleDownRecorded(w: World, q: bool)
    requires Ready(w, q) && D(w) <= R(w) && R(w) != D(w) && HasStatus(w.st, ScaleDown, Succeeded)
    ensures var x := w.(st := PutMap(w.st, HostsMap, RenderHosts(w.st.spec.machine))); Ready(x, q) && R(x) == D(w)
  {
    hide *;
    ReadySolid(w, q);
    SolidIs(w.st);
    RenderingRecords(w.st.spec);
    DesiredIs(w);
    Pictures(w);
    NeedsAre(w);
    Statuses(w.st, ScaleDown);
    var text := RenderHosts(w.st.spec.machine);
    var x := w.(st := PutMap(w.st, HostsMap, text));
    MapWrites(w, text);
    SolidWrites(w.st, text, Worker("", Active), ScaleUp);
    if q { RecordDownKeeps(ScalingOf(w)); }
    MakeReady(x, q);
    Pictures(x);
  }

  lemma {:induction false} DesiredIs(w: World)
    ensures D(w) == NameSet(w.st.spec.machine.workers)
    ensures HostsMap in w.st.maps ==> R(w) == RecordedNameSet(w.st.maps[HostsMap])
  {
  }

  lemma {:induction false} ScaleDownDropped(w: World, q: bool)
    requires Ready(w, q) && R(w) == D(w)
    ensures Ready(w.(st := DropWorker(w.st, ScaleDown)), q)
  {
    hide *;
    ReadySolid(w, q);
    Pictures(w);
    WorkerWrites(w, Worker("", Active));
    SolidWrites(w.st, "", Worker("", Active), ScaleDown);
    if q { CleanDownKeeps(ScalingOf(w)); }
    MakeReady(w.(st := DropWorker(w.st, ScaleDown)), q);
  }

  lemma {:induction false} UpgradeStarted(w: World, q: bool)
    requires Ready(w, q) && Upgrade !in w.st.workers && Wanted(RecordedVersion(w.st), w.st.spec.version)
    ensures Ready(w.(st := AddWorker(w.st, Upgrade, Worker(UpgradeCmd(w.st.spec.version), Active))), q)
  {
    hide *;
    ReadySolid(w, q);
    SolidIs(w.st);
    SpecVersion(w.st.spec);
    UpgradeCmdRoundTrip(w.st.spec.version);
    Pictures(w);
    NeedsAre(w);
    Statuses(w.st, Upgrade);
    var k := Worker(UpgradeCmd(w.st.spec.version), Active);
    WorkerWrites(w, k);
    SolidWrites(w.st, "", k, Upgrade);
    if q { StartUpgradeKeeps(VersioningOf(w)); }
    MakeReady(w.(st := AddWorker(w.st, Upgrade, k)), q);
  }

  lemma {:induction false} UpgradeRecorded(w: World, q: bool)
    requires Ready(w, q) && HasStatus(w.st, Upgrade, Succeeded) && Wanted(RecordedVersion(w.st), w.st.spec.version)
    ensures ConfigMap in w.st.maps
    ensures var x := w.(st := PutMap(w.st, ConfigMap, UpdateVersion(w.st.maps[ConfigMap], w.st.spec.version)));
            Ready(x, q) && RecordedVersion(x.st) == w.st.spec.version
  {
    hide *;
    ReadySolid(w, q);
    SolidIs(w.st);
    SpecVersion(w.st.spec);
    Pictures(w);
    NeedsAre(w);
    Statuses(w.st, Upgrade);
    var text := UpdateVersion(w.st.maps[ConfigMap], w.st.spec.version);
    var x := w.(st := PutMap(w.st, ConfigMap, text));
    UpdateKeepsCanonical(w.st.maps[ConfigMap], w.st.spec.version);
    MapWrites(w, text);
    SolidWrites(w.st, text, Worker("", Active), ScaleUp);
    if q { RecordUpgradeKeeps(VersioningOf(w)); }
    MakeReady(x, q);
    Pictures(x);
  }

  lemma {:induction false} UpgradeDropped(w: World, q: bool)
    requires Ready(w, q) && RecordedVersion(w.st) == w.st.spec.version
    ensures Ready(w.(st := DropWorker(w.st, Upgrade)), q)
  {
    hide *;
    ReadySolid(w, q);
    Pictures(w);
    WorkerWrites(w, Worker("", Active));
    SolidWrites(w.st, "", Worker("", Active), Upgrade);
    if q { CleanUpgradeKeeps(VersioningOf(w)); }
    MakeReady(w.(st := DropWorker(w.st, Upgrade)), q);
  }

  // ----- one reconcile -----

  /** What a reconcile past provisioning ends with, also when it stops half-way. */
  ghost predicate Settled(w: World, s: Session, q: bool) {
    Agrees(w.(st := s.st), q) && s.st.phase == w.st.phase && (HasInfo(s.phase) || s.phase == Unknown)
  }

  lemma {:induction false} ScaleUpKeeps(w: World, ses: Session, q: bool)
    requires Ready(w, q) && ses.st == w.st && HasInfo(ses.phase) && !(D(w) <= R(w))
    ensures Settled(w, ReconcileScaleUp(ses, Missing(w.st)).ses, q)
  {
    hide Ready, Agrees, EnsureScaleUpHostsCreated, EnsureWorkerCreated, FinishScaleUp, Trim, Missing, Grown, R, D;
    var ns := Missing(w.st);
    ReadyIs(w, q);
    if ScaleUpMap !in w.st.maps { ScaleUpMapCreated(w, q); }
    var o := EnsureScaleUpHostsCreated(ses, ns);
    var w1 := w.(st := o.ses.st);
    ReadyIs(w1, q);
    if o.Stop? { return; }
    SameHosts(w, w1);
    if ScaleUp !in w1.st.workers { ScaleUpStarted(w1, q); }
    var p := EnsureWorkerCreated(o.ses, ScaleUp, SCALE_UP_CMD);
    ReadyIs(w.(st := p.ses.st), q);
    if p.Go? && p.value.status == Succeeded {
      assert p.ses.st == w1.st;
      FinishScaleUpKeeps(w1, p.ses.(phase := ScalingUp), q);
    }
  }

  lemma {:induction false} FinishScaleUpKeeps(w: World, ses: Session, q: bool)
    requires Ready(w, q) && ses.st == w.st && HasInfo(ses.phase) && !(D(w) <= R(w))
             && HasStatus(w.st, ScaleUp, Succeeded)
    ensures Settled(w, FinishScaleUp(ses, Missing(w.st)).ses, q)
  {
    hide Ready, Agrees, UpdateClusterNodes, EnsureMapDeleted, EnsureWorkerDeleted, Missing, Grown, R, D;
    ReadyIs(w, q);
    ScaleUpRecorded(w, q);
    var o := UpdateClusterNodes(ses, Missing(w.st));
    var w1 := w.(st := o.ses.st);
    ReadyIs(w1, q);
    if o.Stop? { return; }
    DesiredSame(w, w1);
    ScaleUpMapDropped(w1, q);
    var p := EnsureMapDeleted(o.ses.(phase := Provisioned), ScaleUpMap);
    var w2 := w1.(st := p.ses.st);
    ReadyIs(w2, q);
    if p.Stop? { return; }
    SameHosts(w1, w2);
    ScaleUpDropped(w2, q);
    ReadyIs(w.(st := EnsureWorkerDeleted(p.ses, ScaleUp).ses.st), q);
  }

  /** The sets and lists depend on `cluster-hosts` and the spec only. */
  lemma {:induction false} SameHosts(w: World, w': World)
    requires HostsMap in w.st.maps && HostsMap in w'.st.maps && w.st.maps[HostsMap] == w'.st.maps[HostsMap]
    requires w.st.spec == w'.st.spec
    ensures R(w) == R(w') && D(w) == D(w') && Missing(w.st) == Missing(w'.st) && Surplus(w.st) == Surplus(w'.st)
  {
  }

  lemma {:induction false} ScaleDownKeeps(w: World, ses: Session, q: bool)
    requires Ready(w, q) && ses.st == w.st && HasInfo(ses.phase) && D(w) <= R(w) && R(w) != D(w)
    ensures Settled(w, ReconcileScaleDown(ses, Surplus(w.st)).ses, q)
  {
    hide Ready, Agrees, EnsureWorkerCreated, RecreateClusterHosts, EnsureWorkerDeleted, Surplus, R, D, ScaleDownCmd;
    hide RenderHosts;
    var ns := Surplus(w.st);
    ReadyIs(w, q);
    if ScaleDown !in w.st.workers { ScaleDownStarted(w, q); }
    var o := EnsureWorkerCreated(ses, ScaleDown, ScaleDownCmd(ns));
    ReadyIs(w.(st := o.ses.st), q);
    if o.Stop? || o.value.status != Succeeded { return; }
    assert o.ses.st == w.st;
    HostsDropped(w, q);
    ScaleDownRecorded(w, q);
    var p := RecreateClusterHosts(o.ses.(phase := ScalingDown));
    var w1 := w.(st := p.ses.st);
    ReadyIs(w1, q);
    if p.Stop? { return; }
    DesiredSame(w, w1);
    ScaleDownDropped(w1, q);
    ReadyIs(w.(st := EnsureWorkerDeleted(p.ses.(phase := Provisioned), ScaleDown).ses.st), q);
  }

  lemma {:induction false} DesiredSame(w: World, w': World)
    requires w.st.spec == w'.st.spec
    ensures D(w) == D(w')
  {
  }

  lemma {:induction false} UpgradeKeeps(w: World, ses: Session, q: bool)
    requires Ready(w, q) && ses.st == w.st && HasInfo(ses.phase) && Wanted(RecordedVersion(w.st), w.st.spec.version)
    ensures Settled(w, ReconcileUpgrade(ses, w.st.spec.version).ses, q)
  {
    hide Ready, Agrees, EnsureWorkerCreated, UpdateKubeVersion, EnsureWorkerDeleted, UpgradeCmd, UpdateVersion;
    hide RecordedVersion, Wanted;
    var v := w.st.spec.version;
    ReadyIs(w, q);
    if Upgrade !in w.st.workers { UpgradeStarted(w, q); }
    var o := EnsureWorkerCreated(ses, Upgrade, UpgradeCmd(v));
    ReadyIs(w.(st := o.ses.st), q);
    if o.Stop? || o.value.status != Succeeded { return; }
    assert o.ses.st == w.st;
    UpgradeRecorded(w, q);
    var p := UpdateKubeVersion(o.ses.(phase := Upgrading), v);
    ReadyIs(w.(st := p.ses.st), q);
    if p.Stop? { return; }
    UpgradeDropped(w.(st := p.ses.st), q);
    ReadyIs(w.(st := EnsureWorkerDeleted(p.ses.(phase := Provisioned), Upgrade).ses.st), q);
  }

  /** Past provisioning the dispatcher only ever calls a step whose precondition holds. */
  lemma {:induction false} NormalKeeps(w: World, ses: Session, q: bool)
    requires Agrees(w, q) && ses.st == w.st && ses.phase == w.st.phase && !InProvision(Shown(w.st.phase))
    ensures Settled(w, ReconcileNormal(ses).ses, q)
  {
    hide Agrees, Ready, GetProvisionedClusterInfo, ReconcileScaleUp, ReconcileScaleDown, ReconcileUpgrade, R, D;
    hide VersionIn, UpgradeSupported, ReadWorkers, Additional, Recorded;
    SoundPhase(w, q);
    EmptyVersionUnsupported(ses.st.spec.version);
    if HasInfo(ses.phase) && HostsMap in w.st.maps && ConfigMap in w.st.maps {
      assert ReadWorkers(w.st.maps[HostsMap]) == Some(Recorded(w.st.maps[HostsMap])) by { SoundHosts(w, q); }
      var o := GetProvisionedClusterInfo(ses);
      if o.Stop? { return; }
      Differences(w);
      ReadyIs(w, q);
      assert o.ses.st == w.st && Missing(w.st) == Additional(o.value.workers, w.st.spec.machine.workers);
      if !(D(w) <= R(w)) {
        ScaleUpKeeps(w, o.ses, q);
      } else if R(w) != D(w) {
        ScaleDownKeeps(w, o.ses, q);
      } else if Wanted(RecordedVersion(w.st), w.st.spec.version) {
        UpgradeKeeps(w, o.ses, q);
      }
    }
  }

  lemma {:induction false} SoundPhase(w: World, q: bool)
    requires Agrees(w, q) && !InProvision(Shown(w.st.phase))
    ensures (HasInfo(w.st.phase) || w.st.phase == Unknown) && HasStatus(w.st, Init, Succeeded) && ConfigMap in w.st.maps
  {
    hide ValidSpec, GoodHosts, Canonical, InStep;
  }

  lemma {:induction false} SoundHosts(w: World, q: bool)
    requires Agrees(w, q) && HostsMap in w.st.maps
    ensures ReadWorkers(w.st.maps[HostsMap]) == Some(Recorded(w.st.maps[HostsMap]))
  {
    hide ValidSpec, GoodHosts, Canonical, InStep, ReadWorkers, Recorded;
    GoodHostsRead(w.st.maps[HostsMap]);
  }

  // ----- provisioning -----

  /** Provisioning fills in what is missing and moves on only after the init worker succeeded. */
  ghost predicate Provisions(w: World, s: Session, q: bool) {
    && Agrees(w.(st := s.st), q) && s.st.phase == w.st.phase
    && (InProvision(s.phase) || (s.phase == Provisioned && HasStatus(s.st, Init, Succeeded) && ConfigMap in s.st.maps))
  }

  ghost predicate Early(w: World, q: bool) {
    Agrees(w, q) && InProvision(Shown(w.st.phase))
  }

  function Rendered(spec: Spec, name: MapName): string {
    if name == HostsMap then RenderHosts(spec.machine) else RenderConfig(spec.version, spec.settings)
  }

  lemma {:induction false} MapProvided(w: World, name: MapName, q: bool)
    requires Early(w, q) && name !in w.st.maps && name != ScaleUpMap
    ensures Early(w.(st := PutMap(w.st, name, Rendered(w.st.spec, name))), q)
  {
    hide GoodHosts, ValidSpec, Canonical, RenderHosts, RenderConfig, ScalingOf, VersioningOf;
    RenderingRecords(w.st.spec);
  }

  lemma {:induction false} InitStarted(w: World, q: bool)
    requires Early(w, q) && HostsMap in w.st.maps && ConfigMap in w.st.maps && Init !in w.st.workers
    ensures Early(w.(st := AddWorker(w.st, Init, Worker(INIT_CMD, Active))), q)
  {
    hide GoodHosts, ValidSpec, Canonical, ScalingOf, VersioningOf;
  }

  lemma {:induction false} ProvisionKeeps(w: World, ses: Session, q: bool)
    requires Early(w, q) && ses.st == w.st && ses.phase == Shown(w.st.phase)
    ensures Provisions(w, ReconcileProvision(ses).ses, q)
  {
    hide Agrees, EnsureMapCreated, RunInit, RenderHosts, RenderConfig;
    var spec := w.st.spec;
    if HostsMap !in w.st.maps { MapProvided(w, HostsMap, q); }
    var o := EnsureMapCreated(ses, HostsMap, RenderHosts(spec.machine));
    if o.Stop? { return; }
    var w1 := w.(st := o.ses.st);
    if ConfigMap !in w1.st.maps { MapProvided(w1, ConfigMap, q); }
    var p := EnsureMapCreated(o.ses, ConfigMap, RenderConfig(spec.version, spec.settings));
    if p.Go? { RunInitKeeps(w1.(st := p.ses.st), p.ses, q); }
  }

  lemma {:induction false} RunInitKeeps(w: World, ses: Session, q: bool)
    requires Early(w, q) && ses.st == w.st && InProvision(ses.phase) && HostsMap in w.st.maps && ConfigMap in w.st.maps
    ensures Provisions(w, RunInit(ses).ses, q)
  {
    hide Agrees, EnsureWorkerCreated, EnsureFinalizerAndOwnerRef, Get;
    if Init !in w.st.workers { InitStarted(w, q); }
    var o := EnsureWorkerCreated(ses, Init, INIT_CMD);
    assert o.Go? && o.value.status == Succeeded ==> HasStatus(o.ses.st, Init, Succeeded);
  }

  /** The deferred patch writes a phase that fits. */
  lemma {:induction false} PatchKeeps(w: World, snapshot: Phase, s: Session, f: Faults, q: bool)
    requires Agrees(w.(st := s.st), q) && s.st.phase == w.st.phase && s.phase != Unset && s.phase != Deleting
    requires if InProvision(Shown(w.st.phase)) then Provisions(w, s, q) else Settled(w, s, q)
    ensures Agrees(w.(st := Patch(snapshot, s, f)), q)
    ensures !InProvision(Shown(w.st.phase)) ==> !InProvision(Shown(Patch(snapshot, s, f).phase))
  {
    hide GoodHosts, ValidSpec, Canonical, ScalingOf, VersioningOf;
    var st := Patch(snapshot, s, f);
    OtherWrites(w.(st := s.st), st.phase, st.finalizer);
  }

  lemma {:induction false} ReconcileKeeps(w: World, f: Faults, q: bool)
    requires Agrees(w, q)
    ensures Agrees(w.(st := Reconcile(w.st, f)), q)
  {
    hide Agrees, ReconcileProvision, ReconcileNormal, Patch;
    NotDeleting(w, q);
    if f.budget < PREAMBLE {
      assert w.(st := Reconcile(w.st, f)) == w;
    } else {
      var ses := Open(w.st, f);
      var s := ReconcileNormal(ses).ses;
      if InProvision(Shown(w.st.phase)) {
        ProvisionKeeps(w, ses, q);
        NormalIsProvision(ses);
      } else {
        NormalKeeps(w, ses, q);
      }
      PatchKeeps(w, Shown(w.st.phase), s, f, q);
    }
  }

  lemma {:induction false} NormalIsProvision(ses: Session)
    requires InProvision(ses.phase)
    ensures ReconcileNormal(ses) == ReconcileProvision(ses)
  {
    hide ReconcileProvision;
  }

  lemma {:induction false} NotDeleting(w: World, q: bool)
    requires Agrees(w, q)
    ensures !w.st.deleting && w.st.phase != Deleting
  {
    hide ValidSpec, GoodHosts, Canonical, InStep;
  }

  // ----- the other events -----

  lemma {:induction false} SuccessPictures(w: World, a: Action)
    requires Enabled(w, WorkerSucceeds(a)) && a != Terminate
    ensures var x, s, v := Apply(w, WorkerSucceeds(a)), ScalingOf(w), VersioningOf(w);
            match a
            case Init => ScalingOf(x) == s.(installed := s.recorded)
            && VersioningOf(x) == v.(installed := WithV(v.recorded))
            case ScaleUp =>
              s.grown.Some? && ScalingOf(x) == s.(up := Some(Succeeded), installed := s.grown.value)
              && VersioningOf(x) == v
            case ScaleDown =>
              ScalingOf(x) == s.(down := Some(Succeeded), installed := s.installed - s.removed) && VersioningOf(x) == v
            case Upgrade => ScalingOf(x) == s
            && VersioningOf(x) == v.(upgrade := Some(Succeeded), installed := v.command)
            case Terminate => true
  {
    hide RecordedNameSet, CommandNodes, Elements, NameSet, VersionIn, CommandVersion, WithV;
  }

  lemma {:induction false} SuccessKeeps(w: World, a: Action, q: bool)
    requires Agrees(w, q) && Enabled(w, WorkerSucceeds(a))
    ensures Agrees(Apply(w, WorkerSucceeds(a)), q)
  {
    SuccessState(w, a);
    SuccessSound(w.st, a);
    hide Sound, ScalingOf, VersioningOf, Apply, Scaling.Fits, Versioning.Fits, R, D, RecordedVersion;
    if q {
      SuccessPictures(w, a);
      Pictures(w);
      var x := Apply(w, WorkerSucceeds(a));
      if a == Init {
        FirstFits(ScalingOf(x), VersioningOf(x));
      } else if HasStatus(w.st, Init, Succeeded) {
        if HostsMap in w.st.maps && a == ScaleUp { UpSucceedsKeeps(ScalingOf(w)); }
        if HostsMap in w.st.maps && a == ScaleDown { DownSucceedsKeeps(ScalingOf(w)); }
        if a == Upgrade { UpgradeSucceedsKeeps(VersioningOf(w)); }
      }
    }
  }

  lemma {:induction false} SuccessSound(st: State, a: Action)
    requires Sound(st) && HasStatus(st, a, Active)
    ensures a != Terminate && Sound(SetStatus(st, a, Succeeded))
    ensures a == Init ==> StatusOf(st, ScaleUp).None? && StatusOf(st, ScaleDown).None? && StatusOf(st, Upgrade).None?
    ensures a == Init ==> ScaleUpMap !in st.maps
  {
    hide GoodHosts, ValidSpec, Canonical;
  }

  lemma {:induction false} SuccessState(w: World, a: Action)
    requires Enabled(w, WorkerSucceeds(a))
    ensures HasStatus(w.st, a, Active) && Mounted(a) in w.st.maps && ConfigMap in w.st.maps
    ensures Apply(w, WorkerSucceeds(a)).st == SetStatus(w.st, a, Succeeded)
  {
    hide RecordedNameSet, CommandNodes, VersionIn, WithV, CommandVersion, Elements;
  }

  lemma {:induction false} EventKeeps(w: World, e: Event, q: bool)
    requires Agrees(w, q) && Enabled(w, e) && (q ==> HarmlessEvent(w, e)) && !e.DeletionRequested?
    ensures Agrees(Apply(w, e), q)
  {
    hide Agrees, Enabled, Apply, HarmlessChange;
    match e
    case Reconciled(f) =>
      ReconcileKeeps(w, f, q);
      ReconciledIs(w, f);
    case WorkerSucceeds(a) => SuccessKeeps(w, a, q);
    case WorkerFails(a) => FailureKeeps(w, a, q);
    case FailedWorkerRemoved(a) => RemovalKeeps(w, a, q);
    case SpecChanged(spec) => ChangeKeeps(w, spec, q);
  }

  lemma {:induction false} FailureKeeps(w: World, a: Action, q: bool)
    requires Agrees(w, q) && Enabled(w, WorkerFails(a))
    ensures Agrees(Apply(w, WorkerFails(a)), q)
  {
    FailureSound(w.st, a);
    hide Sound, InStep;
    if q { FailureInStep(w, a, w.(st := SetStatus(w.st, a, Failed))); }
  }

  lemma {:induction false} RemovalKeeps(w: World, a: Action, q: bool)
    requires Agrees(w, q) && Enabled(w, FailedWorkerRemoved(a))
    ensures Agrees(Apply(w, FailedWorkerRemoved(a)), q)
  {
    FailureSound(w.st, a);
    hide Sound, InStep;
    if q { FailureInStep(w, a, w.(st := DropWorker(w.st, a))); }
  }

  lemma {:induction false} FailureInStep(w: World, a: Action, x: World)
    requires InStep(w) && a in w.st.workers && a != Terminate
    requires || (HasStatus(w.st, a, Active) && x == w.(st := SetStatus(w.st, a, Failed)))
             || (HasStatus(w.st, a, Failed) && x == w.(st := DropWorker(w.st, a)))
    ensures InStep(x)
  {
    hide ScalingOf, VersioningOf, Scaling.Fits, Versioning.Fits;
    if HasStatus(x.st, Init, Succeeded) {
      FailurePictures(w, a);
      Pictures(w);
      if HostsMap in w.st.maps { FailureFits(ScalingOf(w)); }
      if ConfigMap in w.st.maps { UpgradeFailureFits(VersioningOf(w)); }
    }
  }

  lemma {:induction false} FailurePictures(w: World, a: Action)
    requires a in w.st.workers && a != Terminate
    ensures var x, s, v := w.(st := SetStatus(w.st, a, Failed)), ScalingOf(w), VersioningOf(w);
            && ScalingOf(x)
               == (if a == ScaleUp then s.(up := Some(Failed)) else if a == ScaleDown then s.(down := Some(Failed))
                   else s)
            && VersioningOf(x) == if a == Upgrade then v.(upgrade := Some(Failed)) else v
    ensures var x, s, v := w.(st := DropWorker(w.st, a)), ScalingOf(w), VersioningOf(w);
            && ScalingOf(x) == (if a == ScaleUp then s.(up := None)
                                else if a == ScaleDown then s.(down := None, removed := {}) else s)
            && VersioningOf(x) == if a == Upgrade then v.(upgrade := None, command := "") else v
  {
    hide RecordedNameSet, CommandNodes, Elements, NameSet, VersionIn, CommandVersion;
  }

  lemma {:induction false} FailureSound(st: State, a: Action)
    requires Sound(st) && a in st.workers
    ensures HasStatus(st, a, Active) ==> a != Terminate && Sound(SetStatus(st, a, Failed))
    ensures HasStatus(st, a, Failed) ==> a != Terminate && Sound(DropWorker(st, a))
  {
    hide GoodHosts, ValidSpec, Canonical;
  }

  lemma {:induction false} ChangePictures(w: World, spec: Spec)
    ensures var x := w.(st := w.st.(spec := spec));
            && ScalingOf(x) == ScalingOf(w).(desired := NameSet(spec.machine.workers))
            && VersioningOf(x) == VersioningOf(w).(desired := spec.version)
  {
    hide RecordedNameSet, CommandNodes, Elements, NameSet, VersionIn, CommandVersion;
  }

  /** A spec change keeps the record in step exactly when it is harmless. */
  lemma {:induction false} ChangeInStep(w: World, spec: Spec)
    requires InStep(w)
    ensures HarmlessChange(w, spec) <==> InStep(w.(st := w.st.(spec := spec)))
  {
    hide ScalingOf, VersioningOf, NameSet, Scaling.Fits, Scaling.Harmless, Versioning.Fits, Versioning.Harmless;
    ChangePictures(w, spec);
    if HasStatus(w.st, Init, Succeeded) && HostsMap in w.st.maps {
      HarmlessFits(ScalingOf(w), NameSet(spec.machine.workers));
    }
    if HasStatus(w.st, Init, Succeeded) && ConfigMap in w.st.maps { HarmlessVersion(VersioningOf(w), spec.version); }
  }

  lemma {:induction false} ChangeKeeps(w: World, spec: Spec, q: bool)
    requires Agrees(w, q) && Enabled(w, SpecChanged(spec)) && (q ==> HarmlessChange(w, spec))
    ensures Agrees(Apply(w, SpecChanged(spec)), q)
  {
    hide GoodHosts, ValidSpec, Canonical, InStep, HarmlessChange;
    if q { ChangeInStep(w, spec); }
  }

  lemma {:induction false} ReconciledIs(w: World, f: Faults)
    ensures Enabled(w, Reconciled(f)) && Apply(w, Reconciled(f)) == w.(st := Reconcile(w.st, f))
  {
    hide Reconcile;
  }

  lemma {:induction false} InitialAgrees(w: World, q: bool)
    requires Initial(w)
    ensures Agrees(w, q)
  {
    hide GoodHosts, ValidSpec, Canonical;
  }

  lemma {:induction false} RunKeeps(w: World, es: seq<Event>, q: bool)
    requires Agrees(w, q) && Legal(w, es) && (q ==> HarmlessRun(w, es)) && NoDeletion(es)
    ensures Agrees(Run(w, es), q)
    decreases es
  {
    hide Agrees, Apply, Enabled, HarmlessEvent;
    if es != [] {
      EventKeeps(w, es[0], q);
      RunKeeps(Apply(w, es[0]), es[1..], q);
    }
  }

  // ----- what it means -----

  /** The record tells what is installed, up to a worker's success that waits to be recorded. */
  ghost predicate RecordIsTrue(w: World) {
    HasStatus(w.st, Init, Succeeded) ==>
      && (HostsMap in w.st.maps ==> ReadWorkers(w.st.maps[HostsMap]).Some? && w.installed == ScalingOf(w).Expected())
      && (ConfigMap in w.st.maps ==> w.version == VersioningOf(w).Expected())
  }

  lemma {:induction false} AgreementIsTruth(w: World)
    requires Agrees(w, true)
    ensures RecordIsTrue(w)
  {
    assert InStep(w);
    if HostsMap in w.st.maps { SoundHosts(w, true); }
    hide Sound, ReadWorkers, Recorded, ScalingOf, VersioningOf;
    Pictures(w);
  }

  /** Main result. Over every run in which each spec change is harmless when it is made, and whatever
      calls fail, the inventory can be read and names exactly the installed workers, except in the
      window; inside the window it is the union, respectively the desired set, that is installed.
      Likewise for the version. */
  lemma {:induction false} RecordMatchesInstalled(w: World, es: seq<Event>)
    requires Initial(w) && Legal(w, es) && HarmlessRun(w, es) && NoDeletion(es)
    ensures RecordIsTrue(Run(w, es))
    ensures var x := Run(w, es);
            !InProvision(Shown(x.st.phase)) ==> HasStatus(x.st, Init, Succeeded) && ConfigMap in x.st.maps
  {
    hide Initial, Legal, Run, HarmlessRun, NoDeletion, Agrees, RecordIsTrue;
    InitialAgrees(w, true);
    RunKeeps(w, es, true);
    var x := Run(w, es);
    AgreementIsTruth(x);
    if !InProvision(Shown(x.st.phase)) { SoundPhase(x, true); }
  }
}
