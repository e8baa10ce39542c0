/** Runs of one CustomCluster: reconciles with any faults, workers that finish or fail, failed workers
    removed by hand, changes of the desired spec, and deletion. */
module ClusterRuns {
  import opened Text
  import opened Inventory
  import opened WorkerNodes
  import opened KubeVersion
  import opened CustomCluster

  /** The store, and what is really installed on the machines. The operator never sees the latter. */
  datatype World = World(st: State, installed: set<string>, version: string)

  datatype Event =
    | Reconciled(faults: Faults)
    | WorkerSucceeds(action: Action)
    | WorkerFails(action: Action)
    | FailedWorkerRemoved(action: Action)
    | SpecChanged(spec: Spec)
    | DeletionRequested

  function Elements(names: seq<string>): set<string> {
    set n | n in names
  }

  function RecordedNameSet(text: string): set<string> {
    NameSet(Recorded(text))
  }

  predicate HasStatus(st: State, a: Action, status: Status) {
    a in st.workers && st.workers[a].status == status
  }

  function SetStatus(st: State, a: Action, status: Status): State
    requires a in st.workers
  {
    st.(workers := st.workers[a := st.workers[a].(status := status)])
  }

  /** The inventory a worker mounts. */
  function Mounted(a: Action): MapName {
    if a == ScaleUp then ScaleUpMap else HostsMap
  }

  /** A running worker's success changes what is installed, by what its inventory or command says. */
  function Effect(w: World, a: Action): World
    requires a in w.st.workers && Mounted(a) in w.st.maps && ConfigMap in w.st.maps
  {
    var cmd := w.st.workers[a].cmd;
    match a
    case Init => w.(installed := RecordedNameSet(w.st.maps[HostsMap]),
                    version := WithV(VersionIn(w.st.maps[ConfigMap])))
    case ScaleUp => w.(installed := RecordedNameSet(w.st.maps[ScaleUpMap]))
    case ScaleDown => w.(installed := w.installed - Elements(CommandNodes(cmd)))
    case Upgrade => w.(version := CommandVersion(cmd))
    case Terminate => w.(installed := {}, version := "")
  }

  /** What the operator assumes of a spec. Admission checks counts and addresses only. */
  ghost predicate ValidSpec(s: Spec) {
    && PlainNodes(s.machine.masters) && PlainNodes(s.machine.workers)
    && DistinctNames(s.machine.masters + s.machine.workers)
    && s.version != "" && Token(s.version) && Quiet(s.settings, "", [KEY])
  }

  /** A cluster that was just created. */
  ghost predicate Initial(w: World) {
    && w.st.phase == Unset && !w.st.finalizer && w.st.maps == map[] && w.st.workers == map[]
    && ValidSpec(w.st.spec) && !w.st.deleting
  }

  ghost predicate Enabled(w: World, e: Event) {
    match e
    case Reconciled(_) => true
    case WorkerSucceeds(a) => HasStatus(w.st, a, Active) && Mounted(a) in w.st.maps && ConfigMap in w.st.maps
    case WorkerFails(a) => HasStatus(w.st, a, Active)
    case FailedWorkerRemoved(a) => HasStatus(w.st, a, Failed)
    case SpecChanged(s) => ValidSpec(s)
    case DeletionRequested => true
  }

  ghost function Apply(w: World, e: Event): World
    requires Enabled(w, e)
  {
    match e
    case Reconciled(f) => w.(st := Reconcile(w.st, f))
    case WorkerSucceeds(a) => var w' := Effect(w, a); w'.(st := SetStatus(w.st, a, Succeeded))
    case WorkerFails(a) => w.(st := SetStatus(w.st, a, Failed))
    case FailedWorkerRemoved(a) => w.(st := w.st.(workers := w.st.workers - {a}))
    case SpecChanged(s) => w.(st := w.st.(spec := s))
    case DeletionRequested => w.(st := w.st.(deleting := true))
  }

  ghost predicate Legal(w: World, es: seq<Event>)
    decreases es
  {
    es == [] || (Enabled(w, es[0]) && Legal(Apply(w, es[0]), es[1..]))
  }

  ghost function Run(w: World, es: seq<Event>): World
    requires Legal(w, es)
    decreases es
  {
    if es == [] then w else Run(Apply(w, es[0]), es[1..])
  }

  ghost predicate NoDeletion(es: seq<Event>) {
    forall i | 0 <= i < |es| :: !es[i].DeletionRequested?
  }

  /** The spec stays, and nobody deletes. */
  ghost predicate Steady(es: seq<Event>) {
    forall i | 0 <= i < |es| :: !es[i].SpecChanged? && !es[i].DeletionRequested?
  }

  /** A run from `w` to `x` without deletion. */
  ghost predicate Leads(w: World, es: seq<Event>, x: World) {
    Legal(w, es) && NoDeletion(es) && Run(w, es) == x
  }

  lemma {:induction false} BeginRun(w: World)
    ensures Leads(w, [], w)
  {
  }

  lemma {:induction false} Next(w: World, es: seq<Event>, x: World, e: Event)
    requires Leads(w, es, x) && Enabled(x, e) && !e.DeletionRequested?
    ensures Leads(w, es + [e], Apply(x, e))
    ensures Steady(es) && !e.SpecChanged? ==> Steady(es + [e])
    decreases es
  {
    hide Apply, Enabled;
    var all := es + [e];
    if es == [] {
      assert all == [e] && all[1..] == [];
      assert Legal(Apply(w, e), []) && Run(w, all) == Run(Apply(w, e), []);
    } else {
      assert all[0] == es[0] && all[1..] == es[1..] + [e];
      assert forall i | 0 <= i < |es[1..]| :: es[1..][i] == es[i + 1];
      Next(Apply(w, es[0]), es[1..], x, e);
    }
  }

  lemma {:induction false} Follow(w: World, es: seq<Event>, x: World, more: seq<Event>)
    requires Leads(w, es, x) && Legal(x, more) && NoDeletion(more)
    ensures Leads(w, es + more, Run(x, more))
    decreases more
  {
    hide Apply, Enabled;
    if more == [] {
      assert es + more == es;
    } else {
      Next(w, es, x, more[0]);
      assert forall i | 0 <= i < |more[1..]| :: more[1..][i] == more[i + 1];
      Follow(w, es + [more[0]], Apply(x, more[0]), more[1..]);
      assert es + [more[0]] + more[1..] == es + more;
    }
  }
}
