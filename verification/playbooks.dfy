/** Which kubespray playbook a worker's command runs, and that along every run each worker runs the one of its
    action; so what a worker's success changes is what its command says. */
module Playbooks {
  import opened Text
  import opened Inventory
  import opened WorkerNodes
  import opened KubeVersion
  import opened CustomCluster
  import opened ClusterRuns
  import opened RecordAgreement
  import opened ClusterSafety

  /** The first word after the options that all commands share. */
  function Playbook(cmd: string): string {
    if KUBESPRAY_PREFIX <= cmd then UpTo(cmd[|KUBESPRAY_PREFIX|..], ' ') else ""
  }

  const CLUSTER := "cluster.yml"
  const SCALE := "scale.yml"
  const REMOVE_NODE := "remove-node.yml"
  const UPGRADE_CLUSTER := "upgrade-cluster.yml"
  const RESET := "reset.yml"

  /** The playbook an action is meant to run. */
  function PlaybookFor(a: Action): string {
    match a
    case Init => CLUSTER
    case ScaleUp => SCALE
    case ScaleDown => REMOVE_NODE
    case Upgrade => UPGRADE_CLUSTER
    case Terminate => RESET
  }

  /** The command's tail starts with the playbook and a blank. */
  lemma {:induction false} PlaybookIs(tail: string, book: string)
    requires book + " " <= tail && ' ' !in book
    ensures Playbook(KUBESPRAY_PREFIX + tail) == book
  {
    var cmd, rest := KUBESPRAY_PREFIX + tail, tail[|book|..];
    assert (book + " ")[|book|] == tail[|book|] == rest[0] == ' ';
    assert tail == book + rest by { assert book == (book + " ")[..|book|] == tail[..|book|]; }
    assert cmd[|KUBESPRAY_PREFIX|..] == tail;
    UpToConcat(book, rest, ' ');
    assert UpTo(rest, ' ') == "" && book + "" == book;
  }

  lemma {:induction false} InitPlaybook()
    ensures Playbook(INIT_CMD) == CLUSTER
  {
    hide Playbook;
    assert CLUSTER + " " == "cluster.yml ";
    PlaybookIs("cluster.yml -vvv ", CLUSTER);
  }

  lemma {:induction false} ScaleUpPlaybook()
    ensures Playbook(SCALE_UP_CMD) == SCALE
  {
    hide Playbook;
    assert SCALE + " " == "scale.yml ";
    PlaybookIs("scale.yml -vvv ", SCALE);
  }

  lemma {:induction false} TerminatePlaybook()
    ensures Playbook(TERMINATE_CMD) == RESET
  {
    hide Playbook;
    assert RESET + " " == "reset.yml ";
    PlaybookIs("reset.yml -vvv -e reset_confirmation=yes", RESET);
  }

  lemma {:induction false} LongerTail(head: string, tail: string, x: string, book: string)
    requires book + " " <= tail && ' ' !in book && head == KUBESPRAY_PREFIX + tail
    ensures Playbook(head + x) == book
  {
    hide Playbook;
    assert head + x == KUBESPRAY_PREFIX + (tail + x);
    assert book + " " <= tail + x;
    PlaybookIs(tail + x, book);
  }

  lemma {:induction false} ScaleDownPlaybook(ns: seq<NodeInfo>)
    requires ns != []
    ensures Playbook(ScaleDownCmd(ns)) == REMOVE_NODE
  {
    hide Playbook, Join;
    assert REMOVE_NODE + " " == "remove-node.yml ";
    LongerTail(SCALE_DOWN_PREFIX, "remove-node.yml -vvv -e skip_confirmation=yes",
               NODE_ARG + (Join(Names(ns), ",") + "\" "), REMOVE_NODE);
  }

  lemma {:induction false} UpgradePlaybook(version: string)
    requires version != ""
    ensures Playbook(UpgradeCmd(version)) == UPGRADE_CLUSTER
  {
    hide Playbook, TrimPrefix;
    assert UPGRADE_CLUSTER + " " == "upgrade-cluster.yml ";
    LongerTail(UPGRADE_PREFIX, "upgrade-cluster.yml -vvv ", VERSION_ARG + TrimPrefix(version, "v"), UPGRADE_CLUSTER);
  }

  // ----- workers keep their command -----

  ghost predicate SameWorkers(st: State, x: State) {
    forall a | a in st.workers && a in x.workers :: x.workers[a] == st.workers[a]
  }

  lemma {:induction false} DeletionKeepsWorkers(st: State, f: Faults)
    requires st.deleting
    ensures SameWorkers(st, Reconcile(st, f))
    ensures forall a | a !in st.workers && a in Reconcile(st, f).workers ::
              a == Terminate && Reconcile(st, f).workers[a] == Worker(TERMINATE_CMD, Active)
  {
    hide DeleteWorkerPods, EnsureWorkerCreated, DeleteResource;
    if f.budget >= PREAMBLE {
      var ses := Open(st, f);
      PodsOnlyGo(ses);
      DeleteWorkerPodsClears(ses);
      var o := DeleteWorkerPods(ses);
      if o.Go? {
        var p := EnsureWorkerCreated(o.ses, Terminate, TERMINATE_CMD);
        if p.Go? { DeleteResourceReleases(p.ses); }
      }
    }
  }

  lemma {:induction false} PodsOnlyGo(ses: Session)
    ensures var x := DeleteWorkerPods(ses).ses.st;
            SameWorkers(ses.st, x) && forall a | a in x.workers :: a in ses.st.workers
  {
    hide EnsureWorkerDeleted;
  }

  lemma {:induction false} NormalKeepsWorkers(st: State, f: Faults)
    requires !st.deleting
    ensures SameWorkers(st, Reconcile(st, f))
  {
    hide ReconcileNormal, ReconcileProvision, Choose, ScaleDownCmd, UpgradeCmd, UpdateVersion, ReconcileScaleUp;
    hide ReconcileScaleDown, ReconcileUpgrade;
    if f.budget >= PREAMBLE {
      var ses := Open(st, f);
      if InProvision(ses.phase) {
        ProvisionTouches(ses);
        NormalIsProvision(ses);
      } else {
        NormalMoves(ses);
        var s := ReconcileNormal(ses).ses;
        if !SameBut(ses, s) {
          var from: Session :| SameBut(ses, from) && Makes(from, Choose(ses.st), s);
          match Choose(ses.st)
          case NoMove =>
          case MoveUp(ns) => ScaleUpTouches(from, ns);
          case MoveDown(ns) => ScaleDownTouches(from, ns);
          case MoveVersion(v) => UpgradeTouches(from, v);
        }
      }
    }
  }

  // ----- along runs -----

  ghost predicate RightCommands(st: State) {
    forall a | a in st.workers :: Playbook(st.workers[a].cmd) == PlaybookFor(a)
  }

  lemma {:induction false} StartedRight(st: State, a: Action, k: Worker)
    requires Started(st, a, k)
    ensures Playbook(k.cmd) == PlaybookFor(a)
  {
    hide Playbook, Additional, UpgradeSupported, ReadWorkers, VersionIn, ScaleDownCmd, UpgradeCmd, RecordedInfo;
    match a
    case Init => InitPlaybook();
    case ScaleUp => ScaleUpPlaybook();
    case ScaleDown => ScaleDownPlaybook(Choose(st).ns);
    case Upgrade =>
      TargetNotEmpty(RecordedInfo(st).value.version, st.spec.version);
      UpgradePlaybook(st.spec.version);
    case Terminate =>
  }

  lemma {:induction false} TargetNotEmpty(origin: string, target: string)
    requires UpgradeSupported(origin, target)
    ensures target != ""
  {
    EmptyVersionUnsupported(target);
    hide ParseSemver;
  }

  lemma {:induction false} ReconcileRight(st: State, f: Faults)
    requires RightCommands(st)
    ensures RightCommands(Reconcile(st, f))
  {
    hide Reconcile, Playbook, Started, VersionMove;
    var x := Reconcile(st, f);
    if st.deleting { DeletionKeepsWorkers(st, f); } else { NormalKeepsWorkers(st, f); ReconcileSteps(st, f); }
    forall a | a in x.workers ensures Playbook(x.workers[a].cmd) == PlaybookFor(a) {
      if a !in st.workers {
        if st.deleting { TerminatePlaybook(); } else { StartedRight(st, a, x.workers[a]); }
      }
    }
  }

  lemma {:induction false} EventRight(w: World, e: Event)
    requires RightCommands(w.st) && Enabled(w, e)
    ensures RightCommands(Apply(w, e).st)
  {
    hide Reconcile, Playbook, ValidSpec, RecordedNameSet, CommandNodes, VersionIn, WithV, CommandVersion, Elements;
    if e.Reconciled? { ReconcileRight(w.st, e.faults); }
  }

  lemma {:induction false} RunRight(w: World, es: seq<Event>)
    requires RightCommands(w.st) && Legal(w, es)
    ensures RightCommands(Run(w, es).st)
    decreases es
  {
    hide RightCommands, Apply, Enabled;
    if es != [] {
      EventRight(w, es[0]);
      RunRight(Apply(w, es[0]), es[1..]);
    }
  }

  /** What a command does to the machines, by its playbook, its arguments and the text it mounts. */
  function RunPlaybook(w: World, cmd: string, hosts: string, config: string): World {
    var book := Playbook(cmd);
    if book == CLUSTER then w.(installed := RecordedNameSet(hosts), version := WithV(VersionIn(config)))
    else if book == SCALE then w.(installed := RecordedNameSet(hosts))
    else if book == REMOVE_NODE then w.(installed := w.installed - Elements(CommandNodes(cmd)))
    else if book == UPGRADE_CLUSTER then w.(version := CommandVersion(cmd))
    else if book == RESET then w.(installed := {}, version := "")
    else w
  }

  /** In every state of every run from creation, each worker runs the playbook of its action, and its success
      changes what its command does with the configmaps it mounts. */
  lemma {:induction false} WorkersDoWhatTheyAreTold(w: World, es: seq<Event>, a: Action)
    requires Initial(w) && Legal(w, es) && a in Run(w, es).st.workers
    ensures var x := Run(w, es);
            && Playbook(x.st.workers[a].cmd) == PlaybookFor(a)
            && (Enabled(x, WorkerSucceeds(a)) ==>
                  Effect(x, a) == RunPlaybook(x, x.st.workers[a].cmd, x.st.maps[Mounted(a)], x.st.maps[ConfigMap]))
  {
    assert RightCommands(w.st);
    RunRight(w, es);
    var x := Run(w, es);
    hide Run, Legal, Initial, Playbook, RecordedNameSet, CommandNodes, VersionIn, WithV, CommandVersion, Elements;
    BooksDiffer();
    match a case Init => case ScaleUp => case ScaleDown => case Upgrade => case Terminate =>
  }

  lemma {:induction false} BooksDiffer()
    ensures CLUSTER != SCALE && CLUSTER != REMOVE_NODE && CLUSTER != UPGRADE_CLUSTER && CLUSTER != RESET
    ensures SCALE != REMOVE_NODE && SCALE != UPGRADE_CLUSTER && SCALE != RESET
    ensures REMOVE_NODE != UPGRADE_CLUSTER && REMOVE_NODE != RESET && UPGRADE_CLUSTER != RESET
  {
  }
}
