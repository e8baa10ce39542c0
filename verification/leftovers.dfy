/** A worker that is recorded but not removed stays for as long as the spec does, whatever else happens:
    nothing calls for its kind any more, so no reconcile looks at it. */
module Leftovers {
  import opened Text
  import opened Inventory
  import opened WorkerNodes
  import opened KubeVersion
  import opened CustomCluster
  import opened ClusterRuns
  import opened Agreement
  import opened RecordAgreement
  import opened ClusterSafety
  import opened Convergence
  import opened LostInventory

  /** A scaling or upgrade worker that succeeded, and nothing that calls for it. */
  predicate LeftOver(w: World, a: Action) {
    a in {ScaleUp, ScaleDown, Upgrade} && HasStatus(w.st, a, Succeeded) && !StageOf(w).Needs(a)
  }

  lemma {:induction false} LeftOverIs(w: World, a: Action)
    ensures LeftOver(w, a) <==>
            && HasStatus(w.st, a, Succeeded)
            && ((a == ScaleUp && !NeedUp(w)) || (a == ScaleDown && !NeedDown(w)) || (a == Upgrade && !NeedVersion(w)))
  {
    StageParts(w);
    hide StageOf, NeedUp, NeedDown, NeedVersion;
  }

  // ----- what a move can do to the records -----

  lemma {:induction false} FinishHosts(ses: Session, ns: seq<NodeInfo>)
    requires HostsMap in ses.st.maps && Grown(ses.st, ns).Some?
    ensures var x := FinishScaleUp(ses, ns).ses.st;
            HostsMap in x.maps && x.maps[HostsMap] in {ses.st.maps[HostsMap], Grown(ses.st, ns).value}
  {
    hide UpdateClusterNodes, EnsureMapDeleted, EnsureWorkerDeleted, Grown;
  }

  lemma {:induction false} UpHosts(ses: Session, ns: seq<NodeInfo>)
    requires HostsMap in ses.st.maps && Grown(ses.st, ns).Some?
    ensures var x := ReconcileScaleUp(ses, ns).ses.st;
            HostsMap in x.maps && x.maps[HostsMap] in {ses.st.maps[HostsMap], Grown(ses.st, ns).value}
  {
    hide EnsureScaleUpHostsCreated, EnsureWorkerCreated, FinishScaleUp, Grown, Trim;
    var o := EnsureScaleUpHostsCreated(ses, ns);
    var p := EnsureWorkerCreated(o.ses, ScaleUp, SCALE_UP_CMD);
    SameGrown(ses.st, p.ses.st, ns);
    FinishHosts(p.ses.(phase := ScalingUp), ns);
  }

  lemma {:induction false} DownHosts(ses: Session, ns: seq<NodeInfo>)
    requires HostsMap in ses.st.maps
    ensures var x := ReconcileScaleDown(ses, ns).ses.st;
            HostsMap in x.maps ==> x.maps[HostsMap] in {ses.st.maps[HostsMap], RenderHosts(ses.st.spec.machine)}
  {
    hide EnsureWorkerCreated, RecreateClusterHosts, EnsureWorkerDeleted, RenderHosts, ScaleDownCmd;
  }

  /** The inventory and the configuration after one reconcile of a cluster whose record can be read. */
  ghost predicate Rewritten(st: State, x: State)
    requires HostsMap in st.maps && ConfigMap in st.maps
  {
    && x.spec == st.spec && ConfigMap in x.maps
    && (!Choose(st).MoveVersion? ==> x.maps[ConfigMap] == st.maps[ConfigMap])
    && match Choose(st)
       case MoveUp(ns) =>
         Grown(st, ns).Some? ==> HostsMap in x.maps && x.maps[HostsMap] in {st.maps[HostsMap], Grown(st, ns).value}
       case MoveDown(_) =>
         HostsMap in x.maps ==> x.maps[HostsMap] in {st.maps[HostsMap], RenderHosts(st.spec.machine)}
       case _ => HostsMap in x.maps && x.maps[HostsMap] == st.maps[HostsMap]
  }

  /** The worker that a move is about. */
  function Mover(m: Move): Option<Action> {
    match m
    case NoMove => None
    case MoveUp(_) => Some(ScaleUp)
    case MoveDown(_) => Some(ScaleDown)
    case MoveVersion(_) => Some(Upgrade)
  }

  ghost predicate OthersSame(st: State, x: State, but: Option<Action>) {
    forall a | Some(a) != but ::
      (a in x.workers <==> a in st.workers) && (a in st.workers ==> x.workers[a] == st.workers[a])
  }

  lemma {:induction false} MoveRewrites(ses: Session, s: Session)
    requires HostsMap in ses.st.maps && ConfigMap in ses.st.maps && Makes(ses, Choose(ses.st), s)
    ensures Rewritten(ses.st, s.st) && OthersSame(ses.st, s.st, Mover(Choose(ses.st)))
  {
    hide Choose, ReconcileScaleUp, ReconcileScaleDown, ReconcileUpgrade, Grown, RenderHosts, ScaleDownCmd, UpgradeCmd;
    hide UpdateVersion;
    match Choose(ses.st)
    case NoMove =>
    case MoveUp(ns) =>
      ScaleUpTouches(ses, ns);
      if Grown(ses.st, ns).Some? { UpHosts(ses, ns); }
    case MoveDown(ns) =>
      ScaleDownTouches(ses, ns);
      DownHosts(ses, ns);
    case MoveVersion(v) => UpgradeTouches(ses, v);
  }

  lemma {:induction false} NothingRewrites(st: State)
    requires HostsMap in st.maps && ConfigMap in st.maps
    ensures Rewritten(st, st) && OthersSame(st, st, Mover(Choose(st)))
  {
    hide Choose, Grown, RenderHosts;
  }

  lemma {:induction false} ReconcileRewrites(st: State, f: Faults)
    requires !st.deleting && !InProvision(Shown(st.phase)) && HostsMap in st.maps && ConfigMap in st.maps
    ensures Rewritten(st, Reconcile(st, f)) && OthersSame(st, Reconcile(st, f), Mover(Choose(st)))
  {
    hide Choose, ReconcileNormal, Makes, Grown, RenderHosts, Mover;
    NothingRewrites(st);
    if f.budget >= PREAMBLE {
      var ses := Open(st, f);
      NormalMoves(ses);
      var s := ReconcileNormal(ses).ses;
      if !SameBut(ses, s) {
        var from: Session :| SameBut(ses, from) && Makes(from, Choose(ses.st), s);
        MoveRewrites(from, s);
      }
    }
  }

  // ----- the order of the writes -----

  /** The result of the worker of `a` is in the configmaps `x`, and nothing made for it is left. */
  ghost predicate ResultIn(st: State, x: State, a: Action) {
    match a
    case ScaleUp =>
      && Choose(st).MoveUp? && Grown(st, Choose(st).ns).Some? && HostsMap in x.maps
      && x.maps[HostsMap] == Grown(st, Choose(st).ns).value && ScaleUpMap !in x.maps
    case ScaleDown => HostsMap in x.maps && x.maps[HostsMap] == RenderHosts(st.spec.machine)
    case Upgrade =>
      && ConfigMap in st.maps && ConfigMap in x.maps
      && x.maps[ConfigMap] == UpdateVersion(st.maps[ConfigMap], st.spec.version)
    case _ => false
  }

  lemma {:induction false} ScaleUpGoesLast(ses: Session, ns: seq<NodeInfo>)
    requires ScaleUp in ses.st.workers
    ensures var x := ReconcileScaleUp(ses, ns).ses.st;
            && (ScaleUp !in x.workers ==>
                  && HasStatus(ses.st, ScaleUp, Succeeded) && Grown(ses.st, ns).Some? && ScaleUpMap !in x.maps
                  && HostsMap in x.maps && x.maps[HostsMap] == Grown(ses.st, ns).value)
            && (ScaleUpMap in ses.st.maps && ScaleUpMap !in x.maps ==>
                  && HasStatus(ses.st, ScaleUp, Succeeded) && Grown(ses.st, ns).Some?
                  && HostsMap in x.maps && x.maps[HostsMap] == Grown(ses.st, ns).value)
  {
    hide EnsureScaleUpHostsCreated, EnsureWorkerCreated, FinishScaleUp, Grown, Trim;
    var o := EnsureScaleUpHostsCreated(ses, ns);
    var p := EnsureWorkerCreated(o.ses, ScaleUp, SCALE_UP_CMD);
    SameGrown(ses.st, p.ses.st, ns);
    FinishGoesLast(p.ses.(phase := ScalingUp), ns);
  }

  lemma {:induction false} FinishGoesLast(ses: Session, ns: seq<NodeInfo>)
    ensures var x := FinishScaleUp(ses, ns).ses.st;
            && (ScaleUp in ses.st.workers && ScaleUp !in x.workers ==>
                  Grown(ses.st, ns).Some? && HostsMap in x.maps && x.maps[HostsMap] == Grown(ses.st, ns).value
                  && ScaleUpMap !in x.maps)
            && (ScaleUpMap in ses.st.maps && ScaleUpMap !in x.maps ==>
                  Grown(ses.st, ns).Some? && HostsMap in x.maps && x.maps[HostsMap] == Grown(ses.st, ns).value)
  {
    hide UpdateClusterNodes, EnsureMapDeleted, EnsureWorkerDeleted, Grown;
  }

  lemma {:induction false} ScaleDownGoesLast(ses: Session, ns: seq<NodeInfo>)
    requires ScaleDown in ses.st.workers
    ensures var x := ReconcileScaleDown(ses, ns).ses.st;
            ScaleDown !in x.workers ==>
              && HasStatus(ses.st, ScaleDown, Succeeded) && HostsMap in x.maps
              && x.maps[HostsMap] == RenderHosts(ses.st.spec.machine)
  {
    hide EnsureWorkerCreated, RecreateClusterHosts, EnsureWorkerDeleted, RenderHosts, ScaleDownCmd;
  }

  lemma {:induction false} UpgradeGoesLast(ses: Session, version: string)
    requires Upgrade in ses.st.workers
    ensures var x := ReconcileUpgrade(ses, version).ses.st;
            Upgrade !in x.workers ==>
              && HasStatus(ses.st, Upgrade, Succeeded) && ConfigMap in ses.st.maps && ConfigMap in x.maps
              && x.maps[ConfigMap] == UpdateVersion(ses.st.maps[ConfigMap], version)
  {
    hide EnsureWorkerCreated, UpdateKubeVersion, EnsureWorkerDeleted, UpgradeCmd, UpdateVersion;
  }

  lemma {:induction false} MoveGoesLast(ses: Session, s: Session, a: Action)
    requires Makes(ses, Choose(ses.st), s) && a in ses.st.workers && a !in s.st.workers
    ensures HasStatus(ses.st, a, Succeeded) && ResultIn(ses.st, s.st, a)
  {
    hide Choose, ReconcileScaleUp, ReconcileScaleDown, ReconcileUpgrade, Grown, RenderHosts, ScaleDownCmd, UpgradeCmd;
    hide UpdateVersion;
    match Choose(ses.st)
    case NoMove =>
    case MoveUp(ns) =>
      ScaleUpTouches(ses, ns);
      ScaleUpGoesLast(ses, ns);
    case MoveDown(ns) =>
      ScaleDownTouches(ses, ns);
      ScaleDownGoesLast(ses, ns);
    case MoveVersion(v) =>
      ChosenVersion(ses.st);
      UpgradeTouches(ses, v);
      UpgradeGoesLast(ses, v);
  }

  lemma {:induction false} ChosenVersion(st: State)
    ensures Choose(st).MoveVersion? ==> Choose(st).version == st.spec.version
  {
    hide Additional, UpgradeSupported, RecordedInfo;
  }

  /** Under any fault, a reconcile past provisioning removes a worker only when it has succeeded and its result
      is recorded already: so what is interrupted leaves a worker over, never a result unrecorded. */
  lemma {:induction false} RecordedBeforeRemoved(st: State, f: Faults, a: Action)
    requires !st.deleting && !InProvision(Shown(st.phase)) && a in st.workers && a !in Reconcile(st, f).workers
    ensures HasStatus(st, a, Succeeded) && ResultIn(st, Reconcile(st, f), a)
  {
    hide Choose, ReconcileNormal, Makes, ResultIn, Grown, RenderHosts, UpdateVersion;
    var ses := Open(st, f);
    NormalMoves(ses);
    var s := ReconcileNormal(ses).ses;
    var from: Session :| SameBut(ses, from) && Makes(from, Choose(ses.st), s);
    MoveGoesLast(from, s, a);
    SameRecorded(st, s.st, Reconcile(st, f), a);
  }

  lemma {:induction false} SameRecorded(st: State, x: State, y: State, a: Action)
    requires ResultIn(st, x, a) && y.maps == x.maps
    ensures ResultIn(st, y, a)
  {
    hide Choose, Grown, RenderHosts, UpdateVersion;
  }

  // ----- one event -----

  lemma {:induction false} RewrittenLeavesOver(w: World, x: World, a: Action)
    requires Ready(w, false) && LeftOver(w, a) && ConfigMap in w.st.maps && HostsMap in w.st.maps
    requires Rewritten(w.st, x.st) && OthersSame(w.st, x.st, Mover(Choose(w.st)))
    ensures LeftOver(x, a)
  {
    hide *;
    LeftOverIs(w, a);
    LeftOverIs(x, a);
    FirstNeed(w);
    Unneeded(x);
    OtherWorker(w, x, a);
    if a == Upgrade {
      SameConfig(w, x);
    } else if a == ScaleUp {
      DownRenders(w);
      UpUnneeded(w, x);
    } else {
      GrownRecords(w, false);
      DownUnneeded(w, x);
    }
  }

  lemma {:induction false} OtherWorker(w: World, x: World, a: Action)
    requires HasStatus(w.st, a, Succeeded) && OthersSame(w.st, x.st, Mover(Choose(w.st)))
    requires var m := Choose(w.st);
             (a == ScaleUp && !m.MoveUp?) || (a == ScaleDown && !m.MoveDown?) || (a == Upgrade && !m.MoveVersion?)
    ensures HasStatus(x.st, a, Succeeded)
  {
    hide Choose;
  }

  lemma {:induction false} SameConfig(w: World, x: World)
    requires ConfigMap in w.st.maps && HostsMap in w.st.maps && Rewritten(w.st, x.st) && !Choose(w.st).MoveVersion?
    ensures NeedVersion(x) == NeedVersion(w)
  {
    hide Choose, Grown, RenderHosts, Wanted;
    SameRecordedVersion(w.st, x.st);
  }

  lemma {:induction false} UpUnneeded(w: World, x: World)
    requires ConfigMap in w.st.maps && HostsMap in w.st.maps && Rewritten(w.st, x.st) && !Choose(w.st).MoveUp?
    requires RecordedNameSet(RenderHosts(w.st.spec.machine)) == D(w) && !NeedUp(w)
    ensures !NeedUp(x)
  {
    hide Choose, Grown, RenderHosts, RecordedNameSet, NameSet;
  }

  lemma {:induction false} DownUnneeded(w: World, x: World)
    requires ConfigMap in w.st.maps && HostsMap in w.st.maps && Rewritten(w.st, x.st) && !Choose(w.st).MoveDown?
    requires Choose(w.st).MoveUp? ==> Choose(w.st) == MoveUp(Missing(w.st))
    requires Grown(w.st, Missing(w.st)).Some? && !NeedDown(w)
    requires RecordedNameSet(Grown(w.st, Missing(w.st)).value) == R(w) + D(w)
    ensures !NeedDown(x)
  {
    hide Choose, Grown, RenderHosts, RecordedNameSet, NameSet, Missing;
  }

  lemma {:induction false} ReconcileLeavesOver(w: World, f: Faults, a: Action)
    requires Agrees(w, false) && !InProvision(Shown(w.st.phase)) && LeftOver(w, a)
    ensures var x := w.(st := Reconcile(w.st, f)); LeftOver(x, a) && !InProvision(Shown(x.st.phase))
  {
    var x := w.(st := Reconcile(w.st, f));
    hide *;
    NotDeleting(w, false);
    SoundPhase(w, false);
    ReadyIs(w, false);
    PhaseStays(w.st, f);
    if w.st.phase == Unknown {
      assert x == w;
    } else if HostsMap in w.st.maps {
      ReconcileRewrites(w.st, f);
      RewrittenLeavesOver(w, x, a);
    } else {
      StrandedIdle(w, f);
    }
  }

  lemma {:induction false} PhaseStays(st: State, f: Faults)
    requires !st.deleting && !InProvision(Shown(st.phase))
    ensures !InProvision(Shown(Reconcile(st, f).phase)) && (st.phase == Unknown ==> Reconcile(st, f) == st)
  {
    hide Reconcile, Started, VersionMove;
    ReconcileSteps(st, f);
  }

  lemma {:induction false} StrandedIdle(w: World, f: Faults)
    requires HasInfo(w.st.phase) && HostsMap !in w.st.maps && !w.st.deleting
    ensures w.(st := Reconcile(w.st, f)) == w
  {
    hide Reconcile, Apply, Enabled;
    ReconciledIs(w, f);
    StrandedEvent(w, Reconciled(f));
  }

  lemma {:induction false} OtherLeavesOver(w: World, e: Event, a: Action)
    requires Enabled(w, e) && LeftOver(w, a) && (e.WorkerSucceeds? || e.WorkerFails? || e.FailedWorkerRemoved?)
    ensures var x := Apply(w, e); LeftOver(x, a) && x.st.phase == w.st.phase
  {
    var x := Apply(w, e);
    LeftOverIs(w, a);
    LeftOverIs(x, a);
    if e.WorkerSucceeds? { SuccessState(w, e.action); }
    SameMaps(w, x);
    hide LeftOver, NeedUp, NeedDown, NeedVersion, RecordedNameSet, CommandNodes, VersionIn, WithV, CommandVersion;
    hide Elements;
  }

  lemma {:induction false} EventLeavesOver(w: World, e: Event, a: Action)
    requires Agrees(w, false) && !InProvision(Shown(w.st.phase)) && LeftOver(w, a)
    requires Enabled(w, e) && !e.SpecChanged? && !e.DeletionRequested?
    ensures var x := Apply(w, e); Agrees(x, false) && !InProvision(Shown(x.st.phase)) && LeftOver(x, a)
  {
    hide *;
    EventKeeps(w, e, false);
    if e.Reconciled? {
      ReconcileLeavesOver(w, e.faults, a);
      ReconciledIs(w, e.faults);
    } else {
      OtherLeavesOver(w, e, a);
    }
  }

  // ----- runs -----

  /** From every sound state past provisioning, Unknown and a lost inventory included, along every run that
      changes neither the spec nor deletes, with any faults: what is left over stays left over. */
  lemma {:induction false} LeftoverStays(w: World, es: seq<Event>, a: Action)
    requires Agrees(w, false) && !InProvision(Shown(w.st.phase)) && LeftOver(w, a)
    requires Legal(w, es) && Steady(es)
    ensures var x := Run(w, es); Agrees(x, false) && !InProvision(Shown(x.st.phase)) && LeftOver(x, a)
    decreases es
  {
    hide Agrees, LeftOver, Apply, Enabled;
    if es != [] {
      EventLeavesOver(w, es[0], a);
      LeftoverStays(Apply(w, es[0]), es[1..], a);
    }
  }
}
