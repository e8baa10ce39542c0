/** From creation on: every fair run provisions a cluster and brings it to any later spec; and the two
    ways in which record and machines can part are runs from creation too. */
module Provisioning {
  import opened Inventory
  import opened WorkerNodes
  import opened KubeVersion
  import opened Releases
  import opened CustomCluster
  import opened ClusterRuns
  import opened Agreement
  import opened RecordAgreement
  import opened ClusterSafety
  import opened Stages
  import opened Convergence
  import opened SpecChanges
  import opened LostInventory
  import opened Text

  // ----- from creation -----

  lemma {:induction false} InitialSane(w: World)
    requires Initial(w)
    ensures Sane(w) && StageOf(w).Rank() == 3 && StageOf(w).Remaining() == [Init] && StageOf(w).Leftover() == {}
    ensures AsRendered(w) && StageOf(w).EndPhase() == Provisioned
  {
    hide ValidSpec, Agrees, UpgradeSupported;
    InitialAgrees(w, true);
    EmptyVersionUnsupported(w.st.spec.version);
    assert StageOf(w).Leftover() == {};
  }

  /** What is recorded is what the spec asks for. */
  ghost predicate AsRendered(w: World) {
    && ScaleUpMap !in w.st.maps
    && (HostsMap in w.st.maps ==> R(w) == D(w))
    && (ConfigMap in w.st.maps ==> RecordedVersion(w.st) == w.st.spec.version)
  }

  lemma {:induction false} FairKeepsRendered(w: World, e: Event)
    requires Sane(w) && AsRendered(w) && Enabled(w, e) && Fair(e)
    ensures AsRendered(Apply(w, e))
  {
    hide Sane, Clean, R, D, RecordedVersion, Apply, Enabled, Reconcile, OnItsWay, NoneFailed, StageOf;
    var x := Apply(w, e);
    if e.WorkerSucceeds? {
      SuccessState(w, e.action);
      SameMaps(w, x);
    } else {
      ReconciledIs(w, e.faults);
      if InProvision(Shown(w.st.phase)) {
        InitReconcile(w, e.faults);
        SaneEarly(w);
        AfterInitRendered(w);
      } else {
        SaneReady(w);
        IdleMoves(w, e.faults);
        StageParts(w);
      }
    }
  }

  lemma {:induction false} AfterInitRendered(w: World)
    requires AsRendered(w) && ValidSpec(w.st.spec)
    ensures AsRendered(w.(st := AfterInit(w.st)))
  {
    hide ValidSpec, RenderHosts, RenderConfig, RecordedNameSet, NameSet, VersionIn, GoodHosts, Canonical;
    RenderingRecords(w.st.spec);
  }

  lemma {:induction false} FairRunRendered(w: World, es: seq<Event>)
    requires Sane(w) && AsRendered(w) && FairRun(w, es)
    ensures AsRendered(Run(w, es))
    decreases es
  {
    hide Sane, AsRendered, Fair, Apply, Enabled;
    if es != [] {
      FairKeepsRendered(w, es[0]);
      FairEventAdvances(w, es[0]);
      FairRunRendered(Apply(w, es[0]), es[1..]);
    }
  }

  /** Every fair run from creation: at most three changes, one worker started, and at the end the cluster
      runs what its spec asks for and the record says so. */
  lemma {:induction false} CreationConverges(w: World, es: seq<Event>, f: Faults)
    requires Initial(w) && FairRun(w, es) && Clean(f)
    ensures Reaches(w, es, f) && Changes(w, es) <= 3 && Starts(w, es) <= [Init]
    ensures var x := Run(w, es);
            && Sane(x) && (Changes(w, es) == 3 ==> Done(x))
            && (Done(x) ==> Starts(w, es) == [Init] && Scalers(x.st) == {} && ScaleUpMap !in x.st.maps)
            && (Done(x) ==> R(x) == NameSet(w.st.spec.machine.workers) && RecordedVersion(x.st) == w.st.spec.version)
            && (Done(x) ==> x.st.phase == Provisioned)
  {
    assert Legal(w, es);
    InitialSane(w);
    hide Initial, Sane, FairRun, Clean, Legal, Run, Changes, Starts, StageOf, Reconcile, Scalers, R, D, RecordedVersion;
    hide NameSet;
    hide Stage.Rank, Stage.Remaining, Stage.Leftover, Stage.EndPhase, EndVersion, Enabled;
    FairRunConverges(w, es, f);
    FairRunConserves(w, es);
    FairRunRendered(w, es);
    var x := Run(w, es);
    DesiredIs(x);
  }

  /** From creation to any later spec: once a fair run has provisioned the cluster, any spec change is
      harmless, and every fair run then brings it to the new spec in at most nine changes, with one worker
      per kind of difference between the two specs, in order; it ends Provisioned, with the new hosts
      recorded and installed, and with the new version if it is supported from the first one. */
  lemma {:induction false} FromCreationToSpec(w: World, es: seq<Event>, spec: Spec, later: seq<Event>, f: Faults)
    requires Initial(w) && FairRun(w, es) && Done(Run(w, es)) && ValidSpec(spec) && Clean(f)
    requires FairRun(Changed(Run(w, es), spec), later)
    ensures HarmlessChange(Run(w, es), spec)
    ensures var x := Changed(Run(w, es), spec);
            var before, after := NameSet(w.st.spec.machine.workers), NameSet(spec.machine.workers);
            && Sane(x) && Reaches(x, later, f) && StageOf(x).Rank() <= 9 && StageOf(x).Leftover() == {}
            && StageOf(x).Remaining()
               == Plan(false, !(after <= before), !(before <= after), Wanted(w.st.spec.version, spec.version))
    ensures var z := Run(Changed(Run(w, es), spec), later);
            Done(z) ==>
              && z.st.phase == Provisioned && Scalers(z.st) == {}
              && R(z) == z.installed == NameSet(spec.machine.workers)
              && RecordedVersion(z.st) == Final(w.st.spec.version, spec.version)
              && z.version == WithV(RecordedVersion(z.st))
  {
    assert Legal(w, es);
    var y := Run(w, es);
    var x := Changed(y, spec);
    assert Legal(x, later);
    hide *;
    CreationConverges(w, es, f);
    DonePicture(y);
    FreshChange(y, spec);
    FairRunConverges(x, later, f);
    ChangedEnd(y, spec);
    if Done(Run(x, later)) { AtTheEnd(x, later, f); }
  }

  /** The same for specs that ask for releases: the upgrade is made if and only if the new release is of the
      same major version and at most one minor version away, and otherwise the first one stays. */
  lemma {:induction false} FromReleaseToRelease(w: World, es: seq<Event>, spec: Spec, later: seq<Event>, f: Faults,
                                                v: bool, o: Semver, u: bool, t: Semver)
    requires Initial(w) && FairRun(w, es) && Done(Run(w, es)) && ValidSpec(spec) && Clean(f)
    requires FairRun(Changed(Run(w, es), spec), later)
    requires InRange(o) && InRange(t) && w.st.spec.version == Release(v, o) && spec.version == Release(u, t)
    ensures var upgrades := o.major == t.major && -1 <= o.minor - t.minor <= 1;
            && (Upgrade in StageOf(Changed(Run(w, es), spec)).Remaining() <==>
                  upgrades && Release(v, o) != Release(u, t))
            && var z := Run(Changed(Run(w, es), spec), later);
               Done(z) ==>
                 && RecordedVersion(z.st) == (if upgrades then Release(u, t) else Release(v, o))
                 && z.version == WithV(RecordedVersion(z.st))
  {
    assert Legal(w, es) && Legal(Changed(Run(w, es), spec), later);
    hide *;
    FromCreationToSpec(w, es, spec, later, f);
    ReleasesSupportedIff(v, o, u, t);
    WantedIs(w.st.spec.version, spec.version);
    var before, after := NameSet(w.st.spec.machine.workers), NameSet(spec.machine.workers);
    InPlan(false, !(after <= before), !(before <= after), Wanted(w.st.spec.version, spec.version));
  }

  lemma {:induction false} WantedIs(recorded: string, desired: string)
    ensures Wanted(recorded, desired) <==> desired != recorded && UpgradeSupported(recorded, desired)
    ensures Final(recorded, desired) == if UpgradeSupported(recorded, desired) then desired else recorded
  {
    hide UpgradeSupported;
  }

  lemma {:induction false} InPlan(init: bool, up: bool, down: bool, version: bool)
    ensures Upgrade in Plan(init, up, down, version) <==> version
  {
  }

  lemma {:induction false} ChangedEnd(w: World, spec: Spec)
    requires ConfigMap in w.st.maps && w.st.phase == Provisioned
    ensures var x := Changed(w, spec);
            && EndVersion(x) == Final(RecordedVersion(w.st), spec.version) && StageOf(x).EndPhase() == Provisioned
            && x.st.spec == spec
  {
    hide NeedUp, NeedDown, NeedVersion, VersionIn, Wanted;
  }

  /** What `Reaches` comes to when nothing was left over. */
  lemma {:induction false} AtTheEnd(w: World, es: seq<Event>, f: Faults)
    requires Legal(w, es) && Reaches(w, es, f) && Done(Run(w, es)) && StageOf(w).Leftover() == {}
    ensures var z := Run(w, es);
            && z.st.phase == StageOf(w).EndPhase() && RecordedVersion(z.st) == EndVersion(w) && Scalers(z.st) == {}
            && R(z) == z.installed == NameSet(w.st.spec.machine.workers) && z.version == WithV(RecordedVersion(z.st))
  {
    hide Run, Changes, Starts, Reconcile, StageOf, Stage.Remaining, Stage.Leftover, Stage.EndPhase, Stage.Rank;
    hide EndVersion, RecordedVersion, WithV, Scalers, NameSet, R, D, Enabled, NeedVersion;
    DesiredIs(Run(w, es));
  }

  lemma {:induction false} DonePicture(w: World)
    requires Sane(w) && Done(w) && Scalers(w.st) == {}
    ensures !InProvision(Shown(w.st.phase)) && HostsMap in w.st.maps && ConfigMap in w.st.maps
    ensures StatusOf(w.st, ScaleUp).None? && StatusOf(w.st, ScaleDown).None? && StatusOf(w.st, Upgrade).None?
    ensures w.installed == R(w) == D(w)
  {
    hide Sane, R, D, RecordedVersion, NeedVersion;
    assert forall a :: a in {ScaleUp, ScaleDown, Upgrade} && a in w.st.workers ==> a in Scalers(w.st);
  }

  /** A provisioned cluster without scaling or upgrade workers takes any new spec. */
  lemma {:induction false} FreshChange(w: World, spec: Spec)
    requires Sane(w) && ValidSpec(spec) && !InProvision(Shown(w.st.phase)) && w.installed == R(w) == D(w)
    requires StatusOf(w.st, ScaleUp).None? && StatusOf(w.st, ScaleDown).None? && StatusOf(w.st, Upgrade).None?
    requires ScaleUpMap !in w.st.maps
    ensures HarmlessChange(w, spec)
    ensures var x, d := Changed(w, spec), NameSet(spec.machine.workers);
            && Sane(x) && Live(x) && !InProvision(Shown(x.st.phase)) && StageOf(x).Rank() <= 9
            && StageOf(x).Leftover() == {}
            && StageOf(x).Remaining()
               == Plan(false, !(d <= R(w)), !(R(w) <= d), Wanted(RecordedVersion(w.st), spec.version))
            && R(x) == R(w) && D(x) == d && x.installed == w.installed && x.st.workers == w.st.workers
            && x.st.maps == w.st.maps
  {
    hide *;
    var x := Changed(w, spec);
    FreshHarmless(w, spec);
    SaneReady(w);
    ChangedPictures(w, spec);
    SameVersion(w, x);
    FreshStage(x);
  }

  lemma {:induction false} FreshStage(x: World)
    requires !InProvision(Shown(x.st.phase)) && HostsMap in x.st.maps
    requires StatusOf(x.st, ScaleUp).None? && StatusOf(x.st, ScaleDown).None? && StatusOf(x.st, Upgrade).None?
    ensures StageOf(x).Rank() <= 9 && StageOf(x).Leftover() == {}
    ensures StageOf(x).Remaining() == Plan(false, !(D(x) <= R(x)), !(R(x) <= D(x)), NeedVersion(x))
  {
    StageParts(x);
    NeedsIs(x);
    hide StageOf, R, D, NeedUp, NeedDown, NeedVersion, StatusOf, Plan;
    assert StageOf(x).Leftover() == {};
  }

  lemma {:induction false} SameVersion(w: World, x: World)
    requires x.st.maps == w.st.maps
    ensures NeedVersion(x) == Wanted(RecordedVersion(w.st), x.st.spec.version)
  {
    hide VersionIn, Wanted;
  }

  lemma {:induction false} ChangedPictures(w: World, spec: Spec)
    ensures var x := Changed(w, spec);
            && R(x) == R(w) && D(x) == NameSet(spec.machine.workers) && x.installed == w.installed
            && x.st.workers == w.st.workers && x.st.maps == w.st.maps && x.st.phase == w.st.phase && x.st.spec == spec
            && forall a :: StatusOf(x.st, a) == StatusOf(w.st, a)
  {
    hide RecordedNameSet, NameSet;
  }

  lemma {:induction false} FreshHarmless(w: World, spec: Spec)
    requires Sane(w) && ValidSpec(spec) && !InProvision(Shown(w.st.phase)) && w.installed == R(w) == D(w)
    requires StatusOf(w.st, ScaleUp).None? && StatusOf(w.st, ScaleDown).None? && StatusOf(w.st, Upgrade).None?
    requires ScaleUpMap !in w.st.maps
    ensures HarmlessChange(w, spec) && Sane(Changed(w, spec)) && Live(Changed(w, spec))
  {
    assert Agrees(w, true) && NoneFailed(w.st) && HasInfo(w.st.phase) && HostsMap in w.st.maps;
    hide *;
    NoWorkersHarmless(w, spec);
    ChangedIs(w, spec);
    ChangeKeeps(w, spec, true);
    LessAgrees(Changed(w, spec));
    StillOnItsWay(w, spec);
    LiveIs(Changed(w, spec));
  }

  lemma {:induction false} NoWorkersHarmless(w: World, spec: Spec)
    requires StatusOf(w.st, ScaleUp).None? && StatusOf(w.st, ScaleDown).None? && StatusOf(w.st, Upgrade).None?
    requires ScaleUpMap !in w.st.maps
    ensures HarmlessChange(w, spec)
  {
    hide ScalingOf, VersioningOf, NameSet, StatusOf, WithV, Wanted;
    Pictures(w);
  }

  lemma {:induction false} StillOnItsWay(w: World, spec: Spec)
    requires NoneFailed(w.st) && HasInfo(w.st.phase) && HostsMap in w.st.maps && Agrees(Changed(w, spec), true)
    ensures Sane(Changed(w, spec)) && HasInfo(Changed(w, spec).st.phase) && HostsMap in Changed(w, spec).st.maps
  {
    hide Agrees;
  }

  lemma {:induction false} LessAgrees(w: World)
    requires Agrees(w, true)
    ensures Agrees(w, false)
  {
    hide Sound, InStep;
  }

  // ----- runs from creation, event by event -----

  function CreationRun(f: Faults): seq<Event> {
    [Reconciled(f), WorkerSucceeds(Init), Reconciled(f)]
  }

  lemma {:induction false} FairNext(w: World, es: seq<Event>, x: World, e: Event)
    requires Leads(w, es, x) && Sane(x) && Enabled(x, e) && Fair(e)
    ensures Leads(w, es + [e], Apply(x, e)) && Sane(Apply(x, e))
    ensures StageOf(Apply(x, e)) == if e.Reconciled? then StageOf(x).Step() else StageOf(x).Succeed(e.action)
    ensures Apply(x, e).st.spec == x.st.spec
  {
    hide Leads, Sane, Enabled, Apply, Clean, StageOf, Approaches, NoneFailed, OnItsWay, Stage.Step, Stage.Succeed;
    hide Steady;
    Next(w, es, x, e);
    if e.Reconciled? {
      ReconcileMoves(x, e.faults);
      ReconciledIs(x, e.faults);
    } else {
      SuccessMoves(x, e.action);
    }
  }

  /** Two fault-free reconciles with the init worker's success in between provision a new cluster. */
  lemma {:induction false} ProvisioningSucceeds(w: World, f: Faults) returns (x: World)
    requires Initial(w) && Clean(f)
    ensures Leads(w, CreationRun(f), x) && FairRun(w, CreationRun(f))
    ensures Sane(x) && Done(x) && x.st.spec == w.st.spec && x.installed == R(x) == NameSet(w.st.spec.machine.workers)
    ensures RecordedVersion(x.st) == w.st.spec.version && Scalers(x.st) == {} && ScaleUpMap !in x.st.maps
    ensures x.st.phase == Provisioned
  {
    hide *;
    var e1, e2 := Reconciled(f), WorkerSucceeds(Init);
    CreationParts(f);
    CreationStages();
    InitialStage(w);
    BeginRun(w);
    ReconciledIs(w, f);
    FairNext(w, [], w, e1);
    var w1 := Apply(w, e1);
    ActiveEnabled(w1, Init);
    FairNext(w, [e1], w1, e2);
    var w2 := Apply(w1, e2);
    ReconciledIs(w2, f);
    FairNext(w, [e1, e2], w2, e1);
    x := Apply(w2, e1);
    DoneIsRankZero(x);
    CreationRunIs(w, x, f);
    CreationConverges(w, CreationRun(f), f);
    DonePicture(x);
  }

  lemma {:induction false} CreationParts(f: Faults)
    requires Clean(f)
    ensures var e1, e2 := Reconciled(f), WorkerSucceeds(Init);
            && [] + [e1] == [e1] && [e1] + [e2] == [e1, e2] && [e1, e2] + [e1] == CreationRun(f)
            && Fair(e1) && Fair(e2)
  {
  }

  lemma {:induction false} CreationStages()
    ensures var s := Stage(Unset, false, None, None, None, None, false, false, false);
            s.Step().Worker(Init) == Some(Active) && s.Step().Succeed(Init).Step().Rank() == 0
  {
  }

  lemma {:induction false} InitialStage(w: World)
    requires Initial(w)
    ensures Sane(w) && StageOf(w) == Stage(Unset, false, None, None, None, None, false, false, false)
  {
    hide ValidSpec, Agrees, UpgradeSupported;
    InitialAgrees(w, true);
    EmptyVersionUnsupported(w.st.spec.version);
  }

  lemma {:induction false} CreationRunIs(w: World, x: World, f: Faults)
    requires Leads(w, CreationRun(f), x) && Clean(f)
    ensures FairRun(w, CreationRun(f)) && Run(w, CreationRun(f)) == x
  {
    hide Legal, Run, Clean;
  }

  /** After a spec change that only adds or also removes hosts, the next reconcile starts the worker. */
  function ScalingRun(spec: Spec, f: Faults): seq<Event> {
    CreationRun(f) + [SpecChanged(spec), Reconciled(f)]
  }

  lemma {:induction false} ScalingStarts(w: World, spec: Spec, f: Faults) returns (x: World)
    requires Initial(w) && ValidSpec(spec) && Clean(f)
    requires NameSet(w.st.spec.machine.workers) != NameSet(spec.machine.workers)
    ensures Leads(w, ScalingRun(spec, f), x) && Sane(x) && Live(x)
    ensures R(x) == NameSet(w.st.spec.machine.workers) && D(x) == NameSet(spec.machine.workers)
    ensures StatusOf(x.st, if D(x) <= R(x) then ScaleDown else ScaleUp) == Some(Active)
    ensures StatusOf(x.st, if D(x) <= R(x) then ScaleUp else ScaleDown).None? && StatusOf(x.st, Upgrade).None?
    ensures x.st.phase == if D(x) <= R(x) then ScalingDown else ScalingUp
    ensures NeedVersion(x) == Wanted(w.st.spec.version, spec.version)
  {
    hide *;
    var y := ProvisioningSucceeds(w, f);
    var e1, e2, es := SpecChanged(spec), Reconciled(f), CreationRun(f);
    ScalingParts(spec, f);
    CreationParts(f);
    DonePicture(y);
    FreshChange(y, spec);
    ChangedIs(y, spec);
    Next(w, es, y, e1);
    var c := Changed(y, spec);
    ReconciledIs(c, f);
    FairNext(w, es + [e1], c, e2);
    x := Apply(c, e2);
    SameWorkers(y, c);
    StartedNames(c, f);
    ChangedPictures(y, spec);
    SameVersion(y, c);
    StartedStage(c, x);
  }

  lemma {:induction false} ScalingParts(spec: Spec, f: Faults)
    ensures CreationRun(f) + [SpecChanged(spec)] + [Reconciled(f)] == ScalingRun(spec, f)
  {
  }

  lemma {:induction false} StartedStage(c: World, x: World)
    requires HostsMap in c.st.maps && R(c) != D(c) && !InProvision(Shown(c.st.phase))
    requires StatusOf(c.st, ScaleUp).None? && StatusOf(c.st, ScaleDown).None? && StatusOf(c.st, Upgrade).None?
    requires StageOf(x) == StageOf(c).Step()
    ensures StatusOf(x.st, if D(c) <= R(c) then ScaleDown else ScaleUp) == Some(Active)
    ensures StatusOf(x.st, if D(c) <= R(c) then ScaleUp else ScaleDown).None? && StatusOf(x.st, Upgrade).None?
    ensures x.st.phase == if D(c) <= R(c) then ScalingDown else ScalingUp
    ensures NeedVersion(x) == NeedVersion(c)
  {
    StageParts(c);
    StageParts(x);
    NeedsIs(c);
    hide StageOf, R, D, NeedUp, NeedDown, NeedVersion, StatusOf;
  }

  lemma {:induction false} SameWorkers(y: World, c: World)
    requires y.st.workers == c.st.workers && y.st.maps == c.st.maps
    ensures forall a :: StatusOf(c.st, a) == StatusOf(y.st, a)
  {
  }

  lemma {:induction false} StartedNames(c: World, f: Faults)
    requires Sane(c) && Live(c) && Clean(f)
    requires StatusOf(c.st, ScaleUp).None? && StatusOf(c.st, ScaleDown).None? && StatusOf(c.st, Upgrade).None?
    ensures HostsMap in c.st.maps
    ensures var x := Apply(c, Reconciled(f)); Live(x) && R(x) == R(c) && D(x) == D(c)
  {
    ReconciledIs(c, f);
    LiveIs(c);
    Pictures(c);
    Pictures(Apply(c, Reconciled(f)));
    hide Sane, Live, Clean, ScalingOf, VersioningOf, R, D, Reconcile, Apply, Enabled;
    NextRecordIs(c, f);
  }

  /** Without any failing call: after a change that brings new hosts and, while the scale-up worker runs,
      another one for which other hosts are missing, the record says something else than is installed,
      and no worker waits to be recorded. */
  lemma {:induction false} RecordCanDeviate(w: World, spec: Spec, later: Spec, f: Faults) returns (x: World)
    requires Initial(w) && ValidSpec(spec) && ValidSpec(later) && Clean(f)
    requires var before, d1, d2 := NameSet(w.st.spec.machine.workers), NameSet(spec.machine.workers),
             NameSet(later.machine.workers);
             !(d1 <= before) && d2 - before != d1 - before
    ensures Leads(w, ScalingRun(spec, f) + [SpecChanged(later), WorkerSucceeds(ScaleUp), Reconciled(f)], x)
    ensures HostsMap in x.st.maps && x.installed != R(x) && !ScalingOf(x).Window()
  {
    hide *;
    var y := ScalingStarts(w, spec, f);
    OvertakingIs(later, ScaleUp, f);
    Statuses(y.st, ScaleUp);
    ScaleUpOvertakenIff(y, later, f);
    OvertakingWindow(y, later, f);
    Follow(w, ScalingRun(spec, f), y, Overtaking(later, ScaleUp, f));
    x := Run(y, Overtaking(later, ScaleUp, f));
  }

  lemma {:induction false} OvertakingIs(spec: Spec, a: Action, f: Faults)
    ensures Overtaking(spec, a, f) == [SpecChanged(spec), WorkerSucceeds(a), Reconciled(f)]
    ensures NoDeletion(Overtaking(spec, a, f))
  {
  }

  lemma {:induction false} OvertakingWindow(w: World, spec: Spec, f: Faults)
    requires Sane(w) && Live(w) && StatusOf(w.st, ScaleUp) == Some(Active) && StatusOf(w.st, ScaleDown).None?
    requires ValidSpec(spec) && Clean(f)
    ensures Legal(w, Overtaking(spec, ScaleUp, f))
    ensures var x := Run(w, Overtaking(spec, ScaleUp, f)); HostsMap in x.st.maps && !ScalingOf(x).Window()
  {
    assert NoneFailed(w.st);
    hide *;
    PastProvision(w);
    SaneReady(w);
    Pictures(w);
    UpHasInventory(w);
    var y, x := Overtaken(w, spec, ScaleUp, f);
    SuccessUnhindered(w, spec, ScaleUp, y);
    WorkerSucceedsOn(w, spec, ScaleUp);
    NextRecordIs(y, f);
    NoWindow(ScalingOf(y));
    LiveIs(x);
    LeadsIs(w, Overtaking(spec, ScaleUp, f), x);
  }

  lemma {:induction false} NoWindow(s: Scaling)
    requires s.up == Some(Succeeded) && s.down.None?
    ensures !NextNames(s).Window()
  {
  }

  /** For any change that only removes hosts, a single reconcile that meets the guard of the loss, after
      the scale-down worker succeeded, leaves the cluster stranded, and every continuation does. */
  lemma {:induction false} InventoryCanBeLost(w: World, spec: Spec, f: Faults, g: Faults) returns (x: World)
    requires Initial(w) && ValidSpec(spec) && Clean(f) && ((g.budget == 9 && g.lost) || (g.budget == 10 && !g.lost))
    requires NameSet(spec.machine.workers) < NameSet(w.st.spec.machine.workers)
    ensures Leads(w, ScalingRun(spec, f) + [WorkerSucceeds(ScaleDown), Reconciled(g)], x) && Stranded(x.st)
    ensures forall later | Legal(x, later) && NoDeletion(later) :: Stranded(Run(x, later).st)
  {
    hide *;
    var y := ScalingStarts(w, spec, f);
    var e1, e2, es := WorkerSucceeds(ScaleDown), Reconciled(g), ScalingRun(spec, f);
    assert es + [e1] + [e2] == es + [e1, e2];
    StatusWorker(y);
    ActiveEnabled(y, ScaleDown);
    SuccessMoves(y, ScaleDown);
    Next(w, es, y, e1);
    var z := Apply(y, e1);
    ReconciledIs(z, g);
    Next(w, es + [e1], z, e2);
    x := Apply(z, e2);
    DownMeetsGuard(y, z, g);
    forall later | Legal(x, later) && NoDeletion(later) ensures Stranded(Run(x, later).st) {
      StrandedForever(x, later);
    }
  }

  /** For any change that only adds hosts: when the status patch of the reconcile that records the scale-up
      is lost, the cluster is at its spec, and after every fair continuation it still shows ScalingUp. */
  lemma {:induction false} PhaseCanLag(w: World, spec: Spec, f: Faults, g: Faults) returns (x: World)
    requires Initial(w) && ValidSpec(spec) && Clean(f) && LosesStatus(g) && spec.version == w.st.spec.version
    requires NameSet(w.st.spec.machine.workers) < NameSet(spec.machine.workers)
    ensures Leads(w, ScalingRun(spec, f) + [WorkerSucceeds(ScaleUp), Reconciled(g)], x)
    ensures Done(x) && forall later | FairRun(x, later) :: Run(x, later).st.phase == ScalingUp
  {
    hide *;
    var y := ScalingStarts(w, spec, f);
    var e1, e2, es := WorkerSucceeds(ScaleUp), Reconciled(g), ScalingRun(spec, f);
    assert es + [e1] + [e2] == es + [e1, e2];
    StatusWorker(y);
    ActiveEnabled(y, ScaleUp);
    SuccessMoves(y, ScaleUp);
    Next(w, es, y, e1);
    var z := Apply(y, e1);
    ReconciledIs(z, g);
    Next(w, es + [e1], z, e2);
    x := Apply(z, e2);
    UpToRecord(w.st.spec.version, y, z);
    LostStatusStays(z, g);
  }

  lemma {:induction false} UpToRecord(version: string, y: World, z: World)
    requires Sane(y) && R(y) < D(y) && StatusOf(y.st, ScaleUp) == Some(Active) && StatusOf(y.st, Upgrade).None?
    requires y.st.phase == ScalingUp && NeedVersion(y) == Wanted(version, version)
    requires Follows(y, z, StageOf(y).Succeed(ScaleUp))
    ensures StageOf(z).OneToRecord() && z.st.phase == ScalingUp
  {
    hide Sane, R, D, StatusOf, NeedUp, NeedDown, NeedVersion, StageOf, Follows, UpgradeSupported;
    SaneCoherent(y);
    StageParts(y);
    StageParts(z);
    NeedsIs(y);
    Unneeded(y);
    FollowsIs(y, z, StageOf(y).Succeed(ScaleUp));
  }

  lemma {:induction false} StatusWorker(w: World)
    ensures StageOf(w).Worker(ScaleDown) == StatusOf(w.st, ScaleDown)
    ensures StageOf(w).Worker(ScaleUp) == StatusOf(w.st, ScaleUp)
  {
    hide NeedUp, NeedDown, NeedVersion;
  }

  lemma {:induction false} DownMeetsGuard(y: World, z: World, g: Faults)
    requires Sane(y) && Live(y) && D(y) <= R(y) && R(y) != D(y) && StatusOf(y.st, ScaleDown) == Some(Active)
    requires Enabled(y, WorkerSucceeds(ScaleDown)) && z == Apply(y, WorkerSucceeds(ScaleDown)) && Sane(z)
    requires (g.budget == 9 && g.lost) || (g.budget == 10 && !g.lost)
    ensures Stranded(z.(st := Reconcile(z.st, g)).st)
  {
    SuccessState(y, ScaleDown);
    assert HasStatus(z.st, ScaleDown, Succeeded) && z.st.maps == y.st.maps && z.st.phase == y.st.phase;
    hide Sane, Live, Enabled, Apply, Reconcile, R, D, NeedUp, NeedDown, NeedVersion, Ready, Choose, RecordedInfo;
    hide Agrees;
    SameMaps(y, z);
    PastProvision(y);
    SaneReady(z);
    LessReady(z);
    FirstNeed(z);
    NeedsIs(z);
    ReadyIs(z, false);
    ReconcileEventLoses(z, g);
  }
}
