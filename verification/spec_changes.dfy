/** Which spec changes are harmless while workers are about: the guard is exact. And what the record then
    says about the machines: what the next fault-free reconcile records is what is installed. */
module SpecChanges {
  import opened Text
  import opened Inventory
  import opened WorkerNodes
  import opened KubeVersion
  import opened CustomCluster
  import opened ClusterRuns
  import opened Agreement
  import opened RecordAgreement
  import opened ClusterSafety
  import opened Stages
  import opened Convergence

  /** Past provisioning, in a phase that reads the record, and with a record to read. */
  ghost predicate Live(w: World) {
    Ready(w, false) && HasInfo(w.st.phase)
  }

  lemma {:induction false} LiveIs(w: World)
    ensures Live(w) <==> Agrees(w, false) && HasInfo(w.st.phase) && HostsMap in w.st.maps
    ensures Live(w) ==> HasStatus(w.st, Init, Succeeded) && ConfigMap in w.st.maps && !w.st.deleting
  {
    hide Ready, Agrees, HasStatus;
    ReadyIs(w, false);
    if Live(w) {
      ReadySolid(w, false);
      SolidIs(w.st);
    }
  }

  // ----- the next fault-free reconcile -----

  /** What it does about the names. */
  function NextNames(s: Scaling): Scaling {
    if s.NeedUp() then
      match s.up
      case None => s.(up := Some(Active), grown := if s.grown.Some? then s.grown else Some(s.recorded + s.desired))
      case Some(Succeeded) => s.(recorded := s.recorded + s.desired, up := None, grown := None)
      case _ => s
    else if s.NeedDown() then
      match s.down
      case None => s.(down := Some(Active), removed := s.recorded - s.desired)
      case Some(Succeeded) => s.(recorded := s.desired, down := None, removed := {})
      case _ => s
    else s
  }

  /** The worker it finds has not failed, and a scale-up worker still has its inventory. */
  ghost predicate Unhindered(w: World) {
    var s, v := ScalingOf(w), VersioningOf(w);
    && (s.NeedUp() ==> s.up != Some(Failed) && (s.up == Some(Active) ==> s.grown.Some?))
    && (!s.NeedUp() && s.NeedDown() ==> s.down != Some(Failed))
    && (!s.NeedUp() && !s.NeedDown() && v.Need() ==> v.upgrade != Some(Failed))
  }

  lemma {:induction false} NextUp(w: World, f: Faults)
    requires Live(w) && Clean(f) && NeedUp(w) && Unhindered(w)
    ensures var x := w.(st := Reconcile(w.st, f)); Live(x) && ScalingOf(x) == NextNames(ScalingOf(w))
    ensures VersioningOf(w.(st := Reconcile(w.st, f))) == VersioningOf(w)
  {
    var x := w.(st := Reconcile(w.st, f));
    hide *;
    LiveIs(w);
    LiveReadable(w, f);
    Pictures(w);
    NeedsAre(w);
    NeedsIs(w);
    FirstNeed(w);
    GrownRecords(w, false);
    UnhinderedIs(w);
    UpReconcile(w.st, f);
    var text := Grown(w.st, Missing(w.st)).value;
    AfterUpNames(w, text);
    ReconcileKeeps(w, f, false);
    LiveIs(x);
  }

  lemma {:induction false} UnhinderedIs(w: World)
    requires Unhindered(w)
    ensures var s, v := ScalingOf(w), VersioningOf(w);
            && (s.NeedUp() ==> s.up != Some(Failed) && (s.up == Some(Active) ==> s.grown.Some?))
            && (!s.NeedUp() && s.NeedDown() ==> s.down != Some(Failed))
            && (!s.NeedUp() && !s.NeedDown() && v.Need() ==> v.upgrade != Some(Failed))
    ensures StatusOf(w.st, ScaleUp) == Some(Active) <==> HasStatus(w.st, ScaleUp, Active)
  {
    hide ScalingOf, VersioningOf;
  }

  lemma {:induction false} LiveReadable(w: World, f: Faults)
    requires Live(w) && Clean(f)
    ensures Ready(w, false) && Readable(w.st, f)
  {
    hide Ready, Clean, RecordedInfo, Choose, NeedUp, NeedDown, NeedVersion;
    FirstNeed(w);
  }

  lemma {:induction false} AfterUpNames(w: World, text: string)
    requires HostsMap in w.st.maps && NeedUp(w) && StatusOf(w.st, ScaleUp) != Some(Failed)
    requires RecordedNameSet(text) == R(w) + D(w) && RecordedNameSet(Trim(text)) == R(w) + D(w)
    ensures var x := w.(st := AfterUp(w.st, text));
            && ScalingOf(x) == NextNames(ScalingOf(w)) && VersioningOf(x) == VersioningOf(w)
            && HasInfo(x.st.phase) && HostsMap in x.st.maps
  {
    Pictures(w);
    NeedsAre(w);
    OneOf(StatusOf(w.st, ScaleUp));
    hide ScalingOf, VersioningOf, R, D, RecordedNameSet, Trim;
    var fin := w.st.finalizer;
    if StatusOf(w.st, ScaleUp).None? {
      MapWrites(w, Trim(text));
      var w1 := w.(st := if ScaleUpMap in w.st.maps then w.st else PutMap(w.st, ScaleUpMap, Trim(text)));
      var k := Worker(SCALE_UP_CMD, Active);
      WorkerWrites(w1, k);
      OtherWrites(w1.(st := AddWorker(w1.st, ScaleUp, k)), ScalingUp, fin);
    } else if StatusOf(w.st, ScaleUp) == Some(Succeeded) {
      MapWrites(w, text);
      var w1 := w.(st := PutMap(w.st, HostsMap, text));
      MapWrites(w1, text);
      var w2 := w1.(st := DropMap(w1.st, ScaleUpMap));
      WorkerWrites(w2, Worker("", Active));
      OtherWrites(w2.(st := DropWorker(w2.st, ScaleUp)), Provisioned, fin);
    } else {
      OtherWrites(w, ScalingUp, fin);
    }
  }

  lemma {:induction false} NextDown(w: World, f: Faults)
    requires Live(w) && Clean(f) && !NeedUp(w) && NeedDown(w) && Unhindered(w)
    ensures var x := w.(st := Reconcile(w.st, f)); Live(x) && ScalingOf(x) == NextNames(ScalingOf(w))
    ensures VersioningOf(w.(st := Reconcile(w.st, f))) == VersioningOf(w)
  {
    var x := w.(st := Reconcile(w.st, f));
    hide *;
    LiveIs(w);
    LiveReadable(w, f);
    Pictures(w);
    NeedsAre(w);
    NeedsIs(w);
    FirstNeed(w);
    UnhinderedIs(w);
    DownReconcile(w.st, f);
    DownRenders(w);
    RemovalIs(w, false);
    AfterDownNames(w);
    ReconcileKeeps(w, f, false);
    LiveIs(x);
  }

  lemma {:induction false} AfterDownNames(w: World)
    requires HostsMap in w.st.maps && !NeedUp(w) && NeedDown(w) && StatusOf(w.st, ScaleDown) != Some(Failed)
    requires RecordedNameSet(RenderHosts(w.st.spec.machine)) == D(w)
    requires Elements(CommandNodes(ScaleDownCmd(Surplus(w.st)))) == R(w) - D(w)
    ensures var x := w.(st := AfterDown(w.st));
            && ScalingOf(x) == NextNames(ScalingOf(w)) && VersioningOf(x) == VersioningOf(w)
            && HasInfo(x.st.phase) && HostsMap in x.st.maps
  {
    Pictures(w);
    NeedsAre(w);
    OneOf(StatusOf(w.st, ScaleDown));
    hide ScalingOf, VersioningOf, R, D, RecordedNameSet, RenderHosts, ScaleDownCmd, CommandNodes, Elements, Surplus;
    var fin := w.st.finalizer;
    if StatusOf(w.st, ScaleDown).None? {
      var k := Worker(ScaleDownCmd(Surplus(w.st)), Active);
      WorkerWrites(w, k);
      OtherWrites(w.(st := AddWorker(w.st, ScaleDown, k)), ScalingDown, fin);
    } else if StatusOf(w.st, ScaleDown) == Some(Succeeded) {
      var text := RenderHosts(w.st.spec.machine);
      MapWrites(w, text);
      var w1 := w.(st := PutMap(w.st, HostsMap, text));
      WorkerWrites(w1, Worker("", Active));
      OtherWrites(w1.(st := DropWorker(w1.st, ScaleDown)), Provisioned, fin);
    } else {
      OtherWrites(w, ScalingDown, fin);
    }
  }

  /** What it does about the version, when there is nothing to do about the names. */
  function NextVersion(v: Versioning): Versioning {
    if !v.Need() then v
    else match v.upgrade
      case None => v.(upgrade := Some(Active), command := WithV(v.desired))
      case Some(Succeeded) => v.(recorded := v.desired, upgrade := None, command := "")
      case _ => v
  }

  lemma {:induction false} NextUpgrade(w: World, f: Faults)
    requires Live(w) && Clean(f) && !NeedUp(w) && !NeedDown(w) && NeedVersion(w) && Unhindered(w)
    ensures var x := w.(st := Reconcile(w.st, f)); Live(x) && VersioningOf(x) == NextVersion(VersioningOf(w))
    ensures ScalingOf(w.(st := Reconcile(w.st, f))) == ScalingOf(w)
  {
    var x := w.(st := Reconcile(w.st, f));
    hide *;
    LiveIs(w);
    LiveReadable(w, f);
    Pictures(w);
    NeedsAre(w);
    NeedsIs(w);
    NeedVersionIs(w);
    FirstNeed(w);
    UnhinderedIs(w);
    VersionReconcile(w.st, f);
    VersionRewritten(w);
    ReadySolid(w, false);
    SolidIs(w.st);
    SpecVersion(w.st.spec);
    UpgradeCmdRoundTrip(w.st.spec.version);
    AfterVersionPicture(w);
    ReconcileKeeps(w, f, false);
    LiveIs(x);
  }

  lemma {:induction false} AfterVersionPicture(w: World)
    requires HostsMap in w.st.maps && ConfigMap in w.st.maps && NeedVersion(w)
             && StatusOf(w.st, Upgrade) != Some(Failed)
    requires VersionIn(UpdateVersion(w.st.maps[ConfigMap], w.st.spec.version)) == w.st.spec.version
    requires CommandVersion(UpgradeCmd(w.st.spec.version)) == WithV(w.st.spec.version)
    ensures var x := w.(st := AfterVersion(w.st));
            && VersioningOf(x) == NextVersion(VersioningOf(w)) && ScalingOf(x) == ScalingOf(w)
            && HasInfo(x.st.phase) && HostsMap in x.st.maps
  {
    Pictures(w);
    NeedVersionIs(w);
    OneOf(StatusOf(w.st, Upgrade));
    hide ScalingOf, VersioningOf, RecordedVersion, NeedVersion, Wanted, UpdateVersion, VersionIn, UpgradeCmd;
    hide CommandVersion, WithV;
    var fin := w.st.finalizer;
    if StatusOf(w.st, Upgrade).None? {
      var k := Worker(UpgradeCmd(w.st.spec.version), Active);
      WorkerWrites(w, k);
      OtherWrites(w.(st := AddWorker(w.st, Upgrade, k)), Upgrading, fin);
    } else if StatusOf(w.st, Upgrade) == Some(Succeeded) {
      var text := UpdateVersion(w.st.maps[ConfigMap], w.st.spec.version);
      MapWrites(w, text);
      var w1 := w.(st := PutMap(w.st, ConfigMap, text));
      WorkerWrites(w1, Worker("", Active));
      OtherWrites(w1.(st := DropWorker(w1.st, Upgrade)), Provisioned, fin);
    } else {
      OtherWrites(w, Upgrading, fin);
    }
  }

  lemma {:induction false} NextIdle(w: World, f: Faults)
    requires Live(w) && Clean(f) && !NeedUp(w) && !NeedDown(w) && !NeedVersion(w)
    ensures Reconcile(w.st, f) == w.st
  {
    LiveReadable(w, f);
    FirstNeed(w);
    hide Live, Ready, NeedUp, NeedDown, NeedVersion, Reconcile, Choose, RecordedInfo;
    var from, s := CleanReconcile(w.st, f);
  }

  /** What the record is expected to mean: what the next fault-free reconcile records. */
  lemma {:induction false} NextRecordIs(w: World, f: Faults)
    requires Live(w) && Clean(f) && Unhindered(w)
    ensures var x := w.(st := Reconcile(w.st, f));
            Live(x) && R(x) == ScalingOf(w).Expected() && ScalingOf(x) == NextNames(ScalingOf(w))
    ensures !NeedUp(w) && !NeedDown(w) ==>
              WithV(RecordedVersion(Reconcile(w.st, f))) == VersioningOf(w).Expected()
  {
    var x := w.(st := Reconcile(w.st, f));
    Pictures(w);
    Pictures(x);
    NeedsAre(w);
    NeedsIs(w);
    LiveIs(w);
    NeedVersionIs(w);
    hide Live, Clean, NeedUp, NeedDown, NeedVersion, Unhindered, Reconcile, ScalingOf, VersioningOf, R, D;
    hide RecordedVersion, Wanted, WithV;
    if NeedUp(w) {
      NextUp(w, f);
    } else if NeedDown(w) {
      NextDown(w, f);
    } else if NeedVersion(w) {
      NextUpgrade(w, f);
    } else {
      NextIdle(w, f);
    }
  }

  // ----- harmless changes -----

  function Changed(w: World, spec: Spec): World {
    w.(st := w.st.(spec := spec))
  }

  lemma {:induction false} SteadyIsHarmless(w: World, es: seq<Event>)
    requires Legal(w, es) && Steady(es)
    ensures HarmlessRun(w, es) && NoDeletion(es)
    decreases es
  {
    hide Apply, Enabled, HarmlessChange;
    if es != [] {
      assert forall i | 0 <= i < |es[1..]| :: es[1..][i] == es[i + 1];
      SteadyIsHarmless(Apply(w, es[0]), es[1..]);
    }
  }

  /** After a harmless change the record stays true until the spec changes again, whatever fails. */
  lemma {:induction false} HarmlessStaysTrue(w: World, spec: Spec, es: seq<Event>)
    requires Agrees(w, true) && ValidSpec(spec) && HarmlessChange(w, spec)
    requires Legal(Changed(w, spec), es) && Steady(es)
    ensures RecordIsTrue(Run(Changed(w, spec), es))
  {
    ChangedIs(w, spec);
    var x := Changed(w, spec);
    hide *;
    ChangeKeeps(w, spec, true);
    SteadyIsHarmless(x, es);
    RunKeeps(x, es, true);
    AgreementIsTruth(Run(x, es));
  }

  lemma {:induction false} ChangedIs(w: World, spec: Spec)
    requires ValidSpec(spec)
    ensures Enabled(w, SpecChanged(spec)) && Apply(w, SpecChanged(spec)) == Changed(w, spec)
  {
    hide ValidSpec;
  }

  // ----- harmful changes -----

  lemma {:induction false} Wrong(w: World)
    requires Live(w)
    requires ScalingOf(w).installed != ScalingOf(w).Expected()
             || VersioningOf(w).installed != VersioningOf(w).Expected()
    ensures !RecordIsTrue(w)
  {
    hide Live, ScalingOf, VersioningOf, Scaling.Expected, Versioning.Expected, ReadWorkers;
    LiveIs(w);
    Pictures(w);
  }

  lemma {:induction false} WorkerSucceedsLive(w: World, a: Action)
    requires Live(w) && a in {ScaleUp, ScaleDown, Upgrade} && StatusOf(w.st, a) == Some(Active)
    requires a == ScaleUp ==> ScalingOf(w).grown.Some?
    ensures Enabled(w, WorkerSucceeds(a))
    ensures var x, s, v := Apply(w, WorkerSucceeds(a)), ScalingOf(w), VersioningOf(w);
            && Live(x)
            && (a == ScaleUp ==> ScalingOf(x) == s.(up := Some(Succeeded), installed := s.grown.value))
            && (a == ScaleDown ==> ScalingOf(x) == s.(down := Some(Succeeded), installed := s.installed - s.removed))
            && (a == Upgrade ==> VersioningOf(x) == v.(upgrade := Some(Succeeded), installed := v.command))
  {
    hide Live, Agrees, ScalingOf, VersioningOf, Apply, Mounted;
    LiveIs(w);
    Pictures(w);
    ActiveMounts(w, a);
    SuccessPictures(w, a);
    SuccessState(w, a);
    SuccessKeeps(w, a, false);
    LiveIs(Apply(w, WorkerSucceeds(a)));
  }

  lemma {:induction false} ActiveMounts(w: World, a: Action)
    requires a in {ScaleUp, ScaleDown, Upgrade} && StatusOf(w.st, a) == Some(Active)
    requires HostsMap in w.st.maps && ConfigMap in w.st.maps && (a == ScaleUp ==> ScaleUpMap in w.st.maps)
    ensures Enabled(w, WorkerSucceeds(a))
  {
  }

  lemma {:induction false} FailedRemovedLive(w: World)
    requires Live(w) && StatusOf(w.st, ScaleUp) == Some(Failed)
    ensures Enabled(w, FailedWorkerRemoved(ScaleUp))
    ensures var x := Apply(w, FailedWorkerRemoved(ScaleUp)); Live(x) && ScalingOf(x) == ScalingOf(w).(up := None)
  {
    hide Live, Agrees, ScalingOf, VersioningOf;
    LiveIs(w);
    WorkerWrites(w, Worker("", Active));
    RemovalKeeps(w, ScaleUp, false);
    LiveIs(Apply(w, FailedWorkerRemoved(ScaleUp)));
  }

  /** A steady run whose reconciles all have the faults `f`. */
  ghost predicate Plain(w: World, es: seq<Event>, x: World, f: Faults) {
    Leads(w, es, x) && Steady(es) && forall i | 0 <= i < |es| :: es[i].Reconciled? ==> es[i].faults == f
  }

  lemma {:induction false} PlainNext(w: World, es: seq<Event>, x: World, e: Event, f: Faults)
    requires Plain(w, es, x, f) && Enabled(x, e) && !e.SpecChanged? && !e.DeletionRequested?
    requires e.Reconciled? ==> e.faults == f
    ensures Plain(w, es + [e], Apply(x, e), f)
  {
    hide Leads, Enabled, Apply, Steady;
    Next(w, es, x, e);
  }

  lemma {:induction false} PlainBegin(w: World, f: Faults)
    ensures Plain(w, [], w, f)
  {
    hide Leads;
    BeginRun(w);
  }

  lemma {:induction false} PlainReconcile(w: World, es: seq<Event>, x: World, f: Faults)
    requires Plain(w, es, x, f)
    ensures Plain(w, es + [Reconciled(f)], x.(st := Reconcile(x.st, f)), f)
  {
    hide Plain, Apply, Enabled;
    ReconciledIs(x, f);
    PlainNext(w, es, x, Reconciled(f), f);
  }

  /** Without a running scale-up worker, a new one is started, mounts the scale-up inventory that is
      there, and succeeds. */
  lemma {:induction false} MountsWhatIsThere(w: World, f: Faults) returns (es: seq<Event>, x: World)
    requires Live(w) && Clean(f) && ScalingOf(w).NeedUp()
    requires ScalingOf(w).up.None? || ScalingOf(w).up == Some(Failed)
    ensures Plain(w, es, x, f) && |es| <= 3 && Live(x)
    ensures var s := ScalingOf(w);
            var g := if s.grown.Some? then s.grown.value else s.recorded + s.desired;
            ScalingOf(x) == s.(up := Some(Succeeded), grown := Some(g), installed := g)
  {
    hide Live, Clean, ScalingOf, VersioningOf, Plain, Apply, Enabled, Reconcile, StatusOf, NeedUp;
    PlainBegin(w, f);
    Pictures(w);
    es, x := [], w;
    if ScalingOf(w).up == Some(Failed) {
      FailedRemovedLive(w);
      PlainNext(w, es, x, FailedWorkerRemoved(ScaleUp), f);
      es, x := es + [FailedWorkerRemoved(ScaleUp)], Apply(x, FailedWorkerRemoved(ScaleUp));
    }
    LiveIs(x);
    NeedsAre(x);
    NeedsIs(x);
    NextUp(x, f);
    PlainReconcile(w, es, x, f);
    es, x := es + [Reconciled(f)], x.(st := Reconcile(x.st, f));
    Pictures(x);
    WorkerSucceedsLive(x, ScaleUp);
    PlainNext(w, es, x, WorkerSucceeds(ScaleUp), f);
    es, x := es + [WorkerSucceeds(ScaleUp)], Apply(x, WorkerSucceeds(ScaleUp));
  }

  lemma {:induction false} HarmfulNames(w: World, spec: Spec, f: Faults) returns (es: seq<Event>, x: World)
    requires Live(w) && ScalingOf(w).Fits() && ValidSpec(spec) && Clean(f)
    requires !ScalingOf(w).Harmless(NameSet(spec.machine.workers))
    ensures Plain(Changed(w, spec), es, x, f) && |es| <= 4 && Live(x)
    ensures ScalingOf(x).installed != ScalingOf(x).Expected()
  {
    hide Live, Clean, ValidSpec, ScalingOf, VersioningOf, Plain, Apply, Enabled, Reconcile, Changed, NameSet, NeedUp;
    hide StatusOf;
    var c, s, d := Changed(w, spec), ScalingOf(w), NameSet(spec.machine.workers);
    ChangedLive(w, spec);
    PlainBegin(c, f);
    Pictures(c);
    es, x := [], c;
    if s.up == Some(Active) && d - s.recorded != s.desired - s.recorded {
      WorkerSucceedsLive(c, ScaleUp);
      PlainNext(c, es, x, WorkerSucceeds(ScaleUp), f);
      es, x := es + [WorkerSucceeds(ScaleUp)], Apply(c, WorkerSucceeds(ScaleUp));
      UpGoesWrong(s, d);
    } else if s.down == Some(Active) && d != s.desired {
      WorkerSucceedsLive(c, ScaleDown);
      PlainNext(c, es, x, WorkerSucceeds(ScaleDown), f);
      es, x := es + [WorkerSucceeds(ScaleDown)], Apply(c, WorkerSucceeds(ScaleDown));
      DownGoesWrong(s, d);
    } else if
    || (s.up == Some(Succeeded) && if s.NeedUp() then d - s.recorded != s.desired - s.recorded else !(d <= s.recorded))
              || (s.down == Some(Succeeded) && s.NeedDown() && d != s.desired)
              || (s.down == Some(Succeeded) && !s.NeedDown() && d < s.recorded) {
      WrongAtOnce(s, d);
    } else if s.grown.Some? && !(d <= s.recorded) && s.grown.value != s.recorded + d {
      MissingSame(s, d);
      OneOf(s.up);
      es, x := MountsWhatIsThere(c, f);
      GrownGoesWrong(s, d);
    } else {
      MissingSame(s, d);
      OneOf(s.up);
      es, x := LeftDownRuns(c, f);
      LeftDownGoesWrong(ScalingOf(c).(installed := s.recorded + d), d);
    }
  }

  lemma {:induction false} MissingSame(s: Scaling, d: set<string>)
    requires s.Fits()
    ensures (s.up == Some(Active) || (s.up == Some(Succeeded) && s.NeedUp()))
            && d - s.recorded == s.desired - s.recorded ==>
              s.grown == Some(s.recorded + d) && !(d <= s.recorded)
  {
    var r, e := s.recorded, s.desired;
    assert d - r == e - r ==> r + d == r + e by {
      assert r + d == r + (d - r) && r + e == r + (e - r);
    }
  }

  lemma {:induction false} ChangedLive(w: World, spec: Spec)
    requires Live(w) && ValidSpec(spec)
    ensures Live(Changed(w, spec))
    ensures ScalingOf(Changed(w, spec)) == ScalingOf(w).(desired := NameSet(spec.machine.workers))
    ensures VersioningOf(Changed(w, spec)) == VersioningOf(w).(desired := spec.version)
  {
    ChangedIs(w, spec);
    ChangePictures(w, spec);
    LiveIs(w);
    LiveIs(Changed(w, spec));
    hide Live, ValidSpec, Agrees, ScalingOf, VersioningOf, NameSet, Apply, Enabled;
    ChangeKeeps(w, spec, false);
  }

  /** New hosts are added and recorded while a finished scale-down worker is still there. */
  lemma {:induction false} LeftDownRuns(w: World, f: Faults) returns (es: seq<Event>, x: World)
    requires Live(w) && Clean(f) && ScalingOf(w).NeedUp()
    requires ScalingOf(w).grown.Some? ==> ScalingOf(w).grown.value == ScalingOf(w).recorded + ScalingOf(w).desired
    requires ScalingOf(w).up == Some(Active) || ScalingOf(w).up == Some(Succeeded) ==> ScalingOf(w).grown.Some?
    requires ScalingOf(w).up == Some(Succeeded) ==>
               ScalingOf(w).installed == ScalingOf(w).recorded + ScalingOf(w).desired
    ensures Plain(w, es, x, f) && |es| <= 4 && Live(x)
    ensures var s := ScalingOf(w);
            var all := s.recorded + s.desired;
            ScalingOf(x) == s.(installed := all, recorded := all, up := None, grown := None)
  {
    hide Live, Clean, ScalingOf, VersioningOf, Plain, Apply, Enabled, Reconcile, NeedUp, StatusOf;
    PlainBegin(w, f);
    Pictures(w);
    OneOf(ScalingOf(w).up);
    es, x := [], w;
    if ScalingOf(w).up == Some(Active) {
      WorkerSucceedsLive(w, ScaleUp);
      PlainNext(w, es, x, WorkerSucceeds(ScaleUp), f);
      es, x := es + [WorkerSucceeds(ScaleUp)], Apply(w, WorkerSucceeds(ScaleUp));
    } else if ScalingOf(w).up != Some(Succeeded) {
      es, x := MountsWhatIsThere(w, f);
    }
    LiveIs(x);
    NeedsAre(x);
    NeedsIs(x);
    Pictures(x);
    NextUp(x, f);
    PlainReconcile(w, es, x, f);
    es, x := es + [Reconciled(f)], x.(st := Reconcile(x.st, f));
  }

  lemma {:induction false} HarmfulVersion(w: World, spec: Spec, f: Faults) returns (es: seq<Event>, x: World)
    requires Live(w) && VersioningOf(w).Fits() && ValidSpec(spec)
    requires !VersioningOf(w).Harmless(spec.version)
    ensures Plain(Changed(w, spec), es, x, f) && |es| <= 4 && Live(x)
    ensures VersioningOf(x).installed != VersioningOf(x).Expected()
  {
    hide Live, ValidSpec, ScalingOf, VersioningOf, Plain, Apply, Enabled, Changed, StatusOf, WithV, Wanted;
    var c, v := Changed(w, spec), VersioningOf(w);
    ChangedLive(w, spec);
    PlainBegin(c, f);
    Pictures(c);
    es, x := [], c;
    if v.upgrade == Some(Active) {
      WorkerSucceedsLive(c, Upgrade);
      PlainNext(c, es, x, WorkerSucceeds(Upgrade), f);
      es, x := es + [WorkerSucceeds(Upgrade)], Apply(c, WorkerSucceeds(Upgrade));
    }
  }

  /** After any other change at most four events, none of them a failing call, make the record wrong. */
  lemma {:induction false} HarmfulGoesWrong(w: World, spec: Spec, f: Faults) returns (es: seq<Event>, x: World)
    requires Agrees(w, true) && Live(w) && ValidSpec(spec) && Clean(f) && !HarmlessChange(w, spec)
    ensures Plain(Changed(w, spec), es, x, f) && |es| <= 4 && !RecordIsTrue(x)
  {
    hide Live, ValidSpec, Clean, ScalingOf, VersioningOf, Plain, Changed, NameSet, RecordIsTrue;
    hide Scaling.Fits, Scaling.Harmless, Versioning.Fits, Versioning.Harmless, Sound;
    LiveIs(w);
    if !ScalingOf(w).Harmless(NameSet(spec.machine.workers)) {
      es, x := HarmfulNames(w, spec, f);
    } else {
      es, x := HarmfulVersion(w, spec, f);
    }
    Wrong(x);
  }

  /** Main result. A spec change is harmless if and only if the record stays true, whatever fails, as long
      as the spec then stays. */
  lemma {:induction false} SpecChangeHarmlessIff(w: World, spec: Spec)
    requires Agrees(w, true) && Live(w) && ValidSpec(spec)
    ensures HarmlessChange(w, spec) <==>
            forall es | Legal(Changed(w, spec), es) && Steady(es) :: RecordIsTrue(Run(Changed(w, spec), es))
  {
    hide Live, ValidSpec, Agrees, HarmlessChange, RecordIsTrue, Changed, Run, Legal, Steady;
    if HarmlessChange(w, spec) {
      forall es | Legal(Changed(w, spec), es) && Steady(es) ensures RecordIsTrue(Run(Changed(w, spec), es)) {
        HarmlessStaysTrue(w, spec, es);
      }
    } else {
      var f := Faults(20, false, true, true);
      var es, x := HarmfulGoesWrong(w, spec, f);
      PlainIs(Changed(w, spec), es, x, f);
    }
  }

  lemma {:induction false} PlainIs(w: World, es: seq<Event>, x: World, f: Faults)
    requires Plain(w, es, x, f)
    ensures Legal(w, es) && Steady(es) && NoDeletion(es) && Run(w, es) == x
  {
    hide Legal, Run;
  }

  // ----- a spec change while a worker runs, and no call fails -----

  /** The three events: the change, the worker's success, a fault-free reconcile. */
  function Overtaking(spec: Spec, a: Action, f: Faults): seq<Event> {
    [SpecChanged(spec), WorkerSucceeds(a), Reconciled(f)]
  }

  lemma {:induction false} Overtaken(w: World, spec: Spec, a: Action, f: Faults) returns (y: World, x: World)
    requires Live(w) && ValidSpec(spec) && a in {ScaleUp, ScaleDown, Upgrade} && StatusOf(w.st, a) == Some(Active)
    requires a == ScaleUp ==> ScalingOf(w).grown.Some?
    ensures Leads(w, Overtaking(spec, a, f), x) && x == y.(st := Reconcile(y.st, f))
    ensures Enabled(Changed(w, spec), WorkerSucceeds(a)) && y == Apply(Changed(w, spec), WorkerSucceeds(a)) && Live(y)
  {
    hide *;
    var c := Changed(w, spec);
    var one, two := [SpecChanged(spec)], [SpecChanged(spec), WorkerSucceeds(a)];
    OvertakingParts(spec, a, f);
    ChangedStatus(w, spec, a);
    ChangedIs(w, spec);
    ChangedLive(w, spec);
    BeginRun(w);
    Next(w, [], w, SpecChanged(spec));
    WorkerSucceedsLive(c, a);
    y := Apply(c, WorkerSucceeds(a));
    Next(w, one, c, WorkerSucceeds(a));
    ReconciledIs(y, f);
    x := Apply(y, Reconciled(f));
    Next(w, two, y, Reconciled(f));
  }

  lemma {:induction false} OvertakingParts(spec: Spec, a: Action, f: Faults)
    ensures var one, two := [SpecChanged(spec)], [SpecChanged(spec), WorkerSucceeds(a)];
            [] + one == one && one + [WorkerSucceeds(a)] == two && two + [Reconciled(f)] == Overtaking(spec, a, f)
  {
  }

  lemma {:induction false} ChangedStatus(w: World, spec: Spec, a: Action)
    ensures StatusOf(Changed(w, spec).st, a) == StatusOf(w.st, a)
  {
  }

  lemma {:induction false} SuccessUnhindered(w: World, spec: Spec, a: Action, y: World)
    requires Live(w) && NoneFailed(w.st) && ValidSpec(spec) && a in {ScaleUp, ScaleDown, Upgrade}
    requires StatusOf(w.st, a) == Some(Active) && (StatusOf(w.st, ScaleUp) == Some(Active) ==> ScalingOf(w).grown.Some?)
    requires Enabled(Changed(w, spec), WorkerSucceeds(a)) && y == Apply(Changed(w, spec), WorkerSucceeds(a))
    ensures Unhindered(y)
  {
    hide Live, ValidSpec, ScalingOf, VersioningOf, Apply, Enabled, R, D, RecordedVersion;
    SuccessState(Changed(w, spec), a);
    assert NoneFailed(y.st);
    NotFailed(y.st);
    Pictures(w);
    Pictures(y);
  }

  /** While a scale-up worker runs: it installs the hosts it was started for, the reconcile records the
      hosts desired now. The record is true iff the same hosts are missing from it. */
  lemma {:induction false} ScaleUpOvertakenIff(w: World, spec: Spec, f: Faults)
    requires Sane(w) && Live(w) && HasStatus(w.st, ScaleUp, Active) && ValidSpec(spec) && Clean(f)
    ensures Legal(w, Overtaking(spec, ScaleUp, f))
    ensures var x, d := Run(w, Overtaking(spec, ScaleUp, f)), NameSet(spec.machine.workers);
            && x.installed == R(w) + D(w)
            && (!(d <= R(w)) ==> R(x) == R(w) + d)
            && (R(x) == x.installed <==> d - R(w) == D(w) - R(w))
  {
    assert NoneFailed(w.st) && StatusOf(w.st, ScaleUp) == Some(Active);
    hide *;
    PastProvision(w);
    SaneReady(w);
    Pictures(w);
    UpOvertaken(ScalingOf(w), NameSet(spec.machine.workers));
    var y, x := Overtaken(w, spec, ScaleUp, f);
    SuccessUnhindered(w, spec, ScaleUp, y);
    WorkerSucceedsOn(w, spec, ScaleUp);
    NextRecordIs(y, f);
    Pictures(y);
    LeadsIs(w, Overtaking(spec, ScaleUp, f), x);
  }

  lemma {:induction false} PastProvision(w: World)
    requires Live(w)
    ensures !InProvision(Shown(w.st.phase))
  {
    hide Ready;
  }

  lemma {:induction false} LeadsIs(w: World, es: seq<Event>, x: World)
    requires Leads(w, es, x)
    ensures Legal(w, es) && NoDeletion(es) && Run(w, es) == x
  {
    hide Legal, Run;
  }

  lemma {:induction false} WorkerSucceedsOn(w: World, spec: Spec, a: Action)
    requires Live(w) && ValidSpec(spec) && a in {ScaleUp, ScaleDown, Upgrade} && StatusOf(w.st, a) == Some(Active)
    requires a == ScaleUp ==> ScalingOf(w).grown.Some?
    ensures Enabled(Changed(w, spec), WorkerSucceeds(a))
    ensures var y := Apply(Changed(w, spec), WorkerSucceeds(a));
            var s := ScalingOf(w).(desired := NameSet(spec.machine.workers));
            var v := VersioningOf(w).(desired := spec.version);
            && (a == ScaleUp ==> ScalingOf(y) == s.(up := Some(Succeeded), installed := s.grown.value))
            && (a == ScaleDown ==> ScalingOf(y) == s.(down := Some(Succeeded), installed := s.installed - s.removed))
            && (a == Upgrade ==>
                  ScalingOf(y) == s && VersioningOf(y) == v.(upgrade := Some(Succeeded), installed := v.command))
  {
    var c := Changed(w, spec);
    assert c.st.workers == w.st.workers;
    hide Live, ValidSpec, ScalingOf, VersioningOf, Apply, Enabled, Changed, NameSet;
    ChangedLive(w, spec);
    WorkerSucceedsLive(c, a);
    SuccessPictures(c, a);
  }

  /** While a scale-down worker runs: it removes the hosts it was started for. The record is true iff the
      desired hosts are still the same. */
  lemma {:induction false} ScaleDownOvertakenIff(w: World, spec: Spec, f: Faults)
    requires Sane(w) && Live(w) && HasStatus(w.st, ScaleDown, Active) && ValidSpec(spec) && Clean(f)
    ensures Legal(w, Overtaking(spec, ScaleDown, f))
    ensures var x, d := Run(w, Overtaking(spec, ScaleDown, f)), NameSet(spec.machine.workers);
            && x.installed == D(w)
            && (d < R(w) ==> R(x) == d)
            && (R(x) == x.installed <==> d == D(w))
  {
    assert NoneFailed(w.st) && StatusOf(w.st, ScaleDown) == Some(Active);
    hide *;
    PastProvision(w);
    SaneReady(w);
    Pictures(w);
    UpHasInventory(w);
    DownOvertaken(ScalingOf(w), NameSet(spec.machine.workers));
    var y, x := Overtaken(w, spec, ScaleDown, f);
    SuccessUnhindered(w, spec, ScaleDown, y);
    WorkerSucceedsOn(w, spec, ScaleDown);
    NextRecordIs(y, f);
    Pictures(y);
    LeadsIs(w, Overtaking(spec, ScaleDown, f), x);
  }

  lemma {:induction false} UpHasInventory(w: World)
    requires ScalingOf(w).Fits()
    ensures StatusOf(w.st, ScaleUp) == Some(Active) ==> ScalingOf(w).grown.Some?
  {
    hide ScalingOf;
    Pictures(w);
  }

  /** While an upgrade worker runs, and the change leaves the hosts as recorded: the record is true iff
      what will be recorded now is the version the worker was started for. */
  lemma {:induction false} UpgradeOvertakenIff(w: World, spec: Spec, f: Faults)
    requires Sane(w) && Live(w) && HasStatus(w.st, Upgrade, Active) && ValidSpec(spec) && Clean(f)
    requires NameSet(spec.machine.workers) == R(w)
    ensures Legal(w, Overtaking(spec, Upgrade, f))
    ensures var x, v := Run(w, Overtaking(spec, Upgrade, f)), RecordedVersion(w.st);
            && x.version == WithV(Final(v, w.st.spec.version))
            && WithV(RecordedVersion(x.st)) == WithV(Final(v, spec.version))
            && (x.version == WithV(RecordedVersion(x.st)) <==>
                  WithV(Final(v, spec.version)) == WithV(Final(v, w.st.spec.version)))
  {
    assert NoneFailed(w.st) && StatusOf(w.st, Upgrade) == Some(Active);
    hide Sane, Live, ValidSpec, Clean, ScalingOf, VersioningOf, Apply, Enabled, Reconcile, Changed, NameSet, Leads, R;
    hide D, Unhindered;
    hide RecordedInfo, Overtaking, Ready, NoneFailed, StatusOf, Run, Legal, Wanted, RecordedVersion, WithV;
    PastProvision(w);
    SaneReady(w);
    Pictures(w);
    var y, x := Overtaken(w, spec, Upgrade, f);
    SuccessUnhindered(w, spec, Upgrade, y);
    WorkerSucceedsOn(w, spec, Upgrade);
    LiveIs(y);
    NeedsAre(y);
    NeedsIs(y);
    NextRecordIs(y, f);
    Pictures(y);
    LeadsIs(w, Overtaking(spec, Upgrade, f), x);
  }
}
