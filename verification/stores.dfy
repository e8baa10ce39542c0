/** The API server's store with any number of custom clusters in it, and runs in which their reconciles,
    workers and users interleave. Each cluster lives its own run. */
module Stores {
  import opened CustomCluster
  import opened ClusterRuns
  import opened RecordAgreement
  import opened WorkerPods

  /** A stored CustomCluster with the machine and control plane it refers to. */
  datatype Cluster = Cluster(uid: nat, phase: Phase, finalizer: bool, spec: Spec, deleting: bool)

  datatype Store = Store(pods: seq<Pod>, maps: map<ObjectKey, string>, clusters: map<ObjectKey, Cluster>)

  ghost predicate UniqueUids(clusters: map<ObjectKey, Cluster>) {
    forall c, d | c in clusters && d in clusters && clusters[c].uid == clusters[d].uid :: c == d
  }

  ghost predicate ValidStore(s: Store) {
    OnePerAction(s.pods) && UniqueUids(s.clusters)
  }

  /** One cluster as the specification sees it. */
  ghost function ViewOf(s: Store, c: ObjectKey): State
    requires c in s.clusters
  {
    var k := s.clusters[c];
    State(k.phase, k.finalizer, MapsOf(s.maps, c), WorkersOf(s.pods, k.uid), k.spec, k.deleting)
  }

  /** Everything that does not belong to it. */
  ghost function RestOf(s: Store, c: ObjectKey): Store
    requires c in s.clusters
  {
    Store(Others(s.pods, s.clusters[c].uid), OtherMaps(s.maps, c), s.clusters - {c})
  }

  // ----- one event -----

  /** The specification of one event, for a cluster's state alone. */
  ghost predicate Can(st: State, e: Event) {
    Enabled(World(st, {}, ""), e)
  }

  ghost function After(st: State, e: Event): State
    requires Can(st, e)
  {
    Apply(World(st, {}, ""), e).st
  }

  /** An event of cluster `c`: it does to its state what the specification says, and nothing else. */
  ghost predicate Step(s: Store, c: ObjectKey, e: Event, t: Store) {
    && c in s.clusters && c in t.clusters && t.clusters[c].uid == s.clusters[c].uid && ValidStore(t)
    && Can(ViewOf(s, c), e) && ViewOf(t, c) == After(ViewOf(s, c), e)
    && RestOf(t, c) == RestOf(s, c)
  }

  /** No other cluster can tell. */
  lemma {:induction false} StepIsLocal(s: Store, c: ObjectKey, e: Event, t: Store, d: ObjectKey)
    requires ValidStore(s) && Step(s, c, e, t) && d in s.clusters && d != c
    ensures d in t.clusters && ViewOf(t, d) == ViewOf(s, d)
  {
    hide OnePerAction, WorkersOf, Others, MapsOf, OtherMaps, Can, After;
    assert d in s.clusters - {c} && (s.clusters - {c})[d] == s.clusters[d];
    assert d in t.clusters - {c} && (t.clusters - {c})[d] == t.clusters[d];
    SameOthersSameWorkers(s.pods, t.pods, s.clusters[c].uid, s.clusters[d].uid);
    SameOthersSameMaps(s.maps, t.maps, c, d);
  }

  // ----- what nodes and users do to the store -----

  /** A worker of `c` finishes; its pod is found as its owner finds it. */
  function Finished(s: Store, c: ObjectKey, a: Action, status: Status): Store
    requires c in s.clusters && Find(s.pods, s.clusters[c].uid, a) < |s.pods|
  {
    var i := Find(s.pods, s.clusters[c].uid, a);
    s.(pods := s.pods[i := Pod(s.clusters[c].uid, a, s.pods[i].worker.(status := status))])
  }

  lemma {:induction false} FinishedSteps(s: Store, c: ObjectKey, a: Action)
    requires ValidStore(s) && c in s.clusters
    ensures Can(ViewOf(s, c), WorkerSucceeds(a)) ==>
              && Find(s.pods, s.clusters[c].uid, a) < |s.pods|
              && Step(s, c, WorkerSucceeds(a), Finished(s, c, a, Succeeded))
    ensures Can(ViewOf(s, c), WorkerFails(a)) ==>
              && Find(s.pods, s.clusters[c].uid, a) < |s.pods|
              && Step(s, c, WorkerFails(a), Finished(s, c, a, Failed))
  {
    hide OnePerAction, Others, MapsOf, OtherMaps, Find, RecordedNameSet, Reconcile;
    var uid := s.clusters[c].uid;
    var i := Find(s.pods, uid, a);
    if i < |s.pods| {
      ChangedPod(s.pods, uid, a, s.pods[i].worker.(status := Succeeded));
      ChangedPod(s.pods, uid, a, s.pods[i].worker.(status := Failed));
      var w := World(ViewOf(s, c), {}, "");
      if Can(ViewOf(s, c), WorkerSucceeds(a)) { SuccessState(w, a); }
    }
  }

  /** A failed worker is removed by hand. */
  lemma {:induction false} RemovedSteps(s: Store, c: ObjectKey, a: Action)
    requires ValidStore(s) && c in s.clusters && Can(ViewOf(s, c), FailedWorkerRemoved(a))
    ensures Find(s.pods, s.clusters[c].uid, a) < |s.pods|
    ensures Step(s, c, FailedWorkerRemoved(a), s.(pods := Without(s.pods, Find(s.pods, s.clusters[c].uid, a))))
  {
    hide OnePerAction, Others, MapsOf, OtherMaps, Find, Without, Reconcile;
    DeletedPod(s.pods, s.clusters[c].uid, a);
  }

  /** The object is edited: a new spec, or a deletion timestamp. */
  lemma {:induction false} EditedSteps(s: Store, c: ObjectKey, spec: Spec)
    requires ValidStore(s) && c in s.clusters
    ensures ValidSpec(spec) ==>
              Step(s, c, SpecChanged(spec), s.(clusters := s.clusters[c := s.clusters[c].(spec := spec)]))
    ensures Step(s, c, DeletionRequested, s.(clusters := s.clusters[c := s.clusters[c].(deleting := true)]))
  {
    hide OnePerAction, Others, MapsOf, OtherMaps, WorkersOf, Find, ValidSpec, Reconcile;
    var k := s.clusters[c];
    assert s.clusters[c := k.(spec := spec)] - {c} == s.clusters - {c};
    assert s.clusters[c := k.(deleting := true)] - {c} == s.clusters - {c};
  }

  // ----- runs -----

  datatype Tagged = On(c: ObjectKey, e: Event)

  /** A run through the given stores. */
  ghost predicate Chain(stores: seq<Store>, tags: seq<Tagged>) {
    && |stores| == |tags| + 1
    && forall i | 0 <= i < |tags| :: Step(stores[i], tags[i].c, tags[i].e, stores[i + 1])
  }

  /** The events of one cluster. */
  function Own(tags: seq<Tagged>, c: ObjectKey): seq<Event> {
    if tags == [] then [] else (if tags[0].c == c then [tags[0].e] else []) + Own(tags[1..], c)
  }

  /** Neither enabledness nor the next state depends on what is installed. */
  lemma {:induction false} StateOnly(w: World, e: Event)
    ensures Enabled(w, e) <==> Can(w.st, e)
    ensures Enabled(w, e) ==> Apply(w, e).st == After(w.st, e)
  {
    hide Reconcile, ValidSpec, RecordedNameSet;
    if e.WorkerSucceeds? && Enabled(w, e) {
      SuccessState(w, e.action);
      SuccessState(World(w.st, {}, ""), e.action);
    }
  }

  /** Each cluster's state is that of the run of its own events, however the others interleave, so that
      every result about runs of one cluster holds of each; and none ever has two workers of a kind. */
  lemma {:induction false} ClustersRunAlone(stores: seq<Store>, tags: seq<Tagged>, c: ObjectKey, w: World)
    requires Chain(stores, tags) && ValidStore(stores[0]) && c in stores[0].clusters && w.st == ViewOf(stores[0], c)
    ensures var last := stores[|tags|];
            && ValidStore(last) && c in last.clusters
            && Legal(w, Own(tags, c)) && Run(w, Own(tags, c)).st == ViewOf(last, c)
    decreases tags
  {
    hide ValidStore, ViewOf, Step, Apply, Enabled, Can, After;
    if tags != [] {
      var s, t, d, e := stores[0], stores[1], tags[0].c, tags[0].e;
      assert Step(s, d, e, t);
      StepIs(s, d, e, t);
      assert forall i | 0 <= i < |tags[1..]| :: tags[1..][i] == tags[i + 1] && stores[1..][i] == stores[i + 1];
      if d == c {
        StateOnly(w, e);
        ClustersRunAlone(stores[1..], tags[1..], c, Apply(w, e));
        assert Own(tags, c) == [e] + Own(tags[1..], c);
        assert Own(tags, c)[1..] == Own(tags[1..], c);
      } else {
        StepIsLocal(s, d, e, t, c);
        ClustersRunAlone(stores[1..], tags[1..], c, w);
        assert Own(tags, c) == Own(tags[1..], c);
      }
    }
  }

  lemma {:induction false} StepIs(s: Store, c: ObjectKey, e: Event, t: Store)
    requires Step(s, c, e, t)
    ensures c in s.clusters && c in t.clusters && ValidStore(t)
    ensures Can(ViewOf(s, c), e) && ViewOf(t, c) == After(ViewOf(s, c), e)
  {
    hide ValidStore, ViewOf, Can, After, RestOf;
  }

  /** For instance: in every interleaving, every cluster whose own spec changes are harmless has a true
      record, whatever the others do. */
  lemma {:induction false} EveryRecordIsTrue(stores: seq<Store>, tags: seq<Tagged>, c: ObjectKey, w: World)
    requires Chain(stores, tags) && ValidStore(stores[0]) && c in stores[0].clusters && w.st == ViewOf(stores[0], c)
    requires Initial(w) && NoDeletion(Own(tags, c))
    requires Legal(w, Own(tags, c)) ==> HarmlessRun(w, Own(tags, c))
    ensures Legal(w, Own(tags, c)) && c in stores[|tags|].clusters
    ensures var x := Run(w, Own(tags, c)); x.st == ViewOf(stores[|tags|], c) && RecordIsTrue(x)
  {
    hide *;
    ClustersRunAlone(stores, tags, c, w);
    RecordMatchesInstalled(w, Own(tags, c));
  }
}
