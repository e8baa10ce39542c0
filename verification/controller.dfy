/** The controller itself: it updates shared collections in place, cluster by cluster. Every method is
    proved to do to its own cluster what the specification function says, and nothing to any other. */
module Controller {
  import opened Text
  import opened Inventory
  import opened InventoryLoops
  import opened WorkerNodes
  import opened KubeVersion
  import opened CustomCluster
  import opened WorkerPods
  import opened Stores

  lemma {:induction false} ClusterUpdated(clusters: map<ObjectKey, Cluster>, c: ObjectKey, k: Cluster)
    requires UniqueUids(clusters) && c in clusters && k.uid == clusters[c].uid
    ensures UniqueUids(clusters[c := k]) && clusters[c := k] - {c} == clusters - {c}
  {
  }

  lemma {:induction false} ReconcileStep(s: Store, c: ObjectKey, f: Faults, t: Store)
    requires c in s.clusters && c in t.clusters && t.clusters[c].uid == s.clusters[c].uid && ValidStore(t)
    requires RestOf(t, c) == RestOf(s, c) && ViewOf(t, c) == CustomCluster.Reconcile(ViewOf(s, c), f)
    ensures Step(s, c, ClusterRuns.Reconciled(f), t)
  {
    hide ValidStore, ViewOf, RestOf, CustomCluster.Reconcile;
  }

  class CustomClusterController {
    var pods: seq<Pod>
    var configMaps: map<ObjectKey, string>
    var clusters: map<ObjectKey, Cluster>
    // the reconcile at hand: the in-memory copy and the faults to come
    var phase: Phase
    var finalizer: bool
    var budget: nat
    var lost: bool

    constructor ()
      ensures Valid() && pods == [] && configMaps == map[] && clusters == map[]
    {
      pods, configMaps, clusters := [], map[], map[];
      phase, finalizer, budget, lost := Unset, false, 0, false;
    }

    ghost predicate Valid()
      reads this`pods, this`clusters
    {
      OnePerAction(pods) && UniqueUids(clusters)
    }

    ghost function Snapshot(): Store
      reads this`pods, this`configMaps, this`clusters
    {
      Store(pods, configMaps, clusters)
    }

    /** One cluster as the specification sees it. */
    ghost function View(c: ObjectKey): State
      reads this`pods, this`configMaps, this`clusters
      requires c in clusters
    {
      var k := clusters[c];
      State(k.phase, k.finalizer, MapsOf(configMaps, c),
            WorkersOf(pods, k.uid), k.spec, k.deleting)
    }

    ghost function Ses(c: ObjectKey): Session
      reads this
      requires c in clusters
    {
      Session(View(c), phase, finalizer, budget, lost)
    }

    ghost function Elsewhere(c: ObjectKey): Store
      reads this`pods, this`configMaps, this`clusters
      requires c in clusters
    {
      Store(Others(pods, clusters[c].uid), OtherMaps(configMaps, c), clusters - {c})
    }

    /** Still this cluster, in a valid store, with everything else as it was. */
    twostate predicate Kept(c: ObjectKey)
      reads this
      requires old(c in clusters)
    {
      Valid() && c in clusters && clusters[c].uid == old(clusters[c].uid) && Elsewhere(c) == old(Elsewhere(c))
    }

    /** A CustomCluster is created, under a UID that nothing carries yet: it has no phase, no worker and
        the configmaps that bear its name, and every other cluster is as before. */
    method Register(c: ObjectKey, uid: nat, spec: Spec)
      requires Valid() && c !in clusters
      requires (forall d | d in clusters :: clusters[d].uid != uid) && forall p | p in pods :: p.owner != uid
      modifies this`clusters
      ensures Valid() && clusters.Keys == old(clusters.Keys) + {c} && clusters[c].uid == uid
      ensures View(c) == State(Unset, false, MapsOf(configMaps, c), map[], spec, false)
      ensures forall d | d in old(clusters) :: d in clusters && View(d) == old(View(d))
    {
      hide OnePerAction, WorkersOf, MapsOf;
      NoWorkers(pods, uid);
      clusters := clusters[c := Cluster(uid, Unset, false, spec, false)];
    }

    // ----- API calls -----

    method ApiGet(c: ObjectKey) returns (ok: bool)
      requires Valid() && c in clusters
      modifies this`budget
      ensures Kept(c) && Get(old(Ses(c))) == if ok then Go(Ses(c), ()) else Stop(Ses(c))
    {
      hide OnePerAction, WorkersOf, Others, MapsOf, OtherMaps;
      ok := budget > 0;
      if ok { budget := budget - 1; }
    }

    method ApiCreatePod(c: ObjectKey, a: Action, w: Worker) returns (ok: bool)
      requires Valid() && c in clusters && Find(pods, clusters[c].uid, a) == |pods|
      modifies this`pods, this`budget
      ensures Kept(c) && Call(old(Ses(c)), AddWorker(old(View(c)), a, w)) == if ok then Go(Ses(c), ()) else Stop(Ses(c))
    {
      hide OnePerAction, WorkersOf, Others, MapsOf, OtherMaps, Find;
      CreatedPod(pods, clusters[c].uid, a, w);
      ok := budget > 0;
      if ok || lost { pods := pods + [Pod(clusters[c].uid, a, w)]; }
      if ok { budget := budget - 1; }
    }

    method ApiDeletePod(c: ObjectKey, a: Action) returns (ok: bool)
      requires Valid() && c in clusters && Find(pods, clusters[c].uid, a) < |pods|
      modifies this`pods, this`budget
      ensures Kept(c) && Call(old(Ses(c)), DropWorker(old(View(c)), a)) == if ok then Go(Ses(c), ()) else Stop(Ses(c))
    {
      hide OnePerAction, WorkersOf, Others, MapsOf, OtherMaps, Find, Without;
      DeletedPod(pods, clusters[c].uid, a);
      ok := budget > 0;
      if ok || lost { pods := Without(pods, Find(pods, clusters[c].uid, a)); }
      if ok { budget := budget - 1; }
    }

    method ApiPutMap(c: ObjectKey, n: MapName, data: string) returns (ok: bool)
      requires Valid() && c in clusters
      modifies this`configMaps, this`budget
      ensures Kept(c) && Call(old(Ses(c)), PutMap(old(View(c)), n, data)) == if ok then Go(Ses(c), ()) else Stop(Ses(c))
    {
      hide OnePerAction, WorkersOf, Others, MapsOf, OtherMaps, MapKey;
      MapStored(configMaps, c, n, data);
      ok := budget > 0;
      if ok || lost { configMaps := configMaps[MapKey(c, n) := data]; }
      if ok { budget := budget - 1; }
    }

    method ApiDropMap(c: ObjectKey, n: MapName) returns (ok: bool)
      requires Valid() && c in clusters
      modifies this`configMaps, this`budget
      ensures Kept(c) && Call(old(Ses(c)), DropMap(old(View(c)), n)) == if ok then Go(Ses(c), ()) else Stop(Ses(c))
    {
      hide OnePerAction, WorkersOf, Others, MapsOf, OtherMaps, MapKey;
      MapRemoved(configMaps, c, n);
      ok := budget > 0;
      if ok || lost { configMaps := configMaps - {MapKey(c, n)}; }
      if ok { budget := budget - 1; }
    }

    /** Updates the stored CustomCluster without its finalizer. */
    method ApiRelease(c: ObjectKey) returns (ok: bool)
      requires Valid() && c in clusters
      modifies this`clusters, this`budget
      ensures Kept(c)
              && Call(old(Ses(c)), old(View(c)).(finalizer := false)) == if ok then Go(Ses(c), ()) else Stop(Ses(c))
    {
      hide OnePerAction, WorkersOf, Others, MapsOf, OtherMaps, UniqueUids;
      ClusterUpdated(clusters, c, clusters[c].(finalizer := false));
      ok := budget > 0;
      if ok || lost { clusters := clusters[c := clusters[c].(finalizer := false)]; }
      if ok { budget := budget - 1; }
    }

    // ----- ensure* -----

    /** `findManageWorkerPod`: the first labelled pod whose owner is this cluster. */
    method FindManageWorkerPod(c: ObjectKey, a: Action) returns (ok: bool, pod: Option<Pod>)
      requires Valid() && c in clusters
      modifies this`budget
      ensures Kept(c) && Get(old(Ses(c))) == if ok then Go(Ses(c), ()) else Stop(Ses(c))
      ensures ok ==> pod.Some? == (Find(pods, clusters[c].uid, a) < |pods|) && pod.Some? == (a in View(c).workers)
      ensures ok && pod.Some? ==> pod.value.owner == clusters[c].uid && pod.value.worker == View(c).workers[a]
    {
      ok := ApiGet(c);
      pod := None;
      if !ok { return; }
      var uid := clusters[c].uid;
      for i := 0 to |pods|
        invariant forall k | 0 <= k < i :: !(pods[k].owner == uid && pods[k].action == a)
      {
        if pods[i].action == a && pods[i].owner == uid {
          FindIs(pods, i);
          pod := Some(pods[i]);
          return;
        }
      }
      FindNone(pods, uid, a);
    }

    /** `ensureWorkerPodCreated`. */
    method EnsureWorkerPodCreated(c: ObjectKey, a: Action, cmd: string) returns (ok: bool, w: Worker)
      requires Valid() && c in clusters
      modifies this
      ensures Kept(c) && EnsureWorkerCreated(old(Ses(c)), a, cmd) == if ok then Go(Ses(c), w) else Stop(Ses(c))
    {
      hide Valid, View, Elsewhere, Find;
      var pod;
      ok, pod := FindManageWorkerPod(c, a);
      w := Worker(cmd, Active);
      if !ok { return; }
      if pod.Some? {
        w := pod.value.worker;
        return;
      }
      ok := ApiCreatePod(c, a, w);
    }

    /** `ensureWorkerPodDeleted`. */
    method EnsureWorkerPodDeleted(c: ObjectKey, a: Action) returns (ok: bool)
      requires Valid() && c in clusters
      modifies this
      ensures Kept(c) && EnsureWorkerDeleted(old(Ses(c)), a) == if ok then Go(Ses(c), ()) else Stop(Ses(c))
    {
      hide Valid, View, Elsewhere, Find;
      var pod;
      ok, pod := FindManageWorkerPod(c, a);
      if !ok || pod.None? { return; }
      ok := ApiDeletePod(c, a);
    }

    method HasConfigMap(c: ObjectKey, n: MapName) returns (ok: bool, found: bool, data: string)
      requires Valid() && c in clusters
      modifies this
      ensures Kept(c) && Get(old(Ses(c))) == if ok then Go(Ses(c), ()) else Stop(Ses(c))
      ensures ok ==> found == (n in View(c).maps) && (found ==> data == View(c).maps[n])
    {
      hide Valid, View, Elsewhere;
      ok := ApiGet(c);
      found := MapKey(c, n) in configMaps;
      data := if found then configMaps[MapKey(c, n)] else "";
      StoredMap(c, n);
    }

    lemma {:induction false} StoredMap(c: ObjectKey, n: MapName)
      requires c in clusters
      ensures n in View(c).maps <==> MapKey(c, n) in configMaps
      ensures n in View(c).maps ==> View(c).maps[n] == configMaps[MapKey(c, n)]
    {
      hide MapKey, WorkersOf;
    }

    /** `ensureClusterHostsCreated` and `ensureClusterConfigCreated`. */
    method EnsureConfigMapCreated(c: ObjectKey, n: MapName, data: string) returns (ok: bool)
      requires Valid() && c in clusters
      modifies this
      ensures Kept(c) && EnsureMapCreated(old(Ses(c)), n, data) == if ok then Go(Ses(c), ()) else Stop(Ses(c))
    {
      hide Valid, View, Elsewhere;
      var found, was;
      ok, found, was := HasConfigMap(c, n);
      if !ok || found { return; }
      ok := ApiPutMap(c, n, data);
    }

    /** `ensureConfigMapDeleted`. */
    method EnsureConfigMapDeleted(c: ObjectKey, n: MapName) returns (ok: bool)
      requires Valid() && c in clusters
      modifies this
      ensures Kept(c) && EnsureMapDeleted(old(Ses(c)), n) == if ok then Go(Ses(c), ()) else Stop(Ses(c))
    {
      hide Valid, View, Elsewhere;
      var found, was;
      ok, found, was := HasConfigMap(c, n);
      if !ok || !found { return; }
      ok := ApiGet(c); // the update that removes the finalizer
      if !ok { return; }
      ok := ApiDropMap(c, n);
    }

    method EnsureScaleUpHostsCreated(c: ObjectKey, ns: seq<NodeInfo>) returns (ok: bool)
      requires Valid() && c in clusters
      modifies this
      ensures Kept(c)
              && CustomCluster.EnsureScaleUpHostsCreated(old(Ses(c)), ns) == if ok then Go(Ses(c), ()) else Stop(Ses(c))
    {
      hide Valid, View, Elsewhere, AddNodes, Trim;
      var found, data;
      ok, found, data := HasConfigMap(c, ScaleUpMap);
      if !ok || found { return; }
      ok, found, data := HasConfigMap(c, HostsMap);
      if !ok { return; }
      if !found { return false; }
      var text := GetScaleUpConfigMapData(data, ns);
      if text.None? { return false; }
      ok := ApiPutMap(c, ScaleUpMap, Trim(text.value));
    }

    method UpdateClusterNodes(c: ObjectKey, ns: seq<NodeInfo>) returns (ok: bool)
      requires Valid() && c in clusters
      modifies this
      ensures Kept(c)
              && CustomCluster.UpdateClusterNodes(old(Ses(c)), ns) == if ok then Go(Ses(c), ()) else Stop(Ses(c))
    {
      hide Valid, View, Elsewhere, AddNodes;
      var found, data;
      ok, found, data := HasConfigMap(c, HostsMap);
      if !ok { return; }
      if !found { return false; }
      var text := GetScaleUpConfigMapData(data, ns);
      if text.None? { return false; }
      ok := ApiPutMap(c, HostsMap, text.value);
    }

    method RecreateClusterHosts(c: ObjectKey) returns (ok: bool)
      requires Valid() && c in clusters
      modifies this
      ensures Kept(c) && CustomCluster.RecreateClusterHosts(old(Ses(c))) == if ok then Go(Ses(c), ()) else Stop(Ses(c))
    {
      hide Valid, View, Elsewhere, EnsureMapDeleted, RenderTemplate, Trim, Content;
      ok := EnsureConfigMapDeleted(c, HostsMap);
      if !ok { return; }
      var content := GetHostsContent(clusters[c].spec.machine);
      StoredCluster(c);
      ok := ApiPutMap(c, HostsMap, Trim(RenderTemplate(content)));
    }

    lemma {:induction false} StoredCluster(c: ObjectKey)
      requires c in clusters
      ensures View(c).spec == clusters[c].spec && View(c).deleting == clusters[c].deleting
      ensures View(c).phase == clusters[c].phase && View(c).finalizer == clusters[c].finalizer
    {
      hide WorkersOf, MapsOf;
    }

    method UpdateKubeVersion(c: ObjectKey, version: string) returns (ok: bool)
      requires Valid() && c in clusters
      modifies this
      ensures Kept(c)
              && CustomCluster.UpdateKubeVersion(old(Ses(c)), version) == if ok then Go(Ses(c), ()) else Stop(Ses(c))
    {
      hide Valid, View, Elsewhere, UpdateVersion;
      var found, data;
      ok, found, data := HasConfigMap(c, ConfigMap);
      if !ok { return; }
      if !found { return false; }
      ok := ApiPutMap(c, ConfigMap, UpdateVersion(data, version));
    }

    // ----- reconcile* -----

    /** `reconcileScaleUp`. */
    method ReconcileScaleUp(c: ObjectKey, ns: seq<NodeInfo>) returns (ok: bool)
      requires Valid() && c in clusters
      modifies this
      ensures Kept(c) && CustomCluster.ReconcileScaleUp(old(Ses(c)), ns) == if ok then Go(Ses(c), ()) else Stop(Ses(c))
    {
      hide Valid, View, Elsewhere, CustomCluster.EnsureScaleUpHostsCreated, EnsureWorkerCreated;
      hide CustomCluster.FinishScaleUp;
      ok := EnsureScaleUpHostsCreated(c, ns);
      if !ok { return; }
      var w;
      ok, w := EnsureWorkerPodCreated(c, ScaleUp, SCALE_UP_CMD);
      if !ok { return; }
      phase := ScalingUp;
      if w.status == Succeeded {
        ok := FinishScaleUp(c, ns);
      } else if w.status == Failed {
        phase := Provisioned;
      }
    }

    method FinishScaleUp(c: ObjectKey, ns: seq<NodeInfo>) returns (ok: bool)
      requires Valid() && c in clusters
      modifies this
      ensures Kept(c) && CustomCluster.FinishScaleUp(old(Ses(c)), ns) == if ok then Go(Ses(c), ()) else Stop(Ses(c))
    {
      hide Valid, View, Elsewhere, CustomCluster.UpdateClusterNodes, EnsureMapDeleted, EnsureWorkerDeleted;
      ok := UpdateClusterNodes(c, ns);
      if !ok { return; }
      phase := Provisioned;
      ok := EnsureConfigMapDeleted(c, ScaleUpMap);
      if !ok { return; }
      ok := EnsureWorkerPodDeleted(c, ScaleUp);
    }

    /** `reconcileScaleDown`. */
    method ReconcileScaleDown(c: ObjectKey, ns: seq<NodeInfo>) returns (ok: bool)
      requires Valid() && c in clusters
      modifies this
      ensures Kept(c)
              && CustomCluster.ReconcileScaleDown(old(Ses(c)), ns) == if ok then Go(Ses(c), ()) else Stop(Ses(c))
    {
      hide Valid, View, Elsewhere, EnsureWorkerCreated, CustomCluster.RecreateClusterHosts, EnsureWorkerDeleted;
      hide ScaleDownCmd, CommandNodes;
      var cmd := GenerateScaleDownManageCMD(ns);
      var w;
      ok, w := EnsureWorkerPodCreated(c, ScaleDown, cmd);
      if !ok { return; }
      phase := ScalingDown;
      if w.status == Succeeded {
        ok := RecreateClusterHosts(c);
        if !ok { return; }
        phase := Provisioned;
        ok := EnsureWorkerPodDeleted(c, ScaleDown);
      } else if w.status == Failed {
        phase := Provisioned;
      }
    }

    /** `reconcileUpgrade`. */
    method ReconcileUpgrade(c: ObjectKey, version: string) returns (ok: bool)
      requires Valid() && c in clusters
      modifies this
      ensures Kept(c)
              && CustomCluster.ReconcileUpgrade(old(Ses(c)), version) == if ok then Go(Ses(c), ()) else Stop(Ses(c))
    {
      hide Valid, View, Elsewhere, EnsureWorkerCreated, CustomCluster.UpdateKubeVersion, EnsureWorkerDeleted;
      hide UpgradeCmd;
      var w;
      ok, w := EnsureWorkerPodCreated(c, Upgrade, UpgradeCmd(version));
      if !ok { return; }
      phase := Upgrading;
      if w.status == Succeeded {
        ok := UpdateKubeVersion(c, version);
        if !ok { return; }
        phase := Provisioned;
        ok := EnsureWorkerPodDeleted(c, Upgrade);
      } else if w.status == Failed {
        phase := Unknown;
      }
    }

    method EnsureFinalizerAndOwnerRef(c: ObjectKey) returns (ok: bool)
      requires Valid() && c in clusters
      modifies this
      ensures Kept(c)
              && CustomCluster.EnsureFinalizerAndOwnerRef(old(Ses(c))) == if ok then Go(Ses(c), ()) else Stop(Ses(c))
    {
      hide Valid, View, Elsewhere, Get;
      finalizer := true;
      ok := ApiGet(c);
      if !ok { return; }
      ok := ApiGet(c);
      if !ok { return; }
      ok := ApiGet(c);
      if !ok { return; }
      ok := ApiGet(c);
    }

    /** `reconcileProvision`. */
    method ReconcileProvision(c: ObjectKey) returns (ok: bool)
      requires Valid() && c in clusters
      modifies this
      ensures Kept(c) && CustomCluster.ReconcileProvision(old(Ses(c))) == if ok then Go(Ses(c), ()) else Stop(Ses(c))
    {
      hide Valid, View, Elsewhere, EnsureMapCreated, CustomCluster.RunInit, RenderTemplate, Trim, Content, RenderConfig;
      StoredCluster(c);
      var spec := clusters[c].spec;
      var content := GetHostsContent(spec.machine);
      ok := EnsureConfigMapCreated(c, HostsMap, Trim(RenderTemplate(content)));
      if !ok { return; }
      ok := EnsureConfigMapCreated(c, ConfigMap, RenderConfig(spec.version, spec.settings));
      if !ok { return; }
      ok := RunInit(c);
    }

    method RunInit(c: ObjectKey) returns (ok: bool)
      requires Valid() && c in clusters
      modifies this
      ensures Kept(c) && CustomCluster.RunInit(old(Ses(c))) == if ok then Go(Ses(c), ()) else Stop(Ses(c))
    {
      hide Valid, View, Elsewhere, EnsureWorkerCreated, CustomCluster.EnsureFinalizerAndOwnerRef, Get;
      var w;
      ok, w := EnsureWorkerPodCreated(c, Init, INIT_CMD);
      if !ok { return; }
      ok := EnsureFinalizerAndOwnerRef(c);
      if !ok { return; }
      phase := Provisioning;
      if w.status == Succeeded {
        ok := ApiGet(c);
        if !ok { return; }
        phase := Provisioned;
      } else if w.status == Failed {
        phase := ProvisionFailed;
      }
    }

    /** `getProvisionedClusterInfo`. */
    method GetProvisionedClusterInfo(c: ObjectKey) returns (ok: bool, info: ClusterInfo)
      requires Valid() && c in clusters
      modifies this
      ensures Kept(c)
              && CustomCluster.GetProvisionedClusterInfo(old(Ses(c))) == if ok then Go(Ses(c), info) else Stop(Ses(c))
    {
      hide Valid, View, Elsewhere, ReadWorkers, VersionIn, Get;
      info := ClusterInfo([], "");
      var found, data;
      ok, found, data := HasConfigMap(c, HostsMap);
      if !ok { return; }
      if !found { return false, info; }
      var workers := GetWorkerNodeInfoFromClusterHosts(data);
      if workers.None? { return false, info; }
      ok, found, data := HasConfigMap(c, ConfigMap);
      if !ok { return; }
      if !found { return false, info; }
      var version := GetKubeVersionFromCM(data);
      info := ClusterInfo(workers.value, version);
    }

    /** `reconcile`. */
    method ReconcileNormal(c: ObjectKey) returns (ok: bool)
      requires Valid() && c in clusters
      modifies this
      ensures Kept(c) && CustomCluster.ReconcileNormal(old(Ses(c))) == if ok then Go(Ses(c), ()) else Stop(Ses(c))
    {
      hide Valid, View, Elsewhere, CustomCluster.ReconcileProvision, CustomCluster.GetProvisionedClusterInfo;
      hide CustomCluster.ReconcileScaleUp, CustomCluster.ReconcileScaleDown, CustomCluster.ReconcileUpgrade, Additional;
      hide NameSet, UpgradeSupported;
      StoredCluster(c);
      var spec := clusters[c].spec;
      if InProvision(phase) {
        ok := ReconcileProvision(c);
        return;
      }
      var up, down, recorded := [], [], "";
      if HasInfo(phase) {
        var info;
        ok, info := GetProvisionedClusterInfo(c);
        if !ok { return; }
        up := FindAdditionalWorkerNodes(info.workers, spec.machine.workers);
        down := FindAdditionalWorkerNodes(spec.machine.workers, info.workers);
        recorded := info.version;
      }
      if |up| != 0 {
        ok := ReconcileScaleUp(c, up);
      } else if |down| != 0 {
        ok := ReconcileScaleDown(c, down);
      } else if spec.version != recorded && UpgradeSupported(recorded, spec.version) {
        ok := ReconcileUpgrade(c, spec.version);
      } else {
        ok := true;
      }
    }

    /** `deleteWorkerPods`. */
    method DeleteWorkerPods(c: ObjectKey) returns (ok: bool)
      requires Valid() && c in clusters
      modifies this
      ensures Kept(c) && CustomCluster.DeleteWorkerPods(old(Ses(c))) == if ok then Go(Ses(c), ()) else Stop(Ses(c))
    {
      hide Valid, View, Elsewhere, EnsureWorkerDeleted;
      ok := EnsureWorkerPodDeleted(c, Init);
      if !ok { return; }
      ok := EnsureWorkerPodDeleted(c, ScaleUp);
      if !ok { return; }
      ok := EnsureWorkerPodDeleted(c, ScaleDown);
    }

    /** `deleteResource`. */
    method DeleteResource(c: ObjectKey) returns (ok: bool)
      requires Valid() && c in clusters
      modifies this
      ensures Kept(c) && CustomCluster.DeleteResource(old(Ses(c))) == if ok then Go(Ses(c), ()) else Stop(Ses(c))
    {
      hide Valid, View, Elsewhere, EnsureMapDeleted, Get, Call;
      ok := EnsureConfigMapDeleted(c, HostsMap);
      if !ok { return; }
      ok := EnsureConfigMapDeleted(c, ConfigMap);
      if !ok { return; }
      ok := ApiGet(c); // the machine's finalizer
      if !ok { return; }
      ok := ApiGet(c); // the control plane's finalizer
      if !ok { return; }
      finalizer := false;
      ok := ApiRelease(c);
    }

    /** `reconcileDelete`. */
    method ReconcileDelete(c: ObjectKey) returns (ok: bool)
      requires Valid() && c in clusters
      modifies this
      ensures Kept(c) && CustomCluster.ReconcileDelete(old(Ses(c))) == if ok then Go(Ses(c), ()) else Stop(Ses(c))
    {
      hide Valid, View, Elsewhere, CustomCluster.DeleteWorkerPods, EnsureWorkerCreated, CustomCluster.DeleteResource;
      ok := DeleteWorkerPods(c);
      if !ok { return; }
      var w;
      ok, w := EnsureWorkerPodCreated(c, Terminate, TERMINATE_CMD);
      if !ok { return; }
      if w.status == Succeeded {
        ok := DeleteResource(c);
      } else if w.status == Failed {
        phase := Unknown;
      }
    }

    /** The deferred patch. */
    method ApiPatch(c: ObjectKey, snapshot: Phase, f: Faults)
      requires Valid() && c in clusters
      modifies this`clusters
      ensures Kept(c) && View(c) == Patch(snapshot, old(Ses(c)), f)
    {
      hide WorkersOf, MapsOf, Others, OtherMaps, OnePerAction, UniqueUids;
      var now := clusters[c];
      now := now.(phase := if f.statusOk && phase != snapshot then phase else now.phase,
                  finalizer := if f.metaOk then finalizer else now.finalizer);
      ClusterUpdated(clusters, c, now);
      clusters := clusters[c := now];
    }

    /** `Reconcile` of one cluster with the given faults: it does what the specification says to that
        cluster, and leaves the pods, configmaps and objects of every other cluster alone; so it is one
        step of a run of the whole store. */
    method Reconcile(c: ObjectKey, f: Faults)
      requires Valid() && c in clusters
      modifies this
      ensures Kept(c) && View(c) == CustomCluster.Reconcile(old(View(c)), f)
      ensures Step(old(Snapshot()), c, ClusterRuns.Reconciled(f), Snapshot())
    {
      hide CustomCluster.Reconcile;
      ReconcileBody(c, f);
      ReconcileStep(old(Snapshot()), c, f, Snapshot());
    }

    method ReconcileBody(c: ObjectKey, f: Faults)
      requires Valid() && c in clusters
      modifies this
      ensures Kept(c) && View(c) == CustomCluster.Reconcile(old(View(c)), f)
    {
      hide Valid, View, Elsewhere, CustomCluster.ReconcileDelete, CustomCluster.ReconcileNormal;
      StoredCluster(c);
      if f.budget < PREAMBLE { return; }
      var k := clusters[c];
      var snapshot := Shown(k.phase);
      phase, finalizer := if k.deleting then Deleting else snapshot, k.finalizer;
      budget, lost := f.budget - PREAMBLE, f.lost;
      assert Ses(c) == Open(old(View(c)), f);
      var ok;
      if k.deleting {
        ok := ReconcileDelete(c);
      } else {
        ok := ReconcileNormal(c);
      }
      ApiPatch(c, snapshot, f);
    }

    /** No other cluster can tell that this one was reconciled. */
    method ReconcileIsLocal(c: ObjectKey, d: ObjectKey, f: Faults)
      requires Valid() && c in clusters && d in clusters && c != d
      modifies this
      ensures Valid() && d in clusters && View(d) == old(View(d))
    {
      hide WorkersOf, MapsOf, Others, OtherMaps, OnePerAction, CustomCluster.Reconcile;
      ghost var pods0, maps0, uid, k := pods, configMaps, clusters[c].uid, clusters[d];
      Reconcile(c, f);
      assert d in clusters - {c} && (clusters - {c})[d] == k;
      SameOthersSameWorkers(pods0, pods, uid, k.uid);
      SameOthersSameMaps(maps0, configMaps, c, d);
    }
  }
}
