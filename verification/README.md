# Kurator controllers, modelled and proved in Dafny

Kurator manages fleets of Kubernetes clusters. This project models its stateful core and proves what the
controllers promise about it.

- **Custom clusters** (`pkg/cluster-operator`). An operator installs Kubernetes on plain machines through
  kubespray worker pods. It remembers what it installed only as text, in two configmaps: an Ansible inventory
  (`cluster-hosts`) and a settings file (`cluster-config`) with one version line. Everything it does later
  (scale up, scale down, upgrade) is decided by re-reading that text.
- **Backup, restore, migrate** (`pkg/fleet-manager/backup`). Per-cluster statuses are merged in place through an
  index of strings, and "finished" is read off the merged list.
- **Fleets and applications** (`pkg/fleet-manager`, `pkg/webhooks`). A shared ingress counts its users in a
  label; admission keeps an application on one fleet; a fleet labels its clusters.

## How it is built

| module | file | content |
|---|---|---|
| Text | text.dfy | `strings.Split` with several separators, `Join`, `TrimSpace`, `ReplaceAll` and their laws |
| Inventory, InventoryLoops, InventoryGroups | inventory.dfy, inventory_loops.dfy, inventory_groups.dfy | printing, reading and editing `cluster-hosts`, as functions and as the loops of the source; the groups Ansible finds in it |
| WorkerNodes, KubeVersion, Releases | worker_nodes.dfy, kube_version.dfy, releases.dfy | node differences, kubespray commands, the version line; which texts are versions and which upgrades are attempted |
| CustomCluster | custom_cluster.dfy | what each reconcile function does to one cluster, under any failing API call |
| ClusterRuns | cluster_runs.dfy | runs: reconciles, workers finishing or failing, spec changes, deletion |
| Agreement, Stages | agreement.dfy, stages.dfy | two small machines: what record, spec and machines owe each other; how far a cluster is from its spec |
| RecordAgreement, SpecChanges, Leftovers | record_agreement.dfy, spec_changes.dfy, leftovers.dfy | the record is true along runs; which spec changes are harmless; workers that stay |
| Convergence, Provisioning | convergence.dfy, provisioning.dfy | the cluster reaches its spec, from wherever faults left it and from creation |
| ClusterSafety, LostInventory, FailedWorkers | cluster_safety.dfy, lost_inventory.dfy, failed_workers.dfy | safety of whole runs; losing the inventory; failed workers |
| Deletion, AnsibleRuns, Playbooks | deletion.dfy, ansible_runs.dfy, playbooks.dfy | deletion finishes; what kubespray is told along runs: groups and playbooks |
| WorkerPods, Stores, Controller | worker_pods.dfy, stores.dfy, controller.dfy | many clusters in one store, and the controller class over it |
| StatusMerge, BackupControllers, RestoreTargets | same names | backup, restore, migrate |
| SharedIngress, ApplicationFleet, FleetClusters | same names | ingress, application fleet, fleet labels |

**Runs and faults.** A reconcile is a chain of API calls that stops at the first failing one. `Faults` fixes, per
reconcile, how many calls succeed, whether the failing call took effect although it reported an error, and
whether the deferred patch writes metadata and status. Lemmas about runs hold for all faults, all interleavings
of reconciles with worker outcomes, and (unless said otherwise) all spec changes. A fair run is one without failing
calls, worker failures and spec changes.
`World` adds to the stored state what is really installed, which the operator never sees: a succeeding worker
changes it by what its mounted inventory or its command line says.

**Method against function.** The source updates pods, configmaps and objects in place, so `Controller` is a class
whose methods do the same. Each is proved equal to the function of `CustomCluster` of the same name on its own
cluster, and to leave every other cluster alone; the run results are proved about those functions. `Register`
puts a new cluster into the controller's store, in the state in which its run begins.

## Main results

1. The record agrees with the machines in every state of every run whose spec changes are harmless, whatever calls
   fail (`RecordMatchesInstalled`). Harmless is a guard on what can be seen before the change: which workers and
   scale-up inventory are there, and the recorded, desired and new names and versions. It is exact: a change meets
   it if and only if the record stays true afterwards (`SpecChangeHarmlessIff`).
2. Once calls and workers succeed, a cluster reaches its spec from wherever faults left it, provisioning, half-finished
   steps and leftover workers included: in at most twelve changes, by each needed worker once and in order. There
   the names recorded and installed are the desired ones, the version is the desired one if it is supported from
   the recorded one, exactly those workers are there that were left over at the start, and the phase is Provisioned
   if anything had to be done (`FairRunConverges`, `RecoversFromFaults`). From creation it takes three changes
   (`CreationConverges`), and to any later spec nine more (`FromCreationToSpec`); both end Provisioned. For printed
   releases an upgrade is made iff the major versions are equal and the minor ones at most one apart
   (`FromReleaseToRelease`); a text that is no version is never upgraded from or to (`SupportedIff`).
3. Editing the inventory text is appending to a list (`ScaleUpRefinesAppend`, `ManyScaleUps`); printing and
   reading round-trip exactly when names identify nodes (`PrintReadRoundTrip`); rewriting the version line reads
   back and keeps every other line (`UpdateReadsBack`). In every state of every run that keeps the masters, each
   inventory makes exactly the masters the control plane and etcd, and its nodes are the workers that are read back
   (`KubesprayIsToldTheMasters`); each worker runs the playbook of its action (`WorkersDoWhatTheyAreTold`).
4. Phases never go back to provisioning and Unknown is absorbing (`PhasesMoveForward`); workers start for one reason only
   (`WorkersStartForAReason`); a scale-down never names a wanted host (`ScaleDownRemovesSurplus`); versions drift
   by one minor step per upgrade (`VersionDrift`); a released finalizer means that everything is gone
   (`FinalizerMeansGone`) and nothing is installed any more (`ReleasedMeansReset`); a failed worker halts its cluster
   (`FailedWorkerHalts`); the inventory is lost if and only if a reconcile meets one of two fault patterns
   (`ReconcileLosesIff`, `InventoryStaysIff`). Once calls and workers succeed, deletion releases the cluster within
   eight changes and with at most one terminate worker (`DeletionFinishes`), and it can finish at all if and only if
   that worker has succeeded or finds the configmaps it mounts (`DeletionFinishesIff`).
5. In any interleaving of any number of clusters each lives the run of its own events, so that all of the above
   holds of each (`ClustersRunAlone`); the controller class takes such steps
   (`Controller.CustomClusterController.Reconcile`).
6. Merging statuses through the string index is a map update, whatever the order (`MergeRefinesMapUpdate`,
   `OrderDoesNotMatter`), and the controllers report completion if and only if everything is completed
   (`CompletionIsSound`, `Restore.ReconcileRestore`, `Migrate.ReconcileMigrate`), on exactly the clusters that their
   destinations mean (`FetchIs`, `RestoreClustersIs`).
7. The shared ingress is a reference count for rollouts with distinct hosts, and a deletion is right exactly when
   no other live rollout has the host (`IngressCountsLive`, `DeleteCounts`). Each policy of an application is synced
   to its own destination, or else to the application's, and how a round ends is told exactly (`SyncPolicies`).
8. Fleet labels converge through any number of failed attempts (`AttemptsConverge`), and mark exactly the members
   iff no marked outsider shares a truncated name; an attempt succeeds if and only if every kind is known and as many
   calls go through as the difference in labels takes (`FleetManager.ReconcileClusters`).

## Where the code differs from what it says

- `pkg/cluster-operator/customcluster_upgrade.go:74` comments that a failed upgrade goes back to Provisioned and
  can be triggered again. The code sets Unknown, and from Unknown no reconcile does anything
  (`RemovalRetriesIff`, `PhasesMoveForward`).
- An existing worker pod or scale-up inventory is reused whatever it was made for. So a spec change while a worker
  runs makes the record wrong unless it is harmless, without any failing call (`ScaleUpOvertakenIff`,
  `ScaleDownOvertakenIff`, `UpgradeOvertakenIff`, `RecordCanDeviate`). A worker of any of the three kinds that was
  recorded but not removed stays as long as the spec does (`LeftoverStays`), and is then taken for the answer to the
  next spec that calls for its kind.
- A cluster at its spec does not always show Provisioned. A reconcile with nothing to do sets no phase, so when the
  status patch of the reconcile that records the last worker is lost, the cluster shows ScalingUp, ScalingDown or
  Upgrading until the spec changes (`LostStatusStays`, `PhaseCanLag`). A fair run ends Provisioned if and only if
  something was to be done at its start or the phase was Provisioned already (`EndsProvisionedIff`).
- `recreateClusterHosts` deletes before it creates. If the create fails, or the delete reports an error although it
  took effect, no reconcile changes anything any more (`ReconcileLosesIff`, `StrandedForever`,
  `InventoryCanBeLost`). Such a cluster cannot be deleted either: its terminate worker has no inventory to mount, so
  its finalizer stays in every run (`StrandedNeverReleased`, `DeletionFinishesIff`).
- `pkg/cluster-operator/customcluster_controller.go:418` says that deletion removes all worker pods. It never removes
  an upgrade worker, which may run beside the terminate worker and after it (`UpgradeOutlivesDeletion`).
- `pkg/fleet-manager/backup/shared.go:242` calls the names of velero objects unique. On one cluster a name is if and
  only if neither the namespace nor the name of its creator has a dash (`VeleroNameUniqueIff`).
- `syncVeleroRestoreStatus` returns nil when one restore object cannot be read, and its callers store that nil: all
  details are lost (`LosesNothingIff`). The backup controller keeps them (`PartialMergeKeeps`).
- The guard at the start of the restore stage of a Migrate never leaves BackupInProgress, so the phase
  RestoreInProgress appears only after Finished (`RestorePhaseOnlyAfterFinished`).
- `pkg/fleet-manager/backup/migrate_controller.go:121` says that admission ensures one source cluster; there is no
  webhook for Migrates. With several, the backup stage takes whichever the map yields last while the restore stage
  refers to the first one listed; whatever the map yields these are the same backup if and only if all listed
  clusters have one name (`SameBackupIff`). With none listed, the backup stage takes some ready member of the fleet
  and panics only if there is none (`Migrate.ReconcileMigrateBackup`), and the restore stage panics
  (`Migrate.ReconcileMigrateRestore`).
- `pkg/webhooks/application_webhook.go:75` asks that every policy names a fleet when there is no default. The code
  also accepts applications where nobody does (`ValidateFleet`).
- Ingress rules are removed by host and label entries by service (`DeleteCounts`), and every sync appends its rule
  again (`RulesPileUp`).
- A deleted fleet removes its label only from the clusters its spec names at that time (`DeleteClearsIff`).

## Assumptions

- Reads see the latest writes, one reconcile at a time runs per object, pods and configmaps disappear when
  deleted, and a worker succeeds only while the configmaps it mounts exist. Only failed workers are removed by hand.
- Host names and addresses are plain (no blanks, quotes, commas, `[`, or the field names of an inventory row) and
  host names are unique. The machine webhook checks counts and addresses only. The rest of `cluster-config`, an
  abstract string, contains no second `kube_version: `.
- Names of Kubernetes objects have no upper-case letters and are not empty; cluster kinds start with one.
- Objects returned by get and list carry their kind, which the Karmada name is built from.

## Model

| member | source | states |
|---|---|---|
| `Text.SplitJoin` | pkg/fleet-manager/application/rollout_helper.go:508 | Splitting at a character undoes joining by it, for all pieces free of it |
| `Inventory.EntryReads` | pkg/cluster-operator/customcluster_scale.go:336-351 | A printed inventory row reads back as the very node it was printed from |
| `Inventory.ReadLayout` | pkg/cluster-operator/customcluster_scale.go:295-334 | On every well-formed inventory the reader finds its two sections by header and does not panic |
| `Inventory.EditLayout` | pkg/cluster-operator/customcluster_scale.go:277-292 | Splitting at headers and re-joining extends exactly the bodies of `[all]` and `[kube_node]` and moves no other byte |
| `Inventory.TrimKeepsRecord` | pkg/cluster-operator/customcluster_scale.go:156-179 | The trimmed copy stored for a scale-up worker is well-formed and records the same nodes |
| `Inventory.ScaleUpRefinesAppend` | pkg/cluster-operator/customcluster_scale.go:277-292 | For new plain nodes, the edited text reads as the old list followed by the new nodes and can be edited again |
| `Inventory.PrintReadRoundTrip` | pkg/cluster-operator/customcluster_clusterhosts.template:1-18 | The rendered template is well-formed, keeps the worker names in order, and reads back as the workers iff equal names mean equal nodes |
| `Inventory.NoMasterAmongWorkers` | pkg/cluster-operator/customcluster_helper.go:176-204 | No master is read back as a worker iff the two groups share no name |
| `Inventory.ManyScaleUps` | pkg/cluster-operator/customcluster_scale.go:258-274 | After printing and any number of scale-ups the record is the workers followed by all batches in order |
| `InventoryLoops.GetHostsContent` | pkg/cluster-operator/customcluster_helper.go:176-204 | The index loops over four slices give, index by index, the masters' names as control plane and as etcd, the workers' names as nodes, and a row with name and both addresses per master and per worker |
| `InventoryLoops.GetWorkerNodeInfoFromClusterHosts` | pkg/cluster-operator/customcluster_scale.go:295-334 | The reading loops compute the specified list, with the panics on malformed rows as `None` |
| `InventoryLoops.GetScaleUpConfigMapData` | pkg/cluster-operator/customcluster_scale.go:277-292 | The string-building loop produces the specified edit |
| `InventoryGroups.RenderedGroups` | pkg/cluster-operator/customcluster_clusterhosts.template:1-18 | The printed inventory has its headers on lines of their own and lists, group by group, all hosts, the masters, the masters, the workers and the two children |
| `InventoryGroups.ScaleUpGrowsGroups` | pkg/cluster-operator/customcluster_scale.go:277-292 | Adding nodes appends their rows to `[all]` and their names to `[kube_node]` and leaves the other three groups as they are |
| `InventoryGroups.GroupsAfterScaleUps` | pkg/cluster-operator/customcluster_scale.go:258-292 | Read line by line as Ansible does, after printing and any number of scale-ups: `[all]` is one row per master, worker and added node, `[kube_control_plane]` and `[etcd]` are exactly the masters in order, `[kube_node]` the workers and all batches, the children the two groups |
| `InventoryGroups.RecordIsNodes` | pkg/cluster-operator/customcluster_scale.go:295-334 | The workers that the operator reads back are the group that Ansible takes for nodes, in order |
| `WorkerNodes.AdditionalNames` | pkg/cluster-operator/customcluster_scale.go:205-227 | The additional nodes have exactly the names of the difference of the two name sets; none iff included |
| `WorkerNodes.AdditionalKeeps` | pkg/cluster-operator/customcluster_scale.go:205-227 | They come from the second list, keep its distinctness and never use a known name |
| `WorkerNodes.FindAdditionalWorkerNodes` | pkg/cluster-operator/customcluster_scale.go:205-227 | The map-and-loop code computes that difference, its two early returns included |
| `WorkerNodes.ScaleDownCmdRoundTrip` | pkg/cluster-operator/customcluster_scale.go:241-255 | The hosts kubespray reads from the quoted argument are exactly the nodes the command was made for, in order |
| `WorkerNodes.GenerateScaleDownManageCMD` | pkg/cluster-operator/customcluster_scale.go:241-255 | The loop builds that command, and nothing for no node |
| `WorkerNodes.UpgradeCmdRoundTrip` | pkg/cluster-operator/customcluster_upgrade.go:87-95 | An upgrade command installs the version it was made for, with or without its leading `v` |
| `KubeVersion.UpdateReadsBack` | pkg/cluster-operator/customcluster_upgrade.go:174-182 | Rewriting the version reads back as the new one, leaves a canonical file, and changes no other line |
| `KubeVersion.UpdateKeepsCanonical` | pkg/cluster-operator/customcluster_upgrade.go:156-171 | Any canonical file stays canonical under a rewrite and reads as the new version, so upgrades can follow each other |
| `KubeVersion.RenderConfigCanonical` | pkg/cluster-operator/customcluster_helper.go:256-269 | A new configuration is canonical and reads as the requested version |
| `KubeVersion.RenderedSettings` | pkg/cluster-operator/customcluster_helper.go:256-269 | The lines of a new configuration are the version line and then all lines of the settings |
| `KubeVersion.GetKubeVersionFromCM` | pkg/cluster-operator/customcluster_upgrade.go:185-198 | The line loop returns the value of the first version line, or the empty string |
| `KubeVersion.EmptyVersionUnsupported` | pkg/cluster-operator/customcluster_upgrade.go:128-153 | Nothing can be upgraded from the empty version, which stands for "not recorded"; special case of the next rows |
| `Releases.ReadsMeaning` | pkg/cluster-operator/customcluster_upgrade.go:129-140 | An optional `v`, three numerals below 2^63 and any pre-release or build read as the three values |
| `Releases.OnlyVersionsRead` | pkg/cluster-operator/customcluster_upgrade.go:129-140 | Nothing else reads as a version |
| `Releases.SupportedIff` | pkg/cluster-operator/customcluster_upgrade.go:128-153 | An upgrade is supported between two texts iff both are versions, of one major version, with minor versions at most one apart |
| `Releases.ReleasesSupportedIff` | pkg/cluster-operator/customcluster_upgrade.go:142-152 | The same for printed releases, with or without the `v`: for all numbers below 2^63, iff equal major and at most one minor apart |
| `CustomCluster.EnsureWorkerCreated` | pkg/cluster-operator/customcluster_helper.go:408-426 | An existing worker is returned untouched whatever its command; else at most one write, of a new running worker, also if a call fails |
| `CustomCluster.EnsureMapDeleted` | pkg/cluster-operator/customcluster_helper.go:369-387 | The map is either untouched or gone, and gone on success |
| `CustomCluster.EnsureScaleUpHostsCreated` | pkg/cluster-operator/customcluster_scale.go:182-192 | An existing scale-up inventory is kept; an unreadable one stops the reconcile without a write |
| `CustomCluster.RecreateClusterHosts` | pkg/cluster-operator/customcluster_helper.go:226-232 | Success means the freshly rendered inventory; failure may also leave none at all |
| `CustomCluster.GetProvisionedClusterInfo` | pkg/cluster-operator/customcluster_helper.go:315-340 | Reads only, and returns exactly what the two configmaps record |
| `Agreement.HarmlessFits` | pkg/cluster-operator/customcluster_helper.go:343-426 | On sets of names: the guard of a change, per worker and inventory that is about, holds iff what is installed and what every worker works towards still fit the new spec |
| `RecordAgreement.ReconcileKeeps` | pkg/cluster-operator/customcluster_controller.go:146-313 | Every reconcile, with any fault, keeps the agreement of record, desired and installed state |
| `RecordAgreement.SuccessKeeps` | pkg/cluster-operator/customcluster_scale.go:38-153 | The success of any worker keeps that agreement; its effect comes from the inventory or command it was started with |
| `RecordAgreement.ChangeInStep` | pkg/cluster-operator/customcluster_helper.go:343-426 | A spec change keeps that agreement iff it is harmless |
| `RecordAgreement.RunKeeps` | pkg/cluster-operator/customcluster_controller.go:146-313 | Every run without deletion keeps the invariant: its sound part for any spec changes, its agreement part for harmless ones |
| `RecordAgreement.RecordMatchesInstalled` | pkg/cluster-operator/customcluster_scale.go:38-153 | In every state of a run with harmless spec changes: the inventory is readable and names exactly the installed hosts, except between a worker's success and its recording, when the union or the desired set is installed; likewise the version |
| `SpecChanges.NextRecordIs` | pkg/cluster-operator/customcluster_controller.go:258-313 | What the record is expected to mean is what the next fault-free reconcile records, of names and of version |
| `SpecChanges.HarmlessStaysTrue` | pkg/cluster-operator/customcluster_helper.go:343-426 | After a harmless change the record stays true under all faults until the spec changes again |
| `SpecChanges.HarmfulGoesWrong` | pkg/cluster-operator/customcluster_helper.go:408-426 | After any other change at most four events, none with a failing call, make it wrong |
| `SpecChanges.SpecChangeHarmlessIff` | pkg/cluster-operator/customcluster_helper.go:343-426 | A change is harmless iff the record is true in every state of every run in which the spec then stays |
| `SpecChanges.ScaleUpOvertakenIff` | pkg/cluster-operator/customcluster_scale.go:38-99 | Change, success of the running scale-up, reconcile: the old hosts are installed, the new ones recorded; equal iff the same hosts were missing |
| `SpecChanges.ScaleDownOvertakenIff` | pkg/cluster-operator/customcluster_scale.go:102-153 | Change, success of the running scale-down, reconcile: the record is true iff the desired hosts are the same |
| `SpecChanges.UpgradeOvertakenIff` | pkg/cluster-operator/customcluster_upgrade.go:34-84 | Change, success of the running upgrade, reconcile: the record is true iff what it will record now is what the worker was started for |
| `Leftovers.LeftoverStays` | pkg/cluster-operator/customcluster_controller.go:258-313 | A succeeded scale-up, scale-down or upgrade worker that nothing calls for stays, and nothing ever calls for it, along every run in which the spec stays, from every sound state past provisioning, Unknown and a lost inventory included, with any faults and any fate of other workers |
| `Leftovers.ReconcileRewrites` | pkg/cluster-operator/customcluster_controller.go:258-313 | Under any fault a reconcile past provisioning leaves the inventory as it was, grown by the missing nodes, rendered from the spec or gone, leaves the configuration unless it upgrades, and touches no worker but that of its one step |
| `Leftovers.RecordedBeforeRemoved` | pkg/cluster-operator/customcluster_scale.go:62-84 | Under any fault a reconcile removes a worker only when it has succeeded and its result is recorded, and a scale-up worker only after its inventory is gone |
| `ClusterSafety.ReconcileSteps` | pkg/cluster-operator/customcluster_controller.go:258-376 | One reconcile touches one action's worker and configmaps, moves the phase and the version in one of the allowed ways, and nothing else |
| `ClusterSafety.MetadataLost` | pkg/cluster-operator/customcluster_controller.go:222-240 | A reconcile whose metadata patch alone is lost does everything else and leaves the stored finalizer |
| `ClusterSafety.PhasesMoveForward` | pkg/cluster-operator/customcluster_controller.go:258-313 | Over all runs without deletion: never back to provisioning, and Unknown changes nothing any more |
| `ClusterSafety.WorkersStartForAReason` | pkg/cluster-operator/customcluster_controller.go:258-376 | A worker starts only for the first difference in the order nodes to add, nodes to remove, version, with the command for exactly that difference |
| `ClusterSafety.ScaleDownRemovesSurplus` | pkg/cluster-operator/customcluster_scale.go:102-153 | In every reachable state a new scale-down command names exactly the recorded hosts not desired, never a wanted one, and only when all desired hosts are recorded |
| `ClusterSafety.VersionDrift` | pkg/cluster-operator/customcluster_upgrade.go:128-171 | Over all runs the major version never changes, n upgrades move the minor version by at most n, an unparsable version never changes |
| `ClusterSafety.DeleteSteps` | pkg/cluster-operator/customcluster_controller.go:379-480 | A reconcile under deletion only removes, starts at most the terminate worker, and releases in order, with any fault |
| `ClusterSafety.TerminateStartsAlone` | pkg/cluster-operator/customcluster_controller.go:379-441 | The terminate worker starts only under deletion and when no init or scaling worker is left |
| `ClusterSafety.FinalizerMeansGone` | pkg/cluster-operator/customcluster_controller.go:379-480 | When the finalizer goes, a terminate worker has succeeded and both configmaps are gone, and they stay gone in every continuation |
| `Deletion.DeleteReconcile` | pkg/cluster-operator/customcluster_controller.go:379-480 | A fault-free reconcile under deletion removes init and scaling workers and then starts the terminate worker, waits for it, shows Unknown if it failed, or removes both configmaps and the finalizer |
| `Deletion.DeletionFinishes` | pkg/cluster-operator/customcluster_controller.go:379-480 | From every state under deletion without a failed terminate worker that can mount its configmaps: every fair run makes at most eight changes, starts at most one terminate worker, is released after the last and can go on until then |
| `Deletion.DeletionFinishesIff` | pkg/cluster-operator/customcluster_controller.go:387-405 | Some run releases a cluster under deletion iff its terminate worker has succeeded or both configmaps it mounts are there |
| `Deletion.StrandedNeverReleased` | pkg/cluster-operator/customcluster_controller.go:387-405 | A cluster without inventory keeps its finalizer in every run, deletion included |
| `Deletion.FailedTerminateHalts` | pkg/cluster-operator/customcluster_controller.go:406-413 | With a failed terminate worker any number of reconciles with any faults removes no configmap and keeps the finalizer, and a last one that gets through shows Unknown |
| `Deletion.UpgradeOutlivesDeletion` | pkg/cluster-operator/customcluster_controller.go:418-441 | Over every run under deletion an upgrade worker stays unless it failed and was removed by hand |
| `Deletion.ReleasedMeansReset` | pkg/cluster-operator/customcluster_controller.go:379-441 | Over every run from creation with everything that can happen, nothing is installed any more when the finalizer is taken away |
| `AnsibleRuns.ReconcileFromSpec` | pkg/cluster-operator/customcluster_controller.go:258-376 | Under any fault each inventory after a reconcile is the one before, the one printed from the spec, or the recorded one with exactly the missing nodes added |
| `AnsibleRuns.KubesprayIsToldTheMasters` | pkg/cluster-operator/customcluster_helper.go:176-204 | In every state of every run from creation that keeps the masters: each inventory a worker may mount makes exactly the masters the control plane and etcd, and its nodes are the workers that are read back |
| `Playbooks.WorkersDoWhatTheyAreTold` | pkg/cluster-operator/customcluster_controller.go:77-95 | In every state of every run each worker's command runs the playbook of its action, and its success changes what that playbook does with the mounted text |
| `LostInventory.ReconcileLosesIff` | pkg/cluster-operator/customcluster_helper.go:226-232 | A reconcile past provisioning loses the inventory iff a succeeded scale-down is to be recorded and the delete is the last call that takes effect, reported as failed or followed by a failing create |
| `LostInventory.InventoryStaysIff` | pkg/cluster-operator/customcluster_helper.go:226-232 | Along any run without deletion the inventory stays iff no reconcile meets that guard |
| `LostInventory.StrandedForever` | pkg/cluster-operator/customcluster_helper.go:315-340 | For a provisioned cluster without inventory, over every run without deletion, no configmap changes and no worker ever starts |
| `Stages.StepAdvances` | pkg/cluster-operator/customcluster_controller.go:258-376 | On the abstract machine: a fault-free reconcile changes nothing or lowers the rank, carries the plan out from its front, leaves no worker over that was not left over before, and keeps the phase to end in |
| `Convergence.ReconcileMoves` | pkg/cluster-operator/customcluster_controller.go:258-376 | The real reconcile refines that machine from every agreeing state without failed worker, lost inventory or Unknown phase |
| `Convergence.FairRunConserves` | pkg/cluster-operator/customcluster_controller.go:258-376 | Along every fair run started and remaining workers make up one plan, every change lowers the rank, leftovers stay, the recorded names go from old through union to desired, and the phase and the version to end with, as the start determines them, stay the same |
| `Convergence.NeverStuck` | pkg/cluster-operator/customcluster_controller.go:258-376 | A cluster not at its spec can always move; one at its spec is a fixed point |
| `Convergence.FairRunConverges` | pkg/cluster-operator/customcluster_controller.go:258-376 | From every such state, in or past provisioning and with whatever was left over: at most twelve changes to recorded = installed = desired names, each worker of the plan started once and in order, and exactly the leftovers of the start still there; the recorded version is then the desired one if supported from the one recorded at the start, else that one, and the phase Provisioned if anything was to be done, else unchanged |
| `Convergence.EndsProvisionedIff` | pkg/cluster-operator/customcluster_controller.go:258-313 | A fair run that reaches its spec shows Provisioned iff at its start something was to be done or the phase was Provisioned |
| `Convergence.LostStatusStays` | pkg/cluster-operator/customcluster_controller.go:222-313 | If all that is left is to record one worker and the status patch of that reconcile is lost, the cluster is at its spec and shows the phase of the running worker after every fair continuation |
| `Convergence.RecoversFromFaults` | pkg/cluster-operator/customcluster_controller.go:146-313 | In particular from every state that faults and harmless changes can lead to since creation |
| `FailedWorkers.FailedWorkerHalts` | pkg/cluster-operator/customcluster_upgrade.go:34-84 | While the worker of the next step has failed, any number of reconciles with any faults touches no configmap and no worker, and one that gets through shows Provisioned for scaling, Unknown for an upgrade |
| `FailedWorkers.RemovalRetriesIff` | pkg/cluster-operator/customcluster_upgrade.go:74-80 | Removing the failed pod of a halted cluster makes the next reconcile start a new worker iff it was not an upgrade; after a failed upgrade no reconcile does anything |
| `FailedWorkers.FailedInitHalts` | pkg/cluster-operator/customcluster_controller.go:316-376 | With a failed init worker any number of reconciles with any faults changes nothing but phase and finalizer, and one that gets through shows ProvisionFailed for good |
| `FailedWorkers.RemovalRetriesInit` | pkg/cluster-operator/customcluster_controller.go:316-376 | Once that pod is removed the next reconcile is provisioning again, with a new init worker and the configmaps as they were |
| `Provisioning.ProvisioningSucceeds` | pkg/cluster-operator/customcluster_controller.go:316-376 | From every new cluster exactly these three events, a fault-free reconcile, the init worker's success, another reconcile, end Provisioned with recorded = desired = installed names and the requested version recorded |
| `Provisioning.CreationConverges` | pkg/cluster-operator/customcluster_controller.go:316-376 | Every fair run from creation, the init worker's success included, makes at most three changes, starts only the init worker, and is at its spec after the third: Provisioned, with the desired names and version recorded |
| `Provisioning.FromCreationToSpec` | pkg/cluster-operator/customcluster_controller.go:258-376 | After every such run any spec change is harmless, and every fair run then reaches it within nine changes, with one worker per kind of difference between the two specs, in order; it ends Provisioned, without scaling or upgrade workers, with the new hosts recorded and installed, and with the new version iff it is supported from the first one |
| `Provisioning.FromReleaseToRelease` | pkg/cluster-operator/customcluster_upgrade.go:128-153 | The same for printed releases: an upgrade worker is planned, and the new version recorded and installed in the end, iff the major versions are equal and the minor ones at most one apart |
| `Provisioning.RecordCanDeviate` | pkg/cluster-operator/customcluster_scale.go:38-99 | Eight given events from creation, none with a failing call, for any two changes of which the first brings hosts and the second has other hosts missing: the record differs from what is installed, outside every window |
| `Provisioning.InventoryCanBeLost` | pkg/cluster-operator/customcluster_helper.go:226-232 | Seven given events from creation, only the last with a failing call, for any change that only removes hosts: the inventory is lost, and so it is in every continuation without deletion |
| `Provisioning.PhaseCanLag` | pkg/cluster-operator/customcluster_scale.go:38-99 | Seven given events from creation, only a status patch of the last lost, for any change that only adds hosts: the cluster is at its spec and shows ScalingUp after every fair continuation |
| `WorkerPods.CreatedPod` | pkg/cluster-operator/customcluster_helper.go:408-426 | Creating where none was found adds one worker to its owner and leaves all other pods as they were |
| `WorkerPods.DeletedPod` | pkg/cluster-operator/customcluster_helper.go:390-405 | Deleting the found pod removes that worker and nobody else's |
| `WorkerPods.ChangedPod` | pkg/cluster-operator/customcluster_helper.go:429-449 | When a worker's status changes its owner finds it so, and nobody else's pods are concerned |
| `WorkerPods.MapKeysDistinct` | pkg/cluster-operator/customcluster_helper.go:271-291 | No two configmaps of any two clusters share a name |
| `Stores.StepIsLocal` | pkg/cluster-operator/customcluster_helper.go:429-449 | An event of one cluster changes no other cluster's view of pods, configmaps and object |
| `Stores.FinishedSteps` | pkg/cluster-operator/customcluster_helper.go:429-449 | A pod that succeeds or fails in the shared list is that event of its owner alone |
| `Stores.ClustersRunAlone` | pkg/cluster-operator/customcluster_controller.go:146-255 | In any interleaving of the events of any clusters, each cluster's view is that of the run of its own events, and none ever has two workers of a kind |
| `Stores.EveryRecordIsTrue` | pkg/cluster-operator/customcluster_controller.go:146-255 | So every cluster whose own spec changes are harmless has a true record, whatever the others do |
| `Controller.CustomClusterController.Register` | pkg/cluster-operator/customcluster_controller.go:150-164 | A new object with an unused UID enters the store with no phase and no worker, and no other cluster's view changes |
| `Controller.CustomClusterController.FindManageWorkerPod` | pkg/cluster-operator/customcluster_helper.go:429-449 | The loop over labelled pods finds this owner's worker iff it has one |
| `Controller.CustomClusterController.EnsureWorkerPodCreated` | pkg/cluster-operator/customcluster_helper.go:408-426 | In place, it does to its cluster what the specification says and nothing to others |
| `Controller.CustomClusterController.EnsureWorkerPodDeleted` | pkg/cluster-operator/customcluster_helper.go:390-405 | In place, the found pod of this owner is removed, as specified under every fault, and no other pod |
| `Controller.CustomClusterController.EnsureConfigMapDeleted` | pkg/cluster-operator/customcluster_helper.go:369-387 | In place, the configmap goes after the update of its finalizer, as specified under every fault, and no other configmap |
| `Controller.CustomClusterController.ReconcileScaleUp` | pkg/cluster-operator/customcluster_scale.go:38-99 | Refines the scale-up step under every fault, locally |
| `Controller.CustomClusterController.ReconcileScaleDown` | pkg/cluster-operator/customcluster_scale.go:102-153 | Refines the scale-down step under every fault, locally |
| `Controller.CustomClusterController.ReconcileUpgrade` | pkg/cluster-operator/customcluster_upgrade.go:34-84 | Refines the upgrade step under every fault, locally |
| `Controller.CustomClusterController.ReconcileProvision` | pkg/cluster-operator/customcluster_controller.go:316-376 | Refines provisioning under every fault, locally |
| `Controller.CustomClusterController.ReconcileNormal` | pkg/cluster-operator/customcluster_controller.go:258-313 | Refines the dispatcher, the difference loops included |
| `Controller.CustomClusterController.ReconcileDelete` | pkg/cluster-operator/customcluster_controller.go:379-416 | Refines deletion, whose finishing is proved above, under every fault and locally |
| `Controller.CustomClusterController.Reconcile` | pkg/cluster-operator/customcluster_controller.go:146-255 | A whole reconcile with its deferred patch equals the specified state change of its cluster, leaves pods, configmaps and objects of all others unchanged, and so is a step of such an interleaving |
| `Controller.CustomClusterController.ReconcileIsLocal` | pkg/cluster-operator/customcluster_controller.go:146-255 | No other cluster's view changes |
| `StatusMerge.IndexKeysInjective` | pkg/fleet-manager/backup/shared.go:243-245 | The concatenated index strings of one creator are distinct for distinct clusters, kinds included |
| `StatusMerge.VeleroNameUniqueIff` | pkg/fleet-manager/backup/shared.go:242-245 | On one cluster no other creator of any dash-free kind gets the same velero name iff namespace and name have no dash |
| `StatusMerge.MergeRefinesMapUpdate` | pkg/fleet-manager/backup/shared.go:422-460 | Merging succeeds iff every destination was read, and then is a map update with one detail per cluster |
| `StatusMerge.OrderDoesNotMatter` | pkg/fleet-manager/backup/shared.go:422-460 | The random order of Go maps does not show in the result |
| `StatusMerge.MergeIsIdempotent` | pkg/fleet-manager/backup/shared.go:422-460 | Merging the same observations again, in any order, changes nothing at all |
| `StatusMerge.CompletionIsSound` | pkg/fleet-manager/backup/shared.go:411-418 | All details are completed iff every destination was observed completed by this merge and every older detail was |
| `StatusMerge.LosesNothingIff` | pkg/fleet-manager/backup/restore_controller.go:87-129 | A sync keeps every detail iff every destination was read, or there was none |
| `StatusMerge.RunsRecordLatest` | pkg/fleet-manager/backup/shared.go:422-460 | After any sequence of syncs the details are the latest observation of every cluster since the last failure |
| `StatusMerge.PartialMergeKeeps` | pkg/fleet-manager/backup/backup_controller.go:168-207 | A merge that stops half-way still lists every cluster, once |
| `StatusMerge.RestorePhaseOnlyAfterFinished` | pkg/fleet-manager/backup/migrate_controller.go:166-234 | Over all runs a Migrate is in RestoreInProgress or Finished iff some round finished it |
| `BackupControllers.BuildStatusMap` | pkg/fleet-manager/backup/shared.go:422-460 | The map of pointers holds, per key, the last detail with it |
| `BackupControllers.MergeStatus` | pkg/fleet-manager/backup/shared.go:422-460 | Updating through the pointers of the index gives the specified list and touches no other object |
| `BackupControllers.AllDetailsCompleted` | pkg/fleet-manager/backup/shared.go:167-174 | True iff every detail has a status and is completed |
| `BackupControllers.MergeInAnyOrder` | pkg/fleet-manager/backup/shared.go:422-460 | Whatever order the map of destinations yields: success iff every object is read, then a map update, and completion iff every destination and every older detail is completed |
| `BackupControllers.Backup.ReconcileOneTimeBackupStatus` | pkg/fleet-manager/backup/backup_controller.go:168-207 | Done iff every destination's backup is there and completed and so is every older detail; no detail is ever lost |
| `BackupControllers.SyncAndDecide` | pkg/fleet-manager/backup/shared.go:411-460 | Done iff completed, error iff unreadable, and then nothing is stored |
| `BackupControllers.Restore.ReconcileRestore` | pkg/fleet-manager/backup/restore_controller.go:87-129 | End to end: whatever is applied lies in the backup's destination, on a ready cluster, with the right backup; stopped iff there is nothing to restore from; done iff everything went through and is completed; error iff the targets cannot be fetched, one does not take its restore or one cannot be read; details are touched iff every target took its restore, and then merged or, on an unreadable one, lost |
| `BackupControllers.Migrate.ReconcileMigrateBackup` | pkg/fleet-manager/backup/migrate_controller.go:110-163 | What is recorded is this Migrate's own backup on a fetched cluster, a ready and, if any is, named member of the source fleet; panics iff nothing is fetched |
| `BackupControllers.SameBackupIff` | pkg/fleet-manager/backup/migrate_controller.go:110-183 | The two stages mean the same backup, whichever of the listed clusters is taken, iff these all have one name |
| `BackupControllers.Migrate.ReconcileMigrateRestore` | pkg/fleet-manager/backup/migrate_controller.go:166-234 | Done and Finished iff every target has the referred backup, accepts its restore and has it completed, and every older detail too; details are touched iff every target has the backup and takes its restore, and then merged or, on an unreadable one, lost |
| `BackupControllers.Migrate.ReconcileMigrate` | pkg/fleet-manager/backup/migrate_controller.go:88-107 | Both stages together: done iff the source passed and the restores are done, every other reply is told from the observations, up to the order in which targets are met, and the phase moves by them |
| `RestoreTargets.BuildFleetClusters` | pkg/fleet-manager/fleet_cluster.go:46-75 | Exactly the ready members, or an error if one cannot be reached |
| `RestoreTargets.ReadyIsReady` | pkg/fleet-manager/fleet_cluster.go:46-75 | A key is returned iff some member with it is ready |
| `RestoreTargets.FetchDestinationClusters` | pkg/fleet-manager/backup/shared.go:64-102 | Succeeds iff the fleet is there, no member blocks and every named cluster is a ready member; gives exactly the named clusters, or exactly the ready members if none is named |
| `RestoreTargets.FetchIs` | pkg/fleet-manager/backup/shared.go:64-102 | The same of the specification function that the controllers' contracts name |
| `RestoreTargets.IsFleetClusterSubset` | pkg/fleet-manager/backup/shared.go:369-376 | True iff one key set is contained in the other |
| `RestoreTargets.FetchRestoreDestinationClusters` | pkg/fleet-manager/backup/shared.go:326-366 | Two fetches and the subset check, with all their errors; the targets are exactly those the Restore's own destination means, or else the backup's |
| `RestoreTargets.RestoreClustersIs` | pkg/fleet-manager/backup/shared.go:326-366 | Succeeds iff the backup's destination can be fetched and the Restore's own, if any, too, is of the same fleet and means no other cluster |
| `RestoreTargets.RestoreWithinBackup` | pkg/fleet-manager/backup/shared.go:326-366 | Every restore target was a destination of the backup, is ready, and was named if names were given |
| `RestoreTargets.MostRecentCompletedBackup` | pkg/fleet-manager/backup/shared.go:249-268 | A completed backup that no completed one started after, iff there is one, for any sorted permutation |
| `RestoreTargets.GetBackupForRestore` | pkg/fleet-manager/backup/restore_controller.go:201-228 | The name restored from is the generated one, or for a schedule that of the most recent completed backup |
| `RestoreTargets.FetchedAreReady` | pkg/fleet-manager/backup/shared.go:64-102 | Whatever is fetched is a ready member of the fleet, and named if any is |
| `RestoreTargets.ReconcileRestoreResources` | pkg/fleet-manager/backup/restore_controller.go:134-167 | One target without backup iff nothing to restore, and then nothing is applied anywhere; else exactly the accepting targets get the right backup |
| `SharedIngress.UnsortedList` | pkg/fleet-manager/application/rollout_helper.go:484-501 | Every element once, in no particular order |
| `SharedIngress.Namespace.SyncRollout` | pkg/fleet-manager/application/rollout_helper.go:504-538 | In place, one step of the specified sync, for some order of the label |
| `SharedIngress.Namespace.DeleteRollout` | pkg/fleet-manager/application/rollout_helper.go:452-482 | In place, one step of the specified delete, for some order of the label |
| `SharedIngress.KeepOtherHosts` | pkg/fleet-manager/application/rollout_helper.go:484-490 | The rule loop keeps the rules of other hosts, in order |
| `SharedIngress.SyncCounts` | pkg/fleet-manager/application/rollout_helper.go:504-538 | A sync adds its rollout to the count and no other |
| `SharedIngress.DeleteCounts` | pkg/fleet-manager/application/rollout_helper.go:452-501 | A delete takes exactly its rollout out of the count iff no other live rollout has its host |
| `SharedIngress.IngressCountsLive` | pkg/fleet-manager/application/rollout_helper.go:452-538 | Over all runs with distinct hosts: the ingress exists iff a rollout is live, its label lists exactly the live services, its rules are exactly theirs |
| `SharedIngress.SyncAdds` | pkg/fleet-manager/application/rollout_helper.go:452-538 | A sync of any ingress, absent or without a label too, adds the service to the label and appends the rule |
| `SharedIngress.RulesPileUp` | pkg/fleet-manager/application/rollout_helper.go:452-538 | Over the same runs the rule of a rollout stands in the ingress as often as it was synced since its last delete |
| `SharedIngress.ForeignStays` | pkg/fleet-manager/application/rollout_helper.go:452-538 | A delete changes an ingress iff it is annotated and lists the service |
| `ApplicationFleet.CheckDefault` | pkg/webhooks/application_webhook.go:86-92 | With a default, reports exactly the policies that name another fleet |
| `ApplicationFleet.CheckFirst` | pkg/webhooks/application_webhook.go:95-118 | Without, reports exactly the policies that differ from the first set one, and an unset one iff another is set |
| `ApplicationFleet.ValidateFleet` | pkg/webhooks/application_webhook.go:77-121 | No error iff one fleet serves the application throughout |
| `ApplicationFleet.SyncPolicies` | pkg/fleet-manager/application/controller.go:137-198 | A missing destination is dereferenced iff the first policy names a fleet that is there, the application has no destination, and the loop reaches a policy without one; never in an accepted application, where every policy goes to the one fleet that was fetched. Each policy that is reached is given its own destination, fleet and selector, or else the application's; the one way in which the round ends is told from the fields, the fleets and the outcomes |
| `ApplicationFleet.OneEnd` | pkg/fleet-manager/application/controller.go:137-198 | These conditions exclude each other |
| `FleetClusters.FittingNamesDistinct` | pkg/fleet-manager/clusters.go:296-305 | Names that are not truncated never collide, across kinds too |
| `FleetClusters.UniqueNameIff` | pkg/fleet-manager/clusters.go:296-305 | A Karmada name can belong to no other cluster iff it is shorter than 63 |
| `FleetClusters.FleetManager.LabelMembers` | pkg/fleet-manager/clusters.go:68-101 | The first loop labels the existing members, collects their names, and counts every entry as ready or unready; it succeeds iff every kind is known and the calls cover a read per entry and an update per cluster that joins, and otherwise has labelled some of the members |
| `FleetClusters.FleetManager.UnlabelOthers` | pkg/fleet-manager/clusters.go:160-180 | The last loop takes the label from the marked clusters that no member's name covers; it succeeds iff the calls cover an update, with a control plane also an unjoin, for each of them |
| `FleetClusters.FleetManager.ReconcileClusters` | pkg/fleet-manager/clusters.go:56-183 | Success gives the label to every cluster that the spec names, where no kind means Cluster, to no other, and takes from the others at most the fleet's own, so that it marks exactly the existing members iff no marked outsider shares a Karmada name with one; failure leaves each cluster as it was or at its goal; ready and unready add up to the spec; success iff every kind is known and the calls cover the reads, joins, lists and exactly the labels that differ |
| `FleetClusters.FleetManager.ReconcileClustersOnDelete` | pkg/fleet-manager/clusters.go:185-212 | Success takes the label from every member and changes nothing else, and comes iff every kind is known and the calls cover a read per entry and an update per marked member; failure touches marked members only |
| `FleetClusters.MembersAreNamed` | pkg/fleet-manager/clusters.go:68-82 | The members are exactly the existing clusters that an entry names with its kind, or without one for a Cluster |
| `FleetClusters.ReadyCountIs` | pkg/fleet-manager/clusters.go:93-101 | The count is the number of entries whose cluster exists and is ready |
| `FleetClusters.AttemptsConverge` | pkg/fleet-manager/clusters.go:56-183 | Any number of failed attempts and a success end where one undisturbed success would |
| `FleetClusters.LabelsMarkMembers` | pkg/fleet-manager/clusters.go:160-180 | The label marks exactly the existing members whenever no name is truncated |
| `FleetClusters.DeleteClearsIff` | pkg/fleet-manager/clusters.go:185-212 | Deleting leaves no marked cluster iff the spec names every marked one |

## Left out

- Kubernetes, Velero, Karmada, SSH and kubespray themselves: their answers are parameters, faults or events.
- Scheduling, caches and watches: which object is reconciled when is any interleaving; a reconcile reads what was last written.
- The kubeconfig fetched after provisioning, conditions, events and logs: the fetch is one call that may fail, the rest has no effect here.
- Finalizers and owner references of configmaps, CustomMachine and KubeadmControlPlane: counted as API calls only.
- The settings of `cluster-config` beyond the version line: one abstract string.
- `semver` rules for pre-release identifiers, and version numbers of 2^63 and above beyond their rejection.
- Agreement and convergence while a cluster is being deleted: the results about deletion are separate.
- Clusters created or removed in the middle of an interleaving: the set of clusters of one is fixed; `Register` adds to it between two.
- Scheduled backup status, the finalizers of Backup, Restore and Migrate, and cron intervals: they would add easy members.
- The sort before `MostRecentCompletedBackup`: any sorted permutation is accepted instead.
- The join and unjoin of a cluster in Karmada: one call each that may fail.
- Failing calls on the shared ingress, and an annotation conflict on it: a sync or delete is one step.
- Rollouts other than the shared ingress, plugins, cluster attachment, generated clients, the CLI and the cloud provider templates.
