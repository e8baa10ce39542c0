/** The backup, restore and migrate controllers: details updated through pointers, and phases. */
module BackupControllers {
  import opened Text
  import opened StatusMerge
  import opened RestoreTargets

  /** A status detail that the controllers share by pointer. */
  class Details {
    const key: ClusterKey
    const resource: string
    var status: Option<VeleroStatus>

    constructor (key: ClusterKey, resource: string, status: Option<VeleroStatus>)
      ensures this.key == key && this.resource == resource && this.status == status
    {
      this.key, this.resource, this.status := key, resource, status;
    }

    ghost function Value(): Detail
      reads this
    {
      Detail(key, resource, status)
    }
  }

  ghost function Values(ds: seq<Details>): (vs: seq<Detail>)
    reads ds
    ensures |vs| == |ds| && forall i | 0 <= i < |ds| :: vs[i] == ds[i].Value()
  {
    seq(|ds|, i requires 0 <= i < |ds| reads ds => ds[i].Value())
  }

  /** No detail is listed twice. */
  ghost predicate Separate(ds: seq<Details>) {
    forall i, j | 0 <= i < j < |ds| :: ds[i] != ds[j]
  }

  /** The pointers a string index holds are the positions the specification index holds. */
  ghost predicate Points(statusMap: map<string, Details>, index: map<string, nat>, ds: seq<Details>) {
    && statusMap.Keys == index.Keys
    && forall k | k in index :: index[k] < |ds| && statusMap[k] == ds[index[k]]
  }

  method BuildStatusMap(ds: seq<Details>) returns (statusMap: map<string, Details>)
    ensures Points(statusMap, Index(Values(ds)), ds)
  {
    statusMap := map[];
    ghost var vs := Values(ds);
    for n := 0 to |ds|
      invariant Points(statusMap, Index(vs[..n]), ds)
    {
      var key := IndexKey(ds[n].key, ds[n].resource);
      statusMap := statusMap[key := ds[n]];
      assert vs[..n + 1][..n] == vs[..n] && vs[..n + 1][n] == vs[n];
    }
    assert vs[..|ds|] == vs;
  }

  /** One destination of the merge loop. */
  method MergeStep(statusMap: map<string, Details>, ghost index: map<string, nat>, details: seq<Details>,
                   soFar: seq<Details>,
                   k: ClusterKey, status: VeleroStatus, cr: Creator)
    returns (result: seq<Details>)
    requires Separate(soFar) && details <= soFar && Points(statusMap, index, details)
    modifies details
    ensures Values(result) == MergeOne(old(Values(soFar)), index, k, status, cr)
    ensures result == soFar || (|result| == |soFar| + 1 && soFar == result[..|soFar|] && fresh(result[|soFar|]))
  {
    hide IndexKey, ResourceName;
    var name := ResourceName(k.name, cr);
    var key := IndexKey(k, name);
    ghost var before := Values(soFar);
    if key in statusMap {
      ghost var i := index[key];
      assert statusMap[key] == details[i] == soFar[i];
      statusMap[key].status := Some(status);
      result := soFar;
      assert Values(result) == before[i := before[i].(status := Some(status))];
    } else {
      var d := new Details(k, name, Some(status));
      result := soFar + [d];
      assert Values(result) == before + [Detail(k, name, Some(status))];
    }
  }

  /** The merge loop shared by `syncVeleroRestoreStatus` and `reconcileOneTimeBackupStatus`: it updates
      the listed details through the index and appends new ones. */
  method MergeStatus(dests: seq<ClusterKey>, observed: Statuses, details: seq<Details>,
                     cr: Creator)
    returns (ok: bool, result: seq<Details>)
    requires Separate(details)
    modifies details
    ensures Separate(result) && details <= result && fresh(set d | d in result[|details|..])
    ensures Merge(old(Values(details)), dests, observed, cr) == (Values(result), ok)
  {
    hide MergeOne, Index, Values;
    var statusMap := BuildStatusMap(details);
    ghost var index := Index(Values(details));
    result := details;
    for n := 0 to |dests|
      invariant Separate(result) && details <= result && fresh(set d | d in result[|details|..])
      invariant Points(statusMap, index, details)
      invariant MergeFrom(Values(result), index, dests[n..], observed, cr)
                == Merge(old(Values(details)), dests, observed, cr)
    {
      assert dests[n..][0] == dests[n] && dests[n..][1..] == dests[n + 1..];
      if dests[n] !in observed { return false, result; }
      result := MergeStep(statusMap, index, details, result, dests[n], observed[dests[n]], cr);
    }
    ok := true;
    assert dests[|dests|..] == [];
  }

  /** `allRestoreCompleted` and `allBackupsCompleted`. */
  method AllDetailsCompleted(ds: seq<Details>) returns (all: bool)
    ensures all == AllCompleted(Values(ds))
  {
    for i := 0 to |ds|
      invariant forall k | 0 <= k < i :: ds[k].status.Some? && ds[k].status.value.phase == COMPLETED
    {
      if ds[i].status.None? || ds[i].status.value.phase != COMPLETED { return false; }
    }
    all := true;
  }

  // ----- the controllers -----

  /** `Stopped` ends without an error and without another round; `Panic` is a nil dereference or an index
      out of range. */
  datatype Reply = Error | Requeue | Done | Stopped | Panic

  /** What a cluster's client answers when a velero object is read. */
  datatype Lookup = Found(status: VeleroStatus) | NotFound | Broken

  type Answers = map<(ClusterKey, string), Lookup>

  function Answer(answers: Answers, k: ClusterKey, name: string): Lookup {
    if (k, name) in answers then answers[(k, name)] else NotFound
  }

  /** What the statuses of the creator's own objects are read as. */
  function Observed(ks: set<ClusterKey>, answers: Answers, cr: Creator): Statuses {
    map k | k in ks && Answer(answers, k, ResourceName(k.name, cr)).Found? ::
      Answer(answers, k, ResourceName(k.name, cr)).status
  }

  predicate Readable(ks: set<ClusterKey>, answers: Answers, cr: Creator) {
    forall k | k in ks :: Answer(answers, k, ResourceName(k.name, cr)).Found?
  }

  /** Every destination's object is there and completed, and so is every older detail of another cluster. */
  predicate Completed(ks: set<ClusterKey>, answers: Answers, cr: Creator, was: seq<Detail>) {
    && Readable(ks, answers, cr)
    && (forall k | k in ks :: Answer(answers, k, ResourceName(k.name, cr)).status.phase == COMPLETED)
    && forall i | 0 <= i < |was| && was[i].key !in ks :: was[i].status.Some? && was[i].status.value.phase == COMPLETED
  }

  predicate PlainKeys(ks: set<ClusterKey>) {
    forall k | k in ks :: PlainKey(k)
  }

  /** A Go map is walked in any order. */
  method AnyOrder(ks: set<ClusterKey>) returns (order: seq<ClusterKey>)
    ensures DistinctKeys(order) && forall k :: k in order <==> k in ks
  {
    order := [];
    var rest := ks;
    while rest != {}
      invariant rest <= ks && DistinctKeys(order) && forall k :: k in order <==> k in ks - rest
      decreases rest
    {
      var k :| k in rest;
      assert forall i | 0 <= i < |order| :: order[i] in order;
      order := order + [k];
      rest := rest - {k};
    }
  }

  /** What a merge through some order of the destinations comes to. */
  lemma {:induction false} MergeInAnyOrder(was: seq<Detail>, order: seq<ClusterKey>, ks: set<ClusterKey>,
                                           answers: Answers, cr: Creator)
    requires Consistent(was, cr) && PlainCreator(cr) && PlainKeys(ks)
    requires DistinctKeys(order) && forall k :: k in order <==> k in ks
    ensures var seen := Observed(ks, answers, cr);
            var r := Merge(was, order, seen, cr);
            && Consistent(r.0, cr) && (r.1 <==> Readable(ks, answers, cr))
            && (r.1 ==> AsMap(r.0) == AsMap(was) + map k | k in ks && k in seen :: Some(seen[k]))
            && (r.1 && AllCompleted(r.0) <==> Completed(ks, answers, cr, was))
            && AsMap(was).Keys <= AsMap(r.0).Keys
  {
    hide Consistent, Merge, AsMap, AllCompleted, PlainKey, PlainCreator, ResourceName;
    var seen := Observed(ks, answers, cr);
    assert forall i | 0 <= i < |order| :: order[i] in ks;
    MergeRefinesMapUpdate(was, order, seen, cr);
    CompletionIsSound(was, order, seen, cr);
    PartialMergeKeeps(was, order, seen, cr);
    assert Observations(order, seen) == map k | k in ks && k in seen :: Some(seen[k]);
    assert (forall i | 0 <= i < |order| :: order[i] in seen) <==> Readable(ks, answers, cr) by {
      assert forall k | k in ks :: k in order;
    }
  }

  class Backup {
    var details: seq<Details>

    constructor ()
      ensures details == []
    {
      details := [];
    }

    /** `reconcileOneTimeBackupStatus`: done if and only if every destination's backup is there and
        completed, and every older detail too; even a failing reconcile keeps every detail. */
    method ReconcileOneTimeBackupStatus(ks: set<ClusterKey>, backups: Answers, cr: Creator) returns (reply: Reply)
      requires Separate(details) && Consistent(Values(details), cr) && PlainCreator(cr) && PlainKeys(ks)
      modifies this, details
      ensures Separate(details) && Consistent(Values(details), cr)
      ensures reply == Done <==> Completed(ks, backups, cr, old(Values(details)))
      ensures reply == Error <==> !Readable(ks, backups, cr)
      ensures reply in {Done, Requeue, Error}
      ensures reply != Error ==>
                var seen := Observed(ks, backups, cr);
                AsMap(Values(details)) == AsMap(old(Values(details))) + map k | k in ks && k in seen :: Some(seen[k])
      ensures AsMap(old(Values(details))).Keys <= AsMap(Values(details)).Keys
    {
      hide PlainKeys, PlainCreator, AsMap, Consistent, Merge, Readable, Completed, Observed, AllCompleted;
      ghost var was := Values(details);
      var order := AnyOrder(ks);
      MergeInAnyOrder(was, order, ks, backups, cr);
      var ok, merged := MergeStatus(order, Observed(ks, backups, cr), details, cr);
      details := merged;
      if !ok { return Error; }
      var all := AllDetailsCompleted(details);
      reply := if all then Done else Requeue;
    }
  }

  /** What a Restore or Migrate stores after reading its destinations: on an error nothing at all. */
  ghost predicate StoredAfter(now: seq<Detail>, was: seq<Detail>, ks: set<ClusterKey>, answers: Answers, cr: Creator) {
    if Readable(ks, answers, cr) then
      var seen := Observed(ks, answers, cr);
      AsMap(now) == AsMap(was) + map k | k in ks && k in seen :: Some(seen[k])
    else now == []
  }

  /** The shared end of `reconcileRestore` and `reconcileMigrateRestore`: sync the statuses, decide. */
  method SyncAndDecide(ks: set<ClusterKey>, restores: Answers, details: seq<Details>, cr: Creator)
    returns (reply: Reply, result: seq<Details>)
    requires Separate(details) && Consistent(Values(details), cr) && PlainCreator(cr) && PlainKeys(ks)
    modifies details
    ensures Separate(result) && Consistent(Values(result), cr) && forall d | d in result :: d in details || fresh(d)
    ensures StoredAfter(Values(result), old(Values(details)), ks, restores, cr)
    ensures reply == Done <==> Completed(ks, restores, cr, old(Values(details)))
    ensures reply == Error <==> !Readable(ks, restores, cr)
    ensures reply in {Done, Requeue, Error}
  {
    hide PlainKeys, PlainCreator, AsMap, Consistent, Merge, Readable, Completed, Observed, AllCompleted;
    ghost var was := Values(details);
    var order := AnyOrder(ks);
    MergeInAnyOrder(was, order, ks, restores, cr);
    NothingConsistent(cr);
    var ok, merged := MergeStatus(order, Observed(ks, restores, cr), details, cr);
    if !ok {
      assert Values([]) == [];
      return Error, [];
    }
    assert forall d | d in merged :: d in details || d in merged[|details|..];
    var all := AllDetailsCompleted(merged);
    return if all then Done else Requeue, merged;
  }

  class Restore {
    var details: seq<Details>

    constructor ()
      ensures details == []
    {
      details := [];
    }

    /** `reconcileRestore`. Whatever is applied lies in the backup's destination, on a ready cluster, and
        restores the right backup. The reply is done if and only if all of it went through and every
        target's restore, and every older detail, is completed. */
    method ReconcileRestore(fleets: Fleets, backup: Destination, restore: Option<Destination>, found: bool,
                            scheduled: bool,
                            listings: map<ClusterKey, Listing>, creator: Creator, works: set<ClusterKey>,
                            restores: Answers, cr: Creator)
      returns (reply: Reply, applied: map<ClusterKey, string>)
      requires forall k :: ReadyMember(fleets, backup.fleet, k) ==>
                 k in listings && ValidListing(listings[k]) && PlainKey(k)
      requires Separate(details) && Consistent(Values(details), cr) && PlainCreator(cr)
      modifies this, details
      ensures Separate(details) && Consistent(Values(details), cr)
      ensures forall k | k in applied ::
                && Fetch(fleets, backup).Some? && k in Fetch(fleets, backup).value
                && ReadyMember(fleets, backup.fleet, k)
                && RightListed(applied[k], k, scheduled, listings[k], creator)
      ensures var ts := RestoreClusters(fleets, backup, restore);
              && (ts.None? ==> reply == Error && applied == map[])
              && (reply == Stopped <==>
                    ts.Some?
                    && (!found || exists k :: k in ts.value && k in listings && !Restorable(scheduled, listings[k])))
              && (reply == Stopped ==> applied == map[])
              && (reply == Done <==>
                    && ts.Some? && found && ts.value <= works
                    && (forall k | k in ts.value :: k in listings && Restorable(scheduled, listings[k]))
                    && Completed(ts.value, restores, cr, old(Values(details))))
              && (reply == Error <==>
                    ts.None?
                    || (found && (forall k | k in ts.value :: k in listings && Restorable(scheduled, listings[k]))
                        && !(ts.value <= works && Readable(ts.value, restores, cr))))
              && reply != Panic
              && if ts.Some? && found && ts.value <= works
                    && (forall k | k in ts.value :: k in listings && Restorable(scheduled, listings[k]))
                 then StoredAfter(Values(details), old(Values(details)), ts.value, restores, cr)
                 else Values(details) == old(Values(details))
    {
      hide ReadyMember, RestoreClusters, Fetch, ValidListing, RightListed, Restorable, Completed, Readable, Consistent;
      hide StoredAfter;
      hide PlainKey, PlainCreator;
      applied := map[];
      var ts := FetchRestoreDestinationClusters(fleets, backup, restore);
      if ts.None? { return Error, applied; }
      var targets := ts.value;
      forall k | k in targets
        ensures ReadyMember(fleets, backup.fleet, k) && Fetch(fleets, backup).Some? && k in Fetch(fleets, backup).value
      {
        RestoreWithinBackup(fleets, backup, restore, k);
      }
      if !found { return Stopped, applied; }
      var result;
      result, applied := ReconcileRestoreResources(targets, scheduled, listings, creator, works);
      if result == NothingToRestore { return Stopped, applied; }
      if result == Failing { return Error, applied; }
      reply, details := SyncAndDecide(targets, restores, details, cr);
    }
  }

  class Migrate {
    var phase: MigratePhase
    var targets: seq<Details>
    var source: Option<Detail>
    var sourceReady: bool

    constructor ()
      ensures phase == NoPhase && targets == [] && source == None && !sourceReady
    {
      phase, targets, source, sourceReady := NoPhase, [], None, false;
    }

    /** `reconcileMigrateBackup`: one of the fetched clusters is the source, whichever the map yields last.
        What is recorded is the status of this Migrate's velero backup there, a ready member of the
        fleet. Without any cluster to fetch the code dereferences nil. */
    method ReconcileMigrateBackup(fleets: Fleets, from: Destination, accepts: set<ClusterKey>, backups: Answers,
                                  cr: Creator)
      returns (reply: Reply)
      modifies this`source, this`sourceReady
      ensures reply in {Error, Requeue, Done, Panic}
      ensures reply == Panic <==> Fetch(fleets, from) == Some({})
      ensures reply in {Error, Panic} ==> source == old(source)
      ensures reply in {Requeue, Done} ==>
                && source.Some? && ReadyMember(fleets, from.fleet, source.value.key)
                && (from.clusters != [] ==> source.value.key in from.clusters)
                && source.value.resource == ResourceName(source.value.key.name, cr) && source.value.key in accepts
                && Answer(backups, source.value.key, source.value.resource).Found?
                && source.value.status == Some(Answer(backups, source.value.key, source.value.resource).status)
                && (reply == Done <==> source.value.status.value.phase == COMPLETED)
      ensures BackupPasses(fleets, from, accepts, backups, cr) ==> reply in {Requeue, Done}
      ensures reply in {Requeue, Done} ==> BackupMayPass(fleets, from, accepts, backups, cr)
      ensures sourceReady == (old(sourceReady) || reply == Done)
    {
      hide Fetch, ReadyMember, ResourceName, Answer;
      var clusters := FetchDestinationClusters(fleets, from);
      if clusters.None? { return Error; }
      var last: Option<ClusterKey> := None;
      var rest := clusters.value;
      while rest != {}
        invariant rest <= clusters.value && (last.None? <==> rest == clusters.value)
        invariant last.Some? ==> last.value in clusters.value
        decreases rest
      {
        var k :| k in rest;
        last, rest := Some(k), rest - {k};
      }
      if last.None? { return Panic; }
      var key := last.value;
      FetchedAreReady(fleets, from, key);
      var name := ResourceName(key.name, cr);
      if key !in accepts { return Error; }
      var got := Answer(backups, key, name);
      if !got.Found? { return Error; }
      source := Some(Detail(key, name, Some(got.status)));
      if got.status.phase != COMPLETED { return Requeue; }
      sourceReady := true;
      return Done;
    }

    /** `reconcileMigrateRestore`: done, and the phase Finished, if and only if every target has the backup
        of the first source cluster, accepts its restore, and has it completed; an unreadable restore
        costs all details. Without a named source cluster the code indexes an empty list. */
    method ReconcileMigrateRestore(fleets: Fleets, from: Destination, to: Destination, backups: Answers,
                                   accepts: set<ClusterKey>, restores: Answers, cr: Creator)
      returns (reply: Reply)
      requires Separate(targets) && Consistent(Values(targets), cr) && PlainCreator(cr)
      requires Fetch(fleets, to).Some? ==> PlainKeys(Fetch(fleets, to).value)
      modifies this`phase, this`targets, targets
      ensures Separate(targets) && Consistent(Values(targets), cr)
      ensures reply == Done <==> RestoresDone(fleets, from, to, backups, accepts, restores, cr, old(Values(targets)))
      ensures RestoreReply(reply, fleets, from, to, backups, accepts, restores, cr, old(Values(targets)))
      ensures phase == if reply == Done then Finished
                       else if Fetch(fleets, to).None? || old(phase) == BackupInProgress then old(phase)
                       else RestoreInProgress
      ensures if BackupsArrived(fleets, from, to, backups, cr) && Fetch(fleets, to).value <= accepts
              then StoredAfter(Values(targets), old(Values(targets)), Fetch(fleets, to).value, restores, cr)
              else Values(targets) == old(Values(targets))
    {
      hide PlainKeys, PlainCreator, Consistent, Fetch, ResourceName, Answer, Completed, Readable, StoredAfter;
      var clusters := FetchDestinationClusters(fleets, to);
      if clusters.None? { return Error; }
      var ks := clusters.value;
      if phase != BackupInProgress { phase := RestoreInProgress; }
      if from.clusters == [] { return Panic; }
      var referred := ResourceName(from.clusters[0].name, cr);
      var rest := ks;
      while rest != {}
        invariant rest <= ks && targets == old(targets) && unchanged(targets)
        invariant forall k | k in ks - rest :: Answer(backups, k, referred).Found?
        decreases rest
      {
        var k :| k in rest;
        if Answer(backups, k, referred) == NotFound { return Requeue; }
        if Answer(backups, k, referred) == Broken { return Error; }
        rest := rest - {k};
      }
      if !(ks <= accepts) { return Error; }
      reply, targets := SyncAndDecide(ks, restores, targets, cr);
      if reply == Done { phase := Finished; }
    }

    /** `reconcileMigrate`: the restore stage runs whenever the backup stage returned no error, completed or
        not; the phase moves by what was observed. `passed` says whether the source that was taken had its
        backup. */
    method ReconcileMigrate(fleets: Fleets, from: Destination, to: Destination, backups: Answers,
                            accepts: set<ClusterKey>, restores: Answers, cr: Creator)
      returns (reply: Reply, ghost passed: bool)
      requires Separate(targets) && Consistent(Values(targets), cr) && PlainCreator(cr)
      requires Fetch(fleets, to).Some? ==> PlainKeys(Fetch(fleets, to).value)
      modifies this, targets
      ensures Separate(targets) && Consistent(Values(targets), cr)
      ensures BackupPasses(fleets, from, accepts, backups, cr) ==> passed
      ensures passed ==> BackupMayPass(fleets, from, accepts, backups, cr)
      ensures var finished := RestoresDone(fleets, from, to, backups, accepts, restores, cr, old(Values(targets)));
              && (reply == Done <==> passed && finished)
              && (passed ==>
                    RestoreReply(reply, fleets, from, to, backups, accepts, restores, cr, old(Values(targets))))
              && (!passed ==> reply == if Fetch(fleets, from) == Some({}) then Panic else Error)
              && phase == NextPhase(old(phase), MigrateRound(passed, Fetch(fleets, to).Some?, finished))
              && phase == (if passed && finished then Finished
                           else if old(phase) in {NoPhase, Waiting, BackupInProgress} then BackupInProgress
                           else if passed && Fetch(fleets, to).Some? then RestoreInProgress else old(phase))
    {
      hide Consistent, PlainKeys, PlainCreator, Fetch, Completed, BackupPasses, BackupMayPass, StoredAfter, ReadyMember;
      if phase == NoPhase || phase == Waiting { phase := BackupInProgress; }
      var backup := ReconcileMigrateBackup(fleets, from, accepts, backups, cr);
      passed := backup != Error && backup != Panic;
      if backup == Error || backup == Panic { return backup, false; }
      assert Values(targets) == old(Values(targets));
      reply := ReconcileMigrateRestore(fleets, from, to, backups, accepts, restores, cr);
    }
  }

  predicate Backed(k: ClusterKey, accepts: set<ClusterKey>, backups: Answers, cr: Creator) {
    k in accepts && Answer(backups, k, ResourceName(k.name, cr)).Found?
  }

  /** Whichever cluster is taken for the source. */
  ghost predicate BackupPasses(fleets: Fleets, from: Destination, accepts: set<ClusterKey>, backups: Answers,
                               cr: Creator) {
    var ks := Fetch(fleets, from);
    ks.Some? && ks.value != {} && forall k | k in ks.value :: Backed(k, accepts, backups, cr)
  }

  ghost predicate BackupMayPass(fleets: Fleets, from: Destination, accepts: set<ClusterKey>, backups: Answers,
                                cr: Creator) {
    var ks := Fetch(fleets, from);
    ks.Some? && exists k :: k in ks.value && Backed(k, accepts, backups, cr)
  }

  /** The first source cluster's backup is on every target. */
  predicate BackupsArrived(fleets: Fleets, from: Destination, to: Destination, backups: Answers, cr: Creator) {
    var ks := Fetch(fleets, to);
    && ks.Some? && from.clusters != []
    && forall k | k in ks.value :: Answer(backups, k, ResourceName(from.clusters[0].name, cr)).Found?
  }

  /** What the restore stage replies. Targets without the backup and targets that cannot be asked are met in
      any order, so that with both kinds either reply is possible. */
  ghost predicate RestoreReply(reply: Reply, fleets: Fleets, from: Destination, to: Destination, backups: Answers,
                               accepts: set<ClusterKey>, restores: Answers, cr: Creator, was: seq<Detail>)
  {
    var ks := Fetch(fleets, to);
    if ks.None? then reply == Error
    else if from.clusters == [] then reply == Panic
    else
      var name := ResourceName(from.clusters[0].name, cr);
      if !BackupsArrived(fleets, from, to, backups, cr) then
        || (reply == Requeue && exists k :: k in ks.value && Answer(backups, k, name) == NotFound)
        || (reply == Error && exists k :: k in ks.value && Answer(backups, k, name) == Broken)
      else if !(ks.value <= accepts) || !Readable(ks.value, restores, cr) then reply == Error
      else reply == if Completed(ks.value, restores, cr, was) then Done else Requeue
  }

  ghost predicate RestoresDone(fleets: Fleets, from: Destination, to: Destination, backups: Answers,
                               accepts: set<ClusterKey>, restores: Answers, cr: Creator, was: seq<Detail>)
  {
    && BackupsArrived(fleets, from, to, backups, cr) && Fetch(fleets, to).value <= accepts
    && Completed(Fetch(fleets, to).value, restores, cr, was)
  }

  lemma {:induction false} NothingConsistent(cr: Creator)
    ensures Consistent([], cr)
  {
  }

  /** The two stages mean the same backup, whichever source cluster the map yields, if and only if all the
      listed clusters have the name of the first one. */
  lemma {:induction false} SameBackupIff(fleets: Fleets, from: Destination, cr: Creator)
    requires Fetch(fleets, from).Some? && from.clusters != []
    ensures var first := from.clusters[0];
            (forall k | k in Fetch(fleets, from).value :: ResourceName(k.name, cr) == ResourceName(first.name, cr)) <==>
            forall c | c in from.clusters :: c.name == first.name
    ensures |from.clusters| == 1 ==> Fetch(fleets, from).value == {from.clusters[0]}
  {
    hide ResourceName;
    var first := from.clusters[0];
    forall k: ClusterKey
      ensures ResourceName(k.name, cr) == ResourceName(first.name, cr) <==> k.name == first.name
    {
      ResourceNameIdentifies(k.name, first.name, cr);
    }
    assert forall k :: k in Fetch(fleets, from).value <==> k in from.clusters;
  }

  /** The object's name identifies the cluster's name. */
  lemma {:induction false} ResourceNameIdentifies(a: string, b: string, cr: Creator)
    ensures ResourceName(a, cr) == ResourceName(b, cr) <==> a == b
  {
    hide Tail;
    var t := Tail(cr);
    if a + t == b + t {
      assert |a| == |b| && a == (a + t)[..|a|] && b == (b + t)[..|b|];
    }
  }
}
