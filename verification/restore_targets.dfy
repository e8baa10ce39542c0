/** Which clusters a Restore touches, and from which velero backup. */
module RestoreTargets {
  import opened Text
  import opened StatusMerge

  /** What building a client for a fleet member finds. */
  datatype MemberState = Unreachable | NotReady | NoClient | Ready

  datatype Member = Member(key: ClusterKey, state: MemberState)

  datatype Destination = Destination(fleet: string, clusters: seq<ClusterKey>)

  /** Fleets of one namespace, by name. */
  type Fleets = map<string, seq<Member>>

  // ----- destinations -----

  /** The ready members of a fleet; `None` when one cannot be fetched or given a client. */
  function ReadyClusters(ms: seq<Member>): Option<set<ClusterKey>> {
    if ms == [] then Some({})
    else
      var last := ms[|ms| - 1];
      match ReadyClusters(ms[..|ms| - 1])
      case None => None
      case Some(s) =>
        match last.state
        case Ready => Some(s + {last.key})
        case NotReady => Some(s)
        case _ => None
  }

  /** `fetchDestinationClusters`: all ready clusters of the fleet, or the named ones if all are ready. */
  function Fetch(fleets: Fleets, d: Destination): Option<set<ClusterKey>> {
    if d.fleet !in fleets then None
    else match ReadyClusters(fleets[d.fleet])
      case None => None
      case Some(ready) =>
        var named := set k | k in d.clusters;
        if d.clusters == [] then Some(ready) else if named <= ready then Some(named) else None
  }

  /** `fetchRestoreDestinationClusters`. */
  function RestoreClusters(fleets: Fleets, backup: Destination, restore: Option<Destination>): Option<set<ClusterKey>> {
    match Fetch(fleets, backup)
    case None => None
    case Some(base) =>
      if restore.None? then Some(base)
      else match Fetch(fleets, restore.value)
        case None => None
        case Some(chosen) => if backup.fleet == restore.value.fleet && chosen <= base then Some(chosen) else None
  }

  method BuildFleetClusters(ms: seq<Member>) returns (ready: Option<set<ClusterKey>>)
    ensures ready == ReadyClusters(ms)
  {
    var res: set<ClusterKey> := {};
    for i := 0 to |ms|
      invariant ReadyClusters(ms[..i]) == Some(res)
    {
      assert ms[..i + 1][..i] == ms[..i];
      if ms[i].state == Unreachable || ms[i].state == NoClient {
        FailsForGood(ms, i);
        return None;
      }
      if ms[i].state == Ready { res := res + {ms[i].key}; }
    }
    assert ms[..|ms|] == ms;
    ready := Some(res);
  }

  lemma {:induction false} FailsForGood(ms: seq<Member>, i: nat)
    requires i < |ms| && (ms[i].state == Unreachable || ms[i].state == NoClient)
    ensures ReadyClusters(ms) == None
  {
    if i < |ms| - 1 { FailsForGood(ms[..|ms| - 1], i); }
  }

  /** The nested loop: for each named cluster, walk the fleet map in whatever order it has. */
  method FetchDestinationClusters(fleets: Fleets, d: Destination) returns (clusters: Option<set<ClusterKey>>)
    ensures clusters == Fetch(fleets, d)
    ensures clusters.Some? <==> Fetchable(fleets, d)
    ensures clusters.Some? ==> forall k :: k in clusters.value <==> Meant(fleets, d, k)
  {
    FetchIs(fleets, d);
    hide Fetchable, Meant;
    if d.fleet !in fleets { return None; }
    var ready := BuildFleetClusters(fleets[d.fleet]);
    if ready.None? || |d.clusters| == 0 { return ready; }
    var selected: set<ClusterKey> := {};
    for i := 0 to |d.clusters|
      invariant selected == set k | k in d.clusters[..i]
      invariant selected <= ready.value
    {
      var k, found, rest := d.clusters[i], false, ready.value;
      while rest != {}
        invariant rest <= ready.value
        invariant found <==> k in ready.value - rest
        invariant selected == (set k | k in d.clusters[..i]) + if found then {k} else {}
        decreases rest
      {
        var key :| key in rest;
        if key.name == k.name && key.kind == k.kind {
          found := true;
          selected := selected + {key};
        }
        rest := rest - {key};
      }
      assert d.clusters[..i + 1] == d.clusters[..i] + [k];
      if !found {
        assert k in (set c | c in d.clusters) && k !in ready.value;
        return None;
      }
    }
    assert d.clusters[..|d.clusters|] == d.clusters;
    clusters := Some(selected);
  }

  /** `isFleetClusterSubset`. */
  method IsFleetClusterSubset(base: set<ClusterKey>, chosen: set<ClusterKey>) returns (inside: bool)
    ensures inside <==> chosen <= base
  {
    var rest := chosen;
    while rest != {}
      invariant rest <= chosen && chosen - rest <= base
      decreases rest
    {
      var key :| key in rest;
      if key !in base { return false; }
      rest := rest - {key};
    }
    inside := true;
  }

  lemma {:induction false} ReadyIsReady(ms: seq<Member>, k: ClusterKey)
    requires ReadyClusters(ms).Some?
    ensures k in ReadyClusters(ms).value <==> exists i :: 0 <= i < |ms| && ms[i].key == k && ms[i].state == Ready
  {
    if ms != [] {
      var n := |ms| - 1;
      ReadyIsReady(ms[..n], k);
      assert forall i | 0 <= i < n :: ms[..n][i] == ms[i];
      if k in ReadyClusters(ms[..n]).value {
        var i :| 0 <= i < n && ms[..n][i].key == k && ms[..n][i].state == Ready;
        assert ms[i].key == k && ms[i].state == Ready;
      }
      assert ms[n].key == k && ms[n].state == Ready ==> k in ReadyClusters(ms).value;
    }
  }

  /** `fetchRestoreDestinationClusters`, with its two fetches and its subset check. */
  method FetchRestoreDestinationClusters(fleets: Fleets, backup: Destination, restore: Option<Destination>)
    returns (clusters: Option<set<ClusterKey>>)
    ensures clusters == RestoreClusters(fleets, backup, restore)
    ensures clusters.Some? ==>
              forall k :: k in clusters.value <==> Meant(fleets, if restore.Some? then restore.value else backup, k)
  {
    RestoreClustersIs(fleets, backup, restore);
    hide Fetchable, Meant;
    var base := FetchDestinationClusters(fleets, backup);
    if base.None? || restore.None? { return base; }
    var chosen := FetchDestinationClusters(fleets, restore.value);
    if chosen.None? || backup.fleet != restore.value.fleet { return None; }
    var inside := IsFleetClusterSubset(base.value, chosen.value);
    clusters := if inside then chosen else None;
  }

  /** A member of the fleet that was found ready. */
  ghost predicate ReadyMember(fleets: Fleets, fleet: string, k: ClusterKey) {
    fleet in fleets && exists i :: 0 <= i < |fleets[fleet]| && fleets[fleet][i] == Member(k, Ready)
  }

  /** Restore targets lie within the backup's destination, and that within the ready members of its
      fleet; named destinations are taken exactly. */
  lemma {:induction false} RestoreWithinBackup(fleets: Fleets, backup: Destination, restore: Option<Destination>,
                                               k: ClusterKey)
    requires RestoreClusters(fleets, backup, restore).Some? && k in RestoreClusters(fleets, backup, restore).value
    ensures Fetch(fleets, backup).Some? && k in Fetch(fleets, backup).value && ReadyMember(fleets, backup.fleet, k)
    ensures backup.clusters != [] ==> k in backup.clusters
    ensures restore.Some? && restore.value.clusters != [] ==> k in restore.value.clusters
  {
    ReadyIsReady(fleets[backup.fleet], k);
    var ms := fleets[backup.fleet];
    var i :| 0 <= i < |ms| && ms[i].key == k && ms[i].state == Ready;
    assert ms[i] == Member(k, Ready);
  }

  // ----- what is fetched, told from the fleets and the destinations -----

  /** A member that stops the whole fetch. */
  predicate Blocks(m: Member) {
    m.state == Unreachable || m.state == NoClient
  }

  /** The clusters a destination means: the named ones, or every ready one when none is named. */
  ghost predicate Meant(fleets: Fleets, d: Destination, k: ClusterKey) {
    if d.clusters == [] then ReadyMember(fleets, d.fleet, k) else k in d.clusters
  }

  ghost predicate Fetchable(fleets: Fleets, d: Destination) {
    && d.fleet in fleets && (forall m | m in fleets[d.fleet] :: !Blocks(m))
    && forall k | k in d.clusters :: ReadyMember(fleets, d.fleet, k)
  }

  lemma {:induction false} ReadyClustersIff(ms: seq<Member>)
    ensures ReadyClusters(ms).Some? <==> forall m | m in ms :: !Blocks(m)
  {
    if ms != [] {
      var n := |ms| - 1;
      ReadyClustersIff(ms[..n]);
      assert ms == ms[..n] + [ms[n]];
      assert ms[n] in ms && forall m | m in ms[..n] :: m in ms;
      assert ReadyClusters(ms).Some? <==> ReadyClusters(ms[..n]).Some? && !Blocks(ms[n]);
    }
  }

  /** A fetch succeeds if and only if the fleet is there, no member of it blocks and every named cluster is
      a ready member; it then gives exactly the clusters that are meant. */
  lemma {:induction false} FetchIs(fleets: Fleets, d: Destination)
    ensures Fetch(fleets, d).Some? <==> Fetchable(fleets, d)
    ensures Fetch(fleets, d).Some? ==> forall k :: k in Fetch(fleets, d).value <==> Meant(fleets, d, k)
  {
    if d.fleet in fleets {
      var ms := fleets[d.fleet];
      ReadyClustersIff(ms);
      if ReadyClusters(ms).Some? {
        forall k ensures k in ReadyClusters(ms).value <==>
          ReadyMember(fleets, d.fleet, k) { ReadyMembers(fleets, d.fleet, k); }
      }
    }
  }

  lemma {:induction false} ReadyMembers(fleets: Fleets, fleet: string, k: ClusterKey)
    requires fleet in fleets && ReadyClusters(fleets[fleet]).Some?
    ensures k in ReadyClusters(fleets[fleet]).value <==> ReadyMember(fleets, fleet, k)
  {
    hide ReadyClusters;
    var ms := fleets[fleet];
    ReadyIsReady(ms, k);
    if i :| 0 <= i < |ms| && ms[i].key == k && ms[i].state == Ready { assert ms[i] == Member(k, Ready); }
  }

  /** A Restore's targets can be fetched if and only if the backup's can and, where it has a destination of
      its own, this can too, is of the same fleet and means no cluster that the backup's does not. They are
      the clusters of its own destination, or else all of the backup's. */
  lemma {:induction false} RestoreClustersIs(fleets: Fleets, backup: Destination, restore: Option<Destination>)
    ensures RestoreClusters(fleets, backup, restore).Some? <==>
            && Fetchable(fleets, backup)
            && (restore.Some? ==>
                  && Fetchable(fleets, restore.value) && restore.value.fleet == backup.fleet
                  && forall k | Meant(fleets, restore.value, k) :: Meant(fleets, backup, k))
    ensures RestoreClusters(fleets, backup, restore).Some? ==>
              forall k :: k in RestoreClusters(fleets, backup, restore).value <==>
                          Meant(fleets, if restore.Some? then restore.value else backup, k)
  {
    hide Fetch, Fetchable, Meant;
    FetchIs(fleets, backup);
    if restore.Some? { FetchIs(fleets, restore.value); }
  }

  // ----- the backup to restore from -----

  datatype VeleroBackup = VeleroBackup(name: string, phase: string, start: Option<nat>)

  /** A missing start time counts as the zero time. */
  function StartTime(b: VeleroBackup): nat {
    if b.start.Some? then b.start.value else 0
  }

  /** What sorting by start time, latest first, may leave. */
  ghost predicate SortedFrom(sorted: seq<VeleroBackup>, bs: seq<VeleroBackup>) {
    && multiset(sorted) == multiset(bs)
    && forall i, j | 0 <= i < j < |sorted| :: StartTime(sorted[i]) >= StartTime(sorted[j])
  }

  /** A completed backup that no completed backup started after. */
  ghost predicate MostRecent(b: VeleroBackup, bs: seq<VeleroBackup>) {
    && b in bs && b.phase == COMPLETED
    && forall c | c in bs && c.phase == COMPLETED :: StartTime(c) <= StartTime(b)
  }

  ghost predicate SomeCompleted(bs: seq<VeleroBackup>) {
    exists c :: c in bs && c.phase == COMPLETED
  }

  /** `MostRecentCompletedBackup`, after the sort. */
  method MostRecentCompletedBackup(sorted: seq<VeleroBackup>, ghost bs: seq<VeleroBackup>)
    returns (b: Option<VeleroBackup>)
    requires SortedFrom(sorted, bs)
    ensures b.Some? <==> SomeCompleted(bs)
    ensures b.Some? ==> MostRecent(b.value, bs)
  {
    forall c ensures c in bs <==> c in sorted { assert c in bs <==> c in multiset(bs); }
    for i := 0 to |sorted|
      invariant forall k | 0 <= k < i :: sorted[k].phase != COMPLETED
    {
      if sorted[i].phase == COMPLETED { return Some(sorted[i]); }
    }
    b := None;
  }

  /** What a target cluster is asked to restore: for a one-time backup its generated name, for a
      schedule the name of the most recent completed backup. */
  ghost predicate RightBackup(name: string, k: ClusterKey, scheduled: bool, listed: seq<VeleroBackup>,
                              backup: Creator) {
    if !scheduled then name == ResourceName(k.name, backup)
    else exists b :: MostRecent(b, listed) && b.name == name
  }

  /** `getBackupForRestore`. */
  method GetBackupForRestore(k: ClusterKey, scheduled: bool, listed: Option<seq<VeleroBackup>>,
                             sorted: seq<VeleroBackup>, backup: Creator)
    returns (name: Option<string>)
    requires listed.Some? ==> SortedFrom(sorted, listed.value) && forall b | b in listed.value :: b.name != ""
    ensures name.Some? <==> !scheduled || (listed.Some? && SomeCompleted(listed.value))
    ensures name.Some? ==> RightBackup(name.value, k, scheduled, if listed.Some? then listed.value else [], backup)
  {
    if !scheduled { return Some(ResourceName(k.name, backup)); }
    if listed.None? { return None; }
    var b := MostRecentCompletedBackup(sorted, listed.value);
    if b.None? || b.value.name == "" { return None; }
    assert MostRecent(b.value, listed.value);
    return Some(b.value.name);
  }

  /** What the target clusters answer when their backups are listed. */
  datatype Listing = Listing(listed: Option<seq<VeleroBackup>>, sorted: seq<VeleroBackup>)

  ghost predicate ValidListing(l: Listing) {
    l.listed.Some? ==> SortedFrom(l.sorted, l.listed.value) && forall b | b in l.listed.value :: b.name != ""
  }

  ghost predicate Restorable(scheduled: bool, l: Listing) {
    !scheduled || (l.listed.Some? && SomeCompleted(l.listed.value))
  }

  datatype Resources = Applied | NothingToRestore | Failing

  /** `reconcileRestoreResources`: a task per target, built before any is run; a target without a backup
      to restore stops everything. `works` says which targets accept their task. */
  method ReconcileRestoreResources(targets: set<ClusterKey>, scheduled: bool, listings: map<ClusterKey, Listing>,
                                   backup: Creator, works: set<ClusterKey>)
    returns (result: Resources, applied: map<ClusterKey, string>)
    requires targets <= listings.Keys && forall k | k in targets :: ValidListing(listings[k])
    ensures applied.Keys <= targets
    ensures result == NothingToRestore <==> exists k :: k in targets && !Restorable(scheduled, listings[k])
    ensures result == NothingToRestore ==> applied == map[]
    ensures result != NothingToRestore ==> applied.Keys == targets * works && (result == Applied <==> targets <= works)
    ensures forall k | k in applied :: RightListed(applied[k], k, scheduled, listings[k], backup)
  {
    hide ValidListing, SortedFrom, RightBackup, SomeCompleted;
    var tasks: map<ClusterKey, string> := map[];
    var rest := targets;
    while rest != {}
      invariant rest <= targets && tasks.Keys == targets - rest
      invariant forall k | k in targets - rest :: Restorable(scheduled, listings[k])
      invariant forall k | k in tasks :: RightListed(tasks[k], k, scheduled, listings[k], backup)
      decreases rest
    {
      var k :| k in rest;
      var l := listings[k];
      ListingIs(l);
      var name := GetBackupForRestore(k, scheduled, l.listed, l.sorted, backup);
      if name.None? { return NothingToRestore, map[]; }
      tasks := tasks[k := name.value];
      rest := rest - {k};
    }
    applied := map k | k in tasks && k in works :: tasks[k];
    result := if targets <= works then Applied else Failing;
  }

  /** The right backup among those the target cluster lists. */
  ghost predicate RightListed(name: string, k: ClusterKey, scheduled: bool, l: Listing, backup: Creator) {
    RightBackup(name, k, scheduled, if l.listed.Some? then l.listed.value else [], backup)
  }

  lemma {:induction false} ListingIs(l: Listing)
    requires ValidListing(l)
    ensures l.listed.Some? ==> SortedFrom(l.sorted, l.listed.value) && forall b | b in l.listed.value :: b.name != ""
  {
  }

  /** What is fetched are ready members; named destinations are taken exactly. */
  lemma {:induction false} FetchedAreReady(fleets: Fleets, d: Destination, k: ClusterKey)
    requires Fetch(fleets, d).Some? && k in Fetch(fleets, d).value
    ensures ReadyMember(fleets, d.fleet, k) && (d.clusters != [] ==> k in d.clusters)
  {
    ReadyIsReady(fleets[d.fleet], k);
    var ms := fleets[d.fleet];
    var i :| 0 <= i < |ms| && ms[i].key == k && ms[i].state == Ready;
    assert ms[i] == Member(k, Ready);
  }
}
