/** Per-cluster status details of a Restore, Migrate or one-time Backup: merged in place through an
    index of strings, and what "completed" then means. */
module StatusMerge {
  import opened Text

  datatype ClusterKey = ClusterKey(kind: string, name: string)

  datatype VeleroStatus = VeleroStatus(phase: string, detail: int)

  type Statuses = map<ClusterKey, VeleroStatus>

  const COMPLETED := "Completed"

  /** `RestoreDetails`, respectively `BackupDetails`. */
  datatype Detail = Detail(key: ClusterKey, resource: string, status: Option<VeleroStatus>)

  /** The Restore, Migrate or Backup whose resources these are. */
  datatype Creator = Creator(kind: string, namespace: string, name: string)

  function Tail(cr: Creator): string {
    "-" + (cr.kind + ("-" + (cr.namespace + ("-" + cr.name))))
  }

  /** `generateVeleroResourceName`. */
  function ResourceName(cluster: string, cr: Creator): string {
    cluster + Tail(cr)
  }

  /** The key of the status index. */
  function IndexKey(k: ClusterKey, resource: string): string {
    k.name + ("-" + (k.kind + ("-" + resource)))
  }

  function KeyFor(k: ClusterKey, cr: Creator): string {
    IndexKey(k, ResourceName(k.name, cr))
  }

  predicate Upper(c: char) { 'A' <= c <= 'Z' }

  /** Names of Kubernetes objects have no upper-case letters; kinds start with one. */
  predicate LowerCase(s: string) {
    forall i | 0 <= i < |s| :: !Upper(s[i])
  }

  predicate PlainKey(k: ClusterKey) {
    LowerCase(k.name) && k.kind in ["", "Cluster", "AttachedCluster"]
  }

  predicate PlainCreator(cr: Creator) {
    LowerCase(Tail(cr))
  }

  // ----- names across creators -----

  /** The part of the name after the cluster's. */
  function Owner(cr: Creator): string {
    cr.kind + ("-" + (cr.namespace + ("-" + cr.name)))
  }

  lemma {:induction false} ResourceNameIs(cluster: string, cr: Creator)
    ensures ResourceName(cluster, cr) == cluster + ("-" + Owner(cr))
  {
  }

  /** A dash-free piece before a dash is told apart from what follows. */
  lemma {:induction false} DashSplits(a: string, b: string, x: string, y: string)
    requires '-' !in a && '-' !in x && a + ("-" + b) == x + ("-" + y)
    ensures a == x && b == y
  {
    var s := a + ("-" + b);
    assert s[|a|] == '-' && s[|x|] == '-';
    assert forall i | 0 <= i < |a| :: s[i] == a[i];
    assert forall i | 0 <= i < |x| :: s[i] == x[i];
    assert |a| == |x|;
    assert a == s[..|a|] && b == s[|a| + 1..] && y == s[|x| + 1..];
  }

  /** `generateVeleroResourceName` says that its names are unique. On one cluster, among all objects of kinds
      without a dash, a name is if and only if neither the namespace nor the name has a dash. */
  lemma {:induction false} VeleroNameUniqueIff(cluster: string, cr: Creator)
    requires '-' !in cr.kind
    ensures (forall other: Creator | '-' !in other.kind && ResourceName(cluster, other) == ResourceName(cluster, cr) ::
               other == cr)
            <==> '-' !in cr.namespace && '-' !in cr.name
  {
    hide ResourceName;
    if '-' !in cr.namespace && '-' !in cr.name {
      forall other: Creator | '-' !in other.kind && ResourceName(cluster, other) == ResourceName(cluster, cr)
        ensures other == cr
      {
        SameOwner(cluster, other, cr);
        DashSplits(other.kind, other.namespace + ("-" + other.name), cr.kind, cr.namespace + ("-" + cr.name));
        OneDash(other.namespace, other.name, cr.namespace, cr.name);
      }
    } else {
      var other := Confused(cr);
      SameName(cluster, other, cr);
      assert other != cr;
    }
  }

  lemma {:induction false} SameOwner(cluster: string, a: Creator, b: Creator)
    requires ResourceName(cluster, a) == ResourceName(cluster, b)
    ensures Owner(a) == Owner(b)
  {
    hide Owner;
    ResourceNameIs(cluster, a);
    ResourceNameIs(cluster, b);
    assert (cluster + ("-" + Owner(a)))[|cluster| + 1..] == Owner(a);
    assert (cluster + ("-" + Owner(b)))[|cluster| + 1..] == Owner(b);
  }

  lemma {:induction false} SameName(cluster: string, a: Creator, b: Creator)
    requires Owner(a) == Owner(b)
    ensures ResourceName(cluster, a) == ResourceName(cluster, b)
  {
    hide Owner;
    ResourceNameIs(cluster, a);
    ResourceNameIs(cluster, b);
  }

  lemma {:induction false} OneDash(a: string, b: string, x: string, y: string)
    requires '-' !in x && '-' !in y && a + ("-" + b) == x + ("-" + y)
    ensures a == x && b == y
  {
    var s := x + ("-" + y);
    assert s[|a|] == '-';
    assert forall i | 0 <= i < |s| && i != |x| :: s[i] in x || s[i] in y;
    assert |a| == |x|;
    assert a == s[..|a|] && b == s[|a| + 1..] && y == s[|x| + 1..];
  }

  /** Another namespace and name that read the same. */
  lemma {:induction false} Confused(cr: Creator) returns (other: Creator)
    requires '-' in cr.namespace || '-' in cr.name
    ensures other != cr && other.kind == cr.kind && Owner(other) == Owner(cr)
  {
    var a, b := cr.namespace, cr.name;
    if '-' in b {
      var i :| 0 <= i < |b| && b[i] == '-';
      var p, q := b[..i], b[i + 1..];
      assert b == p + ("-" + q);
      other := cr.(namespace := a + ("-" + p), name := q);
      assert a + ("-" + (p + ("-" + q))) == (a + ("-" + p)) + ("-" + q);
    } else {
      var i :| 0 <= i < |a| && a[i] == '-';
      var p, q := a[..i], a[i + 1..];
      assert a == p + ("-" + q);
      other := cr.(namespace := p, name := q + ("-" + b));
      assert (p + ("-" + q)) + ("-" + b) == p + ("-" + (q + ("-" + b)));
    }
  }

  // ----- the merge on values -----

  /** The status index: the last detail of each key. */
  function Index(ds: seq<Detail>): map<string, nat> {
    if ds == [] then map[]
    else
      var n := |ds| - 1;
      Index(ds[..n])[IndexKey(ds[n].key, ds[n].resource) := n]
  }

  function MergeOne(ds: seq<Detail>, index: map<string, nat>, k: ClusterKey, s: VeleroStatus,
                    cr: Creator): seq<Detail> {
    var key := KeyFor(k, cr);
    if key in index && index[key] < |ds| then ds[index[key] := ds[index[key]].(status := Some(s))]
    else ds + [Detail(k, ResourceName(k.name, cr), Some(s))]
  }

  /** The merge loop over the destinations in the order the map yields them; it stops at the first
      destination whose object cannot be fetched. */
  function MergeFrom(ds: seq<Detail>, index: map<string, nat>, dests: seq<ClusterKey>, observed: Statuses,
                     cr: Creator): (seq<Detail>, bool)
    decreases dests
  {
    if dests == [] then (ds, true)
    else if dests[0] !in observed then (ds, false)
    else MergeFrom(MergeOne(ds, index, dests[0], observed[dests[0]], cr), index, dests[1..], observed, cr)
  }

  function Merge(ds: seq<Detail>, dests: seq<ClusterKey>, observed: Statuses,
                 cr: Creator): (seq<Detail>, bool) {
    MergeFrom(ds, Index(ds), dests, observed, cr)
  }

  /** `allRestoreCompleted` and `allBackupsCompleted`. */
  predicate AllCompleted(ds: seq<Detail>) {
    forall i | 0 <= i < |ds| :: ds[i].status.Some? && ds[i].status.value.phase == COMPLETED
  }

  // ----- the index keys tell clusters apart -----

  lemma {:induction false} IndexKeyParts(k: ClusterKey, cr: Creator)
    requires PlainKey(k) && PlainCreator(cr)
    ensures var s, n := KeyFor(k, cr), |k.name|;
            && |s| == 2 * n + 2 + |k.kind| + |Tail(cr)| && s[..n] == k.name
            && (forall i | 0 <= i <= n :: !Upper(s[i]))
            && (k.kind == "" ==> LowerCase(s))
            && (k.kind != "" ==> Upper(s[n + 1]) && s[n + 1] == k.kind[0])
  {
    var t := k.name + Tail(cr);
    var s := KeyFor(k, cr);
    assert LowerCase(t);
    var u := k.kind + ("-" + t);
    assert s == k.name + ("-" + u);
    assert k.kind == "" ==> u == "-" + t;
    assert k.kind != "" ==> s[|k.name| + 1] == k.kind[0];
    assert k.kind != "" ==> k.kind[0] == 'C' || k.kind[0] == 'A';
  }

  /** For one creator, no two clusters share an index key. */
  lemma {:induction false} IndexKeysInjective(k: ClusterKey, l: ClusterKey, cr: Creator)
    requires PlainKey(k) && PlainKey(l) && PlainCreator(cr) && KeyFor(k, cr) == KeyFor(l, cr)
    ensures k == l
  {
    IndexKeyParts(k, cr);
    IndexKeyParts(l, cr);
    hide KeyFor, PlainCreator, Tail;
    assert k.kind == "" || l.kind == "" ==> k.kind == l.kind;
    assert |k.name| == |l.name|;
    assert k.kind in ["", "Cluster", "AttachedCluster"] && l.kind in ["", "Cluster", "AttachedCluster"];
    assert "Cluster"[0] == 'C' && "AttachedCluster"[0] == 'A';
  }

  // ----- the merge refines a map update -----

  /** Details of this creator, each cluster at most once. */
  ghost predicate Consistent(ds: seq<Detail>, cr: Creator) {
    && (forall i | 0 <= i < |ds| :: PlainKey(ds[i].key) && ds[i].resource == ResourceName(ds[i].key.name, cr))
    && (forall i, j | 0 <= i < j < |ds| :: ds[i].key != ds[j].key)
  }

  /** What the details say, as a map. */
  function AsMap(ds: seq<Detail>): map<ClusterKey, Option<VeleroStatus>> {
    if ds == [] then map[] else AsMap(ds[..|ds| - 1])[ds[|ds| - 1].key := ds[|ds| - 1].status]
  }

  function Observations(dests: seq<ClusterKey>, observed: Statuses): map<ClusterKey, Option<VeleroStatus>> {
    map k | k in dests && k in observed :: Some(observed[k])
  }

  predicate DistinctKeys(ks: seq<ClusterKey>) {
    forall i, j | 0 <= i < j < |ks| :: ks[i] != ks[j]
  }

  /** What a merge starts from. */
  ghost predicate Mergeable(ds: seq<Detail>, dests: seq<ClusterKey>, cr: Creator) {
    && Consistent(ds, cr) && PlainCreator(cr) && DistinctKeys(dests)
    && forall i | 0 <= i < |dests| :: PlainKey(dests[i])
  }

  lemma {:induction false} AsMapAt(ds: seq<Detail>, cr: Creator, k: ClusterKey)
    requires Consistent(ds, cr)
    ensures k in AsMap(ds) <==> exists i :: 0 <= i < |ds| && ds[i].key == k
    ensures forall i | 0 <= i < |ds| && ds[i].key == k :: k in AsMap(ds) && AsMap(ds)[k] == ds[i].status
  {
    hide PlainKey, ResourceName;
    if ds != [] {
      var n := |ds| - 1;
      AsMapAt(ds[..n], cr, k);
      assert ds[n].key == k ==> exists i :: 0 <= i < |ds| && ds[i].key == k;
      assert forall i | 0 <= i < n :: ds[..n][i] == ds[i];
    }
  }

  lemma {:induction false} IndexAt(ds: seq<Detail>, cr: Creator, k: ClusterKey)
    requires Consistent(ds, cr) && PlainKey(k) && PlainCreator(cr)
    ensures KeyFor(k, cr) in Index(ds) <==> exists i :: 0 <= i < |ds| && ds[i].key == k
    ensures forall i | 0 <= i < |ds| && ds[i].key == k :: KeyFor(k, cr) in Index(ds) && Index(ds)[KeyFor(k, cr)] == i
  {
    hide PlainKey, ResourceName, PlainCreator, IndexKey;
    if ds != [] {
      var n := |ds| - 1;
      IndexAt(ds[..n], cr, k);
      assert forall i | 0 <= i < n :: ds[..n][i] == ds[i];
      if IndexKey(ds[n].key, ds[n].resource) == KeyFor(k, cr) {
        IndexKeysInjective(ds[n].key, k, cr);
      }
      assert ds[n].key == k ==> exists i :: 0 <= i < |ds| && ds[i].key == k;
    }
  }

  lemma {:induction false} AsMapUpdate(ds: seq<Detail>, cr: Creator, i: nat, s: Option<VeleroStatus>)
    requires Consistent(ds, cr) && i < |ds|
    ensures Consistent(ds[i := ds[i].(status := s)], cr)
    ensures AsMap(ds[i := ds[i].(status := s)]) == AsMap(ds)[ds[i].key := s]
  {
    hide PlainKey, ResourceName, AsMap;
    var ds' := ds[i := ds[i].(status := s)];
    assert forall j | 0 <= j < |ds| :: ds'[j].key == ds[j].key && ds'[j].resource == ds[j].resource;
    assert Consistent(ds', cr);
    forall k: ClusterKey ensures k in AsMap(ds') <==> k in AsMap(ds)[ds[i].key := s]
      ensures k in AsMap(ds') && k in AsMap(ds)[ds[i].key := s] ==> AsMap(ds')[k] == AsMap(ds)[ds[i].key := s][k]
    {
      AsMapAt(ds, cr, k);
      AsMapAt(ds', cr, k);
      if k in AsMap(ds') {
        var j :| 0 <= j < |ds'| && ds'[j].key == k;
        assert ds[j].key == k;
      }
      if k in AsMap(ds) {
        var j :| 0 <= j < |ds| && ds[j].key == k;
        assert ds'[j].key == k;
      }
    }
  }

  /** One destination: its entry is set, whether it was there or not, and no other changes. */
  lemma {:induction false} MergeOneRefines(ds: seq<Detail>, index: map<string, nat>, was: seq<Detail>, k: ClusterKey,
                                           s: VeleroStatus, cr: Creator)
    requires Consistent(ds, cr) && Consistent(was, cr) && PlainKey(k) && PlainCreator(cr) && index == Index(was)
    requires |was| <= |ds| && forall i | 0 <= i < |was| :: ds[i].key == was[i].key
    requires forall i | |was| <= i < |ds| :: ds[i].key != k
    ensures var ds' := MergeOne(ds, index, k, s, cr);
            && Consistent(ds', cr) && AsMap(ds') == AsMap(ds)[k := Some(s)]
            && |ds| <= |ds'| <= |ds| + 1 && (forall i | 0 <= i < |ds| :: ds'[i].key == ds[i].key)
            && (|ds'| == |ds| + 1 ==> ds'[|ds|].key == k)
  {
    hide PlainKey, ResourceName, PlainCreator, KeyFor, Index;
    IndexAt(was, cr, k);
    var ds' := MergeOne(ds, index, k, s, cr);
    if exists i :: 0 <= i < |was| && was[i].key == k {
      var i :| 0 <= i < |was| && was[i].key == k;
      AsMapUpdate(ds, cr, i, Some(s));
    } else {
      assert ds' == ds + [Detail(k, ResourceName(k.name, cr), Some(s))];
      forall i | 0 <= i < |ds| ensures ds[i].key != k { if i < |was| { assert was[i].key == ds[i].key; } }
      assert ds'[..|ds|] == ds;
    }
  }

  lemma {:induction false} MergeFromRefines(ds: seq<Detail>, was: seq<Detail>, dests: seq<ClusterKey>,
                                            observed: Statuses, cr: Creator)
    requires Consistent(ds, cr) && Consistent(was, cr) && PlainCreator(cr) && DistinctKeys(dests)
    requires forall i | 0 <= i < |dests| :: PlainKey(dests[i])
    requires |was| <= |ds| && forall i | 0 <= i < |was| :: ds[i].key == was[i].key
    requires forall i, j | |was| <= i < |ds| && 0 <= j < |dests| :: ds[i].key != dests[j]
    ensures var r := MergeFrom(ds, Index(was), dests, observed, cr);
            && Consistent(r.0, cr) && |ds| <= |r.0| && (forall i | 0 <= i < |ds| :: r.0[i].key == ds[i].key)
            && (r.1 <==> forall i | 0 <= i < |dests| :: dests[i] in observed)
            && (r.1 ==> AsMap(r.0) == AsMap(ds) + Observations(dests, observed))
    decreases dests
  {
    hide PlainKey, PlainCreator, MergeOne, Index, AsMap, Consistent, Observations;
    if dests == [] {
      NoObservations(AsMap(ds), dests, observed);
    } else if dests[0] in observed {
      var k, s := dests[0], observed[dests[0]];
      MergeOneRefines(ds, Index(was), was, k, s, cr);
      var ds' := MergeOne(ds, Index(was), k, s, cr);
      var rest := dests[1..];
      assert forall j | 0 <= j < |rest| :: rest[j] == dests[j + 1];
      MergeFromRefines(ds', was, rest, observed, cr);
      FirstObservation(AsMap(ds), dests, observed);
    }
  }

  lemma {:induction false} NoObservations(m: map<ClusterKey, Option<VeleroStatus>>, dests: seq<ClusterKey>,
                                          observed: Statuses)
    requires dests == []
    ensures m + Observations(dests, observed) == m
  {
  }

  lemma {:induction false} FirstObservation(m: map<ClusterKey, Option<VeleroStatus>>, dests: seq<ClusterKey>,
                                            observed: Statuses)
    requires dests != [] && dests[0] in observed
    ensures m[dests[0] := Some(observed[dests[0]])] + Observations(dests[1..], observed)
            == m + Observations(dests, observed)
  {
    assert forall k :: k in dests <==> k == dests[0] || k in dests[1..];
  }

  // ----- main results -----

  /** Merging refines a map update: it succeeds exactly when every destination's object was fetched, and
      then the details, still one per cluster, say what they said before plus this observation of every
      destination. */
  lemma {:induction false} MergeRefinesMapUpdate(ds: seq<Detail>, dests: seq<ClusterKey>, observed: Statuses,
                                                 cr: Creator)
    requires Mergeable(ds, dests, cr)
    ensures var r := Merge(ds, dests, observed, cr);
            && Consistent(r.0, cr)
            && (r.1 <==> forall i | 0 <= i < |dests| :: dests[i] in observed)
            && (r.1 ==> AsMap(r.0) == AsMap(ds) + Observations(dests, observed))
  {
    hide PlainKey, PlainCreator, MergeFrom, Index, AsMap, Consistent;
    MergeFromRefines(ds, ds, dests, observed, cr);
  }

  /** The order in which the map of destinations is walked does not matter. */
  lemma {:induction false} OrderDoesNotMatter(ds: seq<Detail>, dests: seq<ClusterKey>, other: seq<ClusterKey>,
                                              observed: Statuses, cr: Creator)
    requires Consistent(ds, cr) && PlainCreator(cr) && DistinctKeys(dests) && DistinctKeys(other)
    requires forall i | 0 <= i < |dests| :: PlainKey(dests[i]) && dests[i] in other
    requires forall i | 0 <= i < |other| :: PlainKey(other[i]) && other[i] in dests
    ensures var r, r' := Merge(ds, dests, observed, cr), Merge(ds, other, observed, cr);
            r.1 == r'.1 && (r.1 ==> AsMap(r.0) == AsMap(r'.0))
  {
    hide PlainKey, PlainCreator, Merge, AsMap, Consistent;
    MergeRefinesMapUpdate(ds, dests, observed, cr);
    MergeRefinesMapUpdate(ds, other, observed, cr);
    assert forall k :: k in dests <==> k in other;
    assert Observations(dests, observed) == Observations(other, observed);
  }

  lemma {:induction false} MergeFromIdle(ds: seq<Detail>, dests: seq<ClusterKey>, observed: Statuses, cr: Creator)
    requires Consistent(ds, cr) && PlainCreator(cr)
    requires forall i | 0 <= i < |dests| ::
               PlainKey(dests[i]) && dests[i] in observed && dests[i] in AsMap(ds)
               && AsMap(ds)[dests[i]] == Some(observed[dests[i]])
    ensures MergeFrom(ds, Index(ds), dests, observed, cr) == (ds, true)
    decreases dests
  {
    hide PlainKey, PlainCreator, Index, AsMap, KeyFor, ResourceName;
    if dests != [] {
      var k := dests[0];
      AsMapAt(ds, cr, k);
      IndexAt(ds, cr, k);
      var i :| 0 <= i < |ds| && ds[i].key == k;
      assert ds[i := ds[i].(status := Some(observed[k]))] == ds;
      assert forall j | 0 <= j < |dests[1..]| :: dests[1..][j] == dests[j + 1];
      MergeFromIdle(ds, dests[1..], observed, cr);
    }
  }

  /** Merging the same observations again, in any order, changes nothing, not even the order. */
  lemma {:induction false} MergeIsIdempotent(ds: seq<Detail>, dests: seq<ClusterKey>, again: seq<ClusterKey>,
                                             observed: Statuses, cr: Creator)
    requires Mergeable(ds, dests, cr)
    requires Merge(ds, dests, observed, cr).1 && forall i | 0 <= i < |again| :: again[i] in dests
    ensures Merge(Merge(ds, dests, observed, cr).0, again, observed, cr) == (Merge(ds, dests, observed, cr).0, true)
  {
    hide PlainKey, PlainCreator, MergeFrom, Index, AsMap, Consistent;
    MergeRefinesMapUpdate(ds, dests, observed, cr);
    var ds' := Merge(ds, dests, observed, cr).0;
    forall i | 0 <= i < |again|
      ensures PlainKey(again[i]) && again[i] in observed && again[i] in AsMap(ds')
              && AsMap(ds')[again[i]] == Some(observed[again[i]])
    {
      assert again[i] in dests;
      var j :| 0 <= j < |dests| && dests[j] == again[i];
      assert again[i] in Observations(dests, observed);
    }
    MergeFromIdle(ds', again, observed, cr);
  }

  /** Completion is sound: when the merge goes through and every detail is completed, every destination
      was observed completed by this very merge. It is exact: the only other way to miss completion is
      an older detail of a cluster that is no longer a destination. */
  lemma {:induction false} CompletionIsSound(ds: seq<Detail>, dests: seq<ClusterKey>, observed: Statuses, cr: Creator)
    requires Mergeable(ds, dests, cr)
    ensures var r := Merge(ds, dests, observed, cr);
            r.1 && AllCompleted(r.0) <==>
              && (forall i | 0 <= i < |dests| :: dests[i] in observed && observed[dests[i]].phase == COMPLETED)
              && (forall i | 0 <= i < |ds| && ds[i].key !in dests ::
                    ds[i].status.Some? && ds[i].status.value.phase == COMPLETED)
  {
    hide PlainKey, PlainCreator, MergeFrom, Index, AsMap;
    MergeRefinesMapUpdate(ds, dests, observed, cr);
    var r := Merge(ds, dests, observed, cr);
    CompletedAsMap(ds, cr);
    CompletedAsMap(r.0, cr);
    if r.1 {
      var obs := Observations(dests, observed);
      assert forall i | 0 <= i < |dests| :: dests[i] in obs && AsMap(r.0)[dests[i]] == Some(observed[dests[i]]);
      forall i | 0 <= i < |ds| && ds[i].key !in dests
        ensures ds[i].key in AsMap(r.0) && AsMap(r.0)[ds[i].key] == ds[i].status
      {
        AsMapAt(ds, cr, ds[i].key);
      }
      forall k | k in AsMap(r.0) && k !in dests
        ensures exists i :: 0 <= i < |ds| && ds[i].key == k && ds[i].status == AsMap(r.0)[k]
      {
        AsMapAt(ds, cr, k);
      }
    }
  }

  lemma {:induction false} CompletedAsMap(ds: seq<Detail>, cr: Creator)
    requires Consistent(ds, cr)
    ensures AllCompleted(ds) <==>
              forall k | k in AsMap(ds) :: AsMap(ds)[k].Some? && AsMap(ds)[k].value.phase == COMPLETED
  {
    hide AsMap, PlainKey, ResourceName;
    forall i | 0 <= i < |ds| ensures ds[i].key in AsMap(ds) && AsMap(ds)[ds[i].key] == ds[i].status {
      AsMapAt(ds, cr, ds[i].key);
    }
    if AllCompleted(ds) {
      forall k | k in AsMap(ds) ensures AsMap(ds)[k].Some? && AsMap(ds)[k].value.phase == COMPLETED {
        AsMapAt(ds, cr, k);
        var i :| 0 <= i < |ds| && ds[i].key == k;
        assert ds[i].status == AsMap(ds)[k];
      }
    } else {
      var i :| 0 <= i < |ds| && !(ds[i].status.Some? && ds[i].status.value.phase == COMPLETED);
      assert AsMap(ds)[ds[i].key] == ds[i].status;
    }
  }

  // ----- runs, and what an error costs -----

  /** What a Restore or Migrate keeps: on an error the function returns nil, and the caller stores it. */
  function Stored(r: (seq<Detail>, bool)): seq<Detail> {
    if r.1 then r.0 else []
  }

  /** A sync loses no detail if and only if every destination could be read, or there was none to lose. */
  lemma {:induction false} LosesNothingIff(ds: seq<Detail>, dests: seq<ClusterKey>, observed: Statuses, cr: Creator)
    requires Mergeable(ds, dests, cr)
    ensures AsMap(ds).Keys <= AsMap(Stored(Merge(ds, dests, observed, cr))).Keys <==>
            (forall i | 0 <= i < |dests| :: dests[i] in observed) || ds == []
  {
    hide PlainKey, PlainCreator, MergeFrom, Index, Consistent;
    MergeRefinesMapUpdate(ds, dests, observed, cr);
    if ds != [] { assert ds[|ds| - 1].key in AsMap(ds); }
  }

  datatype Round = Round(dests: seq<ClusterKey>, observed: Statuses)

  ghost predicate PlainRound(r: Round) {
    DistinctKeys(r.dests) && forall i | 0 <= i < |r.dests| :: PlainKey(r.dests[i])
  }

  predicate FullyObserved(r: Round) {
    forall i | 0 <= i < |r.dests| :: r.dests[i] in r.observed
  }

  function Rounds(rs: seq<Round>, cr: Creator): seq<Detail> {
    if rs == [] then []
    else
      var last := rs[|rs| - 1];
      Stored(Merge(Rounds(rs[..|rs| - 1], cr), last.dests, last.observed, cr))
  }

  /** The latest observation of every cluster since the last round that failed. */
  function Latest(rs: seq<Round>): map<ClusterKey, Option<VeleroStatus>> {
    if rs == [] then map[]
    else
      var last := rs[|rs| - 1];
      if FullyObserved(last) then Latest(rs[..|rs| - 1]) + Observations(last.dests, last.observed) else map[]
  }

  /** From an empty start, after any number of syncs with any destinations and failures, the details name
      each cluster once and say exactly the latest observation of every cluster synced since the last
      failure. */
  lemma {:induction false} RunsRecordLatest(rs: seq<Round>, cr: Creator)
    requires PlainCreator(cr) && forall i | 0 <= i < |rs| :: PlainRound(rs[i])
    ensures Consistent(Rounds(rs, cr), cr) && AsMap(Rounds(rs, cr)) == Latest(rs)
  {
    hide PlainCreator, Merge, PlainKey, ResourceName;
    if rs != [] {
      var n := |rs| - 1;
      RunsRecordLatest(rs[..n], cr);
      assert PlainRound(rs[n]);
      MergeRefinesMapUpdate(Rounds(rs[..n], cr), rs[n].dests, rs[n].observed, cr);
    }
  }

  /** A merge that stops half-way still lists every cluster it listed before, once. */
  lemma {:induction false} PartialMergeKeeps(ds: seq<Detail>, dests: seq<ClusterKey>, observed: Statuses, cr: Creator)
    requires Mergeable(ds, dests, cr)
    ensures var ds' := Merge(ds, dests, observed, cr).0;
            Consistent(ds', cr) && AsMap(ds).Keys <= AsMap(ds').Keys
  {
    hide PlainKey, PlainCreator, MergeFrom, Index, AsMap, Consistent;
    MergeFromRefines(ds, ds, dests, observed, cr);
    var ds' := Merge(ds, dests, observed, cr).0;
    forall k | k in AsMap(ds) ensures k in AsMap(ds') {
      AsMapAt(ds, cr, k);
      AsMapAt(ds', cr, k);
      var i :| 0 <= i < |ds| && ds[i].key == k;
      assert ds'[i].key == k;
    }
  }

  // ----- migrate phases -----

  datatype MigratePhase = NoPhase | Waiting | BackupInProgress | RestoreInProgress | Finished

  /** What one reconcile of a Migrate met: did the backup stage pass, were the targets fetched, and is
      every target's restore completed. */
  datatype MigrateRound = MigrateRound(backupPassed: bool, targetsFetched: bool, allCompleted: bool)

  function NextPhase(p: MigratePhase, r: MigrateRound): MigratePhase {
    var p' := if p == NoPhase || p == Waiting then BackupInProgress else p;
    if !r.backupPassed || !r.targetsFetched then p'
    else if r.allCompleted then Finished
    else if p' != BackupInProgress then RestoreInProgress else p'
  }

  function PhaseAfter(rs: seq<MigrateRound>): MigratePhase {
    if rs == [] then NoPhase else NextPhase(PhaseAfter(rs[..|rs| - 1]), rs[|rs| - 1])
  }

  predicate Finishes(r: MigrateRound) {
    r.backupPassed && r.targetsFetched && r.allCompleted
  }

  /** The phase of a Migrate after any run is Finished or RestoreInProgress exactly when some round
      finished it: the guard of the restore stage never leaves BackupInProgress. */
  lemma {:induction false} RestorePhaseOnlyAfterFinished(rs: seq<MigrateRound>)
    ensures PhaseAfter(rs) == RestoreInProgress || PhaseAfter(rs) == Finished <==>
              exists i :: 0 <= i < |rs| && Finishes(rs[i])
  {
    if rs != [] {
      var n := |rs| - 1;
      var before := rs[..n];
      RestorePhaseOnlyAfterFinished(before);
      if exists i :: 0 <= i < |before| && Finishes(before[i]) {
        var i :| 0 <= i < |before| && Finishes(before[i]);
        assert Finishes(rs[i]);
      }
      assert forall i | 0 <= i < n :: rs[i] == before[i];
      assert Finishes(rs[n]) ==> exists i :: 0 <= i < |rs| && Finishes(rs[i]);
    }
  }
}
