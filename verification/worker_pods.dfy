/** The worker pods of every custom cluster in one list, told apart by the UID of their owner, and the
    configmap names that keep clusters apart. */
module WorkerPods {
  import opened CustomCluster

  datatype Pod = Pod(owner: nat, action: Action, worker: Worker)

  /** The position of the first pod with this owner and action label, or the length of the list. */
  function Find(pods: seq<Pod>, uid: nat, a: Action): (i: nat)
    ensures i <= |pods|
    ensures i < |pods| ==> pods[i].owner == uid && pods[i].action == a
  {
    if pods == [] || (pods[0].owner == uid && pods[0].action == a) then 0 else 1 + Find(pods[1..], uid, a)
  }

  lemma {:induction false} FindFirst(pods: seq<Pod>, uid: nat, a: Action)
    ensures forall k | 0 <= k < Find(pods, uid, a) :: !(pods[k].owner == uid && pods[k].action == a)
  {
    if pods != [] && !(pods[0].owner == uid && pods[0].action == a) {
      FindFirst(pods[1..], uid, a);
      assert forall k | 1 <= k < |pods| :: pods[k] == pods[1..][k - 1];
    }
  }

  /** Each cluster has at most one worker per action. */
  ghost predicate OnePerAction(pods: seq<Pod>) {
    forall i, j | 0 <= i < j < |pods| :: !(pods[i].owner == pods[j].owner && pods[i].action == pods[j].action)
  }

  ghost function WorkersOf(pods: seq<Pod>, uid: nat): map<Action, Worker> {
    map a: Action | Find(pods, uid, a) < |pods| :: pods[Find(pods, uid, a)].worker
  }

  /** The pods of everybody else. */
  ghost function Others(pods: seq<Pod>, uid: nat): seq<Pod> {
    if pods == [] then [] else (if pods[0].owner == uid then [] else [pods[0]]) + Others(pods[1..], uid)
  }

  function Without(pods: seq<Pod>, i: nat): seq<Pod>
    requires i < |pods|
  {
    pods[..i] + pods[i + 1..]
  }

  /** With one pod per action, the pod with a given owner and action is the one that is found. */
  lemma {:induction false} FindIs(pods: seq<Pod>, i: nat)
    requires OnePerAction(pods) && i < |pods|
    ensures Find(pods, pods[i].owner, pods[i].action) == i
  {
    hide Find;
    var j := Find(pods, pods[i].owner, pods[i].action);
    FindFirst(pods, pods[i].owner, pods[i].action);
    assert j <= i;
  }

  lemma {:induction false} FindNone(pods: seq<Pod>, uid: nat, a: Action)
    requires forall k | 0 <= k < |pods| :: !(pods[k].owner == uid && pods[k].action == a)
    ensures Find(pods, uid, a) == |pods|
  {
    hide Find;
  }

  lemma {:induction false} NoWorkers(pods: seq<Pod>, uid: nat)
    requires forall p | p in pods :: p.owner != uid
    ensures WorkersOf(pods, uid) == map[]
  {
    hide Find;
    assert forall a :: Find(pods, uid, a) == |pods|;
  }

  /** Creating a worker where none was found adds that worker, to its owner only. */
  lemma {:induction false} CreatedPod(pods: seq<Pod>, uid: nat, a: Action, w: Worker)
    requires OnePerAction(pods) && Find(pods, uid, a) == |pods|
    ensures var pods' := pods + [Pod(uid, a, w)];
            OnePerAction(pods') && WorkersOf(pods', uid) == WorkersOf(pods, uid)[a := w]
            && Others(pods', uid) == Others(pods, uid)
  {
    hide Find, Others;
    var p := Pod(uid, a, w);
    var pods' := pods + [p];
    FindFirst(pods, uid, a);
    OthersConcat(pods, [p], uid);
    OthersOwn(p, uid);
    assert OnePerAction(pods');
    forall b: Action ensures b == a ==> Find(pods', uid, b) == |pods|
      ensures b != a ==>
                if Find(pods, uid, b) < |pods| then Find(pods', uid, b) == Find(pods, uid, b)
                else Find(pods', uid, b) == |pods'|
    {
      var i := Find(pods, uid, b);
      if b == a {
        FindIs(pods', |pods|);
      } else if i < |pods| {
        FindIs(pods', i);
      } else {
        FindFirst(pods, uid, b);
        FindNone(pods', uid, b);
      }
    }
  }

  lemma {:induction false} OthersOwn(p: Pod, uid: nat)
    ensures Others([p], uid) == if p.owner == uid then [] else [p]
  {
    assert [p][1..] == [];
    assert Others([p][1..], uid) == [];
  }

  /** Deleting the worker that was found removes that worker and nobody else's. */
  lemma {:induction false} DeletedPod(pods: seq<Pod>, uid: nat, a: Action)
    requires OnePerAction(pods) && Find(pods, uid, a) < |pods|
    ensures var pods' := Without(pods, Find(pods, uid, a));
            OnePerAction(pods') && WorkersOf(pods', uid) == WorkersOf(pods, uid) - {a}
            && Others(pods', uid) == Others(pods, uid)
  {
    hide Find, Others, Without;
    var i := Find(pods, uid, a);
    OthersWithout(pods, i, uid);
    WithoutOnePerAction(pods, i);
    forall b: Action ensures var pods' := Without(pods, i);
                             && (b == a || Find(pods, uid, b) == |pods| ==> Find(pods', uid, b) == |pods'|)
                             && (b != a && Find(pods, uid, b) < |pods| ==>
                                   Find(pods', uid, b) < |pods'|
                                   && pods'[Find(pods', uid, b)] == pods[Find(pods, uid, b)])
    {
      FindWithout(pods, i, uid, b);
    }
  }

  /** Whatever becomes of a worker, its owner finds it as it is now, and nobody else is concerned. */
  lemma {:induction false} ChangedPod(pods: seq<Pod>, uid: nat, a: Action, w: Worker)
    requires OnePerAction(pods) && Find(pods, uid, a) < |pods|
    ensures var i := Find(pods, uid, a);
            var pods' := pods[i := Pod(uid, a, w)];
            OnePerAction(pods') && WorkersOf(pods', uid) == WorkersOf(pods, uid)[a := w]
            && Others(pods', uid) == Others(pods, uid)
  {
    hide Find, Others;
    var i := Find(pods, uid, a);
    var pods' := pods[i := Pod(uid, a, w)];
    assert OnePerAction(pods');
    assert Without(pods, i) == Without(pods', i);
    OthersWithout(pods, i, uid);
    OthersWithout(pods', i, uid);
    FindIs(pods', i);
    forall b: Action ensures Find(pods', uid, b) == Find(pods, uid, b) {
      var j := Find(pods, uid, b);
      if j < |pods| {
        assert j == i ==> b == a;
        FindIs(pods', j);
      } else {
        FindFirst(pods, uid, b);
        FindNone(pods', uid, b);
      }
    }
  }

  lemma {:induction false} WithoutOnePerAction(pods: seq<Pod>, i: nat)
    requires OnePerAction(pods) && i < |pods|
    ensures OnePerAction(Without(pods, i))
  {
    var pods' := Without(pods, i);
    forall j, k | 0 <= j < k < |pods'|
      ensures !(pods'[j].owner == pods'[k].owner && pods'[j].action == pods'[k].action)
    {
      var j', k' := if j < i then j else j + 1, if k < i then k else k + 1;
      assert pods'[j] == pods[j'] && pods'[k] == pods[k'];
    }
  }

  lemma {:induction false} FindWithout(pods: seq<Pod>, i: nat, uid: nat, b: Action)
    requires OnePerAction(pods) && i < |pods| && pods[i].owner == uid
    ensures var j, pods' := Find(pods, uid, b), Without(pods, i);
            && (b == pods[i].action || j == |pods| ==> Find(pods', uid, b) == |pods'|)
            && (b != pods[i].action && j < |pods| ==>
                  Find(pods', uid, b) < |pods'| && pods'[Find(pods', uid, b)] == pods[j])
  {
    hide Find;
    var j, pods' := Find(pods, uid, b), Without(pods, i);
    WithoutOnePerAction(pods, i);
    if b == pods[i].action || j == |pods| {
      FindFirst(pods, uid, b);
      forall k | 0 <= k < |pods'| ensures !(pods'[k].owner == uid && pods'[k].action == b) {
        assert pods'[k] == if k < i then pods[k] else pods[k + 1];
      }
      FindNone(pods', uid, b);
    } else {
      FindIs(pods', if j < i then j else j - 1);
    }
  }

  lemma {:induction false} OthersWithout(pods: seq<Pod>, i: nat, uid: nat)
    requires i < |pods| && pods[i].owner == uid
    ensures Others(Without(pods, i), uid) == Others(pods, uid)
  {
    hide Others;
    OthersConcat(pods[..i], pods[i + 1..], uid);
    assert pods == pods[..i] + ([pods[i]] + pods[i + 1..]);
    OthersConcat(pods[..i], [pods[i]] + pods[i + 1..], uid);
    OthersConcat([pods[i]], pods[i + 1..], uid);
    OthersOwn(pods[i], uid);
  }

  lemma {:induction false} OthersConcat(a: seq<Pod>, b: seq<Pod>, uid: nat)
    ensures Others(a + b, uid) == Others(a, uid) + Others(b, uid)
  {
    if a == [] {
      assert a + b == b;
    } else {
      assert (a + b)[1..] == a[1..] + b;
      OthersConcat(a[1..], b, uid);
    }
  }

  /** Both lists give the same answer to a cluster looking for its worker. */
  ghost predicate SameFound(pods: seq<Pod>, pods': seq<Pod>, u: nat, a: Action) {
    var i, j := Find(pods, u, a), Find(pods', u, a);
    (i < |pods| <==> j < |pods'|) && (i < |pods| && j < |pods'| ==> pods'[j] == pods[i])
  }

  lemma {:induction false} SameFoundCons(p: Pod, pods: seq<Pod>, pods': seq<Pod>, u: nat, a: Action)
    requires SameFound(pods, pods', u, a)
    ensures SameFound([p] + pods, [p] + pods', u, a)
    ensures p.owner != u ==> SameFound([p] + pods, pods', u, a)
  {
    FindCons(p, pods, u, a);
    FindCons(p, pods', u, a);
    hide Find;
  }

  /** Dropping the pods of `uid` leaves the pod that any other cluster finds. */
  lemma {:induction false} OthersKeepWorkers(pods: seq<Pod>, uid: nat, u: nat, a: Action)
    requires u != uid
    ensures SameFound(pods, Others(pods, uid), u, a)
  {
    hide SameFound, Find;
    if pods == [] {
      SameFoundNil(u, a);
    } else {
      var rest := Others(pods[1..], uid);
      OthersKeepWorkers(pods[1..], uid, u, a);
      SameFoundCons(pods[0], pods[1..], rest, u, a);
      assert pods == [pods[0]] + pods[1..];
      assert Others(pods, uid) == if pods[0].owner == uid then rest else [pods[0]] + rest;
    }
  }

  lemma {:induction false} SameFoundNil(u: nat, a: Action)
    ensures SameFound([], [], u, a)
  {
  }

  lemma {:induction false} FindCons(p: Pod, pods: seq<Pod>, u: nat, a: Action)
    ensures Find([p] + pods, u, a) == if p.owner == u && p.action == a then 0 else 1 + Find(pods, u, a)
  {
    assert ([p] + pods)[1..] == pods;
  }

  lemma {:induction false} SameOthersSameWorkers(pods: seq<Pod>, pods': seq<Pod>, uid: nat, u: nat)
    requires u != uid && Others(pods, uid) == Others(pods', uid)
    ensures WorkersOf(pods, u) == WorkersOf(pods', u)
  {
    forall a: Action ensures Find(pods, u, a) < |pods| <==> Find(pods', u, a) < |pods'|
      ensures Find(pods, u, a) < |pods| && Find(pods', u, a) < |pods'| ==>
                pods[Find(pods, u, a)] == pods'[Find(pods', u, a)]
    {
      OthersKeepWorkers(pods, uid, u, a);
      OthersKeepWorkers(pods', uid, u, a);
    }
  }

  // ----- configmap names -----

  datatype ObjectKey = ObjectKey(namespace: string, name: string)

  function Suffix(n: MapName): string {
    match n
    case HostsMap => "-cluster-hosts"
    case ConfigMap => "-cluster-config"
    case ScaleUpMap => "-cluster-hosts-scale-up"
  }

  function MapKey(c: ObjectKey, n: MapName): ObjectKey {
    ObjectKey(c.namespace, c.name + Suffix(n))
  }

  /** No two configmaps of any clusters share a name. */
  lemma {:induction false} MapKeysDistinct(c: ObjectKey, n: MapName, d: ObjectKey, m: MapName)
    requires MapKey(c, n) == MapKey(d, m)
    ensures c == d && n == m
  {
    var k, s, t := c.name + Suffix(n), Suffix(n), Suffix(m);
    assert k == d.name + t;
    assert k[|k| - 1] == s[|s| - 1] == t[|t| - 1];
    assert n == m;
    assert c.name == k[..|k| - |s|] == d.name;
  }

  /** The configmaps of one cluster, and those of everybody else. */
  ghost function MapsOf(maps: map<ObjectKey, string>, c: ObjectKey): map<MapName, string> {
    map n: MapName | MapKey(c, n) in maps :: maps[MapKey(c, n)]
  }

  ghost function OtherMaps(maps: map<ObjectKey, string>, c: ObjectKey): map<ObjectKey, string> {
    maps - (set n: MapName :: MapKey(c, n))
  }

  lemma {:induction false} MapStored(maps: map<ObjectKey, string>, c: ObjectKey, n: MapName, data: string)
    ensures var maps' := maps[MapKey(c, n) := data];
            MapsOf(maps', c) == MapsOf(maps, c)[n := data] && OtherMaps(maps', c) == OtherMaps(maps, c)
  {
    hide MapKey;
    forall m: MapName | MapKey(c, n) == MapKey(c, m) ensures n == m { MapKeysDistinct(c, n, c, m); }
  }

  lemma {:induction false} MapRemoved(maps: map<ObjectKey, string>, c: ObjectKey, n: MapName)
    ensures var maps' := maps - {MapKey(c, n)};
            MapsOf(maps', c) == MapsOf(maps, c) - {n} && OtherMaps(maps', c) == OtherMaps(maps, c)
  {
    hide MapKey;
    forall m: MapName | MapKey(c, n) == MapKey(c, m) ensures n == m { MapKeysDistinct(c, n, c, m); }
  }

  /** What leaves everybody else's configmaps alone leaves every other cluster's configmaps alone. */
  lemma {:induction false} SameOthersSameMaps(maps: map<ObjectKey, string>, maps': map<ObjectKey, string>, c: ObjectKey,
                                              d: ObjectKey)
    requires c != d && OtherMaps(maps, c) == OtherMaps(maps', c)
    ensures MapsOf(maps, d) == MapsOf(maps', d)
  {
    hide MapKey;
    forall n: MapName ensures MapKey(d, n) in maps <==> MapKey(d, n) in maps'
      ensures MapKey(d, n) in maps && MapKey(d, n) in maps' ==> maps[MapKey(d, n)] == maps'[MapKey(d, n)]
    {
      var k := MapKey(d, n);
      forall m: MapName ensures k != MapKey(c, m) { if k == MapKey(c, m) { MapKeysDistinct(d, n, c, m); } }
      assert k in maps <==> k in OtherMaps(maps, c);
      assert k in maps' <==> k in OtherMaps(maps', c);
    }
  }
}
