/** Which clusters carry a fleet's label: the fleet controller labels the clusters of the fleet's spec
    and takes the label from those that left it. */
module FleetClusters {

  datatype Kind = ClusterKind | AttachedClusterKind

  datatype Key = Key(kind: Kind, name: string)

  /** The empty label stands for none. */
  datatype Cluster = Cluster(fleet: string, ready: bool)

  datatype Entry = Entry(kind: string, name: string)

  type Clusters = map<Key, Cluster>

  // ----- names in Karmada -----

  function Suffix(kind: Kind): string {
    match kind
    case ClusterKind => "-cluster"
    case AttachedClusterKind => "-attachedcluster"
  }

  const MAX_NAME := 63

  /** `generateClusterNameInKarmada`. */
  function KarmadaName(k: Key): string {
    var name := k.name + Suffix(k.kind);
    if |name| > MAX_NAME then name[..MAX_NAME] else name
  }

  predicate Fits(k: Key) {
    |k.name| + |Suffix(k.kind)| <= MAX_NAME
  }

  /** Clusters whose names fit have distinct Karmada names, also across kinds. */
  lemma {:induction false} FittingNamesDistinct(a: Key, b: Key)
    requires Fits(a) && Fits(b) && KarmadaName(a) == KarmadaName(b)
    ensures a == b
  {
    var s, t := a.name + Suffix(a.kind), b.name + Suffix(b.kind);
    assert s == t;
    assert s[|s| - 8] == Suffix(a.kind)[|Suffix(a.kind)| - 8];
    assert t[|t| - 8] == Suffix(b.kind)[|Suffix(b.kind)| - 8];
    assert Suffix(ClusterKind)[0] == '-' && Suffix(AttachedClusterKind)[8] == 'd';
    assert a.kind == b.kind;
    assert s[..|a.name|] == a.name && t[..|b.name|] == b.name;
  }

  /** Exactly the names that stay below the limit can be confused with no other cluster whatsoever. */
  lemma {:induction false} UniqueNameIff(k: Key)
    ensures (forall other | KarmadaName(other) == KarmadaName(k) :: other == k) <==>
              |k.name| + |if k.kind == ClusterKind then "-cluster" else "-attachedcluster"| < 63
  {
    if |k.name| + |Suffix(k.kind)| < MAX_NAME {
      forall other | KarmadaName(other) == KarmadaName(k) ensures other == k {
        FittingNamesDistinct(other, k);
      }
    } else {
      var name := KarmadaName(k);
      var other := Key(ClusterKind, name + if |k.name| == MAX_NAME + 1 then "xx" else "x");
      assert |other.name| != |k.name|;
      assert (other.name + Suffix(other.kind))[..MAX_NAME] == name;
      assert KarmadaName(other) == name && other != k;
    }
  }

  // ----- labels -----

  /** `getFleetClusterInterface`: the kinds it knows. */
  predicate Supported(e: Entry) {
    e.kind == "Cluster" || e.kind == "" || e.kind == "AttachedCluster"
  }

  function KeyOf(e: Entry): Key {
    Key(if e.kind == "AttachedCluster" then AttachedClusterKind else ClusterKind, e.name)
  }

  /** The clusters of the spec that exist. */
  function Members(spec: seq<Entry>, cs: Clusters): set<Key> {
    set i | 0 <= i < |spec| && KeyOf(spec[i]) in cs :: KeyOf(spec[i])
  }

  function Names(ks: set<Key>): set<string> {
    set k | k in ks :: KarmadaName(k)
  }

  function Labelled(cs: Clusters, fleet: string): set<Key> {
    set k | k in cs && cs[k].fleet == fleet
  }

  function ReadyCount(spec: seq<Entry>, cs: Clusters): nat {
    if spec == [] then 0
    else
      var e := spec[|spec| - 1];
      ReadyCount(spec[..|spec| - 1], cs) + if KeyOf(e) in cs && cs[KeyOf(e)].ready then 1 else 0
  }

  /** The label a cluster should end with: members get the fleet's; of the others, those that carry it
      lose it, unless a member has the same Karmada name. */
  function Goal(spec: seq<Entry>, fleet: string, cs: Clusters, k: Key): string
    requires k in cs
  {
    if k in Members(spec, cs) then fleet
    else if cs[k].fleet == fleet && KarmadaName(k) !in Names(Members(spec, cs)) then ""
    else cs[k].fleet
  }

  /** Only labels differ. */
  ghost predicate SameButLabels(cs: Clusters, cs': Clusters) {
    cs'.Keys == cs.Keys && forall k | k in cs :: cs'[k].ready == cs[k].ready
  }

  ghost predicate Done(spec: seq<Entry>, fleet: string, cs: Clusters, cs': Clusters) {
    SameButLabels(cs, cs') && forall k | k in cs :: cs'[k].fleet == Goal(spec, fleet, cs, k)
  }

  /** Members lose the fleet's label, nothing else changes. */
  ghost predicate Cleared(spec: seq<Entry>, fleet: string, cs: Clusters, cs': Clusters) {
    && SameButLabels(cs, cs')
    && forall k | k in cs ::
         cs'[k].fleet == if k in Members(spec, cs) && cs[k].fleet == fleet then "" else cs[k].fleet
  }

  /** Members carry the fleet's label, nothing else changes. */
  ghost predicate Joined(spec: seq<Entry>, fleet: string, cs: Clusters, cs': Clusters) {
    && SameButLabels(cs, cs')
    && forall k | k in cs :: if k in Members(spec, cs) then cs'[k].fleet == fleet else cs'[k] == cs[k]
  }

  /** Some of them do. */
  ghost predicate SomeJoined(spec: seq<Entry>, fleet: string, cs: Clusters, cs': Clusters) {
    && SameButLabels(cs, cs')
    && forall k | k in cs :: cs'[k] == cs[k] || (k in Members(spec, cs) && cs'[k].fleet == fleet)
  }

  /** Nothing changes but labels of members that carry the fleet's. */
  ghost predicate OnlyMarked(spec: seq<Entry>, fleet: string, cs: Clusters, cs': Clusters) {
    && SameButLabels(cs, cs')
    && forall k | k in cs && !(k in Members(spec, cs) && cs[k].fleet == fleet) :: cs'[k] == cs[k]
  }

  /** No marked cluster outside the spec shares its Karmada name with a member. */
  ghost predicate Uncovered(spec: seq<Entry>, fleet: string, cs: Clusters) {
    forall k | k in Labelled(cs, fleet) && KarmadaName(k) in Names(Members(spec, cs)) :: k in Members(spec, cs)
  }

  /** Every cluster is as before or has reached its goal. */
  ghost predicate Partial(spec: seq<Entry>, fleet: string, cs: Clusters, cs': Clusters) {
    && SameButLabels(cs, cs')
    && forall k | k in cs :: cs'[k].fleet == cs[k].fleet || cs'[k].fleet == Goal(spec, fleet, cs, k)
  }

  /** An entry of the spec names the cluster; without a kind it means a Cluster. */
  ghost predicate Named(spec: seq<Entry>, k: Key) {
    exists i :: 0 <= i < |spec| && spec[i].name == k.name && match k.kind
      case ClusterKind => spec[i].kind == "Cluster" || spec[i].kind == ""
      case AttachedClusterKind => spec[i].kind == "AttachedCluster"
  }

  /** The members are the clusters that are there and named. */
  lemma {:induction false} MembersAreNamed(spec: seq<Entry>, cs: Clusters, k: Key)
    requires forall e | e in spec :: Supported(e)
    ensures k in Members(spec, cs) <==> k in cs && Named(spec, k)
  {
    if k in Members(spec, cs) {
      var i :| 0 <= i < |spec| && KeyOf(spec[i]) == k;
      assert spec[i] in spec;
    }
    if k in cs && Named(spec, k) {
      var i :| 0 <= i < |spec| && spec[i].name == k.name && match k.kind
        case ClusterKind => spec[i].kind == "Cluster" || spec[i].kind == ""
        case AttachedClusterKind => spec[i].kind == "AttachedCluster";
      assert KeyOf(spec[i]) == k;
    }
  }

  /** The entries whose cluster is there and ready. */
  function ReadyEntries(spec: seq<Entry>, cs: Clusters): set<nat> {
    set i | 0 <= i < |spec| && KeyOf(spec[i]) in cs && cs[KeyOf(spec[i])].ready
  }

  lemma {:induction false} ReadyCountIs(spec: seq<Entry>, cs: Clusters)
    ensures ReadyCount(spec, cs) == |ReadyEntries(spec, cs)|
  {
    hide KeyOf;
    if spec != [] {
      var n := |spec| - 1;
      var before, after := ReadyEntries(spec[..n], cs), ReadyEntries(spec, cs);
      ReadyCountIs(spec[..n], cs);
      assert forall i | 0 <= i < n :: spec[..n][i] == spec[i];
      assert after == before + if KeyOf(spec[n]) in cs && cs[KeyOf(spec[n])].ready then {n} else {};
    }
  }

  // ----- how many calls it takes -----

  /** The members that do not carry the label yet. */
  function Joining(spec: seq<Entry>, fleet: string, cs: Clusters): nat {
    |Members(spec, cs) - Labelled(cs, fleet)|
  }

  /** The members that do. */
  function Marked(spec: seq<Entry>, fleet: string, cs: Clusters): nat {
    |Members(spec, cs) * Labelled(cs, fleet)|
  }

  /** The clusters that carry the label and that no member's name covers. */
  function Leaving(fleet: string, names: set<string>, cs: Clusters): set<Key> {
    set k | k in Labelled(cs, fleet) && KarmadaName(k) !in names
  }

  /** One update for each, after one unjoin if there is a control plane. */
  function UnlabelCalls(leaving: set<Key>, controlPlane: bool): nat {
    if controlPlane then 2 * |leaving| else |leaving|
  }

  /** A read per entry and an update per cluster that joins; the control plane's credentials and a join per
      ready cluster; two lists; and what it takes to unlabel the others. */
  function ReconcileCalls(spec: seq<Entry>, fleet: string, cs: Clusters, controlPlane: bool): nat {
    |spec| + Joining(spec, fleet, cs) + (if controlPlane then 1 + ReadyCount(spec, cs) else 0) + 2
    + UnlabelCalls(Leaving(fleet, Names(Members(spec, cs)), cs), controlPlane)
  }

  lemma {:induction false} SubsetSize(a: set<Key>, b: set<Key>)
    requires a <= b
    ensures |a| <= |b|
  {
    assert b == a + (b - a);
  }

  lemma {:induction false} NoCalls(fleet: string, cs: Clusters)
    ensures Joining([], fleet, cs) == 0 && Marked([], fleet, cs) == 0
  {
    EmptyMembers(cs);
    hide Members, Labelled;
  }

  lemma {:induction false} OneMore(before: set<Key>, after: set<Key>, all: set<Key>, k: Key, added: bool)
    requires after == (if added then before + {k} else before) && after <= all
    ensures |after| == |before| + if added && k !in before then 1 else 0
    ensures |before| <= |after| <= |all|
  {
    SubsetSize(after, all);
    assert added && k in before ==> before + {k} == before;
  }

  /** An entry brings one more update, unless it is missing, labelled, or a repetition. */
  lemma {:induction false} JoiningSnoc(spec: seq<Entry>, n: nat, fleet: string, cs: Clusters)
    requires n < |spec|
    ensures var k := KeyOf(spec[n]);
            Joining(spec[..n + 1], fleet, cs) == Joining(spec[..n], fleet, cs)
            + if k in cs && cs[k].fleet != fleet && k !in Members(spec[..n], cs) then 1 else 0
    ensures Joining(spec[..n], fleet, cs) <= Joining(spec[..n + 1], fleet, cs) <= Joining(spec, fleet, cs)
  {
    hide KeyOf, Members, ReadyCount, KarmadaName;
    MembersSnoc(spec, n, cs);
    var k, marked := KeyOf(spec[n]), Labelled(cs, fleet);
    OneMore(Members(spec[..n], cs) - marked, Members(spec[..n + 1], cs) - marked, Members(spec, cs) - marked,
            k, k in cs && cs[k].fleet != fleet);
  }

  lemma {:induction false} MarkedSnoc(spec: seq<Entry>, n: nat, fleet: string, cs: Clusters)
    requires n < |spec|
    ensures var k := KeyOf(spec[n]);
            Marked(spec[..n + 1], fleet, cs) == Marked(spec[..n], fleet, cs)
            + if k in cs && cs[k].fleet == fleet && k !in Members(spec[..n], cs) then 1 else 0
    ensures Marked(spec[..n], fleet, cs) <= Marked(spec[..n + 1], fleet, cs) <= Marked(spec, fleet, cs)
  {
    hide KeyOf, Members, ReadyCount, KarmadaName;
    MembersSnoc(spec, n, cs);
    var k, marked := KeyOf(spec[n]), Labelled(cs, fleet);
    OneMore(Members(spec[..n], cs) * marked, Members(spec[..n + 1], cs) * marked, Members(spec, cs) * marked,
            k, k in cs && cs[k].fleet == fleet);
  }

  lemma {:induction false} UnlabelStep(leaving: set<Key>, rest: set<Key>, k: Key, controlPlane: bool)
    requires k in rest
    ensures var one := UnlabelCalls({k}, controlPlane);
            && UnlabelCalls(leaving - (rest - {k}), controlPlane)
               == UnlabelCalls(leaving - rest, controlPlane) + (if k in leaving then one else 0)
            && one == (if controlPlane then 2 else 1)
    ensures UnlabelCalls(leaving - (rest - {k}), controlPlane) <= UnlabelCalls(leaving, controlPlane)
  {
    assert leaving - (rest - {k}) == (leaving - rest) + if k in leaving then {k} else {};
    SubsetSize(leaving - (rest - {k}), leaving);
  }

  lemma {:induction false} UnlabelEnds(leaving: set<Key>, all: set<Key>, controlPlane: bool)
    requires leaving <= all
    ensures UnlabelCalls(leaving - all, controlPlane) == 0
    ensures UnlabelCalls(leaving - {}, controlPlane) == UnlabelCalls(leaving, controlPlane)
  {
    assert leaving - all == {} && leaving - {} == leaving;
  }

  // ----- the controller -----

  class FleetManager {
    var clusters: Clusters
    /** The API calls that will succeed before the next one fails; `lost` says whether the failing call
        still takes effect. */
    var budget: nat
    var lost: bool

    constructor (clusters: Clusters, budget: nat, lost: bool)
      ensures this.clusters == clusters && this.budget == budget && this.lost == lost
    {
      this.clusters, this.budget, this.lost := clusters, budget, lost;
    }

    /** A call without effect on clusters: a read, a list, a join, an unjoin. */
    method Call() returns (ok: bool)
      modifies this`budget
      ensures ok == (old(budget) > 0) && budget == if ok then old(budget) - 1 else 0
    {
      ok := budget > 0;
      if ok { budget := budget - 1; }
    }

    method Label(k: Key, fleet: string) returns (ok: bool)
      requires k in clusters
      modifies this`budget, this`clusters
      ensures ok == (old(budget) > 0) && budget == if ok then old(budget) - 1 else 0
      ensures clusters == if ok || lost then old(clusters)[k := old(clusters)[k].(fleet := fleet)] else old(clusters)
    {
      ok := Call();
      if ok || lost { clusters := clusters[k := clusters[k].(fleet := fleet)]; }
    }

    /** The first loop: label the members, collect their Karmada names, count. */
    method LabelMembers(spec: seq<Entry>, fleet: string)
      returns (ok: bool, names: set<string>, ready: seq<Key>, unready: nat)
      modifies this`budget, this`clusters
      ensures ok <==>
              (forall e | e in spec :: Supported(e)) && old(budget) >= |spec| + Joining(spec, fleet, old(clusters))
      ensures ok ==> budget == old(budget) - |spec| - Joining(spec, fleet, old(clusters))
      ensures ok ==> names == Names(Members(spec, old(clusters)))
      ensures ok ==> |ready| == ReadyCount(spec, old(clusters)) && |ready| + unready == |spec|
      ensures SomeJoined(spec, fleet, old(clusters), clusters)
      ensures ok ==> Joined(spec, fleet, old(clusters), clusters)
    {
      hide Joined, SomeJoined, KarmadaName, KeyOf, Supported, Members, Names, ReadyCount, Joining;
      ghost var was := clusters;
      EmptyMembers(was);
      NoCalls(fleet, was);
      assert spec[..0] == [];
      NoneJoined(spec, fleet, was);
      names, ready, unready, ok := {}, [], 0, true;
      for n := 0 to |spec|
        invariant SomeJoined(spec, fleet, was, clusters) && Joined(spec[..n], fleet, was, clusters)
        invariant forall e | e in spec[..n] :: Supported(e)
        invariant names == Names(Members(spec[..n], was))
        invariant |ready| == ReadyCount(spec[..n], was) && |ready| + unready == n
        invariant budget + n + Joining(spec[..n], fleet, was) == old(budget)
      {
        var key := KeyOf(spec[n]);
        MembersSnoc(spec, n, was);
        NamesSnoc(Members(spec[..n], was), key);
        JoiningSnoc(spec, n, fleet, was);
        JoinedSnoc(spec, n, fleet, was, clusters);
        if !Supported(spec[n]) { return false, names, ready, unready; }
        ok := Call();
        if !ok { return; }
        if key !in clusters {
          unready := unready + 1;
          continue;
        }
        names := names + {KarmadaName(key)};
        if clusters[key].fleet != fleet {
          ok := Label(key, fleet);
          if !ok { return; }
        }
        if clusters[key].ready { ready := ready + [key]; } else { unready := unready + 1; }
      }
      assert spec[..|spec|] == spec;
    }

    /** The last loop: take the label from the listed clusters that no member's name covers. */
    method UnlabelOthers(fleet: string, names: set<string>, controlPlane: bool) returns (ok: bool)
      requires fleet != ""
      modifies this`budget, this`clusters
      ensures ok <==> old(budget) >= UnlabelCalls(Leaving(fleet, names, old(clusters)), controlPlane)
      ensures SameButLabels(old(clusters), clusters)
      ensures forall k | k in clusters ::
                var gone := old(clusters)[k].fleet == fleet && KarmadaName(k) !in names;
                || (clusters[k] == old(clusters)[k] && !(ok && gone))
                || (clusters[k].fleet == "" && gone)
    {
      hide KarmadaName, UnlabelCalls;
      ghost var was, leaving := clusters, Leaving(fleet, names, clusters);
      var rest := Labelled(clusters, fleet);
      UnlabelEnds(leaving, rest, controlPlane);
      ok := true;
      while rest != {}
        invariant SameButLabels(was, clusters) && rest <= Labelled(was, fleet)
        invariant forall k | k in clusters ::
                    if k in Labelled(was, fleet) - rest && KarmadaName(k) !in names then clusters[k].fleet == ""
                    else clusters[k] == was[k]
        invariant budget + UnlabelCalls(leaving - rest, controlPlane) == old(budget)
        decreases rest
      {
        var k :| k in rest;
        UnlabelStep(leaving, rest, k, controlPlane);
        if KarmadaName(k) !in names {
          if controlPlane {
            ok := Call();
            if !ok { return; }
          }
          if clusters[k].fleet == fleet {
            ok := Label(k, "");
            if !ok { return; }
          }
        }
        rest := rest - {k};
      }
    }

    /** On success every label has reached its goal and every entry of the spec is counted once; a failed
        attempt leaves each cluster as it was or at its goal. */
    method ReconcileClusters(spec: seq<Entry>, fleet: string, controlPlane: bool)
      returns (ok: bool, readyCount: nat, unready: nat)
      requires fleet != ""
      modifies this`budget, this`clusters
      ensures ok <==>
              && (forall e | e in spec :: Supported(e))
              && old(budget) >= ReconcileCalls(spec, fleet, old(clusters), controlPlane)
      ensures Partial(spec, fleet, old(clusters), clusters)
      ensures ok ==> Done(spec, fleet, old(clusters), clusters)
      ensures ok ==> readyCount == |ReadyEntries(spec, old(clusters))| && readyCount + unready == |spec|
      ensures ok ==> forall k | k in clusters ::
                if Named(spec, k) then clusters[k].fleet == fleet
                else clusters[k].fleet == old(clusters)[k].fleet
                     || (old(clusters)[k].fleet == fleet && clusters[k].fleet == "")
      ensures ok ==>
                (Labelled(clusters, fleet) == Members(spec, old(clusters)) <==> Uncovered(spec, fleet, old(clusters)))
    {
      hide KarmadaName, KeyOf, Supported, Members, Names, ReadyCount, Labelled, Uncovered, Leaving, Joining;
      hide UnlabelCalls, ReadyEntries, Named;
      ReadyCountIs(spec, clusters);
      var names, ready;
      ok, names, ready, unready := LabelMembers(spec, fleet);
      readyCount := |ready|;
      if !ok { return; }
      label mid:
      if controlPlane {
        ok := Call();
        if !ok { return; }
        for i := 0 to |ready|
          invariant clusters == old@mid(clusters) && budget + 1 + i == old@mid(budget)
        {
          ok := Call();
          if !ok { return; }
        }
      }
      ok := Call();
      if !ok { return; }
      ok := Call();
      if !ok { return; }
      MemberNames(spec, old(clusters));
      LeavingStays(spec, fleet, old(clusters), clusters);
      ok := UnlabelOthers(fleet, names, controlPlane);
      if ok {
        LabelsMarkMembersIff(spec, fleet, old(clusters), clusters);
        NamedLabels(spec, fleet, old(clusters), clusters);
      }
    }

    /** A deleted fleet takes its label only from the clusters its spec still names. */
    method ReconcileClustersOnDelete(spec: seq<Entry>, fleet: string) returns (ok: bool)
      requires fleet != ""
      modifies this`budget, this`clusters
      ensures ok <==>
              (forall e | e in spec :: Supported(e)) && old(budget) >= |spec| + Marked(spec, fleet, old(clusters))
      ensures OnlyMarked(spec, fleet, old(clusters), clusters)
      ensures ok ==> Cleared(spec, fleet, old(clusters), clusters)
    {
      hide KeyOf, Supported, Members, Marked, Cleared, OnlyMarked;
      ghost var was := clusters;
      EmptyMembers(was);
      NoCalls(fleet, was);
      assert spec[..0] == [];
      NothingCleared(spec, fleet, was);
      ok := true;
      for n := 0 to |spec|
        invariant OnlyMarked(spec, fleet, was, clusters) && Cleared(spec[..n], fleet, was, clusters)
        invariant forall e | e in spec[..n] :: Supported(e)
        invariant budget + n + Marked(spec[..n], fleet, was) == old(budget)
      {
        var key := KeyOf(spec[n]);
        MembersSnoc(spec, n, was);
        MarkedSnoc(spec, n, fleet, was);
        ClearedSnoc(spec, n, fleet, was, clusters);
        if !Supported(spec[n]) { return false; }
        ok := Call();
        if !ok { return; }
        if key in clusters && clusters[key].fleet == fleet {
          ok := Label(key, "");
          if !ok { return; }
        }
      }
      assert spec[..|spec|] == spec;
    }
  }

  lemma {:induction false} NoneJoined(spec: seq<Entry>, fleet: string, cs: Clusters)
    ensures Joined([], fleet, cs, cs) && SomeJoined(spec, fleet, cs, cs)
  {
    EmptyMembers(cs);
    hide Members;
  }

  /** One entry more has joined by an update if its cluster lacks the label, else by nothing. */
  lemma {:induction false} JoinedSnoc(spec: seq<Entry>, n: nat, fleet: string, cs: Clusters, cs': Clusters)
    requires n < |spec| && Joined(spec[..n], fleet, cs, cs') && SomeJoined(spec, fleet, cs, cs')
    ensures var k := KeyOf(spec[n]);
            && (k in cs' <==> k in cs) && (k in cs ==> cs'[k].ready == cs[k].ready)
            && if k in cs' && cs'[k].fleet != fleet
               then cs[k].fleet != fleet && k !in Members(spec[..n], cs)
                    && Joined(spec[..n + 1], fleet, cs, cs'[k := cs'[k].(fleet := fleet)])
                    && SomeJoined(spec, fleet, cs, cs'[k := cs'[k].(fleet := fleet)])
               else Joined(spec[..n + 1], fleet, cs, cs')
                    && !(k in cs && cs[k].fleet != fleet && k !in Members(spec[..n], cs))
  {
    hide KeyOf, Members, ReadyCount, KarmadaName;
    MembersSnoc(spec, n, cs);
  }

  lemma {:induction false} NothingCleared(spec: seq<Entry>, fleet: string, cs: Clusters)
    ensures Cleared([], fleet, cs, cs) && OnlyMarked(spec, fleet, cs, cs)
  {
    EmptyMembers(cs);
    hide Members;
  }

  /** One entry more is cleared by an update if its cluster still carries the label, else by nothing. */
  lemma {:induction false} ClearedSnoc(spec: seq<Entry>, n: nat, fleet: string, cs: Clusters, cs': Clusters)
    requires n < |spec| && fleet != "" && Cleared(spec[..n], fleet, cs, cs') && OnlyMarked(spec, fleet, cs, cs')
    ensures var k := KeyOf(spec[n]);
            if k in cs' && cs'[k].fleet == fleet
            then k in cs && cs[k].fleet == fleet && k !in Members(spec[..n], cs)
                 && Cleared(spec[..n + 1], fleet, cs, cs'[k := cs'[k].(fleet := "")])
                 && OnlyMarked(spec, fleet, cs, cs'[k := cs'[k].(fleet := "")])
            else Cleared(spec[..n + 1], fleet, cs, cs')
                 && !(k in cs && cs[k].fleet == fleet && k !in Members(spec[..n], cs))
  {
    hide KeyOf, Members, ReadyCount, KarmadaName;
    MembersSnoc(spec, n, cs);
  }

  lemma {:induction false} MembersSnoc(spec: seq<Entry>, n: nat, cs: Clusters)
    requires n < |spec|
    ensures Members(spec[..n], cs) <= Members(spec[..n + 1], cs) <= Members(spec, cs)
    ensures KeyOf(spec[n]) in cs ==> KeyOf(spec[n]) in Members(spec, cs)
    ensures Members(spec[..n + 1], cs) == Members(spec[..n], cs) + if KeyOf(spec[n]) in cs then {KeyOf(spec[n])} else {}
    ensures spec[..n + 1] == spec[..n] + [spec[n]]
    ensures ReadyCount(spec[..n + 1], cs) ==
            ReadyCount(spec[..n], cs) + if KeyOf(spec[n]) in cs && cs[KeyOf(spec[n])].ready then 1 else 0
  {
    assert spec[..n + 1] == spec[..n] + [spec[n]];
    assert spec[..n + 1][..n] == spec[..n];
    assert forall i | 0 <= i < n :: spec[..n][i] == spec[i] && spec[..n + 1][i] == spec[i];
    forall k | k in Members(spec[..n], cs) ensures k in Members(spec[..n + 1], cs) && k in Members(spec, cs) {
      var i :| 0 <= i < n && KeyOf(spec[..n][i]) == k;
      assert KeyOf(spec[..n + 1][i]) == k && KeyOf(spec[i]) == k;
    }
    assert KeyOf(spec[..n + 1][n]) == KeyOf(spec[n]);
  }

  lemma {:induction false} EmptyMembers(cs: Clusters)
    ensures Members([], cs) == {} && Names({}) == {} && ReadyCount([], cs) == 0
  {
  }

  lemma {:induction false} NamesSnoc(ks: set<Key>, k: Key)
    ensures Names(ks + {k}) == Names(ks) + {KarmadaName(k)}
  {
    hide KarmadaName;
  }

  lemma {:induction false} MemberNames(spec: seq<Entry>, cs: Clusters)
    ensures forall k | k in Members(spec, cs) :: KarmadaName(k) in Names(Members(spec, cs))
  {
  }

  /** Labelling the members changes nothing about who leaves. */
  lemma {:induction false} LeavingStays(spec: seq<Entry>, fleet: string, cs: Clusters, cs': Clusters)
    requires SameButLabels(cs, cs') && forall k | k in cs && k !in Members(spec, cs) :: cs'[k] == cs[k]
    ensures var names := Names(Members(spec, cs)); Leaving(fleet, names, cs') == Leaving(fleet, names, cs)
  {
    MemberNames(spec, cs);
    hide KarmadaName, Members, Names;
  }

  // ----- what it amounts to -----

  /** Failed attempts do not move the goal, so a later success ends where an undisturbed one would. */
  lemma {:induction false} RetriesConverge(spec: seq<Entry>, fleet: string, cs: Clusters, tried: Clusters,
                                           end: Clusters)
    requires fleet != "" && Partial(spec, fleet, cs, tried) && Done(spec, fleet, tried, end)
    ensures Done(spec, fleet, cs, end)
  {
    hide KarmadaName;
    assert Members(spec, tried) == Members(spec, cs);
    forall k | k in cs ensures end[k].fleet == Goal(spec, fleet, cs, k) {
      assert end[k].fleet == Goal(spec, fleet, tried, k);
    }
  }

  /** Any number of failed attempts in a row. */
  lemma {:induction false} AttemptsConverge(spec: seq<Entry>, fleet: string, tries: seq<Clusters>, end: Clusters)
    requires fleet != "" && tries != [] && Done(spec, fleet, tries[|tries| - 1], end)
    requires forall i | 0 < i < |tries| :: Partial(spec, fleet, tries[i - 1], tries[i])
    ensures Done(spec, fleet, tries[0], end)
  {
    hide Done, Partial;
    if |tries| > 1 {
      var n := |tries| - 1;
      assert Partial(spec, fleet, tries[n - 1], tries[n]);
      RetriesConverge(spec, fleet, tries[n - 1], tries[n], end);
      AttemptsConverge(spec, fleet, tries[..n], end);
    }
  }

  /** After a success the label marks exactly the existing clusters of the spec, if and only if none of
      the clusters it marked before shares its Karmada name with one of them without being one. */
  lemma {:induction false} LabelsMarkMembersIff(spec: seq<Entry>, fleet: string, cs: Clusters, cs': Clusters)
    requires fleet != "" && Done(spec, fleet, cs, cs')
    ensures Labelled(cs', fleet) == Members(spec, cs) <==> Uncovered(spec, fleet, cs)
  {
    hide KarmadaName;
    var members := Members(spec, cs);
    assert forall k | k in cs :: cs'[k].fleet == Goal(spec, fleet, cs, k);
    assert members <= Labelled(cs', fleet);
    if k :| k in Labelled(cs, fleet) && KarmadaName(k) in Names(members) && k !in members {
      assert k in Labelled(cs', fleet);
    }
  }

  /** With names that fit, it always does. */
  lemma {:induction false} LabelsMarkMembers(spec: seq<Entry>, fleet: string, cs: Clusters, cs': Clusters)
    requires fleet != "" && Done(spec, fleet, cs, cs') && forall k | k in cs :: Fits(k)
    ensures Labelled(cs', fleet) == Members(spec, cs)
  {
    forall k | k in Labelled(cs, fleet) && KarmadaName(k) in Names(Members(spec, cs)) ensures k in Members(spec, cs) {
      var m :| m in Members(spec, cs) && KarmadaName(m) == KarmadaName(k);
      FittingNamesDistinct(m, k);
    }
    LabelsMarkMembersIff(spec, fleet, cs, cs');
  }

  /** The same, told from the spec: every named cluster carries the label, no other one is given it, and of the
      others only the fleet's own label is taken. */
  lemma {:induction false} NamedLabels(spec: seq<Entry>, fleet: string, cs: Clusters, cs': Clusters)
    requires fleet != "" && Done(spec, fleet, cs, cs') && forall e | e in spec :: Supported(e)
    ensures forall k | k in cs' ::
              if Named(spec, k) then cs'[k].fleet == fleet
              else cs'[k].fleet == cs[k].fleet || (cs[k].fleet == fleet && cs'[k].fleet == "")
  {
    hide KarmadaName, Members, Named, Names;
    forall k | k in cs' ensures k in Members(spec, cs) <==> k in cs && Named(spec, k) { MembersAreNamed(spec, cs, k); }
  }

  /** Deleting a fleet leaves no cluster with its label, exactly when its spec still names every cluster
      that carries it. */
  lemma {:induction false} DeleteClearsIff(spec: seq<Entry>, fleet: string, cs: Clusters, cs': Clusters)
    requires fleet != "" && Cleared(spec, fleet, cs, cs')
    ensures Labelled(cs', fleet) == {} <==> Labelled(cs, fleet) <= Members(spec, cs)
  {
    if k :| k in Labelled(cs, fleet) && k !in Members(spec, cs) {
      assert k in Labelled(cs', fleet);
    }
  }
}
