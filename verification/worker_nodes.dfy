/** Which nodes a scaling worker handles, and the kubespray commands that tell it so. */
module WorkerNodes {
  import opened Text
  import opened Inventory

  /** The nodes of `second` whose name is not used in `first`, in the order of `second`. */
  function Additional(first: seq<NodeInfo>, second: seq<NodeInfo>): seq<NodeInfo> {
    if second == [] then []
    else (if second[0].name in NameSet(first) then [] else [second[0]]) + Additional(first, second[1..])
  }

  const KUBESPRAY_PREFIX := "ansible-playbook -i inventory/cluster-hosts --private-key /root/.ssh/ssh-privatekey "
  const INIT_CMD := KUBESPRAY_PREFIX + "cluster.yml -vvv "
  const TERMINATE_CMD := KUBESPRAY_PREFIX + "reset.yml -vvv -e reset_confirmation=yes"
  const SCALE_UP_CMD := KUBESPRAY_PREFIX + "scale.yml -vvv "
  const SCALE_DOWN_PREFIX := KUBESPRAY_PREFIX + "remove-node.yml -vvv -e skip_confirmation=yes"
  const UPGRADE_PREFIX := KUBESPRAY_PREFIX + "upgrade-cluster.yml -vvv "
  const NODE_ARG := " --extra-vars \"node="
  const VERSION_ARG := " -e kube_version=v"

  function ScaleDownCmd(ns: seq<NodeInfo>): string {
    if ns == [] then "" else SCALE_DOWN_PREFIX + (NODE_ARG + (Join(Names(ns), ",") + "\" "))
  }

  /** The hosts a remove-node command acts on: its quoted `node=` argument split at commas. */
  function CommandNodes(cmd: string): seq<string> {
    if SCALE_DOWN_PREFIX + NODE_ARG <= cmd
    then Split(Split(cmd[|SCALE_DOWN_PREFIX + NODE_ARG|..], ["\""])[0], [","])
    else []
  }

  function UpgradeCmd(version: string): string {
    if version == "" then "" else UPGRADE_PREFIX + (VERSION_ARG + TrimPrefix(version, "v"))
  }

  /** A version with its leading `v`, as kubespray is told it. */
  function WithV(version: string): string {
    "v" + TrimPrefix(version, "v")
  }

  /** The version an upgrade command installs. */
  function CommandVersion(cmd: string): string {
    if UPGRADE_PREFIX + VERSION_ARG <= cmd then "v" + cmd[|UPGRADE_PREFIX + VERSION_ARG|..] else ""
  }

  // ----- the difference -----

  lemma {:induction false} AdditionalNames(first: seq<NodeInfo>, second: seq<NodeInfo>)
    ensures NameSet(Additional(first, second)) == NameSet(second) - NameSet(first)
    ensures Additional(first, second) == [] <==> NameSet(second) <= NameSet(first)
  {
    var d := Additional(first, second);
    if second == [] {
      assert NameSet(d) == {};
    } else {
      AdditionalNames(first, second[1..]);
      var x, rest := second[0], Additional(first, second[1..]);
      NameSetCons(x, second[1..]);
      assert [x] + second[1..] == second;
      if x.name !in NameSet(first) {
        NameSetCons(x, rest);
      } else {
        assert d == rest;
      }
      assert d == [] ==> NameSet(second) - NameSet(first) == {};
      assert d != [] ==> d[0].name in NameSet(d);
    }
  }

  lemma {:induction false} NameSetCons(x: NodeInfo, ns: seq<NodeInfo>)
    ensures NameSet([x] + ns) == {x.name} + NameSet(ns)
  {
    var all := [x] + ns;
    assert forall i | 0 <= i < |ns| :: all[i + 1] == ns[i];
    assert all[0] == x;
  }

  lemma {:induction false} NameSetConcat(a: seq<NodeInfo>, b: seq<NodeInfo>)
    ensures NameSet(a + b) == NameSet(a) + NameSet(b)
  {
    assert forall i | 0 <= i < |b| :: (a + b)[|a| + i] == b[i];
    assert forall i | 0 <= i < |a| :: (a + b)[i] == a[i];
  }

  /** The difference inherits plain and distinct names, keeps the order and drops only known names. */
  lemma {:induction false} AdditionalKeeps(first: seq<NodeInfo>, second: seq<NodeInfo>)
    ensures PlainNodes(second) ==> PlainNodes(Additional(first, second))
    ensures DistinctNames(second) ==> DistinctNames(Additional(first, second))
    ensures forall i | 0 <= i < |Additional(first, second)| :: Additional(first, second)[i] in second
    ensures forall i | 0 <= i < |Additional(first, second)| :: Additional(first, second)[i].name !in NameSet(first)
  {
    if second != [] {
      hide PlainNode;
      AdditionalKeeps(first, second[1..]);
      var x, rest := second[0], Additional(first, second[1..]);
      assert forall i | 0 <= i < |rest| :: rest[i] in second[1..];
    }
  }

  // ----- the commands -----

  /** A scale-down command names exactly the nodes it was made for, in order. */
  lemma {:induction false} ScaleDownCmdRoundTrip(ns: seq<NodeInfo>)
    requires ns != [] && PlainNodes(ns)
    ensures CommandNodes(ScaleDownCmd(ns)) == Names(ns)
  {
    var names := Names(ns);
    forall j, i | 0 <= j < |names| && 0 <= i < |names[j]| ensures names[j][i] != ',' && names[j][i] != '"' {
      assert PlainNode(ns[j]);
    }
    var list, cmd, p := Join(names, ","), ScaleDownCmd(ns), SCALE_DOWN_PREFIX + NODE_ARG;
    ArgumentTail(SCALE_DOWN_PREFIX, NODE_ARG, list + "\" ");
    QuoteEnds(names);
    SplitJoin(names, ',');
    assert [','] == ",";
  }

  lemma {:induction false} ArgumentTail(p: string, a: string, rest: string)
    ensures var cmd := p + (a + rest); p + a <= cmd && cmd[|p + a|..] == rest
  {
    assert p + (a + rest) == (p + a) + rest;
  }

  lemma {:induction false} QuoteEnds(names: seq<string>)
    requires forall j, i | 0 <= j < |names| && 0 <= i < |names[j]| :: names[j][i] != '"'
    ensures Split(Join(names, ",") + "\" ", ["\""])[0] == Join(names, ",")
  {
    var list := Join(names, ",");
    JoinAvoids(names, ',', '"');
    assert [','] == ",";
    HeadFreeQuiet(list, "\"" + " ", ["\""], {'"'});
    SplitCut(list, 0, " ", ["\""]);
    assert "\"" + " " == "\" ";
  }

  lemma {:induction false} JoinAvoids(names: seq<string>, c: char, q: char)
    requires c != q && forall j, i | 0 <= j < |names| && 0 <= i < |names[j]| :: names[j][i] != q
    ensures forall i | 0 <= i < |Join(names, [c])| :: Join(names, [c])[i] != q
  {
    if |names| > 1 {
      assert forall j | 0 <= j < |names[1..]| :: names[1..][j] == names[j + 1];
      JoinAvoids(names[1..], c, q);
    }
  }

  /** An upgrade command installs the version it was made for. */
  lemma {:induction false} UpgradeCmdRoundTrip(version: string)
    requires version != ""
    ensures CommandVersion(UpgradeCmd(version)) == WithV(version)
  {
    ArgumentTail(UPGRADE_PREFIX, VERSION_ARG, TrimPrefix(version, "v"));
  }

  lemma {:induction false} JoinSnoc(names: seq<string>, x: string, sep: string)
    requires names != []
    ensures Join(names + [x], sep) == Join(names, sep) + (sep + x)
  {
    if |names| == 1 {
      assert (names + [x])[1..] == [x];
    } else {
      assert (names + [x])[1..] == names[1..] + [x];
      JoinSnoc(names[1..], x, sep);
      assert names[0] + (sep + (Join(names[1..], sep) + (sep + x)))
             == (names[0] + (sep + Join(names[1..], sep))) + (sep + x);
    }
  }

  // ----- the loops of the operator -----

  /** `findAdditionalWorkerNodes`. */
  method FindAdditionalWorkerNodes(first: seq<NodeInfo>, second: seq<NodeInfo>) returns (more: seq<NodeInfo>)
    ensures more == Additional(first, second)
    ensures NameSet(more) == NameSet(second) - NameSet(first)
  {
    AdditionalNames(first, second);
    more := [];
    if |second| == 0 { return; }
    if |first| == 0 {
      NothingKnown(first, second);
      more := more + second;
      return;
    }
    var known := KnownNames(first);
    hide NameSet;
    for i := 0 to |second|
      invariant more + Additional(first, second[i..]) == Additional(first, second)
    {
      assert second[i..][0] == second[i] && second[i..][1..] == second[i + 1..];
      if second[i].name !in known {
        more := more + [second[i]];
      }
    }
  }

  /** The map that `findAdditionalWorkerNodes` builds first. */
  method KnownNames(ns: seq<NodeInfo>) returns (known: set<string>)
    ensures known == NameSet(ns)
  {
    known := {};
    for i := 0 to |ns|
      invariant known == NameSet(ns[..i])
    {
      assert ns[..i + 1] == ns[..i] + [ns[i]];
      NameSetConcat(ns[..i], [ns[i]]);
      NameSetCons(ns[i], []);
      assert [ns[i]] + [] == [ns[i]];
      known := known + {ns[i].name};
    }
    assert ns[..|ns|] == ns;
  }

  lemma {:induction false} NothingKnown(first: seq<NodeInfo>, second: seq<NodeInfo>)
    requires first == []
    ensures Additional(first, second) == second
  {
    if second != [] {
      NothingKnown(first, second[1..]);
    }
  }

  /** `generateScaleDownManageCMD`. */
  method GenerateScaleDownManageCMD(ns: seq<NodeInfo>) returns (cmd: string)
    ensures cmd == ScaleDownCmd(ns)
    ensures ns != [] && PlainNodes(ns) ==> CommandNodes(cmd) == Names(ns)
  {
    hide Join, CommandNodes;
    if ns != [] && PlainNodes(ns) { ScaleDownCmdRoundTrip(ns); }
    if |ns| == 0 { return ""; }
    var list := CommaSeparated(ns);
    cmd := SCALE_DOWN_PREFIX + (NODE_ARG + (list + "\" "));
  }

  /** The loop of `generateScaleDownManageCMD`. */
  method CommaSeparated(ns: seq<NodeInfo>) returns (list: string)
    requires ns != []
    ensures list == Join(Names(ns), ",")
  {
    ghost var names := Names(ns);
    list := ns[0].name;
    assert names[..1] == [names[0]];
    for i := 1 to |ns|
      invariant list == Join(names[..i], ",")
    {
      assert names[..i + 1] == names[..i] + [names[i]];
      JoinSnoc(names[..i], names[i], ",");
      list := list + ("," + ns[i].name);
    }
    assert names[..|ns|] == names;
  }
}
