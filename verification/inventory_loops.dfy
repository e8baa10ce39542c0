/** The loops that print, read and edit the inventory, each against its specification function. */
module InventoryLoops {
  import opened Text
  import opened Inventory

  /** `GetHostsContent`: four slices filled by index, two of them with a running count. */
  method GetHostsContent(m: Machine) returns (c: HostsContent)
    ensures c == Content(m)
    ensures |c.masterName| == |c.etcdNodeName| == |m.masters| && |c.nodeName| == |m.workers|
    ensures |c.nodeAndIP| == |m.masters| + |m.workers|
    ensures forall i | 0 <= i < |m.masters| :: c.masterName[i] == c.etcdNodeName[i] == m.masters[i].name
    ensures forall i | 0 <= i < |m.workers| :: c.nodeName[i] == m.workers[i].name
    ensures forall i | 0 <= i < |m.masters| + |m.workers| ::
              var n := if i < |m.masters| then m.masters[i] else m.workers[i - |m.masters|];
              c.nodeAndIP[i] == n.name + (" ansible_host=" + (n.publicIP + (" ip=" + n.privateIP)))
  {
    hide Entry;
    var masters, workers := |m.masters|, |m.workers|;
    var nodeAndIP := new string[masters + workers];
    var masterName := new string[masters];
    var nodeName := new string[workers];
    var etcdNodeName := new string[masters];
    var count := 0;
    for i := 0 to masters
      invariant count == i
      invariant forall k | 0 <= k < i :: masterName[k] == etcdNodeName[k] == m.masters[k].name
      invariant forall k | 0 <= k < count :: nodeAndIP[k] == Entry((m.masters + m.workers)[k])
    {
      masterName[i] := m.masters[i].name;
      etcdNodeName[count] := m.masters[i].name;
      nodeAndIP[count] := Entry(m.masters[i]);
      count := count + 1;
    }
    for i := 0 to workers
      invariant count == masters + i
      invariant forall k | 0 <= k < masters :: masterName[k] == etcdNodeName[k] == m.masters[k].name
      invariant forall k | 0 <= k < i :: nodeName[k] == m.workers[k].name
      invariant forall k | 0 <= k < count :: nodeAndIP[k] == Entry((m.masters + m.workers)[k])
    {
      nodeName[i] := m.workers[i].name;
      nodeAndIP[count] := Entry(m.workers[i]);
      count := count + 1;
    }
    c := HostsContent(nodeAndIP[..], masterName[..], nodeName[..], etcdNodeName[..]);
    assert c.nodeAndIP == Entries(m.masters + m.workers);
    forall n: NodeInfo ensures Entry(n)
    == n.name + (" ansible_host=" + (n.publicIP + (" ip=" + n.privateIP))) { EntryIs(n); }
    assert c.masterName == Names(m.masters) && c.nodeName == Names(m.workers) && c.etcdNodeName == Names(m.masters);
  }

  lemma {:induction false} EntryIs(n: NodeInfo)
    ensures Entry(n) == n.name + (" ansible_host=" + (n.publicIP + (" ip=" + n.privateIP)))
  {
  }

  lemma {:induction false} NonBlankAt(lines: seq<string>, i: nat)
    requires i < |lines|
    ensures NonBlank(lines[i..]) ==
            if lines[i] == "" then NonBlank(lines[i + 1..]) else [lines[i]] + NonBlank(lines[i + 1..])
  {
    assert lines[i..][1..] == lines[i + 1..];
  }

  lemma {:induction false} ReadEntriesCons(row: string, rest: seq<string>, all: map<string, NodeInfo>)
    ensures ReadEntries([row] + rest, all) ==
            match ReadNode(Trim(row)) case None => None case Some(n) => ReadEntries(rest, all[n.name := n])
  {
    hide Trim, ReadNode;
    assert ([row] + rest)[1..] == rest;
  }

  lemma {:induction false} PickSnoc(rows: seq<string>, row: string, all: map<string, NodeInfo>)
    ensures PickWorkers(rows + [row], all) == PickWorkers(rows, all) + [Lookup(all, Trim(row))]
  {
  }

  /** `getWorkerNodeInfoFromClusterHosts`: `None` stands for its index-out-of-range panics. */
  method GetWorkerNodeInfoFromClusterHosts(text: string) returns (workers: Option<seq<NodeInfo>>)
    ensures workers == ReadWorkers(text)
  {
    hide Split, Trim, ReadNode, ReadEntries, NonBlank, PickWorkers;
    var parts := Split(Trim(text), SECTIONS);
    if |parts| < 4 { return None; }
    var allArr, workerArr := Split(parts[1], NEWLINES), Split(parts[3], NEWLINES);
    var all: map<string, NodeInfo> := map[];
    for i := 0 to |allArr|
      invariant ReadEntries(Rows(parts[1]), map[]) == ReadEntries(NonBlank(allArr[i..]), all)
    {
      NonBlankAt(allArr, i);
      if |allArr[i]| == 0 { continue; }
      ReadEntriesCons(allArr[i], NonBlank(allArr[i + 1..]), all);
      var node := ReadNode(Trim(allArr[i]));
      if node.None? { return None; }
      all := all[node.value.name := node.value];
    }
    assert allArr[|allArr|..] == [];
    NoRows(all);
    var found: seq<NodeInfo> := [];
    ghost var rows: seq<string> := [];
    for i := 0 to |workerArr|
      invariant rows + NonBlank(workerArr[i..]) == Rows(parts[3])
      invariant found == PickWorkers(rows, all)
    {
      NonBlankAt(workerArr, i);
      if |workerArr[i]| == 0 { continue; }
      PickSnoc(rows, workerArr[i], all);
      found := found + [Lookup(all, Trim(workerArr[i]))];
      rows := rows + [workerArr[i]];
    }
    assert workerArr[|workerArr|..] == [];
    assert rows + [] == rows;
    workers := Some(found);
  }

  lemma {:induction false} NoRows(all: map<string, NodeInfo>)
    ensures NonBlank([]) == [] && ReadEntries([], all) == Some(all) && PickWorkers([], all) == []
  {
  }

  lemma {:induction false} LinesSnoc(rows: seq<string>, row: string)
    ensures Lines(rows + [row]) == Lines(rows) + (row + "\n")
  {
    if rows == [] {
      assert rows + [row] == [row] && [row][1..] == [];
      assert Lines([row][1..]) == "";
    } else {
      assert (rows + [row])[1..] == rows[1..] + [row];
      LinesSnoc(rows[1..], row);
    }
  }

  /** `getScaleUpConfigMapData`. */
  method GetScaleUpConfigMapData(text: string, ns: seq<NodeInfo>) returns (edited: Option<string>)
    ensures edited == AddNodes(text, ns)
  {
    hide Split, Entry, Lines;
    var parts := Split(text, EDIT_POINTS);
    var nodeAndIP, nodeName := "\n", "\n";
    assert Lines([]) == "" by { LinesNil(); }
    assert Entries(ns)[..0] == [] && Names(ns)[..0] == [];
    for i := 0 to |ns|
      invariant nodeAndIP == "\n" + Lines(Entries(ns)[..i])
      invariant nodeName == "\n" + Lines(Names(ns)[..i])
    {
      assert Entries(ns)[..i + 1] == Entries(ns)[..i] + [Entry(ns[i])];
      assert Names(ns)[..i + 1] == Names(ns)[..i] + [ns[i].name];
      LinesSnoc(Entries(ns)[..i], Entry(ns[i]));
      LinesSnoc(Names(ns)[..i], ns[i].name);
      nodeAndIP := nodeAndIP + (Entry(ns[i]) + "\n");
      nodeName := nodeName + (ns[i].name + "\n");
    }
    assert Entries(ns)[..|ns|] == Entries(ns) && Names(ns)[..|ns|] == Names(ns);
    if |parts| < 3 { return None; }
    var tail := parts[1] + (nodeName + (CHILDREN + parts[2]));
    assert tail == parts[1] + ("\n" + (Lines(Names(ns)) + (CHILDREN + parts[2])));
    edited := Some(parts[0] + (nodeAndIP + (CONTROL_PLANE + tail)));
    assert nodeAndIP + (CONTROL_PLANE + tail) == "\n" + (Lines(Entries(ns)) + (CONTROL_PLANE + tail));
  }

  lemma {:induction false} LinesNil()
    ensures Lines([]) == ""
  {
  }
}
