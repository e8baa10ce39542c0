/** The inventory as Ansible reads it: every nonempty line belongs to the group of the last header before it.
    Which hosts the printed inventory puts into which group, and what a scale-up changes about it. */
module InventoryGroups {
  import opened Text
  import opened Inventory

  const ETCD := "[etcd]"

  predicate Header(row: string) {
    row != "" && row[0] == '['
  }

  /** The rows under `header`; `inside` says whether the rows at hand are. */
  function Group(rows: seq<string>, header: string, inside: bool): seq<string> {
    if rows == [] then []
    else if Header(rows[0]) then Group(rows[1..], header, rows[0] == header)
    else (if inside then [rows[0]] else []) + Group(rows[1..], header, inside)
  }

  function GroupOf(text: string, header: string): seq<string> {
    Group(Rows(text), header, false)
  }

  /** The five groups of an inventory. */
  datatype Sheet = Sheet(all: seq<string>, control: seq<string>, etcd: seq<string>, nodes: seq<string>,
                         children: seq<string>)
  {
    predicate Plain() {
      Unheaded(all) && Unheaded(control) && Unheaded(etcd) && Unheaded(nodes) && Unheaded(children)
    }

    function Middle(): seq<string> {
      [CONTROL_PLANE] + (control + ([ETCD] + (etcd + ([KUBE_NODE] + nodes))))
    }

    function Grow(ns: seq<NodeInfo>): Sheet {
      this.(all := all + Entries(ns), nodes := nodes + Names(ns))
    }
  }

  predicate Unheaded(rows: seq<string>) {
    forall i | 0 <= i < |rows| :: !Header(rows[i])
  }

  predicate Trimmed(rows: seq<string>) {
    forall i | 0 <= i < |rows| :: Trim(rows[i]) == rows[i]
  }

  predicate EndsLine(s: string) {
    s != "" && s[|s| - 1] == '\n'
  }

  /** A layout whose sections are whole lines, listing `sheet`. */
  ghost predicate Sheeted(l: Layout, sheet: Sheet) {
    && l.Valid() && l.before == "" && EndsLine(l.all) && EndsLine(l.nodes)
    && (l.tail == "" || !IsSpace(l.tail[|l.tail| - 1]))
    && Rows(ALL + l.all) == [ALL] + sheet.all
    && Rows(CONTROL_PLANE + (l.control + (KUBE_NODE + l.nodes))) == sheet.Middle()
    && Rows(CHILDREN + l.tail) == [CHILDREN] + sheet.children
    && Rows(l.nodes) == sheet.nodes && Trimmed(sheet.nodes)
    && sheet.Plain()
  }

  ghost predicate Lists(text: string, sheet: Sheet) {
    exists l: Layout :: Sheeted(l, sheet) && text == l.Text()
  }

  // ----- rows and groups -----

  lemma {:induction false} RowsLine(p: string, x: string)
    requires EndsLine(p)
    ensures Rows(p + x) == Rows(p) + Rows(x)
  {
    hide Rows;
    var q := p[..|p| - 1];
    assert p == q + ("\n" + "") && p + x == q + ("\n" + x);
    RowsConcat(q, x);
    RowsConcat(q, "");
    RowsEmpty();
  }

  lemma {:induction false} GroupConcat(rows: seq<string>, rest: seq<string>, header: string, inside: bool)
    requires Unheaded(rows)
    ensures Group(rows + rest, header, inside) == (if inside then rows else []) + Group(rest, header, inside)
  {
    if rows == [] {
      assert rows + rest == rest;
    } else {
      assert (rows + rest)[0] == rows[0] && (rows + rest)[1..] == rows[1..] + rest;
      GroupConcat(rows[1..], rest, header, inside);
    }
  }

  lemma {:induction false} GroupHeader(h: string, rows: seq<string>, rest: seq<string>, header: string, inside: bool)
    requires Header(h) && Unheaded(rows)
    ensures Group([h] + (rows + rest), header, inside)
         == (if h == header then rows else []) + Group(rest, header, h == header)
  {
    assert ([h] + (rows + rest))[1..] == rows + rest;
    GroupConcat(rows, rest, header, h == header);
  }

  lemma {:induction false} HeadersDiffer()
    ensures Header(ALL) && Header(CONTROL_PLANE) && Header(ETCD) && Header(KUBE_NODE) && Header(CHILDREN)
    ensures ALL != CONTROL_PLANE && ALL != ETCD && ALL != KUBE_NODE && ALL != CHILDREN && CONTROL_PLANE != ETCD
    ensures CONTROL_PLANE != KUBE_NODE && CONTROL_PLANE != CHILDREN && ETCD != KUBE_NODE && ETCD != CHILDREN
    ensures KUBE_NODE != CHILDREN
    ensures OneLine(ALL) && OneLine(CONTROL_PLANE) && OneLine(ETCD) && OneLine(KUBE_NODE) && OneLine(CHILDREN)
  {
    assert ALL[1] == 'a' && CONTROL_PLANE[1] == 'k' && KUBE_NODE[1] == 'k' && CHILDREN[1] == 'k' && ETCD[1] == 'e';
    assert CONTROL_PLANE[6] == 'c' && KUBE_NODE[6] == 'n' && CHILDREN[2] == '8' && KUBE_NODE[2] == 'u';
  }

  /** The groups of five headed blocks of rows are these blocks. */
  lemma {:induction false} SheetGroups(s: Sheet, header: string)
    requires s.Plain()
    ensures Group([ALL] + (s.all + (s.Middle() + ([CHILDREN] + s.children))), header, false)
         == if header == ALL then s.all else if header == CONTROL_PLANE then s.control
            else if header == ETCD then s.etcd else if header == KUBE_NODE then s.nodes
            else if header == CHILDREN then s.children else []
  {
    hide Group, Unheaded, Header;
    HeadersDiffer();
    var r4 := [CHILDREN] + (s.children + []);
    var r3 := [KUBE_NODE] + (s.nodes + r4);
    var r2 := [ETCD] + (s.etcd + r3);
    var r1 := [CONTROL_PLANE] + (s.control + r2);
    MiddleRows(s, r4);
    assert s.children + [] == s.children;
    GroupHeader(ALL, s.all, r1, header, false);
    GroupHeader(CONTROL_PLANE, s.control, r2, header, ALL == header);
    GroupHeader(ETCD, s.etcd, r3, header, CONTROL_PLANE == header);
    GroupHeader(KUBE_NODE, s.nodes, r4, header, ETCD == header);
    GroupHeader(CHILDREN, s.children, [], header, KUBE_NODE == header);
    NoGroup(header, CHILDREN == header);
  }

  lemma {:induction false} NoGroup(header: string, inside: bool)
    ensures Group([], header, inside) == []
  {
  }

  lemma {:induction false} MiddleRows(s: Sheet, rest: seq<string>)
    ensures s.Middle() + rest
         == [CONTROL_PLANE] + (s.control + ([ETCD] + (s.etcd + ([KUBE_NODE] + (s.nodes + rest)))))
  {
  }

  /** What an inventory lists is what its groups are. */
  lemma {:induction false} ListedGroups(text: string, s: Sheet)
    requires Lists(text, s)
    ensures GroupOf(text, ALL) == s.all && GroupOf(text, CONTROL_PLANE) == s.control && GroupOf(text, ETCD) == s.etcd
    ensures GroupOf(text, KUBE_NODE) == s.nodes && GroupOf(text, CHILDREN) == s.children
  {
    hide Rows, Group, Layout.Valid, Sheet.Middle, Sheet.Plain;
    var l: Layout :| Sheeted(l, s) && text == l.Text();
    var p, q, r := ALL + l.all, CONTROL_PLANE + (l.control + (KUBE_NODE + l.nodes)), CHILDREN + l.tail;
    assert text == p + (q + r) by { ThreePieces(l); }
    assert EndsLine(p) && EndsLine(q) by { PieceEnds(l); }
    RowsLine(p, q + r);
    RowsLine(q, r);
    assert Rows(text) == [ALL] + (s.all + (s.Middle() + ([CHILDREN] + s.children)));
    HeadersDiffer();
    SheetGroups(s, ALL);
    SheetGroups(s, CONTROL_PLANE);
    SheetGroups(s, ETCD);
    SheetGroups(s, KUBE_NODE);
    SheetGroups(s, CHILDREN);
  }

  lemma {:induction false} ThreePieces(l: Layout)
    requires l.before == ""
    ensures l.Text()
         == (ALL + l.all) + ((CONTROL_PLANE + (l.control + (KUBE_NODE + l.nodes))) + (CHILDREN + l.tail))
  {
    Pieces(ALL, l.all, CONTROL_PLANE, l.control, KUBE_NODE, l.nodes, CHILDREN + l.tail);
  }

  lemma {:induction false} Pieces(a: string, b: string, c: string, d: string, e: string, f: string, x: string)
    ensures "" + (a + (b + (c + (d + (e + (f + x)))))) == (a + b) + ((c + (d + (e + f))) + x)
  {
    assert e + (f + x) == (e + f) + x;
    assert d + ((e + f) + x) == (d + (e + f)) + x;
    assert c + ((d + (e + f)) + x) == (c + (d + (e + f))) + x;
    var y := (c + (d + (e + f))) + x;
    assert a + (b + y) == (a + b) + y;
  }

  lemma {:induction false} PieceEnds(l: Layout)
    requires EndsLine(l.all) && EndsLine(l.nodes)
    ensures EndsLine(ALL + l.all) && EndsLine(CONTROL_PLANE + (l.control + (KUBE_NODE + l.nodes)))
  {
    var x := KUBE_NODE + l.nodes;
    assert x[|x| - 1] == '\n';
    var y := l.control + x;
    assert y[|y| - 1] == '\n';
  }

  /** The workers that the operator reads back are those that Ansible takes for nodes. */
  lemma {:induction false} RecordIsNodes(text: string, s: Sheet)
    requires Lists(text, s)
    ensures ReadWorkers(text).Some? && Names(Recorded(text)) == s.nodes
  {
    hide Rows, ReadWorkers, ReadSections, Resolves, Sheet.Middle, Sheet.Plain, Trim, Layout.Text;
    var l: Layout :| Sheeted(l, s) && text == l.Text();
    ReadLayout(l);
    RecordedNames(l.all, l.nodes);
  }

  // ----- editing -----

  lemma {:induction false} LinesEnd(rows: seq<string>)
    ensures EndsLine("\n" + Lines(rows))
  {
    if rows != [] {
      LinesEnd(rows[1..]);
      var x := "\n" + Lines(rows[1..]);
      assert "\n" + Lines(rows) == ("\n" + rows[0]) + x;
    }
  }

  lemma {:induction false} PlainUnheaded(ns: seq<NodeInfo>)
    requires PlainNodes(ns)
    ensures Unheaded(Entries(ns)) && Unheaded(Names(ns))
  {
    hide Entry, PlainNode;
    PlainRows(ns);
  }

  /** Appending lines to the end of some text appends them to its rows. */
  lemma {:induction false} RowsGrow(p: string, rows: seq<string>)
    requires forall i | 0 <= i < |rows| :: OneLine(rows[i])
    ensures Rows(p + ("\n" + Lines(rows))) == Rows(p) + rows
  {
    hide Rows, Lines, OneLine;
    RowsConcat(p, Lines(rows));
    RowsOfLines(rows);
  }

  lemma {:induction false} ExtendSheeted(l: Layout, s: Sheet, ns: seq<NodeInfo>)
    requires Sheeted(l, s) && PlainNodes(ns) && Extend(l, ns).Valid()
    ensures Sheeted(Extend(l, ns), s.Grow(ns))
  {
    hide Rows, Lines, Layout.Valid, Entry, PlainNode, OneLine, Trim, Trimmed, Sheet.Plain, Entries, Names, EndsLine;
    var l' := Extend(l, ns);
    NodeLines(ns);
    GrowPlain(s, ns);
    LinesEnd(Entries(ns));
    LinesEnd(Names(ns));
    var e, n := "\n" + Lines(Entries(ns)), "\n" + Lines(Names(ns));
    GrownPiece(l.all, e);
    GrownPiece(l.nodes, n);
    RowsGrow(ALL + l.all, Entries(ns));
    RowsGrow(CONTROL_PLANE + (l.control + (KUBE_NODE + l.nodes)), Names(ns));
    RowsGrow(l.nodes, Names(ns));
    assert ALL + l'.all == (ALL + l.all) + e;
    assert CONTROL_PLANE + (l'.control + (KUBE_NODE + l'.nodes))
        == (CONTROL_PLANE + (l.control + (KUBE_NODE + l.nodes))) + n;
    assert s.Middle() + Names(ns) == s.Grow(ns).Middle();
    assert ([ALL] + s.all) + Entries(ns) == [ALL] + s.Grow(ns).all;
  }

  lemma {:induction false} NodeLines(ns: seq<NodeInfo>)
    requires PlainNodes(ns)
    ensures forall i | 0 <= i < |Entries(ns)| :: OneLine(Entries(ns)[i])
    ensures forall i | 0 <= i < |Names(ns)| :: OneLine(Names(ns)[i])
  {
    hide Entry, PlainNode, OneLine;
    PlainRows(ns);
  }

  lemma {:induction false} GrowPlain(s: Sheet, ns: seq<NodeInfo>)
    requires s.Plain() && Trimmed(s.nodes) && PlainNodes(ns)
    ensures s.Grow(ns).Plain() && Trimmed(s.Grow(ns).nodes)
  {
    hide Entry, PlainNode, OneLine, Trim, Header;
    PlainRows(ns);
    PlainUnheaded(ns);
  }

  lemma {:induction false} GrownPiece(p: string, x: string)
    requires EndsLine(x)
    ensures EndsLine(p + x)
  {
  }

  /** A scale-up appends a row per new node to `[all]` and its name to `[kube_node]`, and leaves the control
      plane, etcd and the children as they are. */
  lemma {:induction false} ScaleUpGrowsGroups(text: string, s: Sheet, ns: seq<NodeInfo>)
    requires Lists(text, s) && PlainNodes(ns) && DistinctNames(ns)
    requires forall i | 0 <= i < |Recorded(text)| :: Recorded(text)[i].name !in Names(ns)
    ensures AddNodes(text, ns).Some? && Lists(AddNodes(text, ns).value, s.Grow(ns))
  {
    hide Rows, Resolves, ReadWorkers, ReadSections, AddNodes, Quiet, PlainNode, Layout.Text, Lines, Sheet.Grow;
    var l: Layout :| Sheeted(l, s) && text == l.Text();
    ReadLayout(l);
    RecordedNames(l.all, l.nodes);
    assert forall i | 0 <= i < |Rows(l.nodes)| :: Recorded(text)[i].name == Trim(Rows(l.nodes)[i]);
    EditLayout(l, ns);
    ExtendValid(l, ns);
    ExtendSheeted(l, s, ns);
  }

  /** Such an inventory has no outer white space, so the copy made for a scale-up worker is the text itself. */
  lemma {:induction false} ListedIsTrimmed(text: string, s: Sheet)
    requires Lists(text, s)
    ensures Trim(text) == text && WellFormed(text)
  {
    hide Rows, Layout.Valid, Sheet.Middle, Sheet.Plain;
    var l: Layout :| Sheeted(l, s) && text == l.Text();
    ThreePieces(l);
    TextEnds(l);
    TrimSolid(text);
  }

  lemma {:induction false} TextEnds(l: Layout)
    requires l.before == "" && (l.tail == "" || !IsSpace(l.tail[|l.tail| - 1]))
    ensures var t := l.Text(); t != "" && !IsSpace(t[0]) && !IsSpace(t[|t| - 1])
  {
    ThreePieces(l);
    var r := CHILDREN + l.tail;
    assert r[|r| - 1] == if l.tail == "" then ']' else l.tail[|l.tail| - 1];
    var q := (CONTROL_PLANE + (l.control + (KUBE_NODE + l.nodes))) + r;
    assert q[|q| - 1] == r[|r| - 1];
    assert l.Text()[0] == ALL[0] == '[';
  }

  // ----- printing -----

  /** What is printed for a machine: every host in `[all]`, the masters as control plane and etcd, the
      workers as nodes. */
  function SheetOf(m: Machine): Sheet {
    Sheet(Entries(m.masters + m.workers), Names(m.masters), Names(m.masters), Names(m.workers),
          ["kube_node", "kube_control_plane"])
  }

  lemma {:induction false} RowsOfBlock(p: string, rows: seq<string>, x: string)
    requires forall i | 0 <= i < |rows| :: OneLine(rows[i])
    ensures Rows(p + (Blocks(rows) + ("\n" + x))) == Rows(p) + (rows + Rows(x))
    decreases |rows|
  {
    hide Rows, OneLine;
    if rows == [] {
      assert p + ("" + ("\n" + x)) == p + ("\n" + x);
      RowsConcat(p, x);
    } else {
      var more := Blocks(rows[1..]) + ("\n" + x);
      assert p + (Blocks(rows) + ("\n" + x)) == p + ("\n" + (rows[0] + ("\n" + more)));
      RowsConcat(p, rows[0] + ("\n" + more));
      RowsConcat(rows[0], more);
      RowsOne(rows[0]);
      RowsOfBlock("", rows[1..], x);
      assert "" + more == more;
      RowsEmpty();
    }
  }

  lemma {:induction false} RowsOfHeaded(h: string, rows: seq<string>, x: string)
    requires OneLine(h) && forall i | 0 <= i < |rows| :: OneLine(rows[i])
    ensures Rows(h + (Blocks(rows) + ("\n" + x))) == [h] + (rows + Rows(x))
    ensures Rows(h + ("\n" + (Blocks(rows) + ("\n" + x)))) == [h] + (rows + Rows(x))
  {
    hide Rows, OneLine, Blocks;
    RowsOne(h);
    RowsOfBlock(h, rows, x);
    RowsConcat(h, Blocks(rows) + ("\n" + x));
    RowsOfBlock("", rows, x);
    RowsEmpty();
    assert "" + (Blocks(rows) + ("\n" + x)) == Blocks(rows) + ("\n" + x);
  }

  lemma {:induction false} RowsOfThree(a: string, b: string, c: string)
    requires OneLine(a) && OneLine(b) && OneLine(c)
    ensures Rows(a + ("\n" + (b + ("\n" + c)))) == [a] + [b, c]
  {
    hide Rows, OneLine;
    RowsOne(a);
    RowsOne(b);
    RowsOne(c);
    RowsConcat(b, c);
    RowsConcat(a, b + ("\n" + c));
    assert [b] + [c] == [b, c];
  }

  /** The last lines of the template, without the final newline. */
  const TAIL := "\nkube_node\nkube_control_plane"

  lemma {:induction false} TailTrims()
    ensures TrimRight("\nkube_node\nkube_control_plane\n") == TAIL && !IsSpace(TAIL[|TAIL| - 1])
  {
    var t := "\nkube_node\nkube_control_plane\n";
    assert t[..|t| - 1] == TAIL;
    assert TAIL[|TAIL| - 1] == 'e';
  }

  lemma {:induction false} TailRows()
    ensures Rows(CHILDREN + TAIL) == [CHILDREN] + ["kube_node", "kube_control_plane"]
  {
    HeadersDiffer();
    hide Rows;
    var n, c := "kube_node", "kube_control_plane";
    assert OneLine(n) && OneLine(c);
    RowsOfThree(CHILDREN, n, c);
    assert TAIL == "\n" + (n + ("\n" + c));
  }

  predicate OneLines(rows: seq<string>) {
    forall i | 0 <= i < |rows| :: OneLine(rows[i])
  }

  lemma {:induction false} ControlRows(c: HostsContent)
    requires OneLines(c.masterName) && OneLines(c.etcdNodeName) && OneLines(c.nodeName)
    ensures var l := ContentLayout(c);
            Rows(CONTROL_PLANE + (l.control + (KUBE_NODE + l.nodes)))
            == [CONTROL_PLANE] + (c.masterName + ([ETCD] + (c.etcdNodeName + ([KUBE_NODE] + c.nodeName))))
  {
    HeadersDiffer();
    hide Rows, OneLine, Blocks;
    var l := ContentLayout(c);
    var k := KUBE_NODE + (Blocks(c.nodeName) + ("\n" + ""));
    var e := ETCD + (Blocks(c.etcdNodeName) + ("\n" + k));
    RowsEmpty();
    RowsOfHeaded(KUBE_NODE, c.nodeName, "");
    RowsOfHeaded(ETCD, c.etcdNodeName, k);
    RowsOfHeaded(CONTROL_PLANE, c.masterName, e);
    assert c.nodeName + [] == c.nodeName;
    assert CONTROL_PLANE + (l.control + (KUBE_NODE + l.nodes))
        == CONTROL_PLANE + ("\n" + (Blocks(c.masterName) + ("\n" + e))) by { Reassociate(c); }
  }

  lemma {:induction false} Reassociate(c: HostsContent)
    ensures var l := ContentLayout(c);
            l.control + (KUBE_NODE + l.nodes)
            == "\n" + (Blocks(c.masterName)
                       + ("\n" + (ETCD + (Blocks(c.etcdNodeName)
                                          + ("\n" + (KUBE_NODE + (Blocks(c.nodeName) + ("\n" + ""))))))))
  {
    hide Blocks;
    assert "\n" + "" == "\n";
  }

  lemma {:induction false} AllRows(c: HostsContent)
    requires OneLines(c.nodeAndIP)
    ensures Rows(ALL + ContentLayout(c).all) == [ALL] + c.nodeAndIP
  {
    HeadersDiffer();
    hide Rows, OneLine, Blocks;
    RowsEmpty();
    RowsOfHeaded(ALL, c.nodeAndIP, "");
    assert "\n" + "" == "\n" && c.nodeAndIP + [] == c.nodeAndIP;
  }

  /** The printed inventory lists exactly that. */
  lemma {:induction false} RenderedGroups(m: Machine)
    requires PlainNodes(m.masters) && PlainNodes(m.workers)
    ensures Lists(RenderHosts(m), SheetOf(m))
  {
    hide *;
    ContentRows(m);
    SheetPlain(m);
    var t := RenderedLayout(m);
    TailTrims();
    TailRows();
    AllRows(Content(m));
    ControlRows(Content(m));
    NodeRows(m);
    PrintedSheet(m, t);
    IsListed(t, SheetOf(m));
  }

  lemma {:induction false} IsListed(l: Layout, s: Sheet)
    requires Sheeted(l, s)
    ensures Lists(l.Text(), s)
  {
    hide Sheeted;
  }

  lemma {:induction false} ContentRows(m: Machine)
    requires PlainNodes(m.masters) && PlainNodes(m.workers)
    ensures var c := Content(m);
            OneLines(c.nodeAndIP) && OneLines(c.masterName) && OneLines(c.etcdNodeName) && OneLines(c.nodeName)
  {
    hide OneLine, Entry, PlainNode;
    PlainRows(m.masters + m.workers);
    PlainRows(m.masters);
    PlainRows(m.workers);
  }

  lemma {:induction false} SheetPlain(m: Machine)
    requires PlainNodes(m.masters) && PlainNodes(m.workers)
    ensures SheetOf(m).Plain() && Trimmed(Names(m.workers))
  {
    hide Entry, PlainNode, Trim;
    PlainRows(m.workers);
    PlainUnheaded(m.masters + m.workers);
    PlainUnheaded(m.masters);
    PlainUnheaded(m.workers);
  }

  lemma {:induction false} NodeRows(m: Machine)
    requires OneLines(Content(m).nodeName)
    ensures Rows(Blocks(Names(m.workers)) + "\n") == Names(m.workers)
  {
    hide Rows, OneLine, Blocks;
    RowsBetween(Names(m.workers));
  }

  lemma {:induction false} PrintedSheet(m: Machine, t: Layout)
    requires t.Valid() && t == ContentLayout(Content(m)).(tail := TAIL) && SheetOf(m).Plain()
    requires Trimmed(Names(m.workers)) && Rows(Blocks(Names(m.workers)) + "\n") == Names(m.workers)
    requires var c := Content(m);
             && Rows(ALL + t.all) == [ALL] + c.nodeAndIP
             && Rows(CONTROL_PLANE + (t.control + (KUBE_NODE + t.nodes)))
                == [CONTROL_PLANE] + (c.masterName + ([ETCD] + (c.etcdNodeName + ([KUBE_NODE] + c.nodeName))))
    requires Rows(CHILDREN + TAIL) == [CHILDREN] + ["kube_node", "kube_control_plane"] && !IsSpace(TAIL[|TAIL| - 1])
    ensures Sheeted(t, SheetOf(m))
  {
    hide Rows, Layout.Valid, Blocks, Entry, Sheet.Plain, IsSpace, Trimmed;
  }

  lemma {:induction false} RenderedLayout(m: Machine) returns (t: Layout)
    requires PlainNodes(m.masters) && PlainNodes(m.workers)
    ensures t.Valid() && t.Text() == RenderHosts(m)
    ensures t == ContentLayout(Content(m)).(tail := TrimRight("\nkube_node\nkube_control_plane\n"))
  {
    hide Layout.Valid, Layout.Text, RenderTemplate, Trim, TrimRight;
    ContentValid(m);
    t := TrimLayout(ContentLayout(Content(m)));
    assert TrimLeft("") == "";
  }

  /** After printing a machine and any number of scale-ups: every host and its addresses in `[all]`, exactly
      the masters as control plane and as etcd, exactly the workers and all batches as nodes, in order. */
  lemma {:induction false} GroupsAfterScaleUps(m: Machine, batches: seq<seq<NodeInfo>>)
    requires PlainNodes(m.masters) && PlainNodes(m.workers + Flatten(batches))
    requires DistinctNames(m.workers + Flatten(batches))
    ensures AddBatches(RenderHosts(m), batches).Some?
    ensures var text, workers := AddBatches(RenderHosts(m), batches).value, m.workers + Flatten(batches);
            && GroupOf(text, ALL) == Entries(m.masters + workers)
            && GroupOf(text, CONTROL_PLANE) == Names(m.masters) && GroupOf(text, ETCD) == Names(m.masters)
            && GroupOf(text, KUBE_NODE) == Names(workers)
            && GroupOf(text, CHILDREN) == ["kube_node", "kube_control_plane"]
  {
    hide *;
    ListedAfterScaleUps(m, batches);
    ListedGroups(AddBatches(RenderHosts(m), batches).value, SheetOf(m).Grow(Flatten(batches)));
    GrownSheet(m, Flatten(batches));
  }

  lemma {:induction false} GrownSheet(m: Machine, ns: seq<NodeInfo>)
    ensures var s := SheetOf(m).Grow(ns);
            && s.all == Entries(m.masters + (m.workers + ns)) && s.nodes == Names(m.workers + ns)
            && s.control == s.etcd == Names(m.masters) && s.children == ["kube_node", "kube_control_plane"]
  {
    hide Entry;
    assert Entries(m.masters + m.workers) + Entries(ns) == Entries(m.masters + (m.workers + ns));
    assert Names(m.workers) + Names(ns) == Names(m.workers + ns);
  }

  lemma {:induction false} ListedAfterScaleUps(m: Machine, batches: seq<seq<NodeInfo>>)
    requires PlainNodes(m.masters) && PlainNodes(m.workers + Flatten(batches))
    requires DistinctNames(m.workers + Flatten(batches))
    ensures AddBatches(RenderHosts(m), batches).Some?
    ensures Lists(AddBatches(RenderHosts(m), batches).value, SheetOf(m).Grow(Flatten(batches)))
  {
    hide *;
    if batches == [] {
      NoBatches(m);
      RenderedGroups(m);
    } else {
      var n := |batches| - 1;
      var before, ns := Flatten(batches[..n]), batches[n];
      LastBatch(m, batches);
      ListedAfterScaleUps(m, batches[..n]);
      ManyScaleUps(m, batches[..n]);
      var t := AddBatches(RenderHosts(m), batches[..n]).value;
      RecordedIs(t, m.workers + before);
      ScaleUpGrowsGroups(t, SheetOf(m).Grow(before), ns);
      GrowTwice(SheetOf(m), before, ns);
    }
  }

  lemma {:induction false} NoBatches(m: Machine)
    ensures AddBatches(RenderHosts(m), []) == Some(RenderHosts(m)) && m.workers + Flatten([]) == m.workers
    ensures SheetOf(m).Grow(Flatten([])) == SheetOf(m)
  {
    hide RenderHosts, Entry;
    assert SheetOf(m).Grow([]) == SheetOf(m);
  }

  lemma {:induction false} RecordedIs(text: string, ws: seq<NodeInfo>)
    requires ReadWorkers(text) == Some(ws)
    ensures Recorded(text) == ws
  {
    hide ReadWorkers;
  }

  lemma {:induction false} LastBatch(m: Machine, batches: seq<seq<NodeInfo>>)
    requires batches != [] && PlainNodes(m.workers + Flatten(batches)) && DistinctNames(m.workers + Flatten(batches))
    ensures var n, text := |batches| - 1, RenderHosts(m);
            var before, ns := m.workers + Flatten(batches[..n]), batches[n];
            && Flatten(batches) == Flatten(batches[..n]) + ns
            && PlainNodes(before) && PlainNodes(ns) && DistinctNames(before) && DistinctNames(ns)
            && (forall i | 0 <= i < |before| :: before[i].name !in Names(ns))
            && AddBatches(text, batches)
               == match AddBatches(text, batches[..n]) case None => None case Some(t) => AddNodes(t, ns)
  {
    hide RenderHosts, AddNodes, PlainNode;
    var n := |batches| - 1;
    var before, ns, all := m.workers + Flatten(batches[..n]), batches[n], m.workers + Flatten(batches);
    assert all == before + ns;
    assert forall i | 0 <= i < |before| :: all[i] == before[i];
    assert forall i | 0 <= i < |ns| :: all[|before| + i] == ns[i];
  }

  lemma {:induction false} GrowTwice(s: Sheet, a: seq<NodeInfo>, b: seq<NodeInfo>)
    ensures s.Grow(a).Grow(b) == s.Grow(a + b)
  {
    hide Entry;
    assert Entries(a) + Entries(b) == Entries(a + b) && Names(a) + Names(b) == Names(a + b);
    assert s.all + Entries(a) + Entries(b) == s.all + (Entries(a) + Entries(b));
    assert s.nodes + Names(a) + Names(b) == s.nodes + (Names(a) + Names(b));
  }
}
