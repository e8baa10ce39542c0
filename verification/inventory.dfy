/** The `cluster-hosts` inventory: printing it from a CustomMachine, reading the recorded worker
    nodes back, and the in-place text edit that adds nodes on scale-up. */
module Inventory {
  import opened Text

  datatype NodeInfo = NodeInfo(name: string, publicIP: string, privateIP: string)

  /** `CustomMachine.Spec`. */
  datatype Machine = Machine(masters: seq<NodeInfo>, workers: seq<NodeInfo>)

  const ALL := "[all]"
  const CONTROL_PLANE := "[kube_control_plane]"
  const KUBE_NODE := "[kube_node]"
  const CHILDREN := "[k8s-cluster:children]"
  /** The reader's section pattern. */
  const SECTIONS: seq<string> := [ALL, CONTROL_PLANE, KUBE_NODE, CHILDREN]
  /** The editor's section pattern. */
  const EDIT_POINTS: seq<string> := [CONTROL_PLANE, CHILDREN]
  const NEWLINES: seq<string> := ["\t", "\n", "\U{0C}", "\r"]
  const FIELDS: seq<string> := [" ansible_host=", " ip="]

  /** Host names as the operator assumes them; only addresses are checked on admission. */
  predicate PlainName(s: string) {
    s != "" && Token(s) && '[' !in s && ',' !in s && '"' !in s
  }

  predicate PlainNode(n: NodeInfo) {
    PlainName(n.name) && Token(n.publicIP) && Token(n.privateIP) && '[' !in n.publicIP && '[' !in n.privateIP
  }

  predicate PlainNodes(ns: seq<NodeInfo>) {
    forall i | 0 <= i < |ns| :: PlainNode(ns[i])
  }

  predicate DistinctNames(ns: seq<NodeInfo>) {
    forall i, j | 0 <= i < j < |ns| :: ns[i].name != ns[j].name
  }

  function Names(ns: seq<NodeInfo>): seq<string> {
    seq(|ns|, i requires 0 <= i < |ns| => ns[i].name)
  }

  function NameSet(ns: seq<NodeInfo>): set<string> {
    set i | 0 <= i < |ns| :: ns[i].name
  }

  // ----- reading -----

  function NonBlank(lines: seq<string>): seq<string> {
    if lines == [] then [] else (if lines[0] == "" then [] else [lines[0]]) + NonBlank(lines[1..])
  }

  /** The rows of a section: its nonempty lines. */
  function Rows(section: string): seq<string> {
    NonBlank(Split(section, NEWLINES))
  }

  /** One row of `[all]`; `None` where the indexing of the split fields panics. */
  function ReadNode(row: string): Option<NodeInfo> {
    var f := Split(Trim(row), FIELDS);
    if |f| < 3 then None else Some(NodeInfo(f[0], f[1], f[2]))
  }

  /** The rows of `[all]` by host name; a later row replaces an earlier one. */
  function ReadEntries(rows: seq<string>, all: map<string, NodeInfo>): Option<map<string, NodeInfo>> {
    if rows == [] then Some(all)
    else match ReadNode(Trim(rows[0]))
      case None => None
      case Some(n) => ReadEntries(rows[1..], all[n.name := n])
  }

  /** A map read: the zero value stands for a missing host. */
  function Lookup(all: map<string, NodeInfo>, name: string): NodeInfo {
    if name in all then all[name] else NodeInfo("", "", "")
  }

  function PickWorkers(rows: seq<string>, all: map<string, NodeInfo>): (ws: seq<NodeInfo>)
    ensures |ws| == |rows|
  {
    seq(|rows|, i requires 0 <= i < |rows| => Lookup(all, Trim(rows[i])))
  }

  /** The worker nodes recorded in an inventory; `None` where the reader panics. */
  function ReadWorkers(text: string): Option<seq<NodeInfo>> {
    var parts := Split(Trim(text), SECTIONS);
    if |parts| < 4 then None else ReadSections(parts[1], parts[3])
  }

  function ReadSections(all: string, nodes: string): Option<seq<NodeInfo>> {
    match ReadEntries(Rows(all), map[])
    case None => None
    case Some(entries) => Some(PickWorkers(Rows(nodes), entries))
  }

  // ----- editing -----

  function Entry(n: NodeInfo): string {
    n.name + (FIELDS[0] + (n.publicIP + (FIELDS[1] + n.privateIP)))
  }

  function Entries(ns: seq<NodeInfo>): seq<string> {
    seq(|ns|, i requires 0 <= i < |ns| => Entry(ns[i]))
  }

  /** Each row followed by a newline. */
  function Lines(rows: seq<string>): string {
    if rows == [] then "" else rows[0] + ("\n" + Lines(rows[1..]))
  }

  /** The inventory with `ns` appended to `[all]` and `[kube_node]`; `None` where the editor panics. */
  function AddNodes(text: string, ns: seq<NodeInfo>): Option<string> {
    var parts := Split(text, EDIT_POINTS);
    if |parts| < 3 then None
    else Some(parts[0] + ("\n" + (Lines(Entries(ns)) + (CONTROL_PLANE
            + (parts[1] + ("\n" + (Lines(Names(ns)) + (CHILDREN + parts[2]))))))))
  }

  // ----- printing -----

  datatype HostsContent = HostsContent(nodeAndIP: seq<string>, masterName: seq<string>, nodeName: seq<string>,
                                       etcdNodeName: seq<string>)

  /** A `range` block of the template: each item between newlines. */
  function Blocks(rows: seq<string>): string {
    if rows == [] then "" else "\n" + (rows[0] + ("\n" + Blocks(rows[1..])))
  }

  /** The text/template of `cluster-hosts`. */
  function RenderTemplate(c: HostsContent): string {
    ALL + (("\n" + (Blocks(c.nodeAndIP) + "\n"))
    + (CONTROL_PLANE + (("\n" + (Blocks(c.masterName) + ("\n" + ("[etcd]" + (Blocks(c.etcdNodeName) + "\n")))))
    + (KUBE_NODE + ((Blocks(c.nodeName) + "\n")
    + (CHILDREN + "\nkube_node\nkube_control_plane\n"))))))
  }

  function Content(m: Machine): HostsContent {
    HostsContent(Entries(m.masters + m.workers), Names(m.masters), Names(m.workers), Names(m.masters))
  }

  /** The data of a freshly created `cluster-hosts`. */
  function RenderHosts(m: Machine): string {
    Trim(RenderTemplate(Content(m)))
  }

  // ----- the shape every inventory keeps -----

  /** Every row of `[all]` reads as a node and every worker is listed there. */
  predicate Resolves(all: string, nodes: string) {
    var entries := ReadEntries(Rows(all), map[]);
    entries.Some? && forall row | row in Rows(nodes) :: Trim(row) in entries.value
  }

  datatype Layout = Layout(before: string, all: string, control: string, nodes: string, tail: string) {
    function Text(): string {
      before + (ALL + (all + (CONTROL_PLANE + (control + (KUBE_NODE + (nodes + (CHILDREN + tail)))))))
    }

    ghost predicate Valid() {
      && Quiet(before, "", SECTIONS) && Quiet(all, "", SECTIONS) && Quiet(control, "", SECTIONS)
      && Quiet(nodes, "", SECTIONS) && Quiet(tail, "", SECTIONS)
      && Resolves(all, nodes)
    }
  }

  /** The four section headers in order, each exactly once, and workers that resolve. */
  ghost predicate WellFormed(text: string) {
    exists l: Layout :: l.Valid() && text == l.Text()
  }

  // ----- facts about the separators -----

  lemma {:induction false} SectionFacts()
    ensures HeadOnly(SECTIONS, {'['}) && PrefixFree(SECTIONS)
    ensures HeadOnly(EDIT_POINTS, {'['}) && PrefixFree(EDIT_POINTS)
  {
    SectionHeads();
    SectionsDiffer();
  }

  lemma {:induction false} SectionHeads()
    ensures HeadOnly(SECTIONS, {'['}) && HeadOnly(EDIT_POINTS, {'['})
  {
    assert HeadOnly([ALL], {'['}) && HeadOnly([CONTROL_PLANE], {'['}) && HeadOnly([KUBE_NODE], {'['})
           && HeadOnly([CHILDREN], {'['});
    assert [ALL][0] == ALL && [CONTROL_PLANE][0] == CONTROL_PLANE && [KUBE_NODE][0] == KUBE_NODE
           && [CHILDREN][0] == CHILDREN;
  }

  lemma {:induction false} SectionsDiffer()
    ensures PrefixFree(SECTIONS) && PrefixFree(EDIT_POINTS)
  {
    assert ALL[1] == 'a' && CONTROL_PLANE[1] == 'k' && KUBE_NODE[1] == 'k' && CHILDREN[1] == 'k';
    assert CONTROL_PLANE[2] == 'u' && KUBE_NODE[2] == 'u' && CHILDREN[2] == '8';
    assert CONTROL_PLANE[6] == 'c' && KUBE_NODE[6] == 'n';
  }

  lemma {:induction false} LineFacts()
    ensures CharSeps(NEWLINES) && PrefixFree(NEWLINES) && NEWLINES[1] == "\n"
    ensures HeadOnly(NEWLINES, {'\t', '\n', '\U{0C}', '\r'})
    ensures HeadOnly(FIELDS, {' '}) && PrefixFree(FIELDS)
  {
    assert NEWLINES[0][0] == '\t' && NEWLINES[1][0] == '\n' && NEWLINES[2][0] == '\U{0C}' && NEWLINES[3][0] == '\r';
    assert FIELDS[0][1] == 'a' && FIELDS[1][1] == 'i';
  }

  // ----- rows -----

  lemma {:induction false} NonBlankConcat(a: seq<string>, b: seq<string>)
    ensures NonBlank(a + b) == NonBlank(a) + NonBlank(b)
  {
    if a == [] {
      assert a + b == b;
    } else {
      assert (a + b)[1..] == a[1..] + b;
      NonBlankConcat(a[1..], b);
    }
  }

  lemma {:induction false} RowsConcat(a: string, b: string)
    ensures Rows(a + ("\n" + b)) == Rows(a) + Rows(b)
  {
    LineFacts();
    SplitChars(a, 1, b, NEWLINES);
    NonBlankConcat(Split(a, NEWLINES), Split(b, NEWLINES));
  }

  predicate OneLine(row: string) {
    row != "" && forall i | 0 <= i < |row| :: row[i] !in {'\t', '\n', '\U{0C}', '\r'}
  }

  lemma {:induction false} RowsOne(row: string)
    requires OneLine(row)
    ensures Rows(row) == [row]
  {
    LineFacts();
    HeadFreeQuiet(row, "", NEWLINES, {'\t', '\n', '\U{0C}', '\r'});
    SplitWhole(row, NEWLINES);
    assert [row][1..] == [];
    assert NonBlank([row][1..]) == [];
  }

  lemma {:induction false} RowsEmpty()
    ensures Rows("") == []
  {
    assert Split("", NEWLINES) == [""];
    assert [""][1..] == [];
  }

  lemma {:induction false} RowsOfLines(rows: seq<string>)
    requires forall i | 0 <= i < |rows| :: OneLine(rows[i])
    ensures Rows(Lines(rows)) == rows
  {
    if rows == [] {
      RowsEmpty();
    } else {
      RowsOfLines(rows[1..]);
      RowsConcat(rows[0], Lines(rows[1..]));
      RowsOne(rows[0]);
    }
  }

  lemma {:induction false} RowsOfBlocks(rows: seq<string>)
    requires forall i | 0 <= i < |rows| :: OneLine(rows[i])
    ensures Rows(Blocks(rows)) == rows
  {
    RowsEmpty();
    if rows != [] {
      var inner := rows[0] + ("\n" + Blocks(rows[1..]));
      assert Blocks(rows) == "" + ("\n" + inner);
      RowsConcat("", inner);
      RowsConcat(rows[0], Blocks(rows[1..]));
      RowsOne(rows[0]);
      RowsOfBlocks(rows[1..]);
    }
  }

  lemma {:induction false} TokenOneLine(s: string)
    requires Token(s) && s != ""
    ensures OneLine(s) && Trim(s) == s
  {
    assert IsSpace('\t') && IsSpace('\n') && IsSpace('\U{0C}') && IsSpace('\r');
    TrimToken(s);
  }

  /** Three space-free fields are told apart by separators that start with a space. */
  lemma {:induction false} SplitFields(a: string, b: string, c: string, seps: seq<string>)
    requires |seps| == 2 && HeadOnly(seps, {' '}) && PrefixFree(seps)
    requires forall i | 0 <= i < |a| :: a[i] != ' '
    requires forall i | 0 <= i < |b| :: b[i] != ' '
    requires forall i | 0 <= i < |c| :: c[i] != ' '
    ensures Split(a + (seps[0] + (b + (seps[1] + c))), seps) == [a, b, c]
  {
    var rest := b + (seps[1] + c);
    HeadFreeQuiet(a, seps[0] + rest, seps, {' '});
    SplitCut(a, 0, rest, seps);
    HeadFreeQuiet(b, seps[1] + c, seps, {' '});
    SplitCut(b, 1, c, seps);
    HeadFreeQuiet(c, "", seps, {' '});
    SplitWhole(c, seps);
  }

  /** Text between two characters that are not spaces. */
  lemma {:induction false} TrimSolid(s: string)
    requires s != "" && !IsSpace(s[0]) && !IsSpace(s[|s| - 1])
    ensures Trim(s) == s
  {
    assert TrimLeft(s) == s;
  }

  predicate NoLineBreak(s: string) {
    forall i | 0 <= i < |s| :: s[i] !in {'\t', '\n', '\U{0C}', '\r'}
  }

  lemma {:induction false} FieldsPlain()
    ensures forall k | 0 <= k < 2 :: NoLineBreak(FIELDS[k]) && FIELDS[k] != "" && FIELDS[k][|FIELDS[k]| - 1] == '='
    ensures forall k, i | 0 <= k < 2 && 0 <= i < |FIELDS[k]| :: FIELDS[k][i] != '['
  {
  }

  /** A printed row reads back as the node it was printed from. */
  lemma {:induction false} EntryReads(n: NodeInfo)
    requires PlainNode(n)
    ensures OneLine(Entry(n)) && Trim(Entry(n)) == Entry(n) && ReadNode(Entry(n)) == Some(n)
  {
    LineFacts();
    FieldsPlain();
    assert IsSpace('\t') && IsSpace('\n') && IsSpace('\U{0C}') && IsSpace('\r') && IsSpace(' ');
    var f, g := FIELDS[0], FIELDS[1];
    SplitFields(n.name, n.publicIP, n.privateIP, FIELDS);
    EntryEnds(n.name, f, n.publicIP, g, n.privateIP);
    TrimSolid(Entry(n));
  }

  lemma {:induction false} EntryEnds(a: string, f: string, b: string, g: string, c: string)
    requires a != "" && Token(a) && Token(b) && Token(c) && NoLineBreak(f) && NoLineBreak(g)
    requires g != "" && g[|g| - 1] == '='
    ensures var e := a + (f + (b + (g + c))); OneLine(e) && !IsSpace(e[0]) && !IsSpace(e[|e| - 1])
  {
    TokenNoLineBreak(a);
    TokenNoLineBreak(b);
    TokenNoLineBreak(c);
    var t := g + c;
    assert t[|t| - 1] == if c == "" then '=' else c[|c| - 1];
    var u := f + (b + t);
    assert u[|u| - 1] == t[|t| - 1];
  }

  lemma {:induction false} TokenNoLineBreak(s: string)
    requires Token(s)
    ensures NoLineBreak(s)
  {
    assert IsSpace('\t') && IsSpace('\n') && IsSpace('\U{0C}') && IsSpace('\r');
  }

  lemma {:induction false} ReadEntriesConcat(a: seq<string>, b: seq<string>, all: map<string, NodeInfo>)
    ensures ReadEntries(a + b, all) ==
            match ReadEntries(a, all) case None => None case Some(m) => ReadEntries(b, m)
  {
    if a == [] {
      assert a + b == b;
    } else {
      assert (a + b)[1..] == a[1..] + b;
      var n := ReadNode(Trim(a[0]));
      if n.Some? { ReadEntriesConcat(a[1..], b, all[n.value.name := n.value]); }
    }
  }

  /** `all` updated with `ns`, later nodes winning. */
  function Overlay(ns: seq<NodeInfo>, all: map<string, NodeInfo>): map<string, NodeInfo> {
    if ns == [] then all else Overlay(ns[1..], all[ns[0].name := ns[0]])
  }

  lemma {:induction false} PrintedEntriesRead(ns: seq<NodeInfo>, all: map<string, NodeInfo>)
    requires PlainNodes(ns)
    ensures ReadEntries(Entries(ns), all) == Some(Overlay(ns, all))
  {
    if ns != [] {
      EntryReads(ns[0]);
      assert Entries(ns)[1..] == Entries(ns[1..]);
      PrintedEntriesRead(ns[1..], all[ns[0].name := ns[0]]);
    }
  }

  /** `j` is the last position of the name it carries. */
  predicate LastOf(ns: seq<NodeInfo>, j: nat) {
    j < |ns| && forall k | j < k < |ns| :: ns[k].name != ns[j].name
  }

  lemma {:induction false} OverlayAt(ns: seq<NodeInfo>, all: map<string, NodeInfo>, j: nat)
    requires LastOf(ns, j)
    ensures ns[j].name in Overlay(ns, all) && Overlay(ns, all)[ns[j].name] == ns[j]
  {
    var all' := all[ns[0].name := ns[0]];
    if j > 0 {
      assert ns[1..][j - 1] == ns[j];
      OverlayAt(ns[1..], all', j - 1);
    } else {
      assert ns[0].name !in Names(ns[1..]);
      OverlayKeeps(ns[1..], all', ns[0].name);
    }
  }

  lemma {:induction false} OverlayKeeps(ns: seq<NodeInfo>, all: map<string, NodeInfo>, name: string)
    requires name !in Names(ns)
    ensures Lookup(Overlay(ns, all), name) == Lookup(all, name)
    ensures name in all ==> name in Overlay(ns, all)
  {
    if ns != [] {
      assert Names(ns)[0] == ns[0].name;
      assert forall k | 0 <= k < |ns[1..]| :: Names(ns[1..])[k] == Names(ns)[k + 1];
      OverlayKeeps(ns[1..], all[ns[0].name := ns[0]], name);
    }
  }

  lemma {:induction false} LastExists(ns: seq<NodeInfo>, i: nat) returns (j: nat)
    requires i < |ns|
    ensures i <= j && LastOf(ns, j) && ns[j].name == ns[i].name
    decreases |ns| - i
  {
    if LastOf(ns, i) {
      j := i;
    } else {
      var k :| i < k < |ns| && ns[k].name == ns[i].name;
      j := LastExists(ns, k);
    }
  }

  // ----- the layout under reading and editing -----

  /** Five header-free pieces around four headers are told apart. */
  lemma {:induction false} SplitFive(a: string, b: string, c: string, d: string, e: string, seps: seq<string>, h: char)
    requires |seps| == 4 && HeadOnly(seps, {h}) && PrefixFree(seps)
    requires Quiet(a, "", seps) && Quiet(b, "", seps) && Quiet(c, "", seps) && Quiet(d, "", seps) && Quiet(e, "", seps)
    ensures Split(a + (seps[0] + (b + (seps[1] + (c + (seps[2] + (d + (seps[3] + e))))))), seps) == [a, b, c, d, e]
  {
    hide *;
    var r3 := d + (seps[3] + e);
    var r2 := c + (seps[2] + r3);
    var r1 := b + (seps[1] + r2);
    assert Split(r3, seps) == [d, e] by { SplitWhole(e, seps); SplitHead(d, 3, e, seps, h); }
    assert Split(r2, seps) == [c, d, e] by { SplitHead(c, 2, r3, seps, h); }
    assert Split(r1, seps) == [b, c, d, e] by { SplitHead(b, 1, r2, seps, h); }
    SplitHead(a, 0, r1, seps, h);
  }

  lemma {:induction false} SplitHead(p: string, k: nat, rest: string, seps: seq<string>, h: char)
    requires k < |seps| && HeadOnly(seps, {h}) && PrefixFree(seps) && Quiet(p, "", seps)
    ensures Split(p + (seps[k] + rest), seps) == [p] + Split(rest, seps)
  {
    SeparatorFreeQuiet(p, seps[k] + rest, seps, {h});
    SplitCut(p, k, rest, seps);
  }

  lemma {:induction false} SplitSections(l: Layout)
    requires l.Valid()
    ensures Split(l.Text(), SECTIONS) == [l.before, l.all, l.control, l.nodes, l.tail]
  {
    SectionFacts();
    SplitFive(l.before, l.all, l.control, l.nodes, l.tail, SECTIONS, '[');
  }

  lemma {:induction false} TrimPieces(a: string, h: string, p: string, g: string, b: string)
    requires h != "" && !IsSpace(h[0]) && g != "" && !IsSpace(g[|g| - 1])
    ensures Trim(a + (h + (p + (g + b)))) == TrimLeft(a) + (h + (p + (g + TrimRight(b))))
  {
    var mid := h + (p + g);
    assert mid[|mid| - 1] == g[|g| - 1];
    assert h + (p + (g + b)) == mid + b;
    TrimAround(a, mid, b);
    assert mid + TrimRight(b) == h + (p + (g + TrimRight(b)));
  }

  lemma {:induction false} MiddleAssoc(all: string, c: string, control: string, k: string, nodes: string, x: string)
    ensures all + (c + (control + (k + (nodes + x)))) == (all + (c + (control + (k + nodes)))) + x
  {
    assert k + (nodes + x) == (k + nodes) + x;
    assert control + ((k + nodes) + x) == (control + (k + nodes)) + x;
    assert c + ((control + (k + nodes)) + x) == (c + (control + (k + nodes))) + x;
  }

  /** Trimming touches only the outer pieces of a layout. */
  lemma {:induction false} TrimLayout(l: Layout) returns (t: Layout)
    requires l.Valid()
    ensures t.Valid() && t.Text() == Trim(l.Text())
    ensures t == l.(before := TrimLeft(l.before), tail := TrimRight(l.tail))
  {
    SectionFacts();
    assert ALL[0] == '[' && CHILDREN[|CHILDREN| - 1] == ']';
    var p := l.all + (CONTROL_PLANE + (l.control + (KUBE_NODE + l.nodes)));
    MiddleAssoc(l.all, CONTROL_PLANE, l.control, KUBE_NODE, l.nodes, CHILDREN + l.tail);
    TrimPieces(l.before, ALL, p, CHILDREN, l.tail);
    t := l.(before := TrimLeft(l.before), tail := TrimRight(l.tail));
    MiddleAssoc(l.all, CONTROL_PLANE, l.control, KUBE_NODE, l.nodes, CHILDREN + t.tail);
    TrimQuiet(l.before, SECTIONS);
    TrimQuiet(l.tail, SECTIONS);
  }

  lemma {:induction false} TrimQuiet(s: string, seps: seq<string>)
    requires Quiet(s, "", seps) && forall j | 0 <= j < |seps| :: seps[j] != ""
    ensures Quiet(TrimLeft(s), "", seps) && Quiet(TrimRight(s), "", seps)
  {
    var a := TrimLeftIsSuffix(s);
    var b := TrimRightIsPrefix(s);
    assert s[a..] == s[a..|s|] && s[..b] == s[0..b];
    QuietPart(s, a, |s|, seps);
    QuietPart(s, 0, b, seps);
  }

  lemma {:induction false} ReadLayout(l: Layout)
    requires l.Valid()
    ensures ReadWorkers(l.Text()) == ReadSections(l.all, l.nodes) && ReadWorkers(l.Text()).Some?
  {
    var t := TrimLayout(l);
    SplitSections(t);
  }

  lemma {:induction false} TrimKeepsRecord(text: string)
    requires WellFormed(text)
    ensures WellFormed(Trim(text)) && ReadWorkers(text).Some? && ReadWorkers(Trim(text)) == ReadWorkers(text)
  {
    var l: Layout :| l.Valid() && text == l.Text();
    var t := TrimLayout(l);
    ReadLayout(l);
    ReadLayout(t);
  }

  lemma {:induction false} LinesQuiet(rows: seq<string>)
    requires forall i, j | 0 <= i < |rows| && 0 <= j < |rows[i]| :: rows[i][j] != '['
    ensures forall j | 0 <= j < |Lines(rows)| :: Lines(rows)[j] != '['
    ensures forall j | 0 <= j < |Blocks(rows)| :: Blocks(rows)[j] != '['
  {
    if rows != [] {
      assert forall i | 0 <= i < |rows[1..]| :: rows[1..][i] == rows[i + 1];
      LinesQuiet(rows[1..]);
    }
  }

  lemma {:induction false} PlainRows(ns: seq<NodeInfo>)
    requires PlainNodes(ns)
    ensures forall i, j | 0 <= i < |ns| && 0 <= j < |Entries(ns)[i]| :: Entries(ns)[i][j] != '['
    ensures forall i, j | 0 <= i < |ns| && 0 <= j < |Names(ns)[i]| :: Names(ns)[i][j] != '['
    ensures forall i | 0 <= i < |ns| ::
              OneLine(Entries(ns)[i]) && OneLine(Names(ns)[i]) && Trim(Names(ns)[i]) == ns[i].name
  {
    assert forall i | 0 <= i < |FIELDS[0]| :: FIELDS[0][i] != '[';
    assert forall i | 0 <= i < |FIELDS[1]| :: FIELDS[1][i] != '[';
    forall i | 0 <= i < |ns|
      ensures OneLine(Entries(ns)[i]) && OneLine(Names(ns)[i]) && Trim(Names(ns)[i]) == ns[i].name
    {
      assert PlainNode(ns[i]);
      EntryReads(ns[i]);
      TokenOneLine(ns[i].name);
    }
    forall i, j | 0 <= i < |ns| && 0 <= j < |Entries(ns)[i]| ensures Entries(ns)[i][j] != '[' {
      assert PlainNode(ns[i]) && Entries(ns)[i] == Entry(ns[i]);
    }
    assert forall i | 0 <= i < |ns| :: PlainNode(ns[i]) && Names(ns)[i] == ns[i].name;
  }

  /** A section body extended with bracket-free text still contains no header. */
  lemma {:induction false} ExtendQuiet(p: string, q: string)
    requires Quiet(p, "", SECTIONS) && forall j | 0 <= j < |q| :: q[j] != '['
    ensures Quiet(p + ("\n" + q), "", SECTIONS)
  {
    SectionFacts();
    var t := "\n" + q;
    HeadFreeQuiet(t, "", SECTIONS, {'['});
    assert t + "" == t;
    forall i | 0 <= i < |p| ensures MatchLen(p[i..] + t, SECTIONS) == 0 {
      var u := p[i..] + t;
      assert p[i..] + "" == p[i..];
      forall k | 0 <= k < |SECTIONS| ensures !(SECTIONS[k] <= u) {
        NoMatchInv(p[i..], SECTIONS, k);
        var sep, n := SECTIONS[k], |p| - i;
        if |sep| <= n {
          assert u[..|sep|] == p[i..][..|sep|];
        } else if |sep| <= |u| {
          NoNewlineInSections(k, n);
          assert u[n] == '\n' != sep[n];
        }
      }
      NoMatch(u, SECTIONS);
    }
    QuietConcat(p, t, "", SECTIONS);
  }

  lemma {:induction false} NoNewlineInSections(k: nat, n: nat)
    requires k < |SECTIONS| && n < |SECTIONS[k]|
    ensures SECTIONS[k][n] != '\n'
  {
    assert forall i | 0 <= i < |ALL| :: ALL[i] != '\n';
    assert forall i | 0 <= i < |CONTROL_PLANE| :: CONTROL_PLANE[i] != '\n';
    assert forall i | 0 <= i < |KUBE_NODE| :: KUBE_NODE[i] != '\n';
    assert forall i | 0 <= i < |CHILDREN| :: CHILDREN[i] != '\n';
  }

  function Extend(l: Layout, ns: seq<NodeInfo>): Layout {
    l.(all := l.all + ("\n" + Lines(Entries(ns))), nodes := l.nodes + ("\n" + Lines(Names(ns))))
  }

  /** A header the editor does not know between two header-free pieces. */
  lemma {:induction false} SplitAcross(a: string, h: string, b: string, k: nat, rest: string, seps: seq<string>)
    requires k < |seps| && seps[k] != "" && PrefixFree(seps)
    requires Quiet(a, h + (b + (seps[k] + rest)), seps) && Quiet(h, b + (seps[k] + rest), seps)
    requires Quiet(b, seps[k] + rest, seps)
    ensures Split(a + (h + (b + (seps[k] + rest))), seps) == [a + (h + b)] + Split(rest, seps)
  {
    SplitCut(b, k, rest, seps);
    SplitQuiet(h, b + (seps[k] + rest), seps);
    SplitQuiet(a, h + (b + (seps[k] + rest)), seps);
  }

  lemma {:induction false} ForEditor(p: string, rest: string)
    requires Quiet(p, "", SECTIONS) && (rest == "" || rest[0] == '[')
    ensures Quiet(p, rest, EDIT_POINTS)
  {
    SectionFacts();
    SeparatorFreeQuiet(p, rest, SECTIONS, {'['});
    assert SECTIONS[1] <= CONTROL_PLANE && SECTIONS[3] <= CHILDREN;
    QuietFewer(p, rest, SECTIONS, EDIT_POINTS);
  }

  lemma {:induction false} HeaderQuiet(header: string, rest: string)
    requires header == ALL || header == KUBE_NODE
    ensures Quiet(header, rest, EDIT_POINTS)
  {
    SectionFacts();
    assert ALL[1] == 'a' && CONTROL_PLANE[1] == 'k' && CHILDREN[1] == 'k';
    assert CONTROL_PLANE[2] == 'u' && KUBE_NODE[2] == 'u' && CHILDREN[2] == '8';
    assert CONTROL_PLANE[6] == 'c' && KUBE_NODE[6] == 'n';
    forall i | 0 <= i < |header| ensures MatchLen(header[i..] + rest, EDIT_POINTS) == 0 {
      var u := header[i..] + rest;
      assert u[0] == header[i];
      if i > 0 {
        assert u[0] != '[' by {
          assert SECTIONS[0] == ALL && SECTIONS[2] == KUBE_NODE;
        }
      } else {
        assert u[1] == header[1] && u[2] == header[2] && (header == KUBE_NODE ==> u[6] == 'n');
      }
      assert !(CONTROL_PLANE <= u) && !(CHILDREN <= u);
      NoMatch(u, EDIT_POINTS);
    }
  }

  /** The editor sees a layout as three parts and extends exactly two section bodies. */
  lemma {:induction false} EditLayout(l: Layout, ns: seq<NodeInfo>)
    requires l.Valid()
    ensures AddNodes(l.Text(), ns) == Some(Extend(l, ns).Text())
  {
    SectionFacts();
    var r := l.control + (KUBE_NODE + (l.nodes + (CHILDREN + l.tail)));
    EditHead(l.before, ALL, l.all, CONTROL_PLANE, r, 0);
    EditHead(l.control, KUBE_NODE, l.nodes, CHILDREN, l.tail, 1);
    ForEditor(l.tail, "");
    SplitWhole(l.tail, EDIT_POINTS);
    assert Split(l.Text(), EDIT_POINTS) == [l.before + (ALL + l.all), l.control + (KUBE_NODE + l.nodes), l.tail];
    Regroup(l.control, KUBE_NODE, l.nodes, "\n", Lines(Names(ns)), CHILDREN + l.tail);
    Regroup(l.before, ALL, l.all, "\n", Lines(Entries(ns)),
            CONTROL_PLANE + ((l.control + (KUBE_NODE + l.nodes)) + ("\n" + (Lines(Names(ns)) + (CHILDREN + l.tail)))));
  }

  lemma {:induction false} EditHead(a: string, header: string, b: string, cut: string, rest: string, k: nat)
    requires Quiet(a, "", SECTIONS) && Quiet(b, "", SECTIONS)
    requires (header == ALL || header == KUBE_NODE) && k < 2 && cut == EDIT_POINTS[k]
    ensures Split(a + (header + (b + (cut + rest))), EDIT_POINTS) == [a + (header + b)] + Split(rest, EDIT_POINTS)
  {
    SectionFacts();
    assert header[0] == '[' && cut[0] == '[';
    ForEditor(b, cut + rest);
    HeaderQuiet(header, b + (cut + rest));
    ForEditor(a, header + (b + (cut + rest)));
    SplitAcross(a, header, b, k, rest, EDIT_POINTS);
  }

  // ----- main results -----

  /** The recorded worker nodes. */
  function Recorded(text: string): seq<NodeInfo> {
    match ReadWorkers(text) case None => [] case Some(ws) => ws
  }

  lemma {:induction false} OverlayDomain(ns: seq<NodeInfo>, all: map<string, NodeInfo>, name: string)
    ensures name in Overlay(ns, all) <==> name in all || name in Names(ns)
  {
    if ns != [] {
      assert Names(ns) == [ns[0].name] + Names(ns[1..]);
      OverlayDomain(ns[1..], all[ns[0].name := ns[0]], name);
    }
  }

  /** Entries are filed under their own name. */
  ghost predicate Filed(all: map<string, NodeInfo>) {
    forall k | k in all :: all[k].name == k
  }

  lemma {:induction false} ReadEntriesFiled(rows: seq<string>, all: map<string, NodeInfo>)
    requires Filed(all) && ReadEntries(rows, all).Some?
    ensures Filed(ReadEntries(rows, all).value)
  {
    hide Split, Trim;
    if rows != [] {
      var n := ReadNode(Trim(rows[0])).value;
      ReadEntriesFiled(rows[1..], all[n.name := n]);
    }
  }

  /** In a well-formed inventory the recorded names are the rows of `[kube_node]`. */
  lemma {:induction false} RecordedNames(all: string, nodes: string)
    requires Resolves(all, nodes)
    ensures ReadSections(all, nodes).Some? && |ReadSections(all, nodes).value| == |Rows(nodes)|
    ensures forall i | 0 <= i < |Rows(nodes)| :: ReadSections(all, nodes).value[i].name == Trim(Rows(nodes)[i])
  {
    hide Rows, Trim, ReadEntries;
    ReadEntriesFiled(Rows(all), map[]);
    var e := ReadEntries(Rows(all), map[]).value;
    forall i | 0 <= i < |Rows(nodes)| ensures Trim(Rows(nodes)[i]) in e {
      assert Rows(nodes)[i] in Rows(nodes);
    }
  }

  /** The section bodies after an edit, read back. */
  lemma {:induction false} ExtendedSections(all: string, nodes: string, ns: seq<NodeInfo>)
    requires Resolves(all, nodes) && PlainNodes(ns) && DistinctNames(ns)
    requires forall i | 0 <= i < |Rows(nodes)| :: Trim(Rows(nodes)[i]) !in Names(ns)
    ensures var all', nodes' := all + ("\n" + Lines(Entries(ns))), nodes + ("\n" + Lines(Names(ns)));
            Resolves(all', nodes')
            && ReadSections(all', nodes') == Some(ReadSections(all, nodes).value + ns)
  {
    hide Rows, Trim, ReadEntries, Overlay, Lines, PlainNode, OneLine, Entry;
    var all', nodes' := all + ("\n" + Lines(Entries(ns))), nodes + ("\n" + Lines(Names(ns)));
    PlainRows(ns);
    RowsConcat(all, Lines(Entries(ns)));
    RowsConcat(nodes, Lines(Names(ns)));
    RowsOfLines(Entries(ns));
    RowsOfLines(Names(ns));
    var e := ReadEntries(Rows(all), map[]).value;
    ReadEntriesConcat(Rows(all), Entries(ns), map[]);
    PrintedEntriesRead(ns, e);
    var e', rows, rows' := Overlay(ns, e), Rows(nodes), Rows(nodes');
    assert ReadEntries(Rows(all'), map[]) == Some(e') && rows' == rows + Names(ns);
    var got := PickWorkers(rows', e');
    forall i | 0 <= i < |rows'| ensures Trim(rows'[i]) in e' && got[i] == (PickWorkers(rows, e) + ns)[i] {
      OverlayDomain(ns, e, Trim(rows'[i]));
      if i < |rows| {
        assert rows'[i] == rows[i] && rows[i] in rows;
        OverlayKeeps(ns, e, Trim(rows[i]));
      } else {
        var j := i - |rows|;
        assert rows'[i] == Names(ns)[j] && Trim(rows'[i]) == ns[j].name;
        assert ns[j].name == Names(ns)[j];
        OverlayAt(ns, e, j);
      }
    }
    assert got == PickWorkers(rows, e) + ns;
  }

  lemma {:induction false} ExtendValid(l: Layout, ns: seq<NodeInfo>)
    requires l.Valid() && PlainNodes(ns) && DistinctNames(ns)
    requires forall i | 0 <= i < |Rows(l.nodes)| :: Trim(Rows(l.nodes)[i]) !in Names(ns)
    ensures var l' := Extend(l, ns);
            && l'.Valid()
            && ReadSections(l'.all, l'.nodes) == Some(ReadSections(l.all, l.nodes).value + ns)
  {
    hide Rows, Resolves, ReadSections, Quiet, PlainNode, Lines;
    ExtendedSections(l.all, l.nodes, ns);
    PlainRows(ns);
    LinesQuiet(Entries(ns));
    LinesQuiet(Names(ns));
    ExtendQuiet(l.all, Lines(Entries(ns)));
    ExtendQuiet(l.nodes, Lines(Names(ns)));
  }

  /** Adding nodes to the text is appending them to the recorded list, and the result can be
      edited again. */
  lemma {:induction false} ScaleUpRefinesAppend(text: string, ns: seq<NodeInfo>)
    requires WellFormed(text) && PlainNodes(ns) && DistinctNames(ns)
    requires forall i | 0 <= i < |Recorded(text)| :: Recorded(text)[i].name !in Names(ns)
    ensures AddNodes(text, ns).Some? && WellFormed(AddNodes(text, ns).value)
    ensures ReadWorkers(AddNodes(text, ns).value) == Some(Recorded(text) + ns)
  {
    hide Rows, Resolves, ReadWorkers, ReadSections, AddNodes, Quiet, PlainNode, Layout.Text, Lines;
    var l: Layout :| l.Valid() && text == l.Text();
    ReadLayout(l);
    RecordedNames(l.all, l.nodes);
    assert forall i | 0 <= i < |Rows(l.nodes)| :: Recorded(text)[i].name == Trim(Rows(l.nodes)[i]);
    EditLayout(l, ns);
    ExtendValid(l, ns);
    ReadLayout(Extend(l, ns));
  }

  // ----- the printed inventory -----

  function ContentLayout(c: HostsContent): Layout {
    Layout("", "\n" + (Blocks(c.nodeAndIP) + "\n"),
           "\n" + (Blocks(c.masterName) + ("\n" + ("[etcd]" + (Blocks(c.etcdNodeName) + "\n")))),
           Blocks(c.nodeName) + "\n", "\nkube_node\nkube_control_plane\n")
  }

  lemma {:induction false} BracketFreeQuiet(p: string)
    requires forall i | 0 <= i < |p| :: p[i] != '['
    ensures Quiet(p, "", SECTIONS)
  {
    SectionFacts();
    HeadFreeQuiet(p, "", SECTIONS, {'['});
  }

  /** `[etcd]` is no header of the reader's. */
  lemma {:induction false} EtcdQuiet(rest: string)
    ensures Quiet("[etcd]", rest, SECTIONS)
  {
    SectionFacts();
    var h := "[etcd]";
    assert ALL[1] == 'a' && CONTROL_PLANE[1] == 'k' && KUBE_NODE[1] == 'k' && CHILDREN[1] == 'k';
    forall i | 0 <= i < |h| ensures MatchLen(h[i..] + rest, SECTIONS) == 0 {
      var u := h[i..] + rest;
      assert u[0] == h[i] && (i == 0 ==> u[1] == 'e');
      NoMatch(u, SECTIONS);
    }
  }

  lemma {:induction false} ControlQuiet(a: string, b: string)
    requires forall i | 0 <= i < |a| :: a[i] != '['
    requires forall i | 0 <= i < |b| :: b[i] != '['
    ensures Quiet(a + ("[etcd]" + b), "", SECTIONS)
  {
    SectionFacts();
    BracketFreeQuiet(b);
    EtcdQuiet(b + "");
    QuietConcat("[etcd]", b, "", SECTIONS);
    HeadFreeQuiet(a, ("[etcd]" + b) + "", SECTIONS, {'['});
    QuietConcat(a, "[etcd]" + b, "", SECTIONS);
  }

  lemma {:induction false} RowsBetween(rows: seq<string>)
    requires forall i | 0 <= i < |rows| :: OneLine(rows[i])
    ensures Rows(Blocks(rows) + "\n") == rows && Rows("\n" + (Blocks(rows) + "\n")) == rows
  {
    hide Rows, OneLine, Blocks;
    RowsEmpty();
    RowsOfBlocks(rows);
    var b := Blocks(rows);
    RowsConcat(b, "");
    assert b + ("\n" + "") == b + "\n";
    RowsConcat("", b + "\n");
    assert "" + ("\n" + (b + "\n")) == "\n" + (b + "\n");
  }

  lemma {:induction false} ContentQuiet(c: HostsContent)
    requires forall rows | rows in [c.nodeAndIP, c.masterName, c.nodeName, c.etcdNodeName] ::
               forall i, j | 0 <= i < |rows| && 0 <= j < |rows[i]| :: rows[i][j] != '['
    ensures Quiet(ContentLayout(c).all, "", SECTIONS) && Quiet(ContentLayout(c).control, "", SECTIONS)
    ensures Quiet(ContentLayout(c).nodes, "", SECTIONS) && Quiet(ContentLayout(c).tail, "", SECTIONS)
  {
    hide Blocks, Quiet;
    assert c.nodeAndIP in [c.nodeAndIP, c.masterName, c.nodeName, c.etcdNodeName];
    assert c.masterName in [c.nodeAndIP, c.masterName, c.nodeName, c.etcdNodeName];
    assert c.nodeName in [c.nodeAndIP, c.masterName, c.nodeName, c.etcdNodeName];
    assert c.etcdNodeName in [c.nodeAndIP, c.masterName, c.nodeName, c.etcdNodeName];
    LinesQuiet(c.nodeAndIP);
    LinesQuiet(c.masterName);
    LinesQuiet(c.nodeName);
    LinesQuiet(c.etcdNodeName);
    var l := ContentLayout(c);
    BracketFreeQuiet(l.all);
    BracketFreeQuiet(l.nodes);
    BracketFreeQuiet(l.tail);
    var b := Blocks(c.etcdNodeName) + "\n";
    var a := "\n" + (Blocks(c.masterName) + "\n");
    ControlQuiet(a, b);
    assert l.control == a + ("[etcd]" + b);
  }

  /** What a printed inventory records: each worker under the last row of its name. */
  lemma {:induction false} RenderedSections(m: Machine)
    requires PlainNodes(m.masters) && PlainNodes(m.workers)
    ensures var l := ContentLayout(Content(m));
            && Resolves(l.all, l.nodes)
            && ReadSections(l.all, l.nodes) ==
                 Some(PickWorkers(Names(m.workers), Overlay(m.masters + m.workers, map[])))
  {
    hide Rows, Trim, ReadEntries, Overlay, Blocks, PlainNode, OneLine, Entry;
    var all := m.masters + m.workers;
    var l := ContentLayout(Content(m));
    PlainRows(all);
    PlainRows(m.workers);
    RowsBetween(Entries(all));
    RowsBetween(Names(m.workers));
    PrintedEntriesRead(all, map[]);
    forall i | 0 <= i < |m.workers| ensures Trim(Names(m.workers)[i]) in Overlay(all, map[]) {
      assert Names(all)[|m.masters| + i] == m.workers[i].name;
      OverlayDomain(all, map[], m.workers[i].name);
    }
    assert forall row | row in Names(m.workers) :: exists i :: 0 <= i < |m.workers| && row == Names(m.workers)[i];
  }

  /** Two workers with one name are one worker. */
  predicate NamesIdentify(ns: seq<NodeInfo>) {
    forall i, j | 0 <= i < |ns| && 0 <= j < |ns| && ns[i].name == ns[j].name :: ns[i] == ns[j]
  }

  lemma {:induction false} PickLast(masters: seq<NodeInfo>, ws: seq<NodeInfo>, i: nat) returns (j: nat)
    requires PlainNodes(ws) && i < |ws|
    ensures LastOf(ws, j) && ws[j].name == ws[i].name
    ensures PickWorkers(Names(ws), Overlay(masters + ws, map[]))[i] == ws[j]
  {
    hide Overlay, Trim;
    var all := masters + ws;
    j := LastExists(ws, i);
    assert PlainNode(ws[i]);
    TokenOneLine(ws[i].name);
    assert all[|masters| + j] == ws[j];
    assert forall k | |masters| + j < k < |all| :: all[k] == ws[k - |masters|];
    OverlayAt(all, map[], |masters| + j);
  }

  lemma {:induction false} PickIsIdentity(masters: seq<NodeInfo>, ws: seq<NodeInfo>)
    requires PlainNodes(ws)
    ensures PickWorkers(Names(ws), Overlay(masters + ws, map[])) == ws <==> NamesIdentify(ws)
    ensures Names(PickWorkers(Names(ws), Overlay(masters + ws, map[]))) == Names(ws)
  {
    var got := PickWorkers(Names(ws), Overlay(masters + ws, map[]));
    hide Overlay, Trim, PickWorkers, PlainNodes;
    forall i | 0 <= i < |ws| ensures got[i].name == ws[i].name && (NamesIdentify(ws) ==> got[i] == ws[i]) {
      var j := PickLast(masters, ws, i);
    }
    if got == ws {
      forall i, j | 0 <= i < |ws| && 0 <= j < |ws| && ws[i].name == ws[j].name ensures ws[i] == ws[j] {
        var a := PickLast(masters, ws, i);
        var b := PickLast(masters, ws, j);
        assert a == b;
      }
    }
  }

  lemma {:induction false} ContentValid(m: Machine)
    requires PlainNodes(m.masters) && PlainNodes(m.workers)
    ensures var l := ContentLayout(Content(m)); l.Valid() && l.Text() == RenderTemplate(Content(m))
  {
    hide Rows, Trim, ReadEntries, Overlay, Blocks, PlainNode, OneLine, Entry, Resolves, ReadSections, ReadWorkers;
    hide Quiet;
    RenderedSections(m);
    PlainRows(m.masters + m.workers);
    PlainRows(m.masters);
    PlainRows(m.workers);
    ContentQuiet(Content(m));
    BracketFreeQuiet("");
  }

  /** Printing and reading back: the inventory is well formed and lists the workers' names in order;
      it returns exactly the workers if and only if no name is used for two different workers. */
  lemma {:induction false} PrintReadRoundTrip(m: Machine)
    requires PlainNodes(m.masters) && PlainNodes(m.workers)
    ensures WellFormed(RenderHosts(m)) && Names(Recorded(RenderHosts(m))) == Names(m.workers)
    ensures ReadWorkers(RenderHosts(m)) == Some(m.workers) <==> NamesIdentify(m.workers)
  {
    hide Rows, Trim, ReadEntries, Overlay, Blocks, PlainNode, OneLine, Entry, Resolves, ReadSections, ReadWorkers;
    hide Quiet, NamesIdentify, PickWorkers;
    var c := Content(m);
    var l := ContentLayout(c);
    RenderedSections(m);
    ContentValid(m);
    ReadLayout(l);
    TrimKeepsRecord(l.Text());
    PickIsIdentity(m.masters, m.workers);
  }

  /** With names unique across the machine no master is read back as a worker. */
  lemma {:induction false} NoMasterAmongWorkers(m: Machine)
    requires PlainNodes(m.masters) && PlainNodes(m.workers)
    ensures NameSet(m.masters) !! NameSet(m.workers) <==>
            forall w | w in Recorded(RenderHosts(m)) :: w.name !in NameSet(m.masters)
  {
    hide Rows, Trim, ReadEntries, Overlay, Blocks, PlainNode, OneLine, Entry, Resolves, ReadSections, ReadWorkers;
    hide Quiet, RenderHosts;
    PrintReadRoundTrip(m);
    var r := Recorded(RenderHosts(m));
    assert forall i | 0 <= i < |r| :: r[i].name == Names(r)[i] == m.workers[i].name;
    assert |r| == |m.workers|;
    assert NameSet(r) == NameSet(m.workers);
    if forall w | w in r :: w.name !in NameSet(m.masters) {
      forall x | x in NameSet(m.workers) ensures x !in NameSet(m.masters) {
        var i :| 0 <= i < |r| && r[i].name == x;
        assert r[i] in r;
      }
    }
  }

  // ----- any number of scale-ups -----

  function Flatten(batches: seq<seq<NodeInfo>>): seq<NodeInfo> {
    if batches == [] then [] else Flatten(batches[..|batches| - 1]) + batches[|batches| - 1]
  }

  function AddBatches(text: string, batches: seq<seq<NodeInfo>>): Option<string> {
    if batches == [] then Some(text)
    else match AddBatches(text, batches[..|batches| - 1])
      case None => None
      case Some(t) => AddNodes(t, batches[|batches| - 1])
  }

  /** After printing a machine and any number of scale-ups the record is the workers followed by
      every batch, in order. */
  lemma {:induction false} ManyScaleUps(m: Machine, batches: seq<seq<NodeInfo>>)
    requires PlainNodes(m.masters) && PlainNodes(m.workers + Flatten(batches))
    requires DistinctNames(m.workers + Flatten(batches))
    ensures AddBatches(RenderHosts(m), batches).Some? && WellFormed(AddBatches(RenderHosts(m), batches).value)
    ensures ReadWorkers(AddBatches(RenderHosts(m), batches).value) == Some(m.workers + Flatten(batches))
  {
    hide ReadWorkers, AddNodes, RenderHosts, WellFormed, PlainNode;
    var all := m.workers + Flatten(batches);
    assert forall i | 0 <= i < |m.workers| :: all[i] == m.workers[i];
    if batches == [] {
      assert all == m.workers;
      PrintReadRoundTrip(m);
    } else {
      var n := |batches| - 1;
      var before, ns := m.workers + Flatten(batches[..n]), batches[n];
      assert all == before + ns;
      assert forall i | 0 <= i < |before| :: all[i] == before[i];
      assert forall i | 0 <= i < |ns| :: all[|before| + i] == ns[i];
      ManyScaleUps(m, batches[..n]);
      var t := AddBatches(RenderHosts(m), batches[..n]).value;
      ScaleUpRefinesAppend(t, ns);
    }
  }
}
