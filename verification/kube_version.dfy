/** The `kube_version: ` line of `cluster-config`: reading it, rewriting it in place, and which
    version changes kubeadm accepts. */
module KubeVersion {
  import opened Text
  import opened Inventory

  const KEY := "kube_version: "

  function ConfigLines(text: string): seq<string> {
    Split(Trim(text), NEWLINES)
  }

  function FirstVersion(lines: seq<string>): string {
    if lines == [] then "" else if KEY <= lines[0] then Trim(ReplaceAll(lines[0], KEY, ""))
    else FirstVersion(lines[1..])
  }

  /** The version recorded in `cluster-config`; empty when there is no such line. */
  function VersionIn(text: string): string {
    FirstVersion(ConfigLines(text))
  }

  /** `getUpdatedKubeVersionConfigData`. */
  function UpdateVersion(text: string, version: string): string {
    Trim(ReplaceAll(Trim(text), KEY + VersionIn(text), KEY + version))
  }

  /** `getKubeVersionFromCM`. */
  method GetKubeVersionFromCM(text: string) returns (version: string)
    ensures version == VersionIn(text)
  {
    hide Split, Trim, ReplaceAll;
    var lines := Split(Trim(text), NEWLINES);
    for i := 0 to |lines|
      invariant FirstVersion(lines[i..]) == VersionIn(text)
    {
      assert lines[i..][1..] == lines[i + 1..];
      if KEY <= lines[i] {
        return Trim(ReplaceAll(lines[i], KEY, ""));
      }
    }
    return "";
  }

  // ----- versions -----

  datatype Semver = Semver(major: nat, minor: nat, patch: nat)

  function Digits(s: string, n: nat): Option<nat> {
    if s == "" then Some(n)
    else if '0' <= s[0] <= '9' then Digits(s[1..], 10 * n + (s[0] as nat - '0' as nat))
    else None
  }

  /** `strconv.ParseInt` on an unsigned part: digits only, below 2^63. */
  function Number(s: string): Option<nat> {
    if s == "" then None
    else match Digits(s, 0)
      case None => None
      case Some(n) => if n < 0x8000_0000_0000_0000 then Some(n) else None
  }

  /** `semver.NewVersion`: MAJOR.MINOR.PATCH, with any build metadata and pre-release cut off. */
  function ParseSemver(s: string): Option<Semver> {
    var core := Split(Split(s, ["+"])[0], ["-"])[0];
    var parts := Split(core, ["."]);
    if |parts| != 3 then None
    else match (Number(parts[0]), Number(parts[1]), Number(parts[2]))
      case (Some(x), Some(y), Some(z)) => Some(Semver(x, y, z))
      case _ => None
  }

  function Parse(version: string): Option<Semver> {
    ParseSemver(TrimPrefix(version, "v"))
  }

  /** `isKubeadmUpgradeSupported`. */
  predicate UpgradeSupported(origin: string, target: string) {
    match (Parse(origin), Parse(target))
    case (Some(o), Some(t)) => o.major == t.major && o.minor - t.minor <= 1 && t.minor - o.minor <= 1
    case _ => false
  }

  /** Nothing can be upgraded from the empty version that stands for "not recorded". */
  lemma {:induction false} EmptyVersionUnsupported(target: string)
    ensures !UpgradeSupported("", target)
  {
    assert TrimPrefix("", "v") == "";
    assert Split("", ["+"]) == [""] && Split("", ["-"]) == [""] && Split("", ["."]) == [""];
    assert ParseSemver("") == None;
  }

  // ----- the shape every configuration keeps -----

  predicate LineBreak(c: char) {
    c in {'\t', '\n', '\U{0C}', '\r'}
  }

  datatype ConfigLayout = ConfigLayout(pre: string, version: string, post: string) {
    function Text(): string {
      pre + (KEY + version + post)
    }

    /** One canonical version line and no other occurrence of the key. */
    ghost predicate Valid() {
      && version != "" && Token(version)
      && Quiet(pre, "", [KEY]) && Quiet(post, "", [KEY])
      && (pre == "" || LineBreak(pre[|pre| - 1]))
      && (post == "" || LineBreak(post[0]))
    }
  }

  ghost predicate Canonical(text: string) {
    exists c: ConfigLayout :: c.Valid() && text == c.Text()
  }

  lemma {:induction false} KeyFacts()
    ensures HeadOnly([KEY], {'k'}) && PrefixFree([KEY]) && KEY[13] == ' ' && |KEY| == 14
    ensures forall i | 0 <= i < |KEY| :: !LineBreak(KEY[i])
  {
  }

  lemma {:induction false} TrimConfig(c: ConfigLayout) returns (t: ConfigLayout)
    requires c.Valid()
    ensures t.Valid() && t.Text() == Trim(c.Text()) && t.version == c.version
    ensures t.pre == TrimLeft(c.pre) && t.post == TrimRight(c.post)
  {
    hide Quiet, TrimLeft, TrimRight, Trim, LineBreak, IsSpace;
    t := c.(pre := TrimLeft(c.pre), post := TrimRight(c.post));
    KeyTrims(c.version);
    TrimAround(c.pre, KEY + c.version, c.post);
    assert KEY != "";
    TrimQuiet(c.pre, [KEY]);
    TrimQuiet(c.post, [KEY]);
    var a := TrimLeftIsSuffix(c.pre);
    var b := TrimRightIsPrefix(c.post);
  }

  lemma {:induction false} KeyTrims(v: string)
    requires v != "" && Token(v)
    ensures var mid := KEY + v; mid != "" && !IsSpace(mid[0]) && !IsSpace(mid[|mid| - 1])
  {
    var mid := KEY + v;
    assert mid[0] == KEY[0] == 'k' && mid[|mid| - 1] == v[|v| - 1];
  }

  /** The key does not occur in a version, not even across its end. */
  lemma {:induction false} VersionQuiet(v: string, post: string)
    requires Token(v) && (post == "" || LineBreak(post[0]))
    ensures Quiet(v, post, [KEY])
  {
    KeyFacts();
    assert IsSpace(' ');
    forall i | 0 <= i < |v| ensures MatchLen(v[i..] + post, [KEY]) == 0 {
      var u, n := v[i..] + post, |v| - i;
      if 14 <= |u| {
        if n < 14 {
          assert u[n] == post[0] && u[n] != KEY[n];
        } else {
          assert u[13] == v[i + 13] && u[13] != KEY[13];
        }
      }
      NoMatch(u, [KEY]);
    }
  }

  lemma {:induction false} LinesFromKey(v: string, post: string)
    requires Token(v) && (post == "" || LineBreak(post[0]))
    ensures Split(KEY + v + post, NEWLINES)
         == [KEY + v] + (if post == "" then [] else Split(post[1..], NEWLINES))
  {
    KeyFacts();
    LineFacts();
    TokenNoLineBreak(v);
    var line := KEY + v;
    HeadFreeQuiet(line, post, NEWLINES, {'\t', '\n', '\U{0C}', '\r'});
    if post == "" {
      SplitWhole(line, NEWLINES);
      assert line + "" == line;
    } else {
      var k := BreakIndex(post[0]);
      assert post == NEWLINES[k] + post[1..];
      SplitCut(line, k, post[1..], NEWLINES);
    }
  }

  lemma {:induction false} BreakIndex(c: char) returns (k: nat)
    requires LineBreak(c)
    ensures k < |NEWLINES| && NEWLINES[k] == [c]
  {
    k := if c == '\t' then 0 else if c == '\n' then 1 else if c == '\U{0C}' then 2 else 3;
  }

  /** The lines of a configuration: those before, the version line, those after. */
  lemma {:induction false} LinesAround(c: ConfigLayout) returns (before: seq<string>, after: seq<string>)
    requires c.Valid()
    ensures before == LinesBefore(c.pre) && after == LinesAfter(c.post)
    ensures Split(c.Text(), NEWLINES) == before + [KEY + c.version] + after
    ensures forall i | 0 <= i < |before| :: !(KEY <= before[i])
  {
    hide Split, Token, IsSpace;
    before, after := LinesBefore(c.pre), LinesAfter(c.post);
    var body := KEY + c.version + c.post;
    LinesFromKey(c.version, c.post);
    assert Split(body, NEWLINES) == [KEY + c.version] + after;
    if c.pre == "" {
      assert c.Text() == body;
      assert before == [];
    } else {
      LineFacts();
      var n := |c.pre| - 1;
      var k := BreakIndex(c.pre[n]);
      assert c.pre == c.pre[..n] + NEWLINES[k];
      assert c.Text() == c.pre[..n] + (NEWLINES[k] + body);
      SplitChars(c.pre[..n], k, body, NEWLINES);
      assert c.pre[..n] == c.pre[0..n];
      QuietPart(c.pre, 0, n, [KEY]);
      PiecesUnmarked(c.pre[..n], NEWLINES, KEY);
    }
  }

  function LinesBefore(pre: string): seq<string> {
    if pre == "" then [] else Split(pre[..|pre| - 1], NEWLINES)
  }

  function LinesAfter(post: string): seq<string> {
    if post == "" then [] else Split(post[1..], NEWLINES)
  }

  lemma {:induction false} FirstVersionAfter(before: seq<string>, rest: seq<string>)
    requires forall i | 0 <= i < |before| :: !(KEY <= before[i])
    ensures FirstVersion(before + rest) == FirstVersion(rest)
  {
    hide Trim, ReplaceAll;
    if before == [] {
      assert before + rest == rest;
    } else {
      assert (before + rest)[1..] == before[1..] + rest && (before + rest)[0] == before[0];
      FirstVersionAfter(before[1..], rest);
    }
  }

  lemma {:induction false} KeyLineReads(v: string)
    requires Token(v)
    ensures Trim(ReplaceAll(KEY + v, KEY, "")) == v
  {
    KeyFacts();
    VersionQuiet(v, "");
    SplitWhole(v, [KEY]);
    SplitCut("", 0, v, [KEY]);
    assert "" + (KEY + v) == KEY + v;
    JoinTwo("", v, "");
    assert "" + ("" + v) == v;
    TrimToken(v);
  }

  lemma {:induction false} FirstVersionHit(line: string, after: seq<string>)
    requires KEY <= line
    ensures FirstVersion([line] + after) == Trim(ReplaceAll(line, KEY, ""))
  {
    hide Trim, ReplaceAll;
  }

  lemma {:induction false} VersionFromLines(text: string)
    ensures VersionIn(text) == FirstVersion(ConfigLines(text)) && ConfigLines(text) == Split(Trim(text), NEWLINES)
  {
    hide Split, Trim, FirstVersion;
  }

  lemma {:induction false} ReadsVersion(c: ConfigLayout)
    requires c.Valid()
    ensures VersionIn(c.Text()) == c.version
  {
    hide *;
    var t := TrimConfig(c);
    var before, after := LinesAround(t);
    var line := KEY + c.version;
    assert before + [line] + after == before + ([line] + after);
    VersionFromLines(c.Text());
    FirstVersionAfter(before, [line] + after);
    FirstVersionHit(line, after);
    ValidToken(c);
    KeyLineReads(c.version);
  }

  lemma {:induction false} ValidToken(c: ConfigLayout)
    requires c.Valid()
    ensures Token(c.version)
  {
  }

  /** Replacing the key and its value rewrites the one version line. */
  lemma {:induction false} ReplaceInConfig(c: ConfigLayout, v: string)
    requires c.Valid()
    ensures ReplaceAll(c.Text(), KEY + c.version, KEY + v) == c.(version := v).Text()
  {
    KeyFacts();
    var recorded, desired := KEY + c.version, KEY + v;
    var seps := [recorded];
    SeparatorFreeQuiet(c.pre, recorded + c.post, [KEY], {'k'});
    assert [KEY][0] <= recorded;
    assert forall f | f in seps :: f == recorded;
    QuietFewer(c.pre, recorded + c.post, [KEY], seps);
    QuietFewer(c.post, "", [KEY], seps);
    SplitWhole(c.post, seps);
    SplitCut(c.pre, 0, c.post, seps);
    JoinTwo(c.pre, c.post, desired);
    assert [c.pre] + [c.post] == [c.pre, c.post];
  }

  // ----- main results -----

  /** Read after write, with frame: the new text reads back as the new version, is canonical again,
      and its lines are the old lines except the version line. */
  lemma {:induction false} UpdateReadsBack(c: ConfigLayout, v: string)
    requires c.Valid() && v != "" && Token(v)
    ensures VersionIn(c.Text()) == c.version
    ensures Canonical(UpdateVersion(c.Text(), v)) && VersionIn(UpdateVersion(c.Text(), v)) == v
    ensures exists k :: 0 <= k < |ConfigLines(c.Text())|
              && ConfigLines(c.Text())[k] == KEY + c.version
              && ConfigLines(UpdateVersion(c.Text(), v)) == ConfigLines(c.Text())[k := KEY + v]
  {
    hide *;
    var t := TrimConfig(c);
    var n := t.(version := v);
    assert n.Valid() by { Revalid(t, v); }
    var u := TrimConfig(n);
    var u' := TrimConfig(u);
    ReadsVersion(c);
    ReadsVersion(u);
    ReplaceInConfig(t, v);
    UpdateIs(c.Text(), c.version, v);
    CanonicalText(u);
    TrimTwice(c.pre, c.post);
    var b1, a1 := LinesAround(t);
    var b2, a2 := LinesAround(u');
    VersionFromLines(c.Text());
    VersionFromLines(u.Text());
    var k, lines := |b1|, b1 + [KEY + c.version] + a1;
    assert lines[k := KEY + v] == b1 + [KEY + v] + a1;
    assert lines[k] == KEY + c.version;
  }

  lemma {:induction false} Revalid(c: ConfigLayout, v: string)
    requires c.Valid() && v != "" && Token(v)
    ensures c.(version := v).Valid()
  {
  }

  lemma {:induction false} CanonicalText(c: ConfigLayout)
    requires c.Valid()
    ensures Canonical(c.Text())
  {
  }

  lemma {:induction false} UpdateIs(text: string, recorded: string, v: string)
    requires VersionIn(text) == recorded
    ensures UpdateVersion(text, v) == Trim(ReplaceAll(Trim(text), KEY + recorded, KEY + v))
  {
  }

  lemma {:induction false} TrimTwice(a: string, b: string)
    ensures TrimLeft(TrimLeft(a)) == TrimLeft(a) && TrimRight(TrimRight(b)) == TrimRight(b)
  {
    if a != "" && IsSpace(a[0]) { TrimTwice(a[1..], b); }
    if b != "" && IsSpace(b[|b| - 1]) { TrimTwice(a, b[..|b| - 1]); }
  }

  /** The text of a freshly created `cluster-config`: the version line, then the other settings. */
  function RenderConfig(version: string, body: string): string {
    Trim(KEY + version + ("\n" + body))
  }

  lemma {:induction false} RenderConfigCanonical(version: string, body: string)
    requires version != "" && Token(version) && Quiet(body, "", [KEY])
    ensures Canonical(RenderConfig(version, body)) && VersionIn(RenderConfig(version, body)) == version
  {
    KeyFacts();
    var c := ConfigLayout("", version, "\n" + body);
    HeadFreeQuiet("\n", body + "", [KEY], {'k'});
    QuietConcat("\n", body, "", [KEY]);
    assert c.Text() == KEY + version + ("\n" + body);
    var t := TrimConfig(c);
    ReadsVersion(t);
  }

  /** The new configuration is the version line followed by the lines of the settings, less white space at
      their end. */
  lemma {:induction false} RenderedSettings(version: string, body: string)
    requires version != "" && Token(version)
    ensures ConfigLines(RenderConfig(version, body))
         == [KEY + version] + if TrimRight(body) == "" then [] else Split(TrimRight(body), NEWLINES)
  {
    hide Split, TrimRight, TrimLeft;
    LineFacts();
    KeyTrims(version);
    KeyIsLine(version);
    NothingTrimmed();
    var head, post := KEY + version, "\n" + body;
    TrimAround("", head, post);
    TrimAround("", head, TrimRight(post));
    TrimTwice("", post);
    assert "" + (head + post) == head + post && "" + (head + TrimRight(post)) == head + TrimRight(post);
    TrimAfterBreak(body);
    if TrimRight(body) == "" { assert head + "" == head; } else { SplitChars(head, 1, TrimRight(body), NEWLINES); }
  }

  lemma {:induction false} NothingTrimmed()
    ensures TrimLeft("") == ""
  {
  }

  lemma {:induction false} KeyIsLine(v: string)
    requires Token(v)
    ensures Split(KEY + v, NEWLINES) == [KEY + v]
  {
    LineFacts();
    KeyFacts();
    TokenNoLineBreak(v);
    HeadFreeQuiet(KEY + v, "", NEWLINES, {'\t', '\n', '\U{0C}', '\r'});
    SplitWhole(KEY + v, NEWLINES);
  }

  lemma {:induction false} TrimAfterBreak(body: string)
    ensures TrimRight("\n" + body) == if TrimRight(body) == "" then "" else "\n" + TrimRight(body)
  {
    var s := "\n" + body;
    if body == "" {
      assert s == "\n" && s[..0] == "";
    } else {
      assert s[|s| - 1] == body[|body| - 1] && s[..|s| - 1] == "\n" + body[..|body| - 1];
      if IsSpace(body[|body| - 1]) { TrimAfterBreak(body[..|body| - 1]); }
    }
  }

  lemma {:induction false} UpdateKeepsCanonical(text: string, v: string)
    requires Canonical(text) && v != "" && Token(v)
    ensures Canonical(UpdateVersion(text, v)) && VersionIn(UpdateVersion(text, v)) == v
  {
    hide VersionIn, UpdateVersion, ConfigLayout.Text, ConfigLayout.Valid;
    var c: ConfigLayout :| c.Valid() && text == c.Text();
    UpdateReadsBack(c, v);
  }
}
