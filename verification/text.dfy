/** The string operations of the Go standard library that the operator relies on, and the
    laws about cutting and gluing text that every printer/parser proof is built from. */
module Text {

  datatype Option<+T> = None | Some(value: T)

  /** `unicode.IsSpace`. */
  predicate IsSpace(c: char) {
    c in ['\t', '\n', '\U{0B}', '\U{0C}', '\r', ' ', '\U{85}', '\U{A0}', '\U{1680}', '\U{2028}', '\U{2029}',
          '\U{202F}', '\U{205F}', '\U{3000}'] || '\U{2000}' <= c <= '\U{200A}'
  }

  function TrimLeft(s: string): string {
    if s != "" && IsSpace(s[0]) then TrimLeft(s[1..]) else s
  }

  function TrimRight(s: string): string {
    if s != "" && IsSpace(s[|s| - 1]) then TrimRight(s[..|s| - 1]) else s
  }

  /** `strings.TrimSpace`. */
  function Trim(s: string): string {
    TrimRight(TrimLeft(s))
  }

  /** `strings.TrimPrefix`. */
  function TrimPrefix(s: string, p: string): string {
    if p <= s then s[|p|..] else s
  }

  /** The length of the first separator in `seps` that starts `s`; 0 when none does. */
  function MatchLen(s: string, seps: seq<string>): (m: nat)
    ensures m <= |s|
  {
    if seps == [] then 0 else if seps[0] <= s then |seps[0]| else MatchLen(s, seps[1..])
  }

  /** `Regexp.Split(s, -1)` for a pattern that is an alternation of the nonempty literals `seps`;
      with one separator it is also `strings.Split`. */
  function Split(s: string, seps: seq<string>): (parts: seq<string>)
    ensures |parts| >= 1
    decreases |s|
  {
    if s == "" then [""]
    else
      var m := MatchLen(s, seps);
      if m > 0 then [""] + Split(s[m..], seps)
      else
        var rest := Split(s[1..], seps);
        [[s[0]] + rest[0]] + rest[1..]
  }

  /** `strings.Join`. */
  function Join(parts: seq<string>, sep: string): string {
    if parts == [] then "" else if |parts| == 1 then parts[0] else parts[0] + (sep + Join(parts[1..], sep))
  }

  /** `strings.Replace(s, what, with, -1)` for a nonempty `what`. */
  function ReplaceAll(s: string, what: string, with: string): string {
    Join(Split(s, [what]), with)
  }

  /** No whitespace: what the operator assumes of host names, addresses and versions. */
  predicate Token(s: string) {
    forall i | 0 <= i < |s| :: !IsSpace(s[i])
  }

  /** No separator starts at a position of `p` when `p` is followed by `rest`. */
  ghost predicate Quiet(p: string, rest: string, seps: seq<string>) {
    forall i | 0 <= i < |p| :: MatchLen(p[i..] + rest, seps) == 0
  }

  /** Every separator starts with a head character and has none further on. */
  ghost predicate HeadOnly(seps: seq<string>, heads: set<char>) {
    forall k | 0 <= k < |seps| ::
      seps[k] != "" && seps[k][0] in heads && forall i | 1 <= i < |seps[k]| :: seps[k][i] !in heads
  }

  ghost predicate PrefixFree(seps: seq<string>) {
    forall j, k | 0 <= j < |seps| && 0 <= k < |seps| && seps[j] <= seps[k] :: j == k
  }

  // ----- matching -----

  lemma {:induction false} NoMatch(s: string, seps: seq<string>)
    requires forall k | 0 <= k < |seps| :: !(seps[k] <= s)
    ensures MatchLen(s, seps) == 0
  {
    if seps != [] { NoMatch(s, seps[1..]); }
  }

  lemma {:induction false} NoMatchInv(s: string, seps: seq<string>, k: nat)
    requires k < |seps| && seps[k] != "" && MatchLen(s, seps) == 0
    requires forall j | 0 <= j < |seps| :: seps[j] != ""
    ensures !(seps[k] <= s)
  {
    if k > 0 { NoMatchInv(s, seps[1..], k - 1); }
  }

  lemma {:induction false} MatchIs(s: string, seps: seq<string>, k: nat)
    requires k < |seps| && seps[k] <= s && PrefixFree(seps)
    ensures MatchLen(s, seps) == |seps[k]|
  {
    if k > 0 {
      var a, b := seps[0], seps[k];
      assert !(a <= b) && !(b <= a);
      assert a <= s && |a| <= |b| ==> a <= b;
      assert forall j | 0 <= j < |seps[1..]| :: seps[1..][j] == seps[j + 1];
      MatchIs(s, seps[1..], k - 1);
    }
  }

  /** Text without head characters is quiet before anything. */
  lemma {:induction false} HeadFreeQuiet(p: string, rest: string, seps: seq<string>, heads: set<char>)
    requires HeadOnly(seps, heads)
    requires forall i | 0 <= i < |p| :: p[i] !in heads
    ensures Quiet(p, rest, seps)
  {
    forall i | 0 <= i < |p| ensures MatchLen(p[i..] + rest, seps) == 0 {
      var t := p[i..] + rest;
      assert t[0] == p[i];
      assert forall k | 0 <= k < |seps| && seps[k] <= t :: seps[k][0] == t[0];
      NoMatch(t, seps);
    }
  }

  /** Text that contains no separator stays quiet before anything that starts with a head
      character: a separator cannot straddle the boundary. */
  lemma {:induction false} SeparatorFreeQuiet(p: string, rest: string, seps: seq<string>, heads: set<char>)
    requires HeadOnly(seps, heads) && Quiet(p, "", seps)
    requires rest == "" || rest[0] in heads
    ensures Quiet(p, rest, seps)
  {
    forall i | 0 <= i < |p| ensures MatchLen(p[i..] + rest, seps) == 0 {
      var t := p[i..] + rest;
      assert p[i..] + "" == p[i..];
      forall k | 0 <= k < |seps| ensures !(seps[k] <= t) {
        NoMatchInv(p[i..], seps, k);
        var sep, n := seps[k], |p| - i;
        if |sep| <= n {
          assert t[..|sep|] == p[i..][..|sep|];
        } else if |sep| <= |t| {
          assert t[n] == rest[0] != sep[n];
        }
      }
      NoMatch(t, seps);
    }
  }

  lemma {:induction false} QuietConcat(a: string, b: string, rest: string, seps: seq<string>)
    requires Quiet(a, b + rest, seps) && Quiet(b, rest, seps)
    ensures Quiet(a + b, rest, seps)
  {
    forall i | 0 <= i < |a + b| ensures MatchLen((a + b)[i..] + rest, seps) == 0 {
      if i < |a| {
        assert (a + b)[i..] + rest == a[i..] + (b + rest);
      } else {
        assert (a + b)[i..] + rest == b[i - |a|..] + rest;
      }
    }
  }

  /** Fewer separators match in fewer places. */
  lemma {:induction false} QuietFewer(p: string, rest: string, seps: seq<string>, fewer: seq<string>)
    requires Quiet(p, rest, seps)
    requires forall j | 0 <= j < |seps| :: seps[j] != ""
    requires forall f | f in fewer :: exists k :: 0 <= k < |seps| && seps[k] <= f
    ensures Quiet(p, rest, fewer)
  {
    forall i | 0 <= i < |p| ensures MatchLen(p[i..] + rest, fewer) == 0 {
      var t := p[i..] + rest;
      forall j | 0 <= j < |fewer| ensures !(fewer[j] <= t) {
        assert fewer[j] in fewer;
        var k :| 0 <= k < |seps| && seps[k] <= fewer[j];
        NoMatchInv(t, seps, k);
      }
      NoMatch(t, fewer);
    }
  }

  lemma {:induction false} QuietPart(p: string, lo: nat, hi: nat, seps: seq<string>)
    requires lo <= hi <= |p| && Quiet(p, "", seps)
    requires forall j | 0 <= j < |seps| :: seps[j] != ""
    ensures Quiet(p[lo..hi], "", seps)
  {
    var q := p[lo..hi];
    forall i | 0 <= i < |q| ensures MatchLen(q[i..] + "", seps) == 0 {
      var t := q[i..] + "";
      assert p[lo + i..] + "" == p[lo + i..] == q[i..] + p[hi..];
      forall k | 0 <= k < |seps| ensures !(seps[k] <= t) {
        var sep, u := seps[k], p[lo + i..];
        NoMatchInv(u, seps, k);
        assert sep <= t ==> sep <= u;
      }
      NoMatch(t, seps);
    }
  }

  // ----- splitting -----

  lemma {:induction false} SplitQuiet(p: string, rest: string, seps: seq<string>)
    requires Quiet(p, rest, seps)
    ensures Split(p + rest, seps) == [p + Split(rest, seps)[0]] + Split(rest, seps)[1..]
  {
    var r := Split(rest, seps);
    if p == "" {
      assert p + rest == rest;
      assert p + r[0] == r[0] && [r[0]] + r[1..] == r;
    } else {
      assert p[0..] == p;
      assert MatchLen(p[0..] + rest, seps) == 0;
      assert (p + rest)[1..] == p[1..] + rest;
      forall i | 0 <= i < |p[1..]| ensures MatchLen(p[1..][i..] + rest, seps) == 0 {
        assert p[1..][i..] == p[i + 1..];
      }
      SplitQuiet(p[1..], rest, seps);
      assert [p[0]] + (p[1..] + r[0]) == p + r[0];
    }
  }

  lemma {:induction false} SplitWhole(p: string, seps: seq<string>)
    requires Quiet(p, "", seps)
    ensures Split(p, seps) == [p]
  {
    SplitQuiet(p, "", seps);
    assert p + "" == p;
  }

  /** A piece, a separator and the rest: the piece is cut off. */
  lemma {:induction false} SplitCut(p: string, k: nat, rest: string, seps: seq<string>)
    requires k < |seps| && seps[k] != "" && PrefixFree(seps)
    requires Quiet(p, seps[k] + rest, seps)
    ensures Split(p + (seps[k] + rest), seps) == [p] + Split(rest, seps)
  {
    var t := seps[k] + rest;
    SplitQuiet(p, t, seps);
    assert t[..|seps[k]|] == seps[k];
    MatchIs(t, seps, k);
    assert t[|seps[k]|..] == rest;
    assert Split(t, seps) == [""] + Split(rest, seps);
    assert p + "" == p;
  }

  /** Every separator is a single character. */
  ghost predicate CharSeps(seps: seq<string>) {
    forall k | 0 <= k < |seps| :: |seps[k]| == 1
  }

  /** For one-character separators, splitting distributes over any text that has one in the middle. */
  lemma {:induction false} SplitChars(a: string, k: nat, b: string, seps: seq<string>)
    requires k < |seps| && CharSeps(seps) && PrefixFree(seps)
    ensures Split(a + (seps[k] + b), seps) == Split(a, seps) + Split(b, seps)
  {
    var x := seps[k] + b;
    if a == "" {
      SplitCut(a, k, b, seps);
    } else {
      assert (a + x)[1..] == a[1..] + x && (a + x)[0] == a[0];
      SplitChars(a[1..], k, b, seps);
      CharMatch(a + x, a, seps);
      CharMatchLen(a, seps);
      SplitStep(a + x, a, Split(b, seps), seps);
    }
  }

  /** One step of splitting, for two texts with the same first character. */
  lemma {:induction false} SplitStep(s: string, a: string, u: seq<string>, seps: seq<string>)
    requires s != "" && a != "" && s[0] == a[0] && MatchLen(s, seps) == MatchLen(a, seps) <= 1
    requires Split(s[1..], seps) == Split(a[1..], seps) + u
    ensures Split(s, seps) == Split(a, seps) + u
  {
    hide MatchLen;
    var r := Split(a[1..], seps);
    if MatchLen(a, seps) == 0 {
      var x := [a[0]] + r[0];
      assert Split(a, seps) == [x] + r[1..];
      assert (r + u)[0] == r[0] && (r + u)[1..] == r[1..] + u;
      ConsAppend(x, r[1..], u);
    } else {
      assert Split(a, seps) == [""] + r;
      ConsAppend("", r, u);
    }
  }

  lemma {:induction false} ConsAppend(x: string, ys: seq<string>, us: seq<string>)
    ensures ([x] + ys) + us == [x] + (ys + us)
  {
  }

  lemma {:induction false} CharMatchLen(s: string, seps: seq<string>)
    requires CharSeps(seps)
    ensures MatchLen(s, seps) <= 1
  {
    if seps != [] { CharMatchLen(s, seps[1..]); }
  }

  lemma {:induction false} CharMatch(s: string, t: string, seps: seq<string>)
    requires CharSeps(seps) && s != "" && t != "" && s[0] == t[0]
    ensures MatchLen(s, seps) == MatchLen(t, seps)
  {
    if seps != [] { CharMatch(s, t, seps[1..]); }
  }

  /** The pieces keep whatever is said of every position of the text. */
  lemma {:induction false} SplitFirst(s: string, seps: seq<string>)
    ensures Split(s, seps)[0] <= s
  {
    if s != "" && MatchLen(s, seps) == 0 { SplitFirst(s[1..], seps); }
  }

  /** Text in which `mark` does not occur has no piece that starts with `mark`. */
  lemma {:induction false} PiecesUnmarked(s: string, seps: seq<string>, mark: string)
    requires mark != "" && Quiet(s, "", [mark])
    ensures forall j | 0 <= j < |Split(s, seps)| :: !(mark <= Split(s, seps)[j])
    decreases |s|
  {
    if s != "" {
      var m := MatchLen(s, seps);
      var n := if m > 0 then m else 1;
      QuietPart(s, n, |s|, [mark]);
      PiecesUnmarked(s[n..], seps, mark);
      if m == 0 {
        SplitFirst(s, seps);
        assert s[0..] + "" == s;
        NoMatchInv(s, [mark], 0);
      }
    }
  }

  lemma {:induction false} JoinTwo(a: string, b: string, sep: string)
    ensures Join([a, b], sep) == a + (sep + b)
  {
    assert [a, b][1..] == [b];
  }

  /** Names free of the separator survive joining and splitting. */
  lemma {:induction false} SplitJoin(names: seq<string>, c: char)
    requires names != []
    requires forall j, i | 0 <= j < |names| && 0 <= i < |names[j]| :: names[j][i] != c
    ensures Split(Join(names, [c]), [[c]]) == names
  {
    var seps := [[c]];
    if |names| == 1 {
      HeadFreeQuiet(names[0], "", seps, {c});
      SplitWhole(names[0], seps);
    } else {
      var rest := Join(names[1..], [c]);
      assert forall j | 0 <= j < |names[1..]| :: names[1..][j] == names[j + 1];
      SplitJoin(names[1..], c);
      HeadFreeQuiet(names[0], seps[0] + rest, seps, {c});
      SplitCut(names[0], 0, rest, seps);
      assert names == [names[0]] + names[1..];
    }
  }

  /** `a b c` extended with `d e` before `x`, read from the other end. */
  lemma {:induction false} Regroup(a: string, b: string, c: string, d: string, e: string, x: string)
    ensures (a + (b + c)) + (d + (e + x)) == a + (b + ((c + (d + e)) + x))
  {
  }

  // ----- trimming -----

  lemma {:induction false} TrimLeftBefore(a: string, m: string)
    requires m != "" && !IsSpace(m[0])
    ensures TrimLeft(a + m) == TrimLeft(a) + m
  {
    if a == "" {
      assert a + m == m;
    } else {
      assert (a + m)[1..] == a[1..] + m;
      if IsSpace(a[0]) { TrimLeftBefore(a[1..], m); }
    }
  }

  lemma {:induction false} TrimRightAfter(m: string, b: string)
    requires m != "" && !IsSpace(m[|m| - 1])
    ensures TrimRight(m + b) == m + TrimRight(b)
  {
    if b == "" {
      assert m + b == m;
    } else {
      assert (m + b)[..|m + b| - 1] == m + b[..|b| - 1];
      if IsSpace(b[|b| - 1]) { TrimRightAfter(m, b[..|b| - 1]); }
    }
  }

  lemma {:induction false} TrimAround(a: string, m: string, b: string)
    requires m != "" && !IsSpace(m[0]) && !IsSpace(m[|m| - 1])
    ensures Trim(a + (m + b)) == TrimLeft(a) + (m + TrimRight(b))
  {
    TrimLeftBefore(a, m + b);
    var l := TrimLeft(a) + m;
    assert l[|l| - 1] == m[|m| - 1];
    assert TrimLeft(a) + (m + b) == l + b;
    TrimRightAfter(l, b);
    assert l + TrimRight(b) == TrimLeft(a) + (m + TrimRight(b));
  }

  /** Trimming only drops characters at one end. */
  lemma {:induction false} TrimLeftIsSuffix(s: string) returns (n: nat)
    ensures n <= |s| && TrimLeft(s) == s[n..]
  {
    if s != "" && IsSpace(s[0]) {
      n := TrimLeftIsSuffix(s[1..]);
      n := n + 1;
    } else {
      n := 0;
    }
  }

  lemma {:induction false} TrimRightIsPrefix(s: string) returns (n: nat)
    ensures n <= |s| && TrimRight(s) == s[..n]
  {
    if s != "" && IsSpace(s[|s| - 1]) {
      n := TrimRightIsPrefix(s[..|s| - 1]);
      assert s[..|s| - 1][..n] == s[..n];
    } else {
      n := |s|;
    }
  }

  lemma {:induction false} TrimToken(s: string)
    requires Token(s)
    ensures Trim(s) == s
  {
    if s != "" { assert TrimLeft(s) == s; }
  }

  // ----- the text before a character -----

  /** The text before the first `c`. */
  function UpTo(s: string, c: char): string {
    if s == "" || s[0] == c then "" else [s[0]] + UpTo(s[1..], c)
  }

  lemma {:induction false} UpToConcat(p: string, rest: string, c: char)
    requires c !in p
    ensures UpTo(p + rest, c) == p + UpTo(rest, c)
  {
    if p == "" {
      assert p + rest == rest;
    } else {
      assert (p + rest)[1..] == p[1..] + rest;
      UpToConcat(p[1..], rest, c);
    }
  }

  lemma {:induction false} UpToIs(s: string, c: char)
    ensures UpTo(s, c) <= s && c !in UpTo(s, c) && (UpTo(s, c) == s || s[|UpTo(s, c)|] == c)
  {
    if s != "" && s[0] != c { UpToIs(s[1..], c); }
  }
}
