/** Versions as they are written, `v1.22.3` or `1.22.3-rc.0+build`: exactly which texts are versions, what
    they mean, and between which of them an upgrade is attempted. */
module Releases {
  import opened Text
  import opened KubeVersion

  /** What a 64-bit number stays below. */
  const LIMIT: nat := 0x8000_0000_0000_0000

  // ----- numbers -----

  predicate IsDigit(c: char) {
    '0' <= c <= '9'
  }

  /** A nonempty run of digits. */
  predicate Numeral(s: string) {
    s != "" && forall i | 0 <= i < |s| :: IsDigit(s[i])
  }

  /** Its value in decimal notation. */
  function Value(s: string): nat
    requires forall i | 0 <= i < |s| :: IsDigit(s[i])
  {
    if s == "" then 0
    else
      assert IsDigit(s[|s| - 1]);
      10 * Value(s[..|s| - 1]) + (s[|s| - 1] as nat - '0' as nat)
  }

  /** A number in decimal notation. */
  function Dec(n: nat): string {
    (if n < 10 then "" else Dec(n / 10)) + [('0' as int + n % 10) as char]
  }

  lemma {:induction false} DecValue(n: nat)
    ensures Numeral(Dec(n)) && Value(Dec(n)) == n
  {
    var d := Dec(n);
    assert IsDigit(d[|d| - 1]);
    if n >= 10 {
      DecValue(n / 10);
      assert d[..|d| - 1] == Dec(n / 10);
    } else {
      assert d[..|d| - 1] == "";
    }
  }

  /** Reading from the left can be continued at the right end. */
  lemma {:induction false} DigitsSnoc(s: string, c: char, n: nat)
    ensures Digits(s + [c], n) ==
            if Digits(s, n).Some? && IsDigit(c) then Some(10 * Digits(s, n).value + (c as nat - '0' as nat)) else None
  {
    if s == "" {
      assert s + [c] == [c] && [c][1..] == "";
    } else {
      assert (s + [c])[0] == s[0] && (s + [c])[1..] == s[1..] + [c];
      if IsDigit(s[0]) { DigitsSnoc(s[1..], c, 10 * n + (s[0] as nat - '0' as nat)); }
    }
  }

  lemma {:induction false} DigitsIs(s: string)
    ensures Digits(s, 0).Some? <==> forall i | 0 <= i < |s| :: IsDigit(s[i])
    ensures Digits(s, 0).Some? ==> Digits(s, 0).value == Value(s)
  {
    if s != "" {
      var n := |s| - 1;
      assert s == s[..n] + [s[n]];
      DigitsIs(s[..n]);
      DigitsSnoc(s[..n], s[n], 0);
    }
  }

  lemma {:induction false} NumberIs(s: string)
    ensures Number(s).Some? <==> Numeral(s) && Value(s) < LIMIT
    ensures Number(s).Some? ==> Number(s).value == Value(s)
  {
    DigitsIs(s);
  }

  // ----- texts -----

  /** A version as it is written: an optional `v`, three numerals, and perhaps a pre-release or build. */
  datatype VersionText = VersionText(v: bool, major: string, minor: string, patch: string, extra: string) {
    predicate Valid() {
      && Numeral(major) && Numeral(minor) && Numeral(patch)
      && Value(major) < LIMIT && Value(minor) < LIMIT && Value(patch) < LIMIT
      && (extra == "" || extra[0] == '+' || extra[0] == '-')
    }

    function Core(): string {
      major + ("." + (minor + ("." + patch)))
    }

    function Text(): string {
      (if v then "v" else "") + (Core() + extra)
    }

    function Meaning(): Semver
      requires Valid()
    {
      Semver(Value(major), Value(minor), Value(patch))
    }
  }

  lemma {:induction false} SplitUpTo(s: string, c: char)
    ensures Split(s, [[c]])[0] == UpTo(s, c)
  {
    if s != "" {
      SingleMatch(s, c);
      if s[0] != c { SplitUpTo(s[1..], c); }
    }
  }

  lemma {:induction false} SingleMatch(s: string, c: char)
    requires s != ""
    ensures MatchLen(s, [[c]]) == if s[0] == c then 1 else 0
  {
    assert [[c]][1..] == [];
    assert [c] <= s <==> s[0] == c;
  }

  /** Joining undoes splitting. */
  lemma {:induction false} JoinSplit(s: string, c: char)
    ensures Join(Split(s, [[c]]), [c]) == s
    ensures forall p | p in Split(s, [[c]]) :: c !in p
  {
    if s != "" {
      SingleMatch(s, c);
      JoinSplit(s[1..], c);
      var rest := Split(s[1..], [[c]]);
      var parts := Split(s, [[c]]);
      if s[0] == c {
        assert parts == [""] + rest && parts[1..] == rest;
        assert Join(parts, [c]) == "" + ([c] + Join(rest, [c]));
      } else {
        assert parts == [[s[0]] + rest[0]] + rest[1..] && parts[1..] == rest[1..];
        assert forall p | p in rest[1..] :: p in rest;
        JoinHead([s[0]], rest, [c]);
      }
    }
  }

  lemma {:induction false} JoinHead(a: string, parts: seq<string>, sep: string)
    requires parts != []
    ensures Join([a + parts[0]] + parts[1..], sep) == a + Join(parts, sep)
  {
    var more := [a + parts[0]] + parts[1..];
    assert more[1..] == parts[1..];
    if |parts| > 1 {
      assert (a + parts[0]) + (sep + Join(parts[1..], sep)) == a + (parts[0] + (sep + Join(parts[1..], sep)));
    }
  }

  lemma {:induction false} JoinThree(a: string, b: string, c: string, sep: string)
    ensures Join([a, b, c], sep) == a + (sep + (b + (sep + c)))
  {
    assert [a, b, c][1..] == [b, c];
    JoinTwo(b, c, sep);
  }

  // ----- parsing -----

  lemma {:induction false} CoreIs(s: string)
    ensures Split(Split(s, ["+"])[0], ["-"])[0] == UpTo(UpTo(s, '+'), '-')
  {
    SplitUpTo(s, '+');
    SplitUpTo(UpTo(s, '+'), '-');
    assert ["+"] == [['+']] && ["-"] == [['-']];
  }

  lemma {:induction false} PlainCore(t: VersionText)
    requires t.Valid()
    ensures '+' !in t.Core() && '-' !in t.Core() && t.Core() != "" && t.Core()[0] != 'v'
  {
  }

  lemma {:induction false} TextCore(t: VersionText)
    requires t.Valid()
    ensures var s := TrimPrefix(t.Text(), "v"); UpTo(UpTo(s, '+'), '-') == t.Core()
  {
    PlainCore(t);
    hide VersionText.Core;
    var core, s := t.Core(), t.Core() + t.extra;
    assert "v" <= s <==> s[0] == 'v';
    assert t.v ==> t.Text() == "v" + s && t.Text()[1..] == s;
    assert !t.v ==> t.Text() == s;
    assert TrimPrefix(t.Text(), "v") == s;
    UpToConcat(core, t.extra, '+');
    UpToConcat(core, UpTo(t.extra, '+'), '-');
    assert core + "" == core;
    if t.extra != "" && t.extra[0] == '-' { assert UpTo(t.extra, '+')[0] == '-'; }
  }

  lemma {:induction false} CoreSplits(t: VersionText)
    requires t.Valid()
    ensures Split(t.Core(), ["."]) == [t.major, t.minor, t.patch]
  {
    var parts := [t.major, t.minor, t.patch];
    JoinThree(t.major, t.minor, t.patch, ".");
    SplitJoin(parts, '.');
    assert ["."] == [['.']];
  }

  /** A text that is written as a version is read as what it means. */
  lemma {:induction false} ReadsMeaning(t: VersionText)
    requires t.Valid()
    ensures Parse(t.Text()) == Some(t.Meaning())
  {
    hide UpTo, Split, Number, VersionText.Core, VersionText.Text, Value, Numeral, TrimPrefix;
    TextCore(t);
    CoreIs(TrimPrefix(t.Text(), "v"));
    CoreSplits(t);
    NumberIs(t.major);
    NumberIs(t.minor);
    NumberIs(t.patch);
  }

  /** Whatever is read as a version is written as one. */
  lemma {:induction false} OnlyVersionsRead(s: string) returns (t: VersionText)
    requires Parse(s).Some?
    ensures t.Valid() && t.Text() == s
  {
    hide UpTo, Split, Number, Value, Numeral, Join;
    var body := TrimPrefix(s, "v");
    CoreIs(body);
    var mid := UpTo(body, '+');
    var core := UpTo(mid, '-');
    UpToIs(body, '+');
    UpToIs(mid, '-');
    var parts := Split(core, ["."]);
    JoinSplit(core, '.');
    assert ["."] == [['.']];
    assert parts == [parts[0], parts[1], parts[2]];
    JoinThree(parts[0], parts[1], parts[2], ".");
    NumberIs(parts[0]);
    NumberIs(parts[1]);
    NumberIs(parts[2]);
    t := VersionText("v" <= s, parts[0], parts[1], parts[2], body[|core|..]);
    assert body == core + body[|core|..];
  }

  // ----- upgrades -----

  /** At most one minor step, within one major version. */
  predicate Adjacent(o: Semver, t: Semver) {
    o.major == t.major && -1 <= t.minor - o.minor <= 1
  }

  /** An upgrade is attempted between two texts if and only if both are versions and they are adjacent; the
      patch, a pre-release and a build do not matter. */
  lemma {:induction false} SupportedIff(origin: string, target: string)
    ensures UpgradeSupported(origin, target) <==>
            exists o: VersionText, t: VersionText ::
              && o.Valid() && o.Text() == origin && t.Valid() && t.Text() == target
              && Adjacent(o.Meaning(), t.Meaning())
  {
    hide Parse, VersionText.Valid, VersionText.Text, VersionText.Meaning;
    if UpgradeSupported(origin, target) {
      var o := OnlyVersionsRead(origin);
      var t := OnlyVersionsRead(target);
      ReadsMeaning(o);
      ReadsMeaning(t);
      assert o.Valid() && o.Text() == origin && t.Valid() && t.Text() == target && Adjacent(o.Meaning(), t.Meaning());
    }
    if o: VersionText, t: VersionText :|
      && o.Valid() && o.Text() == origin && t.Valid() && t.Text() == target && Adjacent(o.Meaning(), t.Meaning())
    {
      ReadsMeaning(o);
      ReadsMeaning(t);
    }
  }

  predicate InRange(r: Semver) {
    r.major < LIMIT && r.minor < LIMIT && r.patch < LIMIT
  }

  /** `v1.22.3`, or `1.22.3` without the `v`. */
  function Release(v: bool, r: Semver): string {
    (if v then "v" else "") + (Dec(r.major) + ("." + (Dec(r.minor) + ("." + Dec(r.patch)))))
  }

  lemma {:induction false} ReleaseReads(v: bool, r: Semver)
    requires InRange(r)
    ensures Parse(Release(v, r)) == Some(r)
  {
    DecValue(r.major);
    DecValue(r.minor);
    DecValue(r.patch);
    var t := VersionText(v, Dec(r.major), Dec(r.minor), Dec(r.patch), "");
    ReadsMeaning(t);
    hide Dec, Parse, Value, Numeral;
    assert t.Core() + "" == t.Core();
  }

  /** Between two printed releases, with or without the `v`. */
  lemma {:induction false} ReleasesSupportedIff(v: bool, o: Semver, u: bool, t: Semver)
    requires InRange(o) && InRange(t)
    ensures UpgradeSupported(Release(v, o), Release(u, t)) <==>
            o.major == t.major && -1 <= o.minor - t.minor <= 1
  {
    hide Parse, Release;
    ReleaseReads(v, o);
    ReleaseReads(u, t);
  }
}
