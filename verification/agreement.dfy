/** What the record, the spec and the machines owe each other, on plain values: sets of host names and
    version strings, and the state of the workers that move one towards the other. */
module Agreement {
  import opened Text
  import opened WorkerNodes
  import opened KubeVersion
  import opened CustomCluster

  /** `grown` is the inventory a scale-up worker mounts, `removed` the hosts a scale-down worker was told
      to remove; `up` and `down` are the states of these workers. */
  datatype Scaling = Scaling(
    recorded: set<string>,
    desired: set<string>,
    installed: set<string>,
    up: Option<Status>,
    grown: Option<set<string>>,
    down: Option<Status>,
    removed: set<string>)
  {
    predicate NeedUp() { !(desired <= recorded) }

    predicate NeedDown() { !(recorded <= desired) }

    /** A scaling worker has succeeded and the next reconcile that gets through records it. */
    predicate Window() {
      if NeedUp() then up == Some(Succeeded) else NeedDown() && down == Some(Succeeded)
    }

    /** What has to be installed: the recorded hosts, and in the window what will be recorded. */
    function Expected(): set<string> {
      if !Window() then recorded else if NeedUp() then recorded + desired else desired
    }

    /** The expected hosts are installed, and whatever worker is about stays on course: a scale-up worker
        works towards what will be recorded, a scale-down worker removes what is no longer desired, and
        a finished scale-down worker finds nothing else to remove. */
    predicate Fits() {
      && installed == Expected()
      && (up == Some(Active) ==> NeedUp())
      && (up == Some(Active) || (up == Some(Succeeded) && NeedUp()) ==> grown.Some?)
      && (NeedUp() && grown.Some? ==> grown.value == recorded + desired)
      && (NeedUp() && down == Some(Succeeded) ==> !NeedDown())
      && (down == Some(Active) ==> !NeedUp() && NeedDown() && removed == recorded - desired)
    }

    /** When the desired hosts may become `d`. A scale-up worker that runs or waits to be recorded: the
        same hosts are missing. One already recorded: none is missing. A scale-up inventory: it lists
        what will be recorded, if anything is missing. A scale-down worker that runs or waits to be
        recorded: nothing changes. One already recorded: no recorded host is dropped. */
    predicate Harmless(d: set<string>) {
      && (up == Some(Active) || (up == Some(Succeeded) && NeedUp()) ==> d - recorded == desired - recorded)
      && (up == Some(Succeeded) && !NeedUp() ==> d <= recorded)
      && (grown.Some? && !(d <= recorded) ==> grown.value == recorded + d)
      && (down == Some(Active) || (down == Some(Succeeded) && NeedDown()) ==> d == desired)
      && (down == Some(Succeeded) && !NeedDown() ==> recorded <= d)
    }
  }

  /** The guard is exact for the invariant. */
  lemma {:induction false} HarmlessFits(s: Scaling, d: set<string>)
    requires s.Fits()
    ensures s.Harmless(d) <==> s.(desired := d).Fits()
  {
    var r, e, t := s.recorded, s.desired, s.(desired := d);
    assert d - r == e - r <==> r + d == r + e by {
      assert d - r == (r + d) - r && e - r == (r + e) - r;
      assert r + d == r + (d - r) && r + e == r + (e - r);
    }
    assert e <= r && d <= r ==> (r - e == r - d <==> e == d) by {
      assert e <= r ==> r - (r - e) == e;
      assert d <= r ==> r - (r - d) == d;
    }
    if s.down == Some(Succeeded) && s.NeedDown() { assert !s.NeedUp() && s.installed == e; }
    if s.up == Some(Succeeded) && s.NeedUp() { assert s.installed == r + e; }
  }

  // ----- how a harmful change goes wrong -----

  /** A finished worker that does not fit: at once. */
  lemma {:induction false} WrongAtOnce(s: Scaling, d: set<string>)
    requires s.Fits()
    requires || (s.up == Some(Succeeded)
                 && if s.NeedUp() then d - s.recorded != s.desired - s.recorded else !(d <= s.recorded))
             || (s.down == Some(Succeeded) && s.NeedDown() && d != s.desired)
             || (s.down == Some(Succeeded) && !s.NeedDown() && d < s.recorded)
    ensures var t := s.(desired := d); t.installed != t.Expected()
  {
    var r, e := s.recorded, s.desired;
    assert r + d == r + e ==> d - r == e - r by { assert d - r == (r + d) - r && e - r == (r + e) - r; }
    if s.down == Some(Succeeded) && s.NeedDown() { assert !s.NeedUp() && s.installed == e; }
  }

  /** A running scale-up worker: when it succeeds. */
  lemma {:induction false} UpGoesWrong(s: Scaling, d: set<string>)
    requires s.Fits() && s.up == Some(Active) && d - s.recorded != s.desired - s.recorded
    ensures var t := s.(desired := d, up := Some(Succeeded), installed := s.grown.value); t.installed != t.Expected()
  {
    var r, e := s.recorded, s.desired;
    assert r + d == r + e ==> d - r == e - r by { assert d - r == (r + d) - r && e - r == (r + e) - r; }
  }

  /** A running scale-down worker: when it succeeds. */
  lemma {:induction false} DownGoesWrong(s: Scaling, d: set<string>)
    requires s.Fits() && s.down == Some(Active) && d != s.desired
    ensures var t := s.(desired := d, down := Some(Succeeded), installed := s.installed - s.removed);
            t.installed != t.Expected()
  {
    assert s.recorded - (s.recorded - s.desired) == s.desired;
  }

  lemma {:induction false} UpOvertaken(s: Scaling, d: set<string>)
    requires s.Fits() && s.up == Some(Active)
    ensures s.grown == Some(s.recorded + s.desired)
    ensures var t := s.(desired := d, up := Some(Succeeded), installed := s.grown.value);
            && (!(d <= s.recorded) ==> t.Expected() == s.recorded + d)
            && (t.Expected() == t.installed <==> d - s.recorded == s.desired - s.recorded)
  {
    var r, e := s.recorded, s.desired;
    if d - r == e - r { assert r + d == r + (d - r) && r + e == r + (e - r); } else { UpGoesWrong(s, d); }
  }

  lemma {:induction false} DownOvertaken(s: Scaling, d: set<string>)
    requires s.Fits() && s.down == Some(Active)
    ensures var t := s.(desired := d, down := Some(Succeeded), installed := s.installed - s.removed);
            && t.installed == s.desired && (d < s.recorded ==> t.Expected() == d)
            && (t.Expected() == t.installed <==> d == s.desired)
  {
    assert s.recorded - (s.recorded - s.desired) == s.desired;
    if d != s.desired { DownGoesWrong(s, d); }
  }

  /** A scale-up inventory of other hosts: when the worker that mounts it succeeds. */
  lemma {:induction false} GrownGoesWrong(s: Scaling, d: set<string>)
    requires s.grown.Some? && !(d <= s.recorded) && s.grown.value != s.recorded + d
    ensures var t := s.(desired := d, up := Some(Succeeded), installed := s.grown.value); t.installed != t.Expected()
  {
  }

  /** A finished scale-down worker and a recorded host that is dropped while others come: once these are
      recorded. */
  lemma {:induction false} LeftDownGoesWrong(s: Scaling, d: set<string>)
    requires s.down == Some(Succeeded) && !(s.recorded <= d) && s.installed == s.recorded + d
    ensures var t := s.(desired := d, recorded := s.recorded + d, up := None, grown := None);
            t.installed != t.Expected()
  {
  }

  // ----- what the operator and its workers do to the names -----

  lemma {:induction false} GrowKeeps(s: Scaling)
    requires s.Fits() && s.NeedUp() && s.grown.None?
    ensures s.(grown := Some(s.recorded + s.desired)).Fits()
  {
  }

  lemma {:induction false} StartUpKeeps(s: Scaling)
    requires s.Fits() && s.NeedUp() && s.grown.Some? && s.up.None?
    ensures s.(up := Some(Active)).Fits()
  {
  }

  lemma {:induction false} RecordUpKeeps(s: Scaling)
    requires s.Fits() && s.NeedUp() && s.up == Some(Succeeded)
    ensures s.(recorded := s.recorded + s.desired).Fits()
  {
    assert !s.NeedDown() ==> s.recorded + s.desired == s.desired;
  }

  lemma {:induction false} CleanUpKeeps(s: Scaling)
    requires s.Fits() && !s.NeedUp()
    ensures s.(grown := None).Fits() && s.(up := None).Fits()
  {
  }

  lemma {:induction false} StartDownKeeps(s: Scaling)
    requires s.Fits() && !s.NeedUp() && s.NeedDown() && s.down.None?
    ensures s.(down := Some(Active), removed := s.recorded - s.desired).Fits()
  {
  }

  lemma {:induction false} RecordDownKeeps(s: Scaling)
    requires s.Fits() && !s.NeedUp() && s.NeedDown() && s.down == Some(Succeeded)
    ensures s.(recorded := s.desired).Fits() && s.(recorded := s.desired, down := None, removed := {}).Fits()
  {
  }

  lemma {:induction false} CleanDownKeeps(s: Scaling)
    requires s.Fits() && s.recorded == s.desired
    ensures s.(down := None, removed := {}).Fits()
  {
  }

  lemma {:induction false} UpSucceedsKeeps(s: Scaling)
    requires s.Fits() && s.up == Some(Active) && s.grown.Some?
    ensures s.(up := Some(Succeeded), installed := s.grown.value).Fits()
  {
  }

  lemma {:induction false} DownSucceedsKeeps(s: Scaling)
    requires s.Fits() && s.down == Some(Active)
    ensures s.(down := Some(Succeeded), installed := s.installed - s.removed).Fits()
  {
    assert s.desired <= s.recorded ==> s.recorded - (s.recorded - s.desired) == s.desired;
  }

  lemma {:induction false} FailureFits(s: Scaling)
    requires s.Fits()
    ensures s.up == Some(Active) ==> s.(up := Some(Failed)).Fits()
    ensures s.up == Some(Failed) ==> s.(up := None).Fits()
    ensures s.down == Some(Active) ==> s.(down := Some(Failed)).Fits()
    ensures s.down == Some(Failed) ==> s.(down := None, removed := {}).Fits()
  {
  }

  /** With nothing to add or remove all three sets are one, and no scaling worker runs. */
  lemma {:induction false} NothingNeeded(s: Scaling)
    requires s.Fits() && !s.NeedUp() && !s.NeedDown()
    ensures s.installed == s.recorded == s.desired && s.up != Some(Active) && s.down != Some(Active)
  {
  }

  /** `command` is the version an upgrade worker was told to install. */
  datatype Versioning = Versioning(
    recorded: string,
    desired: string,
    installed: string,
    upgrade: Option<Status>,
    command: string)
  {
    predicate Need() { Wanted(recorded, desired) }

    /** An upgrade worker has succeeded and the next reconcile that gets to it records it. */
    predicate Window() { Need() && upgrade == Some(Succeeded) }

    function Expected(): string {
      WithV(if Window() then desired else recorded)
    }

    predicate Fits() {
      && installed == Expected()
      && (upgrade == Some(Active) ==> command == WithV(Final(recorded, desired)))
    }

    /** When the desired version may become `v`: an upgrade worker that runs or has succeeded must have
        installed what will be recorded then. */
    predicate Harmless(v: string) {
      upgrade == Some(Active) || upgrade == Some(Succeeded) ==>
        WithV(Final(recorded, v)) == WithV(Final(recorded, desired))
    }
  }

  /** The upgrade from one version to another would be attempted. */
  predicate Wanted(recorded: string, desired: string) {
    desired != recorded && UpgradeSupported(recorded, desired)
  }

  /** The version that will be recorded in the end. */
  function Final(recorded: string, desired: string): string {
    if Wanted(recorded, desired) then desired else recorded
  }

  lemma {:induction false} HarmlessVersion(x: Versioning, v: string)
    requires x.Fits()
    ensures x.Harmless(v) <==> x.(desired := v).Fits()
  {
    hide WithV, Wanted;
  }

  lemma {:induction false} StartUpgradeKeeps(x: Versioning)
    requires x.Fits() && x.Need() && x.upgrade.None?
    ensures x.(upgrade := Some(Active), command := WithV(x.desired)).Fits()
  {
    hide WithV, Wanted;
  }

  lemma {:induction false} RecordUpgradeKeeps(x: Versioning)
    requires x.Fits() && x.Need() && x.upgrade == Some(Succeeded)
    ensures x.(recorded := x.desired).Fits()
  {
    hide WithV, UpgradeSupported;
  }

  lemma {:induction false} CleanUpgradeKeeps(x: Versioning)
    requires x.Fits() && x.recorded == x.desired
    ensures x.(upgrade := None, command := "").Fits()
  {
    hide WithV, UpgradeSupported;
  }

  lemma {:induction false} UpgradeSucceedsKeeps(x: Versioning)
    requires x.Fits() && x.upgrade == Some(Active)
    ensures x.(upgrade := Some(Succeeded), installed := x.command).Fits()
  {
    hide WithV, Wanted;
  }

  lemma {:induction false} UpgradeFailureFits(x: Versioning)
    requires x.Fits()
    ensures x.upgrade == Some(Active) ==> x.(upgrade := Some(Failed)).Fits()
    ensures x.upgrade == Some(Failed) ==> x.(upgrade := None, command := "").Fits()
  {
    hide WithV, Wanted;
  }

  /** Without any other worker what is recorded is what is installed. */
  lemma {:induction false} FirstFits(s: Scaling, x: Versioning)
    requires s.up.None? && s.down.None? && s.grown.None? && s.installed == s.recorded
    requires x.upgrade.None? && x.installed == WithV(x.recorded)
    ensures s.Fits() && x.Fits()
  {
    hide WithV, Wanted;
  }
}
