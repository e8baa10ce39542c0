/** Where a cluster stands on its way to its spec, and how a fault-free reconcile and a succeeding worker
    move it: a small machine that is proved to wind down. */
module Stages {
  import opened Text
  import opened CustomCluster

  /** The workers that lead to the spec, in the order in which they are started. */
  const WORKERS: set<Action> := {Init, ScaleUp, ScaleDown, Upgrade}

  datatype Stage = Stage(
    phase: Phase,
    finalizer: bool,
    init: Option<Status>,
    up: Option<Status>,
    down: Option<Status>,
    upgrade: Option<Status>,
    needUp: bool,
    needDown: bool,
    needVersion: bool)
  {
    predicate Provisioning() { InProvision(Shown(phase)) }

    function Worker(a: Action): Option<Status> {
      match a
      case Init => init
      case ScaleUp => up
      case ScaleDown => down
      case Upgrade => upgrade
      case Terminate => None
    }

    predicate Needs(a: Action) {
      match a
      case Init => Provisioning()
      case ScaleUp => needUp
      case ScaleDown => needDown
      case Upgrade => needVersion
      case Terminate => false
    }

    /** What agreement leaves possible when no worker has failed. */
    predicate Coherent() {
      && init != Some(Failed) && up != Some(Failed) && down != Some(Failed) && upgrade != Some(Failed)
      && (if Provisioning() then up.None? && down.None? && upgrade.None? else HasInfo(phase) && init == Some(Succeeded))
      && (up == Some(Active) ==> needUp)
      && (down == Some(Active) ==> needDown && !needUp)
      && (down == Some(Succeeded) && needUp ==> !needDown)
    }

    /** A reconcile without a failing call. */
    function Step(): Stage {
      if Provisioning() then
        match init
        case Some(Succeeded) => this.(phase := Provisioned, finalizer := true)
        case _ => this.(phase := Phase.Provisioning, finalizer := true, init := Some(Active))
      else if needUp then
        if up == Some(Succeeded) then this.(phase := Provisioned, up := None, needUp := false)
        else this.(phase := ScalingUp, up := Some(Active))
      else if needDown then
        if down == Some(Succeeded) then this.(phase := Provisioned, down := None, needDown := false)
        else this.(phase := ScalingDown, down := Some(Active))
      else if needVersion then
        if upgrade == Some(Succeeded) then this.(phase := Provisioned, upgrade := None, needVersion := false)
        else this.(phase := Upgrading, upgrade := Some(Active))
      else this
    }

    function With(a: Action, status: Option<Status>): Stage {
      match a
      case Init => this.(init := status)
      case ScaleUp => this.(up := status)
      case ScaleDown => this.(down := status)
      case Upgrade => this.(upgrade := status)
      case Terminate => this
    }

    function Succeed(a: Action): Stage {
      With(a, Some(Succeeded))
    }

    // How many changes an action still takes: to be started, to be shown, to succeed, to be recorded.

    function LeftInit(): nat {
      if !Provisioning() then 0
      else if init.None? then 3
      else if init == Some(Succeeded) then 1
      else if phase == Phase.Provisioning && finalizer then 2 else 3
    }

    function LeftUp(): nat {
      if !needUp then 0 else if up.None? then 3 else if up == Some(Succeeded) then 1 else if phase == ScalingUp then 2
      else 3
    }

    function LeftDown(): nat {
      if !needDown then 0
      else if down.None? then 3
      else if down == Some(Succeeded) then 1
      else if phase == ScalingDown then 2 else 3
    }

    function LeftVersion(): nat {
      if !needVersion then (if upgrade == Some(Active) then 1 else 0)
      else if upgrade.None? then 3
      else if upgrade == Some(Succeeded) then 1
      else if phase == Upgrading && !needUp && !needDown then 2 else 3
    }

    function Rank(): (n: nat)
      ensures n <= 12 && (!Provisioning() ==> n <= 9)
    {
      LeftInit() + LeftUp() + LeftDown() + LeftVersion()
    }

    /** All that is left to do is to record one worker that succeeded. */
    predicate OneToRecord() {
      && !Provisioning() && upgrade != Some(Active)
      && ((needUp && !needDown && !needVersion && up == Some(Succeeded))
          || (!needUp && needDown && !needVersion && down == Some(Succeeded))
          || (!needUp && !needDown && needVersion && upgrade == Some(Succeeded)))
    }

    /** The workers still to be started, in order. */
    function Remaining(): seq<Action> {
      Plan(Provisioning() && init.None?, needUp && up.None?, needDown && down.None?, needVersion && upgrade.None?)
    }

    /** The scaling and upgrade workers that nothing calls for: recorded already, but not removed. */
    function Leftover(): set<Action> {
      set a | a in {ScaleUp, ScaleDown, Upgrade} && Worker(a).Some? && !Needs(a)
    }

    /** The phase it comes to rest in: a step that finishes something says Provisioned, an idle one says
        nothing. */
    function EndPhase(): Phase {
      if Provisioning() || needUp || needDown || needVersion then Provisioned else phase
    }

    /** The workers that were started since `s`. */
    function NewSince(s: Stage): seq<Action> {
      Plan(init.Some? && s.init.None?, up.Some? && s.up.None?,
           down.Some? && s.down.None?, upgrade.Some? && s.upgrade.None?)
    }
  }

  function Plan(init: bool, up: bool, down: bool, version: bool): seq<Action> {
    (if init then [Init] else []) + (if up then [ScaleUp] else [])
    + (if down then [ScaleDown] else []) + (if version then [Upgrade] else [])
  }

  /** What a move keeps: the plan is carried out from the front, nothing is left over that was not
      before, the phase to end in stays, and it comes closer to its end unless it changes nothing. */
  ghost predicate Advances(s: Stage, t: Stage) {
    && t.Coherent() && t.EndPhase() == s.EndPhase()
    && t.NewSince(s) + t.Remaining() == s.Remaining()
    && t.Leftover() == s.Leftover()
    && (t == s || t.Rank() < s.Rank())
  }

  lemma {:induction false} StepAdvances(s: Stage)
    requires s.Coherent()
    ensures Advances(s, s.Step())
  {
    StepWindsDown(s);
    StepFollowsPlan(s);
    StepLeavesOver(s);
    StepKeepsEnd(s);
    hide *;
    Advance(s, s.Step());
  }

  lemma {:induction false} Advance(s: Stage, t: Stage)
    requires t.Coherent() && (t == s || t.Rank() < s.Rank())
    requires t.NewSince(s) + t.Remaining() == s.Remaining() && t.Leftover() == s.Leftover()
    requires t.EndPhase() == s.EndPhase()
    ensures Advances(s, t)
  {
    hide Stage.EndPhase, Stage.Coherent, Stage.Rank, Stage.NewSince, Stage.Remaining, Stage.Leftover;
  }

  lemma {:induction false} StepWindsDown(s: Stage)
    requires s.Coherent()
    ensures s.Step().Coherent() && (s.Step() == s || s.Step().Rank() < s.Rank())
  {
    OneOf(s.init);
    OneOf(s.up);
    OneOf(s.down);
    OneOf(s.upgrade);
  }

  lemma {:induction false} OneOf(o: Option<Status>)
    ensures o == None || o == Some(Active) || o == Some(Succeeded) || o == Some(Failed)
  {
    match o
    case None =>
    case Some(x) => match x case Active => case Succeeded => case Failed =>
  }

  lemma {:induction false} StepFollowsPlan(s: Stage)
    requires s.Coherent()
    ensures s.Step().NewSince(s) + s.Step().Remaining() == s.Remaining()
  {
  }

  lemma {:induction false} StepLeavesOver(s: Stage)
    requires s.Coherent()
    ensures s.Step().Leftover() == s.Leftover()
  {
  }

  lemma {:induction false} StepKeepsEnd(s: Stage)
    requires s.Coherent()
    ensures s.Step().EndPhase() == s.EndPhase()
  {
  }

  lemma {:induction false} SucceedAdvances(s: Stage, a: Action)
    requires s.Coherent() && s.Worker(a) == Some(Active)
    ensures Advances(s, s.Succeed(a)) && s.Succeed(a) != s
  {
    assert s.Succeed(a).Leftover() == s.Leftover();
  }

  /** The end: a step changes nothing and no worker is about to change anything. */
  lemma {:induction false} RankZero(s: Stage)
    requires s.Coherent()
    ensures s.Rank() == 0 <==>
            !s.Provisioning() && !s.needUp && !s.needDown && !s.needVersion && s.upgrade != Some(Active)
    ensures s.Rank() == 0 ==> s.Step() == s && s.Remaining() == [] && s.EndPhase() == s.phase
    ensures s.Rank() == 0 ==> s.Leftover() == set a | a in {ScaleUp, ScaleDown, Upgrade} && s.Worker(a).Some?
    ensures s.Rank() > 0 ==> s.Step() != s || exists a :: a in WORKERS && s.Worker(a) == Some(Active)
  {
    OneOf(s.init);
    OneOf(s.up);
    OneOf(s.down);
    OneOf(s.upgrade);
    assert Init in WORKERS && ScaleUp in WORKERS && ScaleDown in WORKERS && Upgrade in WORKERS;
    assert s.Worker(Init) == s.init && s.Worker(ScaleUp) == s.up;
    assert s.Worker(ScaleDown) == s.down && s.Worker(Upgrade) == s.upgrade;
  }
}
