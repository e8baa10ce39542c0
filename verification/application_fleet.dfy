/** The one fleet of an application: what admission accepts, and what the controller may rely on. */
module ApplicationFleet {
  import opened Text

  datatype Destination = Destination(fleet: string, selector: Option<map<string, string>>)

  datatype Policy = Policy(destination: Option<Destination>)

  datatype Application = Application(destination: Option<Destination>, policies: seq<Policy>)

  datatype Error = Differs(index: nat) | MustBeSet

  function FleetOf(d: Option<Destination>): string {
    if d.Some? then d.value.fleet else ""
  }

  /** The fleet a policy is synced to: its own if set, else the application's. */
  function Effective(app: Application, p: Policy): string {
    if FleetOf(p.destination) != "" then FleetOf(p.destination) else FleetOf(app.destination)
  }

  /** `k` is the fleet of the whole application (empty for the hosting cluster alone). */
  ghost predicate Throughout(app: Application, k: string) {
    && (FleetOf(app.destination) != "" ==> k == FleetOf(app.destination))
    && forall i | 0 <= i < |app.policies| :: Effective(app, app.policies[i]) == k
  }

  /** The first fleet that a policy sets. */
  function FirstSet(ps: seq<Policy>): string {
    if ps == [] then ""
    else
      var n := |ps| - 1;
      var k := FirstSet(ps[..n]);
      if k != "" then k else FleetOf(ps[n].destination)
  }

  lemma {:induction false} FirstSetIs(ps: seq<Policy>)
    ensures FirstSet(ps) == "" <==> forall i | 0 <= i < |ps| :: FleetOf(ps[i].destination) == ""
    ensures FirstSet(ps) != "" ==> exists i :: 0 <= i < |ps| && FleetOf(ps[i].destination) == FirstSet(ps)
  {
    if ps != [] {
      var n := |ps| - 1;
      FirstSetIs(ps[..n]);
      assert forall i | 0 <= i < n :: ps[..n][i] == ps[i];
    }
  }

  /** The fleet the others are compared with. */
  function Leader(app: Application): string {
    if FleetOf(app.destination) != "" then FleetOf(app.destination) else FirstSet(app.policies)
  }

  predicate Stray(ps: seq<Policy>, leader: string, i: nat)
    requires i < |ps|
  {
    FleetOf(ps[i].destination) != "" && FleetOf(ps[i].destination) != leader
  }

  ghost predicate SomeUnset(ps: seq<Policy>) {
    exists i :: 0 <= i < |ps| && FleetOf(ps[i].destination) == ""
  }

  /** The reports about the first `n` policies are complete and justified. */
  ghost predicate Reported(errs: seq<Error>, ps: seq<Policy>, leader: string, n: nat)
    requires n <= |ps|
  {
    forall i: nat :: Differs(i) in errs <==> i < n && Stray(ps, leader, i)
  }

  lemma {:induction false} FirstSetStable(ps: seq<Policy>, n: nat)
    requires n <= |ps| && FirstSet(ps[..n]) != ""
    ensures FirstSet(ps) == FirstSet(ps[..n])
  {
    if n == |ps| {
      assert ps[..n] == ps;
    } else {
      hide FirstSet, SomeUnset;
      var m := |ps| - 1;
      var most := ps[..m];
      assert most[..n] == ps[..n];
      FirstSetStable(most, n);
      Extend(ps, m);
      assert ps[..m + 1] == ps;
    }
  }

  method CheckDefault(default: string, ps: seq<Policy>) returns (errs: seq<Error>)
    ensures Reported(errs, ps, default, |ps|) && MustBeSet !in errs
  {
    errs := [];
    for n := 0 to |ps|
      invariant Reported(errs, ps, default, n) && MustBeSet !in errs
    {
      var d := ps[n].destination;
      if d.Some? && d.value.fleet != "" && default != d.value.fleet {
        errs := errs + [Differs(n)];
      }
    }
  }

  method CheckFirst(ps: seq<Policy>) returns (errs: seq<Error>)
    ensures Reported(errs, ps, FirstSet(ps), |ps|)
    ensures MustBeSet in errs <==> FirstSet(ps) != "" && SomeUnset(ps)
  {
    errs := [];
    var first, isFirst, isNil := "", true, false;
    for n := 0 to |ps|
      invariant first == FirstSet(ps[..n]) && isFirst == (first == "")
      invariant isNil <==> SomeUnset(ps[..n])
      invariant Reported(errs, ps, FirstSet(ps), n) && MustBeSet !in errs
    {
      Extend(ps, n);
      var d := ps[n].destination;
      if d.None? || d.value.fleet == "" {
        isNil := true;
        continue;
      }
      if isFirst {
        first, isFirst := d.value.fleet, false;
      }
      FirstSetStable(ps, n + 1);
      if !isFirst && first != d.value.fleet {
        errs := errs + [Differs(n)];
      }
    }
    assert ps[..|ps|] == ps;
    if isNil && !isFirst {
      errs := errs + [MustBeSet];
    }
  }

  lemma {:induction false} Extend(ps: seq<Policy>, n: nat)
    requires n < |ps|
    ensures FirstSet(ps[..n + 1]) == if FirstSet(ps[..n]) != "" then FirstSet(ps[..n]) else FleetOf(ps[n].destination)
    ensures SomeUnset(ps[..n + 1]) <==> SomeUnset(ps[..n]) || FleetOf(ps[n].destination) == ""
  {
    assert ps[..n + 1][..n] == ps[..n] && ps[..n + 1][n] == ps[n];
    if SomeUnset(ps[..n]) {
      var i :| 0 <= i < n && FleetOf(ps[..n][i].destination) == "";
      assert ps[..n + 1][i] == ps[..n][i];
    }
    if SomeUnset(ps[..n + 1]) {
      var i :| 0 <= i < n + 1 && FleetOf(ps[..n + 1][i].destination) == "";
      assert i < n ==> ps[..n + 1][i] == ps[..n][i];
    }
  }

  /** The admission check reports exactly the policies that name another fleet than the leader, and an
      unset one exactly when others are set without a default. */
  method ValidateFleet(app: Application) returns (errs: seq<Error>)
    ensures Reported(errs, app.policies, Leader(app), |app.policies|)
    ensures MustBeSet in errs <==> FleetOf(app.destination) == "" && Leader(app) != "" && SomeUnset(app.policies)
    ensures errs == [] <==> exists k :: Throughout(app, k)
  {
    if FleetOf(app.destination) != "" {
      errs := CheckDefault(FleetOf(app.destination), app.policies);
    } else {
      errs := CheckFirst(app.policies);
    }
    AcceptedIff(app);
    NoneReported(app, errs);
  }

  ghost predicate Accepted(app: Application) {
    && (forall i: nat :: i < |app.policies| ==> !Stray(app.policies, Leader(app), i))
    && !(FleetOf(app.destination) == "" && Leader(app) != "" && SomeUnset(app.policies))
  }

  lemma {:induction false} NoneReported(app: Application, errs: seq<Error>)
    requires Reported(errs, app.policies, Leader(app), |app.policies|)
    requires MustBeSet in errs <==> FleetOf(app.destination) == "" && Leader(app) != "" && SomeUnset(app.policies)
    ensures errs == [] <==> Accepted(app)
  {
    hide Stray, Leader, SomeUnset;
    if errs != [] {
      assert errs[0] in errs;
      assert errs[0] == MustBeSet || Stray(app.policies, Leader(app), errs[0].index);
    }
  }

  /** An application is accepted exactly when one fleet serves it throughout. */
  lemma {:induction false} AcceptedIff(app: Application)
    ensures Accepted(app) <==> exists k :: Throughout(app, k)
  {
    var ps := app.policies;
    FirstSetIs(ps);
    if Accepted(app) {
      forall i | 0 <= i < |ps| ensures Effective(app, ps[i]) == Leader(app) {
        assert !Stray(ps, Leader(app), i);
      }
      assert Throughout(app, Leader(app));
    }
    if k :| Throughout(app, k) {
      LeaderThroughout(app, k);
    }
  }

  lemma {:induction false} LeaderThroughout(app: Application, k: string)
    requires Throughout(app, k)
    ensures Accepted(app)
  {
    var ps := app.policies;
    FirstSetIs(ps);
    assert forall i | 0 <= i < |ps| :: Effective(app, ps[i]) == k;
    assert ps != [] || FleetOf(app.destination) != "" ==> Leader(app) == k;
  }

  /** `generateFleetKey`; it indexes the first policy. */
  function FleetKey(app: Application): string
    requires |app.policies| > 0
  {
    var p := app.policies[0].destination;
    if p.None? || |p.value.fleet| == 0 then
      if app.destination.None? then "" else app.destination.value.fleet
    else p.value.fleet
  }

  /** `getPolicyDestination`, with `None` for the dereference of a missing application destination. */
  function PolicyDestination(app: Application, p: Policy): Option<Destination> {
    if p.destination.None? then app.destination else p.destination
  }

  /** How a round over the policies ends. `Missing` is the dereference of a missing destination,
      `NoPolicy` the index into an empty list. */
  datatype Round = Synced | Stopped(at: nat) | SourceFailed | FleetAbsent | NoPolicy | Missing(at: nat)

  /** The first policy without any destination is `i`, and every policy before it was synced. */
  ghost predicate ReachesMissing(app: Application, passes: seq<bool>, i: nat)
    requires |passes| == |app.policies|
  {
    && app.destination.None? && i < |app.policies| && app.policies[i].destination.None?
    && forall j | 0 <= j < i :: app.policies[j].destination.Some? && passes[j]
  }

  /** The policy or the application has a destination. */
  predicate HasDestination(app: Application, p: Policy) {
    p.destination.Some? || app.destination.Some?
  }

  /** The policies before `i` are synced, each with a destination if there is a fleet. */
  ghost predicate Passed(app: Application, fleet: string, passes: seq<bool>, i: nat)
    requires |passes| == |app.policies| && i <= |app.policies|
  {
    forall j | 0 <= j < i :: passes[j] && (fleet != "" ==> HasDestination(app, app.policies[j]))
  }

  /** How the round ends, told from the application's fields, the fleets there are and the outcomes. */
  ghost predicate Ends(app: Application, fleet: string, fleets: set<string>, sourceSynced: bool, passes: seq<bool>,
                       round: Round)
    requires |passes| == |app.policies|
  {
    var n := |app.policies|;
    var open := n > 0 && (fleet == "" || fleet in fleets);
    match round
    case NoPolicy => n == 0
    case FleetAbsent => n > 0 && !open
    case SourceFailed => open && !sourceSynced
    case Synced => open && sourceSynced && Passed(app, fleet, passes, n)
    case Stopped(i) =>
      && open && sourceSynced && i < n && Passed(app, fleet, passes, i) && !passes[i]
      && (fleet != "" ==> HasDestination(app, app.policies[i]))
    case Missing(i) =>
      && open && sourceSynced && i < n && Passed(app, fleet, passes, i)
      && fleet != "" && !HasDestination(app, app.policies[i])
  }

  /** How many policies were given a destination. */
  function Selections(app: Application, fleet: string, round: Round): nat {
    if fleet == "" then 0
    else match round
      case Synced => |app.policies|
      case Stopped(i) => i + 1
      case Missing(i) => i
      case _ => 0
  }

  /** There is exactly one such end. */
  lemma {:induction false} OneEnd(app: Application, fleet: string, fleets: set<string>, sourceSynced: bool,
                                  passes: seq<bool>, r: Round, t: Round)
    requires |passes| == |app.policies|
    requires Ends(app, fleet, fleets, sourceSynced, passes, r) && Ends(app, fleet, fleets, sourceSynced, passes, t)
    ensures r == t
  {
    hide HasDestination;
  }

  /** The fleet is fetched once, by the first policy's name, and the policies are synced in order until one
      fails; `passes` says which do not. A missing destination is dereferenced if and only if the first
      policy names a fleet, the application has no destination, and the loop reaches a policy without one;
      no accepted application meets that. In an accepted application every policy that is synced goes to
      the fleet it is meant for. */
  method SyncPolicies(app: Application, fleets: set<string>, sourceSynced: bool, passes: seq<bool>)
    returns (round: Round, fleet: string, selected: seq<Destination>)
    requires |passes| == |app.policies|
    ensures Ends(app, fleet, fleets, sourceSynced, passes, round)
    ensures fleet == if app.policies == [] then ""
                     else if FleetOf(app.policies[0].destination) != "" then FleetOf(app.policies[0].destination)
                     else FleetOf(app.destination)
    ensures forall i: nat :: round == Missing(i) <==>
              && app.policies != [] && FleetOf(app.policies[0].destination) != "" && fleet in fleets && sourceSynced
              && ReachesMissing(app, passes, i)
    ensures Accepted(app) ==> !round.Missing?
    ensures Accepted(app) && app.policies != [] ==>
              forall i | 0 <= i < |app.policies| :: Effective(app, app.policies[i]) == fleet
    ensures |selected| == Selections(app, fleet, round) <= |app.policies|
    ensures forall i | 0 <= i < |selected| ::
              && HasDestination(app, app.policies[i])
              && selected[i] == if app.policies[i].destination.Some? then app.policies[i].destination.value
                                else app.destination.value
  {
    hide Accepted, Effective, FirstSet;
    round, fleet, selected := NoPolicy, "", [];
    if |app.policies| == 0 { return; }
    fleet := FleetKey(app);
    AcceptedFleet(app);
    FirstFleet(app);
    if fleet != "" && fleet !in fleets { return FleetAbsent, fleet, []; }
    if !sourceSynced { return SourceFailed, fleet, []; }
    for n := 0 to |app.policies|
      invariant |selected| == if fleet != "" then n else 0
      invariant forall i | 0 <= i < |selected| ::
                  && HasDestination(app, app.policies[i])
                  && selected[i] == if app.policies[i].destination.Some? then app.policies[i].destination.value
                                    else app.destination.value
      invariant Passed(app, fleet, passes, n)
      invariant fleet != "" && app.destination.None? ==> forall j | 0 <= j < n :: app.policies[j].destination.Some?
    {
      if fleet != "" {
        var d := PolicyDestination(app, app.policies[n]);
        if d.None? { return Missing(n), fleet, selected; }
        selected := selected + [d.value];
      }
      if !passes[n] { return Stopped(n), fleet, selected; }
    }
    round := Synced;
  }

  lemma {:induction false} FirstFleet(app: Application)
    requires |app.policies| > 0
    ensures app.destination.None? ==> (FleetKey(app) != "" <==> FleetOf(app.policies[0].destination) != "")
    ensures app.destination.Some? ==> forall p :: PolicyDestination(app, p).Some?
  {
  }

  /** In an accepted application the first policy's fleet is every policy's, and if there is one no policy
      lacks a destination. */
  lemma {:induction false} AcceptedFleet(app: Application)
    requires |app.policies| > 0
    ensures Accepted(app) ==> forall i | 0 <= i < |app.policies| :: Effective(app, app.policies[i]) == FleetKey(app)
    ensures Accepted(app) && FleetKey(app) != "" ==>
              forall i | 0 <= i < |app.policies| :: PolicyDestination(app, app.policies[i]).Some?
  {
    if Accepted(app) {
      hide FirstSet, Accepted;
      AcceptedIff(app);
      var k :| Throughout(app, k);
      assert Effective(app, app.policies[0]) == k;
      assert forall i | 0 <= i < |app.policies| :: Effective(app, app.policies[i]) == k;
    }
  }
}
