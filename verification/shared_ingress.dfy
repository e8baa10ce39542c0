/** The nginx ingress that all rollouts of a namespace share: its label lists the services that use it,
    and it lives as long as one of them does. */
module SharedIngress {
  import opened Text

  datatype Rollout = Rollout(service: string, host: string, port: int)

  datatype Rule = Rule(host: string, service: string, port: int)

  /** The ingress object of the namespace. `identified` is the rollout annotation. */
  datatype Ingress = Absent | Present(tag: string, identified: bool, rules: seq<Rule>)

  function RuleOf(r: Rollout): Rule {
    Rule(r.host, r.service, r.port)
  }

  /** `sets.New(strings.Split(label, ",")...)`. */
  function LabelSet(tag: string): set<string> {
    set x | x in Split(tag, [","])
  }

  /** What `UnsortedList` may return: the elements in any order. */
  ghost predicate Lists(order: seq<string>, s: set<string>) {
    && (forall x :: x in order <==> x in s)
    && forall i, j | 0 <= i < j < |order| :: order[i] != order[j]
  }

  function OtherHosts(rules: seq<Rule>, host: string): seq<Rule> {
    if rules == [] then [] else (if rules[0].host != host then [rules[0]] else []) + OtherHosts(rules[1..], host)
  }

  /** `CreateOrUpdate` with `renderNginxIngress`; the rule is appended every time. */
  function Sync(g: Ingress, r: Rollout, order: seq<string>): Ingress {
    match g
    case Absent => Present(r.service, true, [RuleOf(r)])
    case Present(tag, _, rules) => Present(if tag == "" then r.service else Join(order, ","), true, rules + [RuleOf(r)])
  }

  /** `deleteIngressCreatedByKurator` with `updateIngressRulesAndLabels`. */
  function Delete(g: Ingress, r: Rollout, order: seq<string>): Ingress {
    match g
    case Absent => Absent
    case Present(tag, identified, rules) =>
      if !identified || r.service !in LabelSet(tag) then g
      else if |LabelSet(tag)| == 1 then Absent
      else Present(Join(order, ","), identified, OtherHosts(rules, r.host))
  }

  // ----- the code, updating the object in place -----

  /** The set operations leave the order of the joined label open. */
  method UnsortedList(s: set<string>) returns (order: seq<string>)
    ensures Lists(order, s)
  {
    order := [];
    var rest := s;
    while rest != {}
      invariant rest <= s
      invariant Lists(order, s - rest)
      decreases rest
    {
      var x :| x in rest;
      order := order + [x];
      rest := rest - {x};
    }
  }

  class Namespace {
    var ingress: Ingress

    constructor ()
      ensures ingress == Absent
    {
      ingress := Absent;
    }

    method SyncRollout(r: Rollout)
      modifies this
      ensures exists order ::
                Lists(order, (if old(ingress).Present? then LabelSet(old(ingress).tag) else {}) + {r.service})
                              && ingress == Sync(old(ingress), r, order)
    {
      var tag, rules := "", [];
      if ingress.Present? { tag, rules := ingress.tag, ingress.rules; }
      var used := if ingress.Present? then LabelSet(tag) else {};
      var order := UnsortedList(used + {r.service});
      if tag == "" {
        tag := r.service;
      } else {
        tag := Join(order, ",");
      }
      ingress := Present(tag, true, rules + [RuleOf(r)]);
      assert ingress == Sync(old(ingress), r, order);
    }

    method DeleteRollout(r: Rollout)
      modifies this
      ensures exists order ::
                Lists(order, (if old(ingress).Present? then LabelSet(old(ingress).tag) else {}) - {r.service})
                              && ingress == Delete(old(ingress), r, order)
    {
      var used := if ingress.Present? then LabelSet(ingress.tag) else {};
      var order := UnsortedList(used - {r.service});
      if ingress.Present? && ingress.identified && r.service in used {
        if |used| == 1 {
          ingress := Absent;
        } else {
          var kept := KeepOtherHosts(ingress.rules, r.host);
          ingress := Present(Join(order, ","), ingress.identified, kept);
        }
      }
      assert ingress == Delete(old(ingress), r, order);
    }
  }

  lemma {:induction false} OtherHostsSnoc(rules: seq<Rule>, x: Rule, host: string)
    ensures OtherHosts(rules + [x], host) == OtherHosts(rules, host) + if x.host != host then [x] else []
  {
    if rules == [] {
      assert [x][1..] == [];
    } else {
      assert (rules + [x])[0] == rules[0] && (rules + [x])[1..] == rules[1..] + [x];
      OtherHostsSnoc(rules[1..], x, host);
    }
  }

  /** The rule loop of `updateIngressRulesAndLabels`. */
  method KeepOtherHosts(rules: seq<Rule>, host: string) returns (kept: seq<Rule>)
    ensures kept == OtherHosts(rules, host)
  {
    kept := [];
    for i := 0 to |rules|
      invariant kept == OtherHosts(rules[..i], host)
    {
      OtherHostsSnoc(rules[..i], rules[i], host);
      assert rules[..i + 1] == rules[..i] + [rules[i]];
      if rules[i].host != host { kept := kept + [rules[i]]; }
    }
    assert rules[..|rules|] == rules;
  }

  // ----- a reference count -----

  /** Rollouts that share a namespace: plain service names, none used by two of them. */
  ghost predicate Universe(u: set<Rollout>) {
    && (forall r | r in u :: r.service != "" && ',' !in r.service)
    && forall a, b | a in u && b in u && a.service == b.service :: a == b
  }

  /** No other rollout of `u` has the host of `r`. */
  ghost predicate OwnHost(r: Rollout, u: set<Rollout>) {
    forall q | q in u && q != r :: q.host != r.host
  }

  function Services(live: set<Rollout>): set<string> {
    set r | r in live :: r.service
  }

  function RulesOf(live: set<Rollout>): set<Rule> {
    set r | r in live :: Rule(r.host, r.service, r.port)
  }

  function RuleSet(rules: seq<Rule>): set<Rule> {
    set x | x in rules
  }

  /** The ingress is there exactly for the live rollouts: it exists iff there is one, its label lists
      exactly their services and its rules are, as a set, exactly theirs. */
  ghost predicate Counts(g: Ingress, live: set<Rollout>) {
    match g
    case Absent => live == {}
    case Present(tag, identified, rules) =>
      live != {} && identified && tag != "" && LabelSet(tag) == Services(live) && RuleSet(rules) == RulesOf(live)
  }

  lemma {:induction false} JoinedLabel(order: seq<string>, s: set<string>)
    requires Lists(order, s) && s != {} && forall x | x in s :: x != "" && ',' !in x
    ensures LabelSet(Join(order, ",")) == s && Join(order, ",") != ""
  {
    var x :| x in s;
    assert x in order;
    forall j, i | 0 <= j < |order| && 0 <= i < |order[j]| ensures order[j][i] != ',' { assert order[j] in s; }
    SplitJoin(order, ',');
    assert [','] == ",";
    hide Join, Split;
    EmptySplit();
    assert "" in LabelSet("") && "" !in s;
  }

  lemma {:induction false} EmptySplit()
    ensures Split("", [","]) == [""]
  {
  }

  lemma {:induction false} SingleLabel(service: string)
    requires service != "" && ',' !in service
    ensures LabelSet(service) == {service}
  {
    hide Split;
    assert Join([service], ",") == service;
    JoinedLabel([service], {service});
  }

  lemma {:induction false} OtherHostsIs(rules: seq<Rule>, host: string)
    ensures RuleSet(OtherHosts(rules, host)) == set x | x in RuleSet(rules) && x.host != host
  {
    if rules != [] {
      var rest := OtherHosts(rules[1..], host);
      OtherHostsIs(rules[1..], host);
      assert rules == [rules[0]] + rules[1..];
      assert RuleSet(rules) == {rules[0]} + RuleSet(rules[1..]);
      assert RuleSet([rules[0]] + rest) == {rules[0]} + RuleSet(rest);
      assert [] + rest == rest;
    }
  }

  lemma {:induction false} SyncCounts(g: Ingress, live: set<Rollout>, r: Rollout, order: seq<string>)
    requires Counts(g, live) && Universe(live + {r})
    requires Lists(order, (if g.Present? then LabelSet(g.tag) else {}) + {r.service})
    ensures Counts(Sync(g, r, order), live + {r})
  {
    hide Lists, LabelSet, Join;
    assert Services(live + {r}) == Services(live) + {r.service};
    assert RulesOf(live + {r}) == RulesOf(live) + {RuleOf(r)};
    assert forall x | x in Services(live + {r}) :: x != "" && ',' !in x;
    if g.Absent? {
      assert r in live + {r};
      SingleLabel(r.service);
    } else {
      JoinedLabel(order, Services(live) + {r.service});
    }
  }

  /** Deleting a rollout uncounts it alone, exactly when no other live rollout has its host: its rules
      are found by host, its share of the label by service. */
  lemma {:induction false} DeleteCounts(g: Ingress, live: set<Rollout>, r: Rollout, order: seq<string>)
    requires Counts(g, live) && Universe(live + {r})
    requires Lists(order, (if g.Present? then LabelSet(g.tag) else {}) - {r.service})
    ensures Counts(Delete(g, r, order), live - {r}) <==> (r in live ==> OwnHost(r, live))
  {
    hide Lists, LabelSet, Join, OtherHosts;
    ServicesWithout(live, r);
    if g.Present? && r.service in Services(live) {
      var q :| q in live && q.service == r.service;
      assert q == r;
      if |Services(live)| == 1 {
        OnlyOne(Services(live), r.service);
        assert forall p | p in live :: p.service in Services(live);
        assert forall p | p in live :: p == r;
        assert live - {r} == {};
      } else {
        assert Services(live) != {r.service};
        assert forall x | x in Services(live) - {r.service} :: x != "" && ',' !in x;
        JoinedLabel(order, Services(live) - {r.service});
        assert live - {r} != {};
        OtherHostsIs(g.rules, r.host);
        RulesWithout(live, r);
      }
    } else {
      assert live - {r} == live;
    }
  }

  lemma {:induction false} RulesWithout(live: set<Rollout>, r: Rollout)
    ensures (set x | x in RulesOf(live) && x.host != r.host) == RulesOf(live - {r}) <==> OwnHost(r, live)
  {
    var kept := set x | x in RulesOf(live) && x.host != r.host;
    if OwnHost(r, live) {
      assert kept == RulesOf(live - {r});
    } else {
      var q :| q in live && q != r && q.host == r.host;
      assert q in live - {r};
      assert RuleOf(q) in RulesOf(live - {r}) && RuleOf(q) !in kept;
    }
  }

  lemma {:induction false} ServicesWithout(live: set<Rollout>, r: Rollout)
    requires Universe(live + {r})
    ensures Services(live - {r}) == Services(live) - {r.service}
  {
    forall x | x in Services(live) - {r.service} ensures x in Services(live - {r}) {
      var p :| p in live && p.service == x;
      assert p in live - {r};
    }
    forall x | x in Services(live - {r}) ensures x != r.service {
      var p :| p in live - {r} && p.service == x;
      assert p in live + {r} && r in live + {r};
    }
  }

  lemma {:induction false} OnlyOne(s: set<string>, x: string)
    requires x in s && |s| == 1
    ensures s == {x}
  {
    assert |s - {x}| == 0;
    assert s == (s - {x}) + {x};
  }

  // ----- runs -----

  datatype Op = SyncOp(r: Rollout, order: seq<string>) | DeleteOp(r: Rollout, order: seq<string>)

  function ApplyOp(g: Ingress, op: Op): Ingress {
    match op
    case SyncOp(r, order) => Sync(g, r, order)
    case DeleteOp(r, order) => Delete(g, r, order)
  }

  /** The joined label may list the services in any order, but no others. */
  ghost predicate LegalOp(g: Ingress, op: Op) {
    var used := if g.Present? then LabelSet(g.tag) else {};
    Lists(op.order, if op.SyncOp? then used + {op.r.service} else used - {op.r.service})
  }

  ghost predicate LegalOps(g: Ingress, ops: seq<Op>)
    decreases ops
  {
    ops == [] || (LegalOp(g, ops[0]) && LegalOps(ApplyOp(g, ops[0]), ops[1..]))
  }

  function AfterOps(g: Ingress, ops: seq<Op>): Ingress
    decreases ops
  {
    if ops == [] then g else AfterOps(ApplyOp(g, ops[0]), ops[1..])
  }

  /** The rollouts synced and not deleted since. */
  function LiveAfter(live: set<Rollout>, ops: seq<Op>): set<Rollout>
    decreases ops
  {
    if ops == [] then live
    else LiveAfter(if ops[0].SyncOp? then live + {ops[0].r} else live - {ops[0].r}, ops[1..])
  }

  /** For any sequence of syncs and deletes by the rollouts of a universe without shared hosts, in any
      order and with any repetition, the ingress counts exactly the live ones. */
  lemma {:induction false} IngressCountsLive(g: Ingress, live: set<Rollout>, u: set<Rollout>, ops: seq<Op>)
    requires Counts(g, live) && live <= u && Universe(u) && LegalOps(g, ops)
    requires forall r | r in u :: OwnHost(r, u)
    requires forall i | 0 <= i < |ops| :: ops[i].r in u
    ensures Counts(AfterOps(g, ops), LiveAfter(live, ops))
    decreases ops
  {
    hide Counts, Lists, LabelSet, Sync, Delete;
    if ops != [] {
      var op := ops[0];
      assert live + {op.r} <= u;
      assert OwnHost(op.r, u);
      if op.SyncOp? { SyncCounts(g, live, op.r, op.order); } else { DeleteCounts(g, live, op.r, op.order); }
      assert forall i | 0 <= i < |ops[1..]| :: ops[1..][i] == ops[i + 1];
      IngressCountsLive(ApplyOp(g, op), if op.SyncOp? then live + {op.r} else live - {op.r}, u, ops[1..]);
    }
  }

  // ----- repeated rules -----

  /** How often the rule of `r` stands in the ingress. */
  function RuleCount(g: Ingress, r: Rollout): nat {
    match g
    case Absent => 0
    case Present(_, _, rules) => multiset(rules)[RuleOf(r)]
  }

  /** The syncs of `r` since its last delete, and `n` more if there was none. */
  function SyncsSince(n: nat, r: Rollout, ops: seq<Op>): nat
    decreases ops
  {
    if ops == [] then n
    else SyncsSince(if ops[0].r != r then n else if ops[0].SyncOp? then n + 1 else 0, r, ops[1..])
  }

  lemma {:induction false} OtherHostsCount(rules: seq<Rule>, host: string, x: Rule)
    ensures multiset(OtherHosts(rules, host))[x] == if x.host == host then 0 else multiset(rules)[x]
  {
    if rules != [] {
      OtherHostsCount(rules[1..], host, x);
      assert rules == [rules[0]] + rules[1..];
      var rest := OtherHosts(rules[1..], host);
      assert multiset([rules[0]] + rest) == multiset{rules[0]} + multiset(rest);
      assert [] + rest == rest;
    }
  }

  /** A rollout that is not live has no rule. */
  lemma {:induction false} NotLiveNoRule(g: Ingress, live: set<Rollout>, u: set<Rollout>, r: Rollout)
    requires Counts(g, live) && live <= u && r in u && r !in live && OwnHost(r, u)
    ensures RuleCount(g, r) == 0
  {
    hide LabelSet;
    if g.Present? {
      assert RuleOf(r) !in RulesOf(live);
      assert RuleOf(r) !in RuleSet(g.rules);
    }
  }

  lemma {:induction false} OpCounts(g: Ingress, live: set<Rollout>, u: set<Rollout>, op: Op, r: Rollout)
    requires Counts(g, live) && live <= u && Universe(u) && op.r in u && r in u && OwnHost(r, u) && OwnHost(op.r, u)
    ensures RuleCount(ApplyOp(g, op), r)
         == if op.r != r then RuleCount(g, r) else if op.SyncOp? then RuleCount(g, r) + 1 else 0
  {
    hide LabelSet, Join, OtherHosts;
    assert op.r != r ==> RuleOf(op.r) != RuleOf(r);
    if op.DeleteOp? {
      if g.Present? { OtherHostsCount(g.rules, op.r.host, RuleOf(r)); }
      if r !in live { NotLiveNoRule(g, live, u, r); }
      LastOne(g, live, u, op.r);
    }
  }

  /** A delete takes effect if and only if the rollout is live; the ingress goes with the only one. */
  lemma {:induction false} LastOne(g: Ingress, live: set<Rollout>, u: set<Rollout>, r: Rollout)
    requires Counts(g, live) && live <= u && Universe(u) && r in u
    ensures g.Present? ==> (r.service in LabelSet(g.tag) <==> r in live)
    ensures g.Present? && r in live && |LabelSet(g.tag)| == 1 ==> live == {r}
  {
    hide LabelSet;
    if g.Present? {
      if r.service in Services(live) {
        var q :| q in live && q.service == r.service;
        assert q == r;
      }
      if r in live && |LabelSet(g.tag)| == 1 {
        assert r.service in Services(live);
        OnlyOne(Services(live), r.service);
        forall p | p in live ensures p == r { assert p.service in Services(live); }
      }
    }
  }

  /** Every sync appends its rule again: over any such run a rollout's rule stands in the ingress as often as
      it was synced since it was last deleted. */
  lemma {:induction false} RulesPileUp(g: Ingress, live: set<Rollout>, u: set<Rollout>, ops: seq<Op>, r: Rollout)
    requires Counts(g, live) && live <= u && Universe(u) && LegalOps(g, ops) && r in u
    requires forall q | q in u :: OwnHost(q, u)
    requires forall i | 0 <= i < |ops| :: ops[i].r in u
    ensures RuleCount(AfterOps(g, ops), r) == SyncsSince(RuleCount(g, r), r, ops)
    decreases ops
  {
    hide Counts, Lists, LabelSet, Sync, Delete, RuleCount;
    if ops != [] {
      var op := ops[0];
      assert live + {op.r} <= u;
      assert OwnHost(op.r, u) && OwnHost(r, u);
      OpCounts(g, live, u, op, r);
      if op.SyncOp? { SyncCounts(g, live, op.r, op.order); } else { DeleteCounts(g, live, op.r, op.order); }
      assert forall i | 0 <= i < |ops[1..]| :: ops[1..][i] == ops[i + 1];
      RulesPileUp(ApplyOp(g, op), if op.SyncOp? then live + {op.r} else live - {op.r}, u, ops[1..], r);
    }
  }

  /** A sync of any ingress, also of one without a label, adds its service to the label and its rule at the end. */
  lemma {:induction false} SyncAdds(g: Ingress, r: Rollout, order: seq<string>)
    requires r.service != "" && ',' !in r.service
    requires g.Present? && g.tag != "" ==> forall x | x in LabelSet(g.tag) :: x != "" && ',' !in x
    requires Lists(order, (if g.Present? then LabelSet(g.tag) else {}) + {r.service})
    ensures var x := Sync(g, r, order);
            && x.Present? && x.identified
            && LabelSet(x.tag) == (if g.Present? && g.tag != "" then LabelSet(g.tag) else {}) + {r.service}
            && x.rules == (if g.Present? then g.rules else []) + [Rule(r.host, r.service, r.port)]
  {
    hide Lists, LabelSet, Join;
    SingleLabel(r.service);
    if g.Present? && g.tag != "" { JoinedLabel(order, LabelSet(g.tag) + {r.service}); }
  }

  /** An ingress that no rollout is annotated for, or that does not list the service, is left alone. */
  lemma {:induction false} ForeignStays(g: Ingress, r: Rollout, order: seq<string>)
    requires g.Present? && Lists(order, LabelSet(g.tag) - {r.service})
    requires forall x | x in LabelSet(g.tag) :: x != "" && ',' !in x
    ensures Delete(g, r, order) == g <==> !g.identified || r.service !in LabelSet(g.tag)
  {
    hide Lists, LabelSet, Join, OtherHosts;
    if g.identified && r.service in LabelSet(g.tag) && |LabelSet(g.tag)| != 1 {
      var rest := LabelSet(g.tag) - {r.service};
      assert LabelSet(g.tag) == rest + {r.service};
      JoinedLabel(order, rest);
    }
  }
}
