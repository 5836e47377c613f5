/** When a rule matches and what is decided then, written out clause by clause and field by field, for every policy and
    request. */
module PolicyMatching {
  import opened Basics
  import opened Policy
  import opened PolicyProofs
  import opened PolicyTime

  // ---------------------------------------------------------------- one rule

  /** Some pattern compiles and accepts the role. */
  predicate Covers(m: Matcher, patterns: seq<Role>, role: Role) {
    exists p :: p in patterns && m.compile(p).Some? && m.compile(p).value.accepts(role)
  }

  /** A deny rule is met by any covered role; another rule asks for one role or more, all covered. */
  predicate RolesHold(m: Matcher, r: Rule, q: Request) {
    if r.action == Deny then exists x :: x in q.roles && Covers(m, r.matching.roles, x)
    else q.roles != [] && forall x :: x in q.roles ==> Covers(m, r.matching.roles, x)
  }

  predicate ResourcesHold(m: Matcher, r: Rule, q: Request)
    requires r.matching.resources.Some?
  {
    q.resources != [] && forall x :: x in q.resources ==> m.labels(r.matching.resources.value, x)
  }

  predicate TraitsHold(m: Matcher, r: Rule, q: Request)
    requires r.matching.traits.Some?
  {
    m.traits(r.matching.traits.value, q.traits)
  }

  /** An unknown duration is within any limit. */
  predicate TimeHolds(r: Rule, q: Request) {
    q.ttl == 0 || q.ttl <= r.matching.ttlMax
  }

  /** In `all` mode every clause there is holds, and there is one; in `any` mode some clause there is holds. */
  predicate Holds(m: Matcher, r: Rule, q: Request) {
    if r.any then
      || (r.matching.roles != [] && RolesHold(m, r, q))
      || (r.matching.resources.Some? && ResourcesHold(m, r, q))
      || (r.matching.traits.Some? && TraitsHold(m, r, q))
      || (r.matching.ttlMax > 0 && TimeHolds(r, q))
    else
      && (r.matching.roles != [] || r.matching.resources.Some? || r.matching.traits.Some? || r.matching.ttlMax > 0)
      && (r.matching.roles != [] ==> RolesHold(m, r, q))
      && (r.matching.resources.Some? ==> ResourcesHold(m, r, q))
      && (r.matching.traits.Some? ==> TraitsHold(m, r, q))
      && (r.matching.ttlMax > 0 ==> TimeHolds(r, q))
  }

  lemma CoversIsSomePattern(m: Matcher, patterns: seq<Role>, role: Role)
    ensures SomePattern(m, patterns, role) <==> Covers(m, patterns, role)
  {
    forall p | p in patterns
      ensures RoleMatch(m, p, role) <==> m.compile(p).Some? && m.compile(p).value.accepts(role)
    {}
  }

  lemma InFour(a: seq<bool>, b: seq<bool>, c: seq<bool>, d: seq<bool>, x: bool)
    ensures x in a + (b + c + d) <==> x in a || x in b || x in c || x in d
    ensures a + (b + c + d) == [] <==> a == [] && b == [] && c == [] && d == []
  {
  }

  /** A rule matches exactly when its clauses hold. */
  lemma MatchesExactly(m: Matcher, r: Rule, q: Request)
    ensures Matches(m, r, q) <==> Holds(m, r, q)
  {
    forall x ensures SomePattern(m, r.matching.roles, x) <==> Covers(m, r.matching.roles, x) {
      CoversIsSomePattern(m, r.matching.roles, x);
    }
    assert r.matching.roles != [] ==> RoleClause(m, r, q) == [RolesHold(m, r, q)];
    var a := RoleClause(m, r, q);
    var b := if r.matching.resources.Some? then [ResourcesHold(m, r, q)] else [];
    var c := if r.matching.traits.Some? then [TraitsHold(m, r, q)] else [];
    var d := if r.matching.ttlMax > 0 then [TimeHolds(r, q)] else [];
    assert Clauses(m, r, q) == a + (b + c + d);
    hide RolesHold, ResourcesHold, TraitsHold, TimeHolds, Clauses, RoleClause;
    InFour(a, b, c, d, true);
    InFour(a, b, c, d, false);
  }

  // ---------------------------------------------------------------- the rule that decides

  /** Rule `i` decides: a deny rule that holds and is the first such; or, when no deny rule holds, the first that
      holds. */
  predicate Decides(m: Matcher, p: Document, q: Request, i: nat) {
    && i < |p.rules| && Holds(m, p.rules[i], q)
    && (forall j :: 0 <= j < i && (p.rules[j].action == Deny || p.rules[i].action != Deny) ==> !Holds(m, p.rules[j], q))
    && (p.rules[i].action != Deny ==>
          forall j :: 0 <= j < |p.rules| && p.rules[j].action == Deny ==> !Holds(m, p.rules[j], q))
  }

  lemma {:induction false} FirstMatchIs(m: Matcher, rules: seq<Rule>, q: Request, deny: bool, i: nat)
    requires i < |rules| && (rules[i].action == Deny) == deny && Holds(m, rules[i], q)
    requires forall j :: 0 <= j < i && (rules[j].action == Deny) == deny ==> !Holds(m, rules[j], q)
    ensures FirstMatch(m, rules, q, deny) == Some(rules[i])
  {
    MatchesExactly(m, rules[0], q);
    hide Holds, Matches;
    if i > 0 { FirstMatchIs(m, rules[1..], q, deny, i - 1); }
  }

  lemma {:induction false} NoneMatches(m: Matcher, rules: seq<Rule>, q: Request, deny: bool)
    requires forall j :: 0 <= j < |rules| && (rules[j].action == Deny) == deny ==> !Holds(m, rules[j], q)
    ensures FirstMatch(m, rules, q, deny).None?
  {
    hide Holds, Matches;
    if rules != [] {
      MatchesExactly(m, rules[0], q);
      NoneMatches(m, rules[1..], q, deny);
    }
  }

  lemma DecidesIsMatched(m: Matcher, p: Document, q: Request, i: nat)
    requires Decides(m, p, q, i)
    ensures MatchedRule(m, p, q) == Some(p.rules[i])
  {
    hide Holds;
    FirstMatchIs(m, p.rules, q, p.rules[i].action == Deny, i);
    if p.rules[i].action != Deny { NoneMatches(m, p.rules, q, true); }
  }

  /** Either one rule decides, or no rule holds. */
  lemma SomeRuleDecides(m: Matcher, p: Document, q: Request) returns (i: nat)
    ensures i <= |p.rules|
    ensures i < |p.rules| ==> Decides(m, p, q, i)
    ensures i == |p.rules| ==> (forall r :: r in p.rules ==> !Holds(m, r, q)) && MatchedRule(m, p, q).None?
  {
    hide Holds;
    i := FirstHolding(m, p.rules, q, true);
    if i == |p.rules| {
      i := FirstHolding(m, p.rules, q, false);
      if i == |p.rules| {
        NoneMatches(m, p.rules, q, true);
        NoneMatches(m, p.rules, q, false);
      }
    }
  }

  lemma {:induction false} FirstHolding(m: Matcher, rules: seq<Rule>, q: Request, deny: bool) returns (i: nat)
    ensures i <= |rules|
    ensures forall j :: 0 <= j < i && (rules[j].action == Deny) == deny ==> !Holds(m, rules[j], q)
    ensures i < |rules| ==> (rules[i].action == Deny) == deny && Holds(m, rules[i], q)
  {
    hide Holds;
    if rules == [] || ((rules[0].action == Deny) == deny && Holds(m, rules[0], q)) {
      i := 0;
    } else {
      var k := FirstHolding(m, rules[1..], q, deny);
      i := k + 1;
    }
  }

  // ---------------------------------------------------------------- the decision, field by field

  /** `t` is the shortest of the longest grant, the rule's cap if it has one, and the time asked for if it is known. */
  predicate Shortest(t: Duration, longest: Duration, cap: Duration, asked: Duration) {
    && t <= longest && (cap > 0 ==> t <= cap) && (asked > 0 ==> t <= asked)
    && (t == longest || (cap > 0 && t == cap) || (asked > 0 && t == asked))
  }

  /** A rule that decides gives action, name and reason, its approvers if it names any and its channels if it has any;
      the defaults give the rest. */
  lemma DecidedByRule(m: Matcher, p: Document, q: Request, i: nat)
    requires Decides(m, p, q, i)
    ensures var d, r := EvaluateOnce(m, p, q), p.rules[i];
      && d.action == r.action && d.basis == ByRule(r.name)
      && d.reason == (match r.reason case Some(text) => Given(text) case None => RuleNamed(r.name))
      && Shortest(d.ttlCap, p.defaults.maxTtl, r.ttlCap, q.ttl)
      && d.approvers == (if r.approvers == Approvers([], []) then p.defaults.approvers else r.approvers)
      && d.notify == (if |r.notify.channels| > 0 then r.notify else p.defaults.notify)
  {
    DecidesIsMatched(m, p, q, i);
  }

  /** When no rule holds the defaults decide, except that they never approve. */
  lemma DecidedByDefault(m: Matcher, p: Document, q: Request)
    requires forall r :: r in p.rules ==> !Holds(m, r, q)
    ensures var d := EvaluateOnce(m, p, q);
      && d.action == (if p.defaults.action == Deny then Deny else RequireApproval) && d.basis == Unmatched
      && Shortest(d.ttlCap, p.defaults.maxTtl, 0, q.ttl)
      && d.approvers == p.defaults.approvers && d.notify == p.defaults.notify
      && d.reason == (if p.defaults.action == AutoApprove then DefaultsCannotApprove else NoRuleMatched)
  {
    hide Holds;
    NoneMatches(m, p.rules, q, true);
    NoneMatches(m, p.rules, q, false);
  }

  predicate Requestable(m: Matcher, p: Document, role: Role) {
    p.allowed == [] || Covers(m, p.allowed, role)
  }

  lemma {:induction false} FirstOutsideIs(m: Matcher, p: Document, roles: seq<Role>, i: nat)
    requires i < |roles| && !Requestable(m, p, roles[i]) && forall j :: 0 <= j < i ==> Requestable(m, p, roles[j])
    ensures FirstOutside(m, p, roles) == Some(roles[i])
  {
    CoversIsSomePattern(m, p.allowed, roles[0]);
    if i > 0 { FirstOutsideIs(m, p, roles[1..], i - 1); }
  }

  /** A role outside the allow-list turns the request away before any rule is read; the first one is named. */
  lemma TurnedAway(m: Matcher, p: Document, q: Request, i: nat)
    requires i < |q.roles| && !Requestable(m, p, q.roles[i]) && forall j :: 0 <= j < i ==> Requestable(m, p, q.roles[j])
    ensures var d := Evaluate(m, p, q);
      && d.action == Deny && d.basis == NotInCatalog && d.reason == NotRequestable(q.roles[i])
      && Shortest(d.ttlCap, p.defaults.maxTtl, 0, q.ttl)
      && d.approvers == p.defaults.approvers && d.notify == p.defaults.notify
  {
    FirstOutsideIs(m, p, q.roles, i);
  }

  /** Otherwise the rules decide on the whole request; if they approve it and some role needs approval alone, the first
      such role decides instead: whom to ask, whom to notify, why and for how long. */
  lemma DecidedByFirstNeeding(m: Matcher, p: Document, q: Request)
    requires forall r :: r in q.roles ==> Requestable(m, p, r)
    ensures Evaluate(m, p, q) ==
      if EvaluateOnce(m, p, q).action != AutoApprove then EvaluateOnce(m, p, q)
      else if q.roles == []
      then if MatchedRule(m, p, q).Some? && MatchedRule(m, p, q).value.matching.resources.Some?
           then EvaluateOnce(m, p, q)
           else EvaluateOnce(m, p, q).(action := RequireApproval, basis := MixedTier, reason := NoRoles)
      else if FirstNeeding(m, p, q, q.roles).None? then EvaluateOnce(m, p, q)
      else AskingFor(m, p, q, EvaluateOnce(m, p, q), FirstNeeding(m, p, q, q.roles).value)
  {
    forall r | r in q.roles ensures Allowed(m, p, r) { CoversIsSomePattern(m, p.allowed, r); }
    NoRoleOutside(m, p, q.roles);
    FirstNeedingNeeds(m, p, q, q.roles);
    if EvaluateOnce(m, p, q).action == AutoApprove && q.roles != [] {
      forall r | r in q.roles
        ensures EvaluateOnce(m, p, Alone(q, r)).action != Deny
      {
        OnceNotDenied(m, p, Alone(q, r), q);
      }
      if |q.roles| == 1 {
        assert q == Alone(q, q.roles[0]) && q.roles[0] in q.roles;
      } else {
        Confirmed(m, p, q, EvaluateOnce(m, p, q), q.roles, None);
      }
    }
  }

  // ---------------------------------------------------------------- what an approval means

  /** The rule approves this request. */
  predicate ApprovedBy(m: Matcher, p: Document, q: Request, i: nat) {
    Decides(m, p, q, i) && p.rules[i].action == AutoApprove
  }

  lemma OnceApproves(m: Matcher, p: Document, q: Request)
    ensures EvaluateOnce(m, p, q).action == AutoApprove <==> exists i: nat :: ApprovedBy(m, p, q, i)
  {
    hide Decides;
    var i := SomeRuleDecides(m, p, q);
    if i < |p.rules| {
      DecidedByRule(m, p, q, i);
      assert EvaluateOnce(m, p, q).action == AutoApprove ==> ApprovedBy(m, p, q, i);
    }
    if k: nat :| ApprovedBy(m, p, q, k) { DecidedByRule(m, p, q, k); }
  }

  /** Automatic approval, in terms of the rules' clauses: every role is requestable, an approving rule decides on the
      whole request and on each role alone, and a request without roles has one about resources. */
  lemma ApprovedExactly(m: Matcher, p: Document, q: Request)
    ensures Evaluate(m, p, q).action == AutoApprove <==>
      && (forall r :: r in q.roles ==> Requestable(m, p, r) && exists i: nat :: ApprovedBy(m, p, Alone(q, r), i))
      && exists i: nat :: ApprovedBy(m, p, q, i) && (q.roles == [] ==> p.rules[i].matching.resources.Some?)
  {
    hide Holds, Evaluate, EvaluateOnce;
    AutoApprovedExactly(m, p, q);
    OnceApproves(m, p, q);
    forall r
      ensures Allowed(m, p, r) <==> Requestable(m, p, r)
      ensures EvaluateOnce(m, p, Alone(q, r)).action == AutoApprove
          <==> exists i: nat :: ApprovedBy(m, p, Alone(q, r), i)
    {
      CoversIsSomePattern(m, p.allowed, r);
      OnceApproves(m, p, Alone(q, r));
    }
    forall i: nat | ApprovedBy(m, p, q, i)
      ensures MatchedRule(m, p, q) == Some(p.rules[i])
    {
      DecidesIsMatched(m, p, q, i);
    }
  }

  /** Whoever is approved automatically by a rule in `all` mode meets every clause of it. */
  lemma ApprovedMeetsTheRule(m: Matcher, p: Document, q: Request) returns (i: nat)
    requires Evaluate(m, p, q).action == AutoApprove
    ensures i < |p.rules| && p.rules[i].action == AutoApprove && Evaluate(m, p, q).basis == ByRule(p.rules[i].name)
    ensures !p.rules[i].any ==>
      && (p.rules[i].matching.roles != [] ==>
            q.roles != [] && forall x :: x in q.roles ==> Covers(m, p.rules[i].matching.roles, x))
      && (p.rules[i].matching.resources.Some? ==>
            q.resources != [] && forall x :: x in q.resources ==> m.labels(p.rules[i].matching.resources.value, x))
      && (p.rules[i].matching.traits.Some? ==> m.traits(p.rules[i].matching.traits.value, q.traits))
      && (p.rules[i].matching.ttlMax > 0 ==> q.ttl == 0 || q.ttl <= p.rules[i].matching.ttlMax)
  {
    hide Evaluate, EvaluateOnce;
    ApprovedExactly(m, p, q);
    AutoApprovedExactly(m, p, q);
    i :| ApprovedBy(m, p, q, i) && (q.roles == [] ==> p.rules[i].matching.resources.Some?);
    DecidedByRule(m, p, q, i);
  }

  // ---------------------------------------------------------------- the broker's own check, field by field

  lemma {:induction false} DowngradedBy(roles: seq<Role>, alone: seq<Decision>, d: Decision, i: nat)
    requires |alone| == |roles| && i < |roles| && d.action != Deny
    ensures alone[i].action == Deny && (forall j :: 0 <= j < i ==> alone[j].action != Deny) ==>
        Downgrade(roles, alone, d) == d.(action := Deny, basis := alone[i].basis, reason := alone[i].reason)
    ensures alone[i].action == RequireApproval && (forall j :: 0 <= j < i ==> alone[j].action != Deny)
            && (forall j :: i < j < |alone| ==> alone[j].action == AutoApprove) ==>
        Downgrade(roles, alone, d)
          == d.(action := RequireApproval, basis := MixedTier, reason := NotApprovableAlone(roles[i], alone[i].reason))
  {
    if i == 0 {
      var next := d.(action := RequireApproval, basis := MixedTier,
                     reason := NotApprovableAlone(roles[0], alone[0].reason));
      if alone[0].action == RequireApproval && forall j :: 0 < j < |alone| ==> alone[j].action == AutoApprove {
        forall v | v in alone[1..] ensures v.action == AutoApprove {
          var j :| 0 <= j < |alone[1..]| && alone[1..][j] == v;
          assert alone[j + 1] == v;
        }
        DowngradeExactly(roles[1..], alone[1..], next);
      }
    } else {
      var next := if alone[0].action == RequireApproval
                  then d.(action := RequireApproval, basis := MixedTier,
                          reason := NotApprovableAlone(roles[0], alone[0].reason)) else d;
      if alone[0].action != Deny { DowngradedBy(roles[1..], alone[1..], next, i - 1); }
    }
  }

  /** Of a request that the policy approves, the first role whose own verdict is a denial turns it into one, for that
      verdict's reason; otherwise the last role that is not approved alone puts it to approval. Whom to ask and the time
      stay those of the approval. */
  lemma BrokerNamesTheRole(m: Matcher, p: Document, snapshots: seq<Document>, q: Request, i: nat)
    requires |snapshots| == |q.roles| && i < |q.roles| && Evaluate(m, p, q).action == AutoApprove
    requires forall j :: 0 <= j < i ==> Evaluate(m, snapshots[j], Alone(q, q.roles[j])).action != Deny
    ensures var d, alone := Evaluate(m, p, q), Evaluate(m, snapshots[i], Alone(q, q.roles[i]));
      && (alone.action == Deny ==>
            Broker(m, p, snapshots, q) == d.(action := Deny, basis := alone.basis, reason := alone.reason))
      && (alone.action == RequireApproval
          && (forall j :: i < j < |q.roles| ==>
                Evaluate(m, snapshots[j], Alone(q, q.roles[j])).action == AutoApprove) ==>
            Broker(m, p, snapshots, q) == d.(action := RequireApproval, basis := MixedTier,
                                             reason := NotApprovableAlone(q.roles[i], alone.reason)))
  {
    hide Evaluate;
    DowngradedBy(q.roles, Verdicts(m, snapshots, q), Evaluate(m, p, q), i);
  }

  /** A request without roles that the policy approves is put to approval, for want of a role. */
  lemma BrokerWithoutRoles(m: Matcher, p: Document, q: Request)
    requires q.roles == [] && Evaluate(m, p, q).action == AutoApprove
    ensures Broker(m, p, [], q)
         == Evaluate(m, p, q).(action := RequireApproval, basis := MixedTier, reason := NoRoles)
  {
    hide Evaluate;
  }

  // ---------------------------------------------------------------- what loading a policy assures

  /** A policy loads exactly when the defaults do not approve and allow some time, every pattern compiles, and every
      rule has a clause and a name of its own. */
  lemma LoadsExactly(m: Matcher, p: Document, blank: Label)
    ensures Accepted(m, p, blank) <==>
      && p.defaults.action in {RequireApproval, Deny} && p.defaults.maxTtl >= 1
      && (forall x :: x in p.allowed ==> m.compile(x).Some?)
      && (forall r :: r in p.rules ==>
            && r.name != blank
            && !(r.matching.roles == [] && r.matching.resources == None && r.matching.traits == None
                 && r.matching.ttlMax == 0)
            && forall x :: x in r.matching.roles ==> m.compile(x).Some?)
      && (forall i, j :: 0 <= i < |p.rules| && 0 <= j < |p.rules| && p.rules[i].name == p.rules[j].name ==> i == j)
  {
    assert forall i :: 0 <= i < |p.rules| ==> p.rules[i] in p.rules;
    if Accepted(m, p, blank) {
      forall r | r in p.rules ensures AcceptedRule(m, r, blank) { var i :| 0 <= i < |p.rules| && p.rules[i] == r; }
    } else if p.defaults.action != AutoApprove && p.defaults.maxTtl > 0
        && (forall r :: r in p.allowed ==> m.compile(r).Some?)
        && (forall i, j :: 0 <= i < j < |p.rules| ==> p.rules[i].name != p.rules[j].name) {
      var i :| 0 <= i < |p.rules| && !AcceptedRule(m, p.rules[i], blank);
      assert p.rules[i] in p.rules;
    }
  }

  /** Under a policy that loads a rule is known by its name, and every decision allows some time, never longer than the
      longest grant. */
  lemma LoadedPolicies(m: Matcher, p: Document, blank: Label, q: Request, i: nat, j: nat)
    requires Accepted(m, p, blank) && i < |p.rules| && j < |p.rules|
    ensures p.rules[i].name == p.rules[j].name ==> i == j
    ensures p.rules[i].name != blank
    ensures 0 < Evaluate(m, p, q).ttlCap <= p.defaults.maxTtl
    ensures (forall r :: r in p.rules ==> !Matches(m, r, q)) ==> EvaluateOnce(m, p, q).action == p.defaults.action
    ensures forall x :: x in p.rules[i].matching.roles || x in p.allowed ==> m.compile(x).Some?
  {
    TimeGranted(m, p, q);
    OnceByRules(m, p, q);
    OnceByRulesTime(m, p, q);
    FirstNeedingNeeds(m, p, q, q.roles);
    forall r
      ensures 0 < EvaluateOnce(m, p, Alone(q, r)).ttlCap <= p.defaults.maxTtl
    {
      OnceByRulesTime(m, p, Alone(q, r));
    }
    assert AcceptedRule(m, p.rules[i], blank);
  }

  lemma OnceByRulesTime(m: Matcher, p: Document, q: Request)
    requires p.defaults.maxTtl > 0
    ensures 0 < EvaluateOnce(m, p, q).ttlCap <= p.defaults.maxTtl
  {
  }
}
