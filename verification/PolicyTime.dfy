/** How long a decision lets a grant last, for every policy and request, and when that depends on the
    order of the roles. */
module PolicyTime {
  import opened Basics
  import opened Policy
  import opened PolicyProofs

  /** The rules put this role to approval when it is asked for alone. */
  predicate NeedsApproval(m: Matcher, p: Document, q: Request, role: Role) {
    EvaluateOnce(m, p, Alone(q, role)).action == RequireApproval
  }

  function Stricter(whole: Duration, alone: Duration): Duration {
    if 0 < whole < alone then whole else alone
  }

  /** The time granted when this role is the one that decides: its own, or the whole request's if that is shorter. */
  function TimeWith(m: Matcher, p: Document, q: Request, role: Role): Duration {
    Stricter(EvaluateOnce(m, p, q).ttlCap, EvaluateOnce(m, p, Alone(q, role)).ttlCap)
  }

  function FirstNeeding(m: Matcher, p: Document, q: Request, roles: seq<Role>): Option<Role> {
    if roles == [] then None
    else if NeedsApproval(m, p, q, roles[0]) then Some(roles[0])
    else FirstNeeding(m, p, q, roles[1..])
  }

  lemma {:induction false} FirstNeedingNeeds(m: Matcher, p: Document, q: Request, roles: seq<Role>)
    ensures FirstNeeding(m, p, q, roles).None? <==> forall r :: r in roles ==> !NeedsApproval(m, p, q, r)
    ensures FirstNeeding(m, p, q, roles).Some? ==>
        FirstNeeding(m, p, q, roles).value in roles && NeedsApproval(m, p, q, FirstNeeding(m, p, q, roles).value)
  {
    if roles != [] {
      FirstNeedingNeeds(m, p, q, roles[1..]);
      assert roles == [roles[0]] + roles[1..];
    }
  }

  /** What the confirmation makes of a role that needs approval alone: the decision on that role, with the shorter
      time. */
  function AskingFor(m: Matcher, p: Document, q: Request, d: Decision, role: Role): Decision {
    var alone := EvaluateOnce(m, p, Alone(q, role));
    alone.(basis := MixedTier, reason := NeedsApprovalAlone(role, alone.reason),
           ttlCap := Stricter(d.ttlCap, alone.ttlCap))
  }

  /** The first role that needs approval alone decides: whom to ask, whom to notify, why and for how long. */
  lemma {:induction false} Confirmed(m: Matcher, p: Document, q: Request, d: Decision, roles: seq<Role>,
                                     worst: Option<Decision>)
    requires forall r :: r in roles ==> EvaluateOnce(m, p, Alone(q, r)).action != Deny
    ensures Confirm(m, p, q, d, roles, worst)
      == (if worst.Some? then worst.value.(ttlCap := Stricter(d.ttlCap, worst.value.ttlCap))
          else if FirstNeeding(m, p, q, roles).None? then d
          else AskingFor(m, p, q, d, FirstNeeding(m, p, q, roles).value))
  {
    hide EvaluateOnce;
    if roles != [] {
      assert roles[0] in roles && roles == [roles[0]] + roles[1..];
      var alone := EvaluateOnce(m, p, Alone(q, roles[0]));
      var next := if alone.action == RequireApproval && worst.None?
                  then Some(alone.(basis := MixedTier, reason := NeedsApprovalAlone(roles[0], alone.reason)))
                      else worst;
      Confirmed(m, p, q, d, roles[1..], next);
    }
  }

  predicate SomeOutside(m: Matcher, p: Document, q: Request) {
    exists r :: r in q.roles && !Allowed(m, p, r)
  }

  /** The time granted, for every policy and request: of a request that the rules approve whole, the first role that
      needs approval alone decides it. */
  lemma TimeGranted(m: Matcher, p: Document, q: Request)
    ensures Evaluate(m, p, q).ttlCap
      == (if SomeOutside(m, p, q) then Lower(p.defaults.maxTtl, q.ttl)
          else if EvaluateOnce(m, p, q).action != AutoApprove || FirstNeeding(m, p, q, q.roles).None?
          then EvaluateOnce(m, p, q).ttlCap
          else TimeWith(m, p, q, FirstNeeding(m, p, q, q.roles).value))
  {
    NoRoleOutside(m, p, q.roles);
    FirstNeedingNeeds(m, p, q, q.roles);
    if EvaluateOnce(m, p, q).action == AutoApprove {
      forall r | r in q.roles
        ensures EvaluateOnce(m, p, Alone(q, r)).action != Deny
      {
        OnceNotDenied(m, p, Alone(q, r), q);
      }
      Confirmed(m, p, q, EvaluateOnce(m, p, q), q.roles, None);
      if |q.roles| == 1 { assert q == Alone(q, q.roles[0]); }
    }
  }

  // ---------------------------------------------------------------- order

  /** The same request with its roles in another order. */
  predicate Reorders(a: Request, b: Request) {
    b == a.(roles := b.roles) && multiset(b.roles) == multiset(a.roles)
  }

  lemma ReorderedRoles(a: Request, b: Request)
    requires Reorders(a, b)
    ensures SameRoleSet(a, b)
  {
    forall r ensures r in a.roles <==> r in b.roles { assert r in a.roles <==> r in multiset(a.roles); }
    assert |a.roles| == |multiset(a.roles)| == |multiset(b.roles)| == |b.roles|;
  }

  /** What the time granted is computed from does not depend on the order, but for which role comes first. */
  lemma OrderOnlyChoosesTheFirst(m: Matcher, p: Document, a: Request, b: Request)
    requires SameRoleSet(a, b)
    ensures EvaluateOnce(m, p, a) == EvaluateOnce(m, p, b) && (SomeOutside(m, p, a) <==> SomeOutside(m, p, b))
    ensures forall r ::
        (NeedsApproval(m, p, a, r) <==> NeedsApproval(m, p, b, r)) && TimeWith(m, p, a, r) == TimeWith(m, p, b, r)
  {
    SameFirstMatch(m, p.rules, a, b, true);
    SameFirstMatch(m, p.rules, a, b, false);
    forall r ensures Alone(a, r) == Alone(b, r) {}
  }

  lemma BroughtForward(roles: seq<Role>, r: Role) returns (reordered: seq<Role>)
    requires r in roles
    ensures multiset(reordered) == multiset(roles) && reordered != [] && reordered[0] == r
  {
    var i :| 0 <= i < |roles| && roles[i] == r;
    reordered := [r] + (roles[..i] + roles[i + 1..]);
    assert roles == roles[..i] + ([r] + roles[i + 1..]);
  }

  /** The roles that need approval alone would all decide the same time. */
  predicate OneTime(m: Matcher, p: Document, q: Request) {
    forall r, s :: r in q.roles && s in q.roles && NeedsApproval(m, p, q, r) && NeedsApproval(m, p, q, s) ==>
      TimeWith(m, p, q, r) == TimeWith(m, p, q, s)
  }

  /** Exactly when the order of the roles does not matter for the time granted: some role is not requestable, the
      rules do not approve the request whole, or every role that needs approval alone would decide the same time. */
  lemma SameTimeInEveryOrderIff(m: Matcher, p: Document, q: Request)
    ensures (forall b :: Reorders(q, b) ==> Evaluate(m, p, b).ttlCap == Evaluate(m, p, q).ttlCap)
       <==> SomeOutside(m, p, q) || EvaluateOnce(m, p, q).action != AutoApprove || OneTime(m, p, q)
  {
    hide Evaluate, EvaluateOnce, TimeWith;
    if SomeOutside(m, p, q) || EvaluateOnce(m, p, q).action != AutoApprove || OneTime(m, p, q) {
      forall b | Reorders(q, b) ensures Evaluate(m, p, b).ttlCap == Evaluate(m, p, q).ttlCap {
        ReorderedRoles(q, b);
        OrderOnlyChoosesTheFirst(m, p, q, b);
        TimeGranted(m, p, q);
        TimeGranted(m, p, b);
        FirstNeedingNeeds(m, p, q, q.roles);
        FirstNeedingNeeds(m, p, b, b.roles);
      }
    } else {
      var r, s :| r in q.roles && s in q.roles && NeedsApproval(m, p, q, r) && NeedsApproval(m, p, q, s)
                  && TimeWith(m, p, q, r) != TimeWith(m, p, q, s);
      var a := DecidedBy(m, p, q, r);
      var b := DecidedBy(m, p, q, s);
      assert Evaluate(m, p, a).ttlCap != Evaluate(m, p, b).ttlCap;
    }
  }

  /** Some order has the time decided by a given role that needs approval. */
  lemma DecidedBy(m: Matcher, p: Document, q: Request, r: Role) returns (b: Request)
    requires r in q.roles && NeedsApproval(m, p, q, r) && !SomeOutside(m, p, q)
    requires EvaluateOnce(m, p, q).action == AutoApprove
    ensures Reorders(q, b) && Evaluate(m, p, b).ttlCap == TimeWith(m, p, q, r)
  {
    hide Evaluate, EvaluateOnce, TimeWith;
    var roles := BroughtForward(q.roles, r);
    b := q.(roles := roles);
    ReorderedRoles(q, b);
    OrderOnlyChoosesTheFirst(m, p, q, b);
    TimeGranted(m, p, b);
    assert NeedsApproval(m, p, b, b.roles[0]);
  }

  // ---------------------------------------------------------------- a policy under which it matters

  /** Roles are matched by name alone. */
  function ByName(): Matcher {
    Matcher(p => Some(Regex(r => r == p)), (s, r) => true, (s, t) => true)
  }

  function RoleRule(name: Label, roles: seq<Role>, action: Action, cap: Duration): Rule {
    Rule(name, Match(roles, None, None, 0), false, action, None, cap, Approvers([], []), Notify([], false))
  }

  /** One hour for `a`, two for `b`, both together approved for up to eight. */
  function TwoLimits(a: Role, b: Role, n1: Label, n2: Label, n3: Label, hour: Duration): Document {
    Document(Defaults(RequireApproval, 8 * hour, Approvers([], []), Notify([], false)), [],
             [RoleRule(n1, [a], RequireApproval, hour), RoleRule(n2, [b], RequireApproval, 2 * hour),
              RoleRule(n3, [a, b], AutoApprove, 0)])
  }

  lemma TwoLimitsRule(a: Role, b: Role, n1: Label, n2: Label, n3: Label, hour: Duration, q: Request)
    requires a != b && q.roles in [[a, b], [b, a], [a], [b]]
    ensures MatchedRule(ByName(), TwoLimits(a, b, n1, n2, n3, hour), q)
      == Some(TwoLimits(a, b, n1, n2, n3, hour).rules[if q.roles == [a] then 0 else if q.roles == [b] then 1 else 2])
  {
    var p := TwoLimits(a, b, n1, n2, n3, hour);
    FirstOfThree(ByName(), p.rules[0], p.rules[1], p.rules[2], q, true);
    FirstOfThree(ByName(), p.rules[0], p.rules[1], p.rules[2], q, false);
    assert a in [a, b] && b in [a, b] && a in [b, a] && b in [b, a];
  }

  /** The time granted does depend on the order under a policy that loads: it is decided by the first role that needs
      approval, not by the strictest. */
  lemma GrantedTimeDependsOnOrder(a: Role, b: Role, n1: Label, n2: Label, n3: Label, blank: Label, hour: Duration,
                                  traits: Traits)
    requires a != b && n1 != n2 && n2 != n3 && n1 != n3 && blank !in {n1, n2, n3} && hour > 0
    ensures Accepted(ByName(), TwoLimits(a, b, n1, n2, n3, hour), blank)
    ensures Evaluate(ByName(), TwoLimits(a, b, n1, n2, n3, hour), Request([a, b], [], traits, 0)).ttlCap == hour
    ensures Evaluate(ByName(), TwoLimits(a, b, n1, n2, n3, hour), Request([b, a], [], traits, 0)).ttlCap == 2 * hour
  {
    var m, p := ByName(), TwoLimits(a, b, n1, n2, n3, hour);
    var q, q' := Request([a, b], [], traits, 0), Request([b, a], [], traits, 0);
    assert forall i :: 0 <= i < |p.rules| ==> AcceptedRule(m, p.rules[i], blank);
    TwoLimitsRule(a, b, n1, n2, n3, hour, q);
    TwoLimitsRule(a, b, n1, n2, n3, hour, q');
    TwoLimitsRule(a, b, n1, n2, n3, hour, Alone(q, a));
    TwoLimitsRule(a, b, n1, n2, n3, hour, Alone(q, b));
    assert Alone(q', b) == Alone(q, b) && Alone(q', a) == Alone(q, a);
    TimeGranted(m, p, q);
    TimeGranted(m, p, q');
    assert FirstNeeding(m, p, q, q.roles) == Some(a);
    assert FirstNeeding(m, p, q', q'.roles) == Some(b);
  }
}
