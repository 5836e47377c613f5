/** What the approval policy guarantees whatever its rules are: asking for more roles never lowers the verdict below
    that of any one of them, the order of the roles does not matter, and the broker's second check changes nothing
    under one policy. */
module PolicyProofs {
  import opened Basics
  import opened Policy

  /** deny > require approval > automatic. */
  function Severity(a: Action): nat {
    match a
    case AutoApprove => 0
    case RequireApproval => 1
    case Deny => 2
  }

  /** `b` asks for no role that `a` does not ask for, and is otherwise the same request. */
  predicate Narrower(b: Request, a: Request) {
    b == a.(roles := b.roles) && forall r :: r in b.roles ==> r in a.roles
  }

  predicate SameRoleSet(a: Request, b: Request) {
    Narrower(a, b) && Narrower(b, a) && (a.roles == [] <==> b.roles == [])
  }

  // ---------------------------------------------------------------- one rule

  lemma DenyRulesGrow(m: Matcher, r: Rule, b: Request, a: Request)
    requires Narrower(b, a) && r.action == Deny && Matches(m, r, b)
    ensures Matches(m, r, a)
  {
    assert OtherClauses(m, r, a) == OtherClauses(m, r, b);
    if r.matching.roles != [] {
      assert AnyRole(m, r.matching.roles, b.roles) ==> AnyRole(m, r.matching.roles, a.roles);
      ClauseWeakens(RoleClause(m, r, b)[0], RoleClause(m, r, a)[0], OtherClauses(m, r, a));
    }
  }

  /** Every rule that does not deny shrinks: it matches whatever narrower request still names a role. */
  lemma OtherRulesShrink(m: Matcher, r: Rule, b: Request, a: Request)
    requires Narrower(b, a) && b.roles != [] && r.action != Deny && Matches(m, r, a)
    ensures Matches(m, r, b)
  {
    assert OtherClauses(m, r, a) == OtherClauses(m, r, b);
    if r.matching.roles != [] {
      assert AllRoles(m, r.matching.roles, a.roles) ==> AllRoles(m, r.matching.roles, b.roles);
      ClauseWeakens(RoleClause(m, r, a)[0], RoleClause(m, r, b)[0], OtherClauses(m, r, a));
    }
  }

  lemma ClauseWeakens(from: bool, to: bool, rest: seq<bool>)
    requires from ==> to
    ensures true in [from] + rest ==> true in [to] + rest
    ensures false !in [from] + rest ==> false !in [to] + rest
  {
    assert [from] + rest == [from] + rest && ([from] + rest)[0] == from;
    assert ([to] + rest)[0] == to;
    assert forall x :: x in rest ==> x in [to] + rest && x in [from] + rest;
  }

  // ---------------------------------------------------------------- the rule list

  lemma {:induction false} FirstMatchMatches(m: Matcher, rules: seq<Rule>, q: Request, deny: bool)
    ensures FirstMatch(m, rules, q, deny).Some? ==>
      FirstMatch(m, rules, q, deny).value in rules && Matches(m, FirstMatch(m, rules, q, deny).value, q)
    ensures FirstMatch(m, rules, q, deny).Some? ==> (FirstMatch(m, rules, q, deny).value.action == Deny) == deny
    ensures FirstMatch(m, rules, q, deny).None?
       <==> forall r :: r in rules && (r.action == Deny) == deny ==> !Matches(m, r, q)
  {
    if rules != [] {
      FirstMatchMatches(m, rules[1..], q, deny);
      assert rules == [rules[0]] + rules[1..];
    }
  }

  /** The verdict of the rules without the per-role confirmation: deny exactly when a deny rule matches or nothing
      matches and the defaults deny. */
  lemma OnceByRules(m: Matcher, p: Document, q: Request)
    ensures MatchedRule(m, p, q).Some? ==>
        MatchedRule(m, p, q).value in p.rules && Matches(m, MatchedRule(m, p, q).value, q)
    ensures (MatchedRule(m, p, q).Some? && MatchedRule(m, p, q).value.action == Deny)
       <==> (exists r :: r in p.rules && r.action == Deny && Matches(m, r, q))
    ensures MatchedRule(m, p, q).None? <==> forall r :: r in p.rules ==> !Matches(m, r, q)
    ensures EvaluateOnce(m, p, q).action == AutoApprove ==> MatchedRule(m, p, q).Some?
  {
    FirstMatchMatches(m, p.rules, q, true);
    FirstMatchMatches(m, p.rules, q, false);
  }

  /** Adding roles never turns a denial into anything else, nor, where the wider request met a rule that does not
      deny, a denial by default into its verdict. */
  lemma OnceNotDenied(m: Matcher, p: Document, b: Request, a: Request)
    requires Narrower(b, a) && b.roles != [] && EvaluateOnce(m, p, a).action != Deny
    ensures EvaluateOnce(m, p, b).action != Deny
  {
    OnceByRules(m, p, a);
    OnceByRules(m, p, b);
    var rb := MatchedRule(m, p, b);
    if rb.Some? && rb.value.action == Deny {
      DenyRulesGrow(m, rb.value, b, a);
      assert false;
    } else if rb.None? && MatchedRule(m, p, a).Some? {
      OtherRulesShrink(m, MatchedRule(m, p, a).value, b, a);
      assert false;
    }
  }

  // ---------------------------------------------------------------- the confirmation

  lemma {:induction false} NoRoleOutside(m: Matcher, p: Document, roles: seq<Role>)
    ensures FirstOutside(m, p, roles).None? <==> forall r :: r in roles ==> Allowed(m, p, r)
    ensures FirstOutside(m, p, roles).Some? ==>
        FirstOutside(m, p, roles).value in roles && !Allowed(m, p, FirstOutside(m, p, roles).value)
  {
    if roles != [] {
      NoRoleOutside(m, p, roles[1..]);
      assert roles == [roles[0]] + roles[1..];
    }
  }

  /** The confirmation of a request that the rules approve: never a denial, and automatic exactly when
      every role alone is. */
  lemma {:induction false} ConfirmNeverDenies(m: Matcher, p: Document, q: Request, d: Decision, roles: seq<Role>,
                                              worst: Option<Decision>)
    requires EvaluateOnce(m, p, q).action == AutoApprove && d.action == AutoApprove && forall r :: r in roles ==>
        r in q.roles
    requires worst.Some? ==> worst.value.action == RequireApproval && worst.value.basis == MixedTier
    ensures Confirm(m, p, q, d, roles, worst).action != Deny
    ensures Confirm(m, p, q, d, roles, worst).action == AutoApprove
       <==> worst.None? && forall r :: r in roles ==> EvaluateOnce(m, p, Alone(q, r)).action == AutoApprove
    ensures Confirm(m, p, q, d, roles, worst).action == AutoApprove ==> Confirm(m, p, q, d, roles, worst) == d
    ensures Confirm(m, p, q, d, roles, worst).action == RequireApproval ==>
        Confirm(m, p, q, d, roles, worst).basis == MixedTier
  {
    if roles != [] {
      assert roles[0] in q.roles && roles == [roles[0]] + roles[1..];
      OnceNotDenied(m, p, Alone(q, roles[0]), q);
      var alone := EvaluateOnce(m, p, Alone(q, roles[0]));
      var next := if alone.action == RequireApproval && worst.None?
                  then Some(alone.(basis := MixedTier, reason := NeedsApprovalAlone(roles[0], alone.reason)))
                      else worst;
      ConfirmNeverDenies(m, p, q, d, roles[1..], next);
    }
  }

  /** Automatic approval, exactly: every role is requestable, the rules approve the request as a whole and each of its
      roles alone, and a request without roles got there through a rule about resources. */
  lemma AutoApprovedExactly(m: Matcher, p: Document, q: Request)
    ensures Evaluate(m, p, q).action == AutoApprove <==>
      && (forall r :: r in q.roles ==> Allowed(m, p, r) && EvaluateOnce(m, p, Alone(q, r)).action == AutoApprove)
      && EvaluateOnce(m, p, q).action == AutoApprove
      && (q.roles == [] ==> MatchedRule(m, p, q).value.matching.resources.Some?)
    ensures Evaluate(m, p, q).action == AutoApprove ==> Evaluate(m, p, q) == EvaluateOnce(m, p, q)
  {
    NoRoleOutside(m, p, q.roles);
    OnceByRules(m, p, q);
    if EvaluateOnce(m, p, q).action == AutoApprove {
      ConfirmNeverDenies(m, p, q, EvaluateOnce(m, p, q), q.roles, None);
      if |q.roles| == 1 { assert q == Alone(q, q.roles[0]); }
    }
  }

  /** Denial, exactly: some role is not requestable, or the rules deny. The confirmation never adds one. */
  lemma DeniedExactly(m: Matcher, p: Document, q: Request)
    ensures Evaluate(m, p, q).action == Deny <==>
      (exists r :: r in q.roles && !Allowed(m, p, r)) || EvaluateOnce(m, p, q).action == Deny
  {
    NoRoleOutside(m, p, q.roles);
    if EvaluateOnce(m, p, q).action == AutoApprove {
      ConfirmNeverDenies(m, p, q, EvaluateOnce(m, p, q), q.roles, None);
    }
  }

  /** A request is judged at least as severely as each of its roles alone. */
  lemma AtLeastEachRoleAlone(m: Matcher, p: Document, q: Request, role: Role)
    requires role in q.roles
    ensures Severity(Evaluate(m, p, q).action) >= Severity(Evaluate(m, p, Alone(q, role)).action)
  {
    var alone := Alone(q, role);
    AutoApprovedExactly(m, p, q);
    AutoApprovedExactly(m, p, alone);
    DeniedExactly(m, p, q);
    DeniedExactly(m, p, alone);
    assert Alone(alone, role) == alone;
    if EvaluateOnce(m, p, q).action != Deny { OnceNotDenied(m, p, alone, q); }
  }

  // ---------------------------------------------------------------- order and repetition

  lemma {:induction false} SameFirstMatch(m: Matcher, rules: seq<Rule>, a: Request, b: Request, deny: bool)
    requires SameRoleSet(a, b)
    ensures FirstMatch(m, rules, a, deny) == FirstMatch(m, rules, b, deny)
  {
    if rules != [] {
      SameFirstMatch(m, rules[1..], a, b, deny);
      SameMatches(m, rules[0], a, b);
    }
  }

  lemma SameMatches(m: Matcher, r: Rule, a: Request, b: Request)
    requires SameRoleSet(a, b)
    ensures Matches(m, r, a) == Matches(m, r, b)
  {
    assert AnyRole(m, r.matching.roles, a.roles) == AnyRole(m, r.matching.roles, b.roles);
    assert AllRoles(m, r.matching.roles, a.roles) == AllRoles(m, r.matching.roles, b.roles);
    assert Clauses(m, r, a) == Clauses(m, r, b);
  }

  /** The verdict and the rule it rests on depend only on which roles are asked for, not on their
      order or repetition. */
  lemma OnlyTheSetOfRolesCounts(m: Matcher, p: Document, a: Request, b: Request)
    requires SameRoleSet(a, b)
    ensures Evaluate(m, p, a).action == Evaluate(m, p, b).action
    ensures Evaluate(m, p, a).basis == Evaluate(m, p, b).basis
  {
    SameFirstMatch(m, p.rules, a, b, true);
    SameFirstMatch(m, p.rules, a, b, false);
    assert EvaluateOnce(m, p, a) == EvaluateOnce(m, p, b);
    forall r | r in a.roles ensures Alone(a, r) == Alone(b, r) {}
    NoRoleOutside(m, p, a.roles);
    NoRoleOutside(m, p, b.roles);
    AutoApprovedExactly(m, p, a);
    AutoApprovedExactly(m, p, b);
    if EvaluateOnce(m, p, a).action == AutoApprove {
      ConfirmNeverDenies(m, p, a, EvaluateOnce(m, p, a), a.roles, None);
      ConfirmNeverDenies(m, p, b, EvaluateOnce(m, p, b), b.roles, None);
    }
  }

  lemma FirstOfThree(m: Matcher, r1: Rule, r2: Rule, r3: Rule, q: Request, deny: bool)
    ensures FirstMatch(m, [r1, r2, r3], q, deny)
      == (if (r1.action == Deny) == deny && Matches(m, r1, q) then Some(r1)
          else if (r2.action == Deny) == deny && Matches(m, r2, q) then Some(r2)
          else if (r3.action == Deny) == deny && Matches(m, r3, q) then Some(r3)
          else None)
  {
    assert [r1, r2, r3][1..] == [r2, r3] && [r2, r3][1..] == [r3] && [r3][1..] == [];
    assert FirstMatch(m, [r3], q, deny) == if (r3.action == Deny) == deny && Matches(m, r3, q) then Some(r3) else None;
    assert FirstMatch(m, [r2, r3], q, deny)
        == if (r2.action == Deny) == deny && Matches(m, r2, q) then Some(r2) else FirstMatch(m, [r3], q, deny);
  }

  // ---------------------------------------------------------------- the broker's second check

  lemma {:induction false} DowngradeExactly(roles: seq<Role>, alone: seq<Decision>, d: Decision)
    requires |alone| == |roles| && d.action != Deny
    ensures Downgrade(roles, alone, d).action == Deny <==> exists v :: v in alone && v.action == Deny
    ensures Downgrade(roles, alone, d).action == AutoApprove
       <==> d.action == AutoApprove && forall v :: v in alone ==> v.action == AutoApprove
    ensures (forall v :: v in alone ==> v.action == AutoApprove) ==> Downgrade(roles, alone, d) == d
    ensures Downgrade(roles, alone, d) == d.(action := Downgrade(roles, alone, d).action,
                                             basis := Downgrade(roles, alone, d).basis,
                                             reason := Downgrade(roles, alone, d).reason)
    ensures Downgrade(roles, alone, d).action == RequireApproval && (d.action == AutoApprove || d.basis == MixedTier)
            ==> Downgrade(roles, alone, d).basis == MixedTier
  {
    if roles != [] {
      assert alone == [alone[0]] + alone[1..];
      var next := if alone[0].action == RequireApproval
                  then d.(action := RequireApproval, basis := MixedTier,
                          reason := NotApprovableAlone(roles[0], alone[0].reason)) else d;
      DowngradeExactly(roles[1..], alone[1..], next);
    }
  }

  /** While the policy is being replaced, the broker grants on its own authority exactly what the first policy
      approves and every policy it reads on the way approves role by role, and never a request without roles. It
      denies exactly when one of those verdicts is a denial. */
  lemma BrokerExactly(m: Matcher, p: Document, snapshots: seq<Document>, q: Request)
    requires |snapshots| == |q.roles|
    ensures Broker(m, p, snapshots, q).action == AutoApprove <==>
      && Evaluate(m, p, q).action == AutoApprove && q.roles != []
      && forall i :: 0 <= i < |q.roles| ==> Evaluate(m, snapshots[i], Alone(q, q.roles[i])).action == AutoApprove
    ensures Broker(m, p, snapshots, q).action == Deny <==>
      || Evaluate(m, p, q).action == Deny
      || (Evaluate(m, p, q).action == AutoApprove
          && exists i :: 0 <= i < |q.roles| && Evaluate(m, snapshots[i], Alone(q, q.roles[i])).action == Deny)
    ensures Broker(m, p, snapshots, q).action == AutoApprove ==> Broker(m, p, snapshots, q) == Evaluate(m, p, q)
    ensures Broker(m, p, snapshots, q) == Evaluate(m, p, q).(action := Broker(m, p, snapshots, q).action,
                                                             basis := Broker(m, p, snapshots, q).basis,
                                                             reason := Broker(m, p, snapshots, q).reason)
    ensures Evaluate(m, p, q).action == AutoApprove && Broker(m, p, snapshots, q).action == RequireApproval ==>
        Broker(m, p, snapshots, q).basis == MixedTier
    ensures Evaluate(m, p, q).action != AutoApprove ==> Broker(m, p, snapshots, q) == Evaluate(m, p, q)
  {
    var d, v := Evaluate(m, p, q), Verdicts(m, snapshots, q);
    if d.action == AutoApprove && q.roles != [] {
      DowngradeExactly(q.roles, v, d);
      assert forall i :: 0 <= i < |v| ==> v[i] in v;
    }
  }

  /** Under one policy the broker's own check of every role never changes a decision. */
  lemma SecondCheckAgrees(m: Matcher, p: Document, snapshots: seq<Document>, q: Request)
    requires |snapshots| == |q.roles| && (forall s :: s in snapshots ==> s == p) && q.roles != []
    ensures Broker(m, p, snapshots, q) == Evaluate(m, p, q)
  {
    BrokerExactly(m, p, snapshots, q);
    if Evaluate(m, p, q).action == AutoApprove {
      forall i | 0 <= i < |q.roles| ensures Evaluate(m, snapshots[i], Alone(q, q.roles[i])).action == AutoApprove {
        assert snapshots[i] in snapshots && q.roles[i] in q.roles;
        AtLeastEachRoleAlone(m, p, q, q.roles[i]);
      }
    }
  }
}
