/** The engine as it runs: a replaceable policy, a cache of compiled patterns that every role check reads and fills,
    and loops over roles, patterns, clauses and rules. Each method is proved to compute the function of `Policy` it
    stands for, whatever the cache holds. */
module PolicyEngine {
  import opened Basics
  import opened Policy
  import opened PolicyProofs

  class Engine {
    const matcher: Matcher
    var policy: Document
    var cache: map<Role, Regex>

    /** A cached expression is the one its pattern compiles to. This does not mention the policy, so a pattern
        compiled under one policy may be stored after the next one is in place. */
    ghost predicate Valid()
      reads this
    {
      forall p :: p in cache ==> matcher.compile(p) == Some(cache[p])
    }

    constructor (matcher: Matcher, policy: Document)
      ensures Valid() && this.matcher == matcher && this.policy == policy
    {
      this.matcher, this.policy, cache := matcher, policy, map[];
    }

    method Replace(p: Document)
      modifies this
      ensures Valid() && policy == p
    {
      policy, cache := p, map[];
    }

    method RoleMatches(pattern: Role, role: Role) returns (ok: bool)
      requires Valid()
      modifies this`cache
      ensures Valid() && ok == RoleMatch(matcher, pattern, role)
    {
      if pattern !in cache {
        var compiled := matcher.compile(pattern);
        if compiled.None? { return false; }
        cache := cache[pattern := compiled.value];
      }
      ok := cache[pattern].accepts(role);
    }

    method AnyRoleMatches(patterns: seq<Role>, roles: seq<Role>) returns (ok: bool)
      requires Valid()
      modifies this`cache
      ensures Valid() && ok == AnyRole(matcher, patterns, roles)
    {
      for i := 0 to |roles|
        invariant Valid()
        invariant forall j :: 0 <= j < i ==> !SomePattern(matcher, patterns, roles[j])
      {
        for k := 0 to |patterns|
          invariant Valid()
          invariant forall j :: 0 <= j < k ==> !RoleMatch(matcher, patterns[j], roles[i])
        {
          ok := RoleMatches(patterns[k], roles[i]);
          if ok {
            assert SomePattern(matcher, patterns, roles[i]);
            return;
          }
        }
      }
      ok := false;
    }

    method AllRolesMatch(patterns: seq<Role>, roles: seq<Role>) returns (ok: bool)
      requires Valid()
      modifies this`cache
      ensures Valid() && ok == AllRoles(matcher, patterns, roles)
    {
      if |roles| == 0 { return false; }
      for i := 0 to |roles|
        invariant Valid()
        invariant forall j :: 0 <= j < i ==> SomePattern(matcher, patterns, roles[j])
      {
        ok := AnyRoleMatches(patterns, [roles[i]]);
        assert ok == SomePattern(matcher, patterns, roles[i]) by { OneRole(matcher, patterns, roles[i]); }
        if !ok { return; }
      }
      ok := true;
    }

    method RuleMatches(r: Rule, q: Request) returns (ok: bool)
      requires Valid()
      modifies this`cache
      ensures Valid() && ok == Matches(matcher, r, q)
    {
      var results: seq<bool> := [];
      if |r.matching.roles| > 0 {
        if r.action == Deny {
          ok := AnyRoleMatches(r.matching.roles, q.roles);
        } else {
          ok := AllRolesMatch(r.matching.roles, q.roles);
        }
        results := [ok];
      }
      var others := OtherResults(r, q);
      ok := Combine(results + others, r.any);
    }

    method OtherResults(r: Rule, q: Request) returns (results: seq<bool>)
      ensures results == OtherClauses(matcher, r, q)
    {
      results := [];
      if r.matching.resources.Some? {
        var ok := ResourcesAllMatch(r.matching.resources.value, q.resources);
        results := results + [ok];
      }
      if r.matching.traits.Some? {
        results := results + [matcher.traits(r.matching.traits.value, q.traits)];
      }
      if r.matching.ttlMax > 0 {
        results := results + [q.ttl == 0 || q.ttl <= r.matching.ttlMax];
      }
    }

    method Combine(results: seq<bool>, any: bool) returns (ok: bool)
      ensures ok == (results != [] && if any then true in results else false !in results)
    {
      if |results| == 0 { return false; }
      for i := 0 to |results|
        invariant forall j :: 0 <= j < i ==> results[j] == !any
      {
        if results[i] == any { return any; }
      }
      ok := !any;
    }

    method ResourcesAllMatch(s: Selector, resources: seq<Resource>) returns (ok: bool)
      ensures ok == ResourcesMatch(matcher, s, resources)
    {
      if |resources| == 0 { return false; }
      for i := 0 to |resources|
        invariant forall j :: 0 <= j < i ==> matcher.labels(s, resources[j])
      {
        if !matcher.labels(s, resources[i]) { return false; }
      }
      ok := true;
    }

    /** One pass over the rules, either the deny rules or the others. */
    method Scan(p: Document, q: Request, deny: bool) returns (r: Option<Rule>)
      requires Valid()
      modifies this`cache
      ensures Valid() && r == FirstMatch(matcher, p.rules, q, deny)
    {
      for i := 0 to |p.rules|
        invariant Valid()
        invariant FirstMatch(matcher, p.rules, q, deny) == FirstMatch(matcher, p.rules[i..], q, deny)
      {
        assert p.rules[i..][1..] == p.rules[i + 1..];
        if (p.rules[i].action == Deny) == deny {
          var ok := RuleMatches(p.rules[i], q);
          if ok { return Some(p.rules[i]); }
        }
      }
      r := None;
    }

    method Once(p: Document, q: Request) returns (d: Decision, r: Option<Rule>)
      requires Valid()
      modifies this`cache
      ensures Valid() && d == EvaluateOnce(matcher, p, q) && r == MatchedRule(matcher, p, q)
    {
      r := Scan(p, q, true);
      if r.None? { r := Scan(p, q, false); }
      d := Decide(p, r, q);
    }

    method Outside(p: Document, roles: seq<Role>) returns (r: Option<Role>)
      requires Valid()
      modifies this`cache
      ensures Valid() && r == FirstOutside(matcher, p, roles)
    {
      if |p.allowed| > 0 {
        for i := 0 to |roles|
          invariant Valid()
          invariant FirstOutside(matcher, p, roles) == FirstOutside(matcher, p, roles[i..])
        {
          var ok := AnyRoleMatches(p.allowed, [roles[i]]);
          OneRole(matcher, p.allowed, roles[i]);
          assert roles[i..][1..] == roles[i + 1..];
          if !ok { return Some(roles[i]); }
        }
      } else {
        NoRoleOutside(matcher, p, roles);
      }
      r := None;
    }

    method Confirmed(p: Document, q: Request, d: Policy.Decision) returns (c: Policy.Decision)
      requires Valid()
      modifies this`cache
      ensures Valid() && c == Confirm(matcher, p, q, d, q.roles, None)
    {
      var worst: Option<Policy.Decision> := None;
      for i := 0 to |q.roles|
        invariant Valid()
        invariant Confirm(matcher, p, q, d, q.roles, None) == Confirm(matcher, p, q, d, q.roles[i..], worst)
      {
        assert q.roles[i..][1..] == q.roles[i + 1..];
        var alone, _ := Once(p, Alone(q, q.roles[i]));
        match alone.action
        case Deny => return alone.(reason := DeniedAlone(q.roles[i], alone.reason));
        case RequireApproval =>
          if worst.None? {
            worst := Some(alone.(basis := MixedTier, reason := NeedsApprovalAlone(q.roles[i], alone.reason)));
          }
        case AutoApprove =>
      }
      c := d;
      if worst.Some? {
        c := if d.ttlCap > 0 && d.ttlCap < worst.value.ttlCap then worst.value.(ttlCap := d.ttlCap) else worst.value;
      }
    }

    /** The policy in force when the call starts is the one that decides, even if another replaces it, and empties the
        cache, before the rules are read. */
    method Decision(q: Request, reload: Option<Document>) returns (d: Policy.Decision)
      requires Valid()
      modifies this
      ensures Valid() && policy == After(old(policy), reload)
      ensures d == Evaluate(matcher, old(policy), q)
    {
      var p := policy;
      var outside := Outside(p, q.roles);
      if reload.Some? { Replace(reload.value); }
      if outside.Some? {
        return Decide(p, None, q).(action := Deny, basis := NotInCatalog, reason := NotRequestable(outside.value));
      }
      var matched;
      d, matched := Once(p, q);
      if d.action != AutoApprove { return; }
      if |q.roles| == 0 {
        if matched.None? || matched.value.matching.resources.None? {
          d := d.(action := RequireApproval, basis := MixedTier, reason := NoRoles);
        }
        return;
      }
      if |q.roles| == 1 { return; }
      d := Confirmed(p, q, d);
    }

    /** The broker's loop over the roles of a request that was approved automatically; `reloads[i]` happens while role
        i is looked at. */
    method EachAlone(q: Request, d: Policy.Decision, reloads: seq<Option<Document>>) returns (c: Policy.Decision)
      requires Valid() && |reloads| == |q.roles|
      modifies this
      ensures Valid() && c == Downgrade(q.roles, Verdicts(matcher, Snapshots(old(policy), reloads), q), d)
      ensures NoReload(reloads) ==> policy == old(policy)
    {
      forall i | 0 <= i <= |reloads| && NoReload(reloads) ensures InForce(policy, reloads[..i]) == policy {
        Undisturbed(policy, reloads[..i]);
      }
      ghost var alone := Verdicts(matcher, Snapshots(policy, reloads), q);
      c := d;
      for i := 0 to |q.roles|
        invariant Valid() && policy == InForce(old(policy), reloads[..i])
        invariant Downgrade(q.roles, alone, d) == Downgrade(q.roles[i..], alone[i..], c)
      {
        var single := Decision(Alone(q, q.roles[i]), reloads[i]);
        assert single == alone[i];
        assert reloads[..i + 1][..i] == reloads[..i];
        assert q.roles[i..][1..] == q.roles[i + 1..] && alone[i..][1..] == alone[i + 1..];
        if single.action != AutoApprove {
          c := c.(action := RequireApproval, basis := MixedTier,
                  reason := NotApprovableAlone(q.roles[i], single.reason));
          if single.action == Deny {
            c := c.(action := Deny, basis := single.basis, reason := single.reason);
            return;
          }
        }
      }
    }

    /** The broker's decision, with a reload that may come during the first evaluation and during that of each role. */
    method Handle(q: Request, reload: Option<Document>, reloads: seq<Option<Document>>) returns (d: Policy.Decision)
      requires Valid() && |reloads| == |q.roles|
      modifies this
      ensures Valid() && d == Broker(matcher, old(policy), Snapshots(After(old(policy), reload), reloads), q)
      ensures q.roles == [] ==> d.action != AutoApprove
      ensures reload.None? && NoReload(reloads) ==> policy == old(policy)
      ensures reload.None? && NoReload(reloads) && q.roles != [] ==> d == Evaluate(matcher, old(policy), q)
    {
      if reload.None? && NoReload(reloads) && q.roles != [] {
        forall i | 0 <= i <= |reloads|
          ensures InForce(policy, reloads[..i]) == policy
        {
          Undisturbed(policy, reloads[..i]);
        }
        SecondCheckAgrees(matcher, policy, Snapshots(policy, reloads), q);
      }
      d := Decision(q, reload);
      if d.action == AutoApprove {
        if |q.roles| == 0 {
          d := d.(action := RequireApproval, basis := MixedTier, reason := NoRoles);
        }
        d := EachAlone(q, d, reloads);
      }
    }
  }

  function After(p: Document, reload: Option<Document>): Document {
    if reload.Some? then reload.value else p
  }

  /** The policy after a series of reloads. */
  function InForce(p: Document, reloads: seq<Option<Document>>): Document {
    if reloads == [] then p else After(InForce(p, reloads[..|reloads| - 1]), reloads[|reloads| - 1])
  }

  /** The policy in force at the start of each evaluation when `reloads[i]` happens during the i-th. */
  function Snapshots(p: Document, reloads: seq<Option<Document>>): (s: seq<Document>)
    ensures |s| == |reloads| && forall i :: 0 <= i < |s| ==> s[i] == InForce(p, reloads[..i])
  {
    seq(|reloads|, i requires 0 <= i < |reloads| => InForce(p, reloads[..i]))
  }

  predicate NoReload(reloads: seq<Option<Document>>) {
    forall r :: r in reloads ==> r.None?
  }

  lemma {:induction false} Undisturbed(p: Document, reloads: seq<Option<Document>>)
    requires NoReload(reloads)
    ensures InForce(p, reloads) == p
  {
    if reloads != [] {
      assert reloads[|reloads| - 1] in reloads;
      Undisturbed(p, reloads[..|reloads| - 1]);
    }
  }

  lemma OneRole(m: Matcher, patterns: seq<Role>, role: Role)
    ensures AnyRole(m, patterns, [role]) == SomePattern(m, patterns, role)
  {
    assert role in [role];
  }
}
