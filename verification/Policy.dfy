/** The approval policy of internal/teleportaccess/policy and the broker's use of it, as functions. */
module Policy {
  import opened Basics

  /** Role names and role patterns; rule names and addresses. */
  type Role(==, !new)
  type Label(==, !new)
  /** What a rule asks of resources or of the requester's traits, and what the request offers. */
  type Selector(==, !new)
  type Resource(==, !new)
  type Traits(==, !new)

  /** Nanoseconds. */
  type Duration = int

  datatype Regex = Regex(accepts: Role -> bool)

  /** Pattern compilation and label matching, which the policy only calls. An invalid pattern does not compile. */
  datatype Matcher = Matcher(compile: Role -> Option<Regex>, labels: (Selector, Resource) -> bool,
                             traits: (Selector, Traits) -> bool)

  datatype Action = AutoApprove | RequireApproval | Deny

  datatype Approvers = Approvers(roles: seq<Role>, emails: seq<Label>)
  datatype Notify = Notify(channels: seq<Label>, mentionApprovers: bool)

  /** Empty clauses are ignored: no roles, no selectors, a zero duration. */
  datatype Match = Match(roles: seq<Role>, resources: Option<Selector>, traits: Option<Selector>, ttlMax: Duration)
  datatype Rule = Rule(name: Label, matching: Match, any: bool, action: Action, reason: Option<Label>, ttlCap: Duration,
                       approvers: Approvers, notify: Notify)
  datatype Defaults = Defaults(action: Action, maxTtl: Duration, approvers: Approvers, notify: Notify)
  datatype Document = Document(defaults: Defaults, allowed: seq<Role>, rules: seq<Rule>)

  datatype Request = Request(roles: seq<Role>, resources: seq<Resource>, traits: Traits, ttl: Duration)

  datatype Basis = Unmatched | NotInCatalog | MixedTier | ByRule(name: Label)

  datatype Reason =
    | NoRuleMatched | DefaultsCannotApprove | Given(text: Label) | RuleNamed(name: Label)
    | NotRequestable(role: Role) | NoRoles
    | DeniedAlone(role: Role, why: Reason) | NeedsApprovalAlone(role: Role, why: Reason) |
        NotApprovableAlone(role: Role, why: Reason)

  datatype Decision = Decision(action: Action, basis: Basis, reason: Reason, ttlCap: Duration, approvers: Approvers,
                               notify: Notify)

  // ---------------------------------------------------------------- matching

  predicate RoleMatch(m: Matcher, pattern: Role, role: Role) {
    m.compile(pattern).Some? && m.compile(pattern).value.accepts(role)
  }

  predicate SomePattern(m: Matcher, patterns: seq<Role>, role: Role) {
    exists p :: p in patterns && RoleMatch(m, p, role)
  }

  predicate AnyRole(m: Matcher, patterns: seq<Role>, roles: seq<Role>) {
    exists r :: r in roles && SomePattern(m, patterns, r)
  }

  predicate AllRoles(m: Matcher, patterns: seq<Role>, roles: seq<Role>) {
    roles != [] && forall r :: r in roles ==> SomePattern(m, patterns, r)
  }

  predicate ResourcesMatch(m: Matcher, s: Selector, resources: seq<Resource>) {
    resources != [] && forall r :: r in resources ==> m.labels(s, r)
  }

  /** The verdict of the roles clause, when there is one: a deny rule is satisfied by any requested role,
      the others by all. */
  function RoleClause(m: Matcher, r: Rule, q: Request): seq<bool> {
    if r.matching.roles == [] then []
    else if r.action == Deny then [AnyRole(m, r.matching.roles, q.roles)]
    else [AllRoles(m, r.matching.roles, q.roles)]
  }

  /** The verdicts of the other clauses that are present. */
  function OtherClauses(m: Matcher, r: Rule, q: Request): seq<bool> {
    (if r.matching.resources.Some? then [ResourcesMatch(m, r.matching.resources.value, q.resources)] else [])
    + (if r.matching.traits.Some? then [m.traits(r.matching.traits.value, q.traits)] else [])
    + (if r.matching.ttlMax > 0 then [q.ttl == 0 || q.ttl <= r.matching.ttlMax] else [])
  }

  function Clauses(m: Matcher, r: Rule, q: Request): seq<bool> {
    RoleClause(m, r, q) + OtherClauses(m, r, q)
  }

  predicate Matches(m: Matcher, r: Rule, q: Request) {
    var c := Clauses(m, r, q);
    c != [] && if r.any then true in c else false !in c
  }

  // ---------------------------------------------------------------- deciding

  /** The first rule, among the deny rules or among the others, that matches. */
  function FirstMatch(m: Matcher, rules: seq<Rule>, q: Request, deny: bool): Option<Rule> {
    if rules == [] then None
    else if (rules[0].action == Deny) == deny && Matches(m, rules[0], q) then Some(rules[0])
    else FirstMatch(m, rules[1..], q, deny)
  }

  function Lower(cap: Duration, ttl: Duration): Duration {
    if ttl > 0 && ttl < cap then ttl else cap
  }

  function Decide(p: Document, r: Option<Rule>, q: Request): Decision {
    match r
    case None =>
      Decision(if p.defaults.action == AutoApprove then RequireApproval else p.defaults.action, Unmatched,
               if p.defaults.action == AutoApprove then DefaultsCannotApprove else NoRuleMatched,
               Lower(p.defaults.maxTtl, q.ttl), p.defaults.approvers, p.defaults.notify)
    case Some(rule) =>
      Decision(rule.action, ByRule(rule.name), if rule.reason.Some? then Given(rule.reason.value)
               else RuleNamed(rule.name),
               Lower(Lower(p.defaults.maxTtl, rule.ttlCap), q.ttl),
               if rule.approvers.roles != [] || rule.approvers.emails != [] then rule.approvers
                   else p.defaults.approvers,
               if rule.notify.channels != [] then rule.notify else p.defaults.notify)
  }

  function MatchedRule(m: Matcher, p: Document, q: Request): Option<Rule> {
    var denied := FirstMatch(m, p.rules, q, true);
    if denied.Some? then denied else FirstMatch(m, p.rules, q, false)
  }

  function EvaluateOnce(m: Matcher, p: Document, q: Request): Decision {
    Decide(p, MatchedRule(m, p, q), q)
  }

  function Alone(q: Request, role: Role): Request {
    q.(roles := [role])
  }

  predicate Allowed(m: Matcher, p: Document, role: Role) {
    p.allowed == [] || SomePattern(m, p.allowed, role)
  }

  function FirstOutside(m: Matcher, p: Document, roles: seq<Role>): Option<Role> {
    if roles == [] then None
    else if !Allowed(m, p, roles[0]) then Some(roles[0])
    else FirstOutside(m, p, roles[1..])
  }

  /** The confirmation of an automatic approval, role by role; `worst` is the first role found to need approval. */
  function Confirm(m: Matcher, p: Document, q: Request, d: Decision, roles: seq<Role>,
                   worst: Option<Decision>): Decision {
    if roles == [] then
      if worst.None? then d
      else if d.ttlCap > 0 && d.ttlCap < worst.value.ttlCap then worst.value.(ttlCap := d.ttlCap)
      else worst.value
    else
      var alone := EvaluateOnce(m, p, Alone(q, roles[0]));
      match alone.action
      case Deny => alone.(reason := DeniedAlone(roles[0], alone.reason))
      case RequireApproval =>
        Confirm(m, p, q, d, roles[1..],
                if worst.None? then Some(alone.(basis := MixedTier,
                    reason := NeedsApprovalAlone(roles[0], alone.reason))) else worst)
      case AutoApprove => Confirm(m, p, q, d, roles[1..], worst)
  }

  function Evaluate(m: Matcher, p: Document, q: Request): Decision {
    var outside := FirstOutside(m, p, q.roles);
    if outside.Some? then Decide(p, None, q).(action := Deny, basis := NotInCatalog,
                                              reason := NotRequestable(outside.value))
    else
      var d := EvaluateOnce(m, p, q);
      if d.action != AutoApprove then d
      else if q.roles == [] then
        var r := MatchedRule(m, p, q);
        if r.None? || r.value.matching.resources.None? then d.(action := RequireApproval, basis := MixedTier,
            reason := NoRoles) else d
      else if |q.roles| == 1 then d
      else Confirm(m, p, q, d, q.roles, None)
  }

  // ---------------------------------------------------------------- loading

  /** A document is loaded only if unmatched requests are not approved, every pattern compiles, the longest grant is
      positive, and the rules are named apart and each has a clause. */
  predicate Accepted(m: Matcher, p: Document, blank: Label) {
    && p.defaults.action != AutoApprove && p.defaults.maxTtl > 0
    && (forall r :: r in p.allowed ==> m.compile(r).Some?)
    && (forall i :: 0 <= i < |p.rules| ==> AcceptedRule(m, p.rules[i], blank))
    && (forall i, j :: 0 <= i < j < |p.rules| ==> p.rules[i].name != p.rules[j].name)
  }

  predicate AcceptedRule(m: Matcher, r: Rule, blank: Label) {
    && r.name != blank
    && (r.matching.roles != [] || r.matching.resources.Some? || r.matching.traits.Some? || r.matching.ttlMax != 0)
    && forall x :: x in r.matching.roles ==> m.compile(x).Some?
  }

  // ---------------------------------------------------------------- the broker

  /** The broker's own check of an automatic approval; `alone[i]` is the verdict on role i by itself. */
  function Downgrade(roles: seq<Role>, alone: seq<Decision>, d: Decision): Decision
    requires |alone| == |roles|
  {
    if roles == [] then d
    else if alone[0].action == Deny then d.(action := Deny, basis := alone[0].basis, reason := alone[0].reason)
    else if alone[0].action == RequireApproval then
      Downgrade(roles[1..], alone[1..],
                d.(action := RequireApproval, basis := MixedTier,
                   reason := NotApprovableAlone(roles[0], alone[0].reason)))
    else Downgrade(roles[1..], alone[1..], d)
  }

  /** `snapshots[i]` is the policy in force when role i is looked at, which a reload may have changed since the
      request was evaluated under `p`. */
  function Verdicts(m: Matcher, snapshots: seq<Document>, q: Request): (v: seq<Decision>)
    requires |snapshots| == |q.roles|
    ensures |v| == |q.roles| && forall i :: 0 <= i < |v| ==> v[i] == Evaluate(m, snapshots[i], Alone(q, q.roles[i]))
  {
    seq(|q.roles|, i requires 0 <= i < |q.roles| => Evaluate(m, snapshots[i], Alone(q, q.roles[i])))
  }

  function Broker(m: Matcher, p: Document, snapshots: seq<Document>, q: Request): Decision
    requires |snapshots| == |q.roles|
  {
    var d := Evaluate(m, p, q);
    if d.action != AutoApprove then d
    else if q.roles == [] then d.(action := RequireApproval, basis := MixedTier, reason := NoRoles)
    else Downgrade(q.roles, Verdicts(m, snapshots, q), d)
  }
}
