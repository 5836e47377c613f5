/** The compiler from the role catalog to the policy document (infra/teleport/src/policy/render.ts), and what the
    engine makes of its output for every catalog and every request. */
module PolicyRender {
  import opened Basics
  import opened Policy
  import opened PolicyProofs

  const MINUTE: Duration := 60_000_000_000
  const HOUR: Duration := 3_600_000_000_000
  const MAX_DURATION: Duration := 0x7FFF_FFFF_FFFF_FFFF

  datatype Tier = Low | High

  /** A number followed by h or m, or any other text. */
  datatype Ttl = Hours(n: nat) | Minutes(n: nat) | Written(text: Label)

  datatype CatalogRole = CatalogRole(name: Role, tier: Tier, maxSessionTtl: Ttl)

  /** The fixed parts of the document, and how the engine reads a duration of another form. */
  datatype Site = Site(never: seq<Role>, approver: Role, channel: Label, neverRule: Label, lowRule: Label,
                       highRule: Label,
                       administrative: Label, lowRisk: Label, parse: Label -> Option<Duration>)

  // ---------------------------------------------------------------- the compiler

  function ToHours(t: Ttl): real {
    match t
    case Hours(n) => n as real
    case Minutes(n) => n as real / 60.0
    case Written(_) => 99.0
  }

  function Insert(t: Ttl, sorted: seq<Ttl>): seq<Ttl> {
    if sorted == [] || ToHours(t) <= ToHours(sorted[0]) then [t] + sorted
    else [sorted[0]] + Insert(t, sorted[1..])
  }

  function Sort(ts: seq<Ttl>): seq<Ttl> {
    if ts == [] then [] else Insert(ts[0], Sort(ts[1..]))
  }

  function Ttls(roles: seq<CatalogRole>): seq<Ttl> {
    seq(|roles|, i requires 0 <= i < |roles| => roles[i].maxSessionTtl)
  }

  function Names(roles: seq<CatalogRole>): seq<Role> {
    seq(|roles|, i requires 0 <= i < |roles| => roles[i].name)
  }

  function MinTtl(roles: seq<CatalogRole>): Ttl {
    var sorted := Sort(Ttls(roles));
    if sorted == [] then Hours(2) else sorted[0]
  }

  function OfTier(catalog: seq<CatalogRole>, tier: Tier): seq<CatalogRole> {
    if catalog == [] then []
    else (if catalog[0].tier == tier then [catalog[0]] else []) + OfTier(catalog[1..], tier)
  }

  /** How the engine reads a duration; too long a one does not parse. */
  function Nanoseconds(site: Site, t: Ttl): Option<Duration> {
    match t
    case Hours(n) => if n * HOUR <= MAX_DURATION then Some(n * HOUR) else None
    case Minutes(n) => if n * MINUTE <= MAX_DURATION then Some(n * MINUTE) else None
    case Written(text) => site.parse(text)
  }

  function Cap(site: Site, catalog: seq<CatalogRole>, tier: Tier): Option<Duration> {
    Nanoseconds(site, MinTtl(OfTier(catalog, tier)))
  }

  function NeverRule(site: Site): Rule {
    Rule(site.neverRule, Match(site.never, None, None, 0), false, Deny, Some(site.administrative), 0,
         Approvers([], []), Notify([], false))
  }

  function LowRule(site: Site, names: seq<Role>, cap: Duration): Rule {
    Rule(site.lowRule, Match(names, None, None, cap), false, AutoApprove, Some(site.lowRisk), cap, Approvers([], []),
         Notify([], false))
  }

  function HighRule(site: Site, names: seq<Role>, cap: Duration): Rule {
    Rule(site.highRule, Match(names, None, None, 0), false, RequireApproval, None, cap,
         Approvers([site.approver], []), Notify([site.channel], true))
  }

  /** The document as the engine reads it; none when a cap does not parse. */
  function Render(site: Site, catalog: seq<CatalogRole>): Option<Document> {
    var low, high := Cap(site, catalog, Low), Cap(site, catalog, High);
    if low.None? || high.None? then None
    else
      Some(Document(Defaults(RequireApproval, 8 * HOUR, Approvers([site.approver], []),
                             Notify([site.channel], false)), Names(catalog),
                    [NeverRule(site), LowRule(site, Names(OfTier(catalog, Low)), low.value),
                     HighRule(site, Names(OfTier(catalog, High)), high.value)]))
  }

  // ---------------------------------------------------------------- reading the catalog

  predicate InCatalog(catalog: seq<CatalogRole>, role: Role) {
    exists c :: c in catalog && c.name == role
  }

  predicate InTier(catalog: seq<CatalogRole>, tier: Tier, role: Role) {
    exists c :: c in catalog && c.tier == tier && c.name == role
  }

  predicate HasTier(catalog: seq<CatalogRole>, tier: Tier) {
    exists c :: c in catalog && c.tier == tier
  }

  /** Every requested role belongs to the tier, and there is one. */
  predicate AllOfTier(catalog: seq<CatalogRole>, tier: Tier, roles: seq<Role>) {
    roles != [] && forall r :: r in roles ==> InTier(catalog, tier, r)
  }

  /** Catalog names are plain: as patterns they accept themselves only; and none is an administrative role. */
  ghost predicate PlainNames(m: Matcher, site: Site, catalog: seq<CatalogRole>) {
    forall c :: c in catalog ==>
      && m.compile(c.name).Some? && (forall r :: m.compile(c.name).value.accepts(r) <==> r == c.name)
      && !SomePattern(m, site.never, c.name)
  }

  lemma {:induction false} TierMembers(catalog: seq<CatalogRole>, tier: Tier)
    ensures forall c :: c in OfTier(catalog, tier) <==> c in catalog && c.tier == tier
    ensures OfTier(catalog, tier) == [] <==> !HasTier(catalog, tier)
  {
    if catalog != [] {
      TierMembers(catalog[1..], tier);
      assert catalog == [catalog[0]] + catalog[1..];
    }
  }

  lemma NamesOf(roles: seq<CatalogRole>)
    ensures forall r :: r in Names(roles) <==> InCatalog(roles, r)
    ensures Names(roles) == [] <==> roles == []
  {
    forall r | r in Names(roles) ensures InCatalog(roles, r) {
      var i :| 0 <= i < |roles| && Names(roles)[i] == r;
      assert roles[i] in roles;
    }
    forall c | c in roles ensures c.name in Names(roles) {
      var i :| 0 <= i < |roles| && roles[i] == c;
      assert Names(roles)[i] == c.name;
    }
  }

  lemma TierNames(m: Matcher, site: Site, catalog: seq<CatalogRole>, tier: Tier)
    requires PlainNames(m, site, catalog)
    ensures forall r :: r in Names(OfTier(catalog, tier)) <==> InTier(catalog, tier, r)
    ensures forall r :: SomePattern(m, Names(OfTier(catalog, tier)), r) <==> InTier(catalog, tier, r)
    ensures Names(OfTier(catalog, tier)) == [] <==> !HasTier(catalog, tier)
  {
    TierMembers(catalog, tier);
    NamesOf(OfTier(catalog, tier));
    forall r ensures SomePattern(m, Names(OfTier(catalog, tier)), r) <==> InTier(catalog, tier, r) {
      if InTier(catalog, tier, r) { assert RoleMatch(m, r, r); }
    }
  }

  lemma CatalogNames(m: Matcher, site: Site, catalog: seq<CatalogRole>)
    requires PlainNames(m, site, catalog)
    ensures forall r :: SomePattern(m, Names(catalog), r) <==> InCatalog(catalog, r)
  {
    NamesOf(catalog);
    forall r ensures SomePattern(m, Names(catalog), r) <==> InCatalog(catalog, r) {
      if InCatalog(catalog, r) { assert RoleMatch(m, r, r); }
    }
  }

  // ---------------------------------------------------------------- the three rules

  /** A cap that is not positive is no clause at all. */
  predicate WithinCap(q: Request, cap: Duration) { cap <= 0 || q.ttl <= cap }

  lemma LowRuleMatches(m: Matcher, site: Site, catalog: seq<CatalogRole>, cap: Duration, q: Request)
    requires PlainNames(m, site, catalog) && (cap > 0 || HasTier(catalog, Low))
    ensures Matches(m, LowRule(site, Names(OfTier(catalog, Low)), cap), q)
       <==> WithinCap(q, cap) && (HasTier(catalog, Low) ==> AllOfTier(catalog, Low, q.roles))
  {
    TierNames(m, site, catalog, Low);
    var names := Names(OfTier(catalog, Low));
    var c := Clauses(m, LowRule(site, names, cap), q);
    if names == [] {
      assert c == [WithinCap(q, cap)];
    } else if cap > 0 {
      assert c == [AllRoles(m, names, q.roles), WithinCap(q, cap)];
    } else {
      assert c == [AllRoles(m, names, q.roles)];
    }
  }

  lemma HighRuleMatches(m: Matcher, site: Site, catalog: seq<CatalogRole>, cap: Duration, q: Request)
    requires PlainNames(m, site, catalog)
    ensures Matches(m, HighRule(site, Names(OfTier(catalog, High)), cap), q) <==> AllOfTier(catalog, High, q.roles)
  {
    TierNames(m, site, catalog, High);
    var names := Names(OfTier(catalog, High));
    var c := Clauses(m, HighRule(site, names, cap), q);
    if names == [] {
      assert c == [];
      assert q.roles != [] ==> q.roles[0] in q.roles;
    } else {
      assert c == [AllRoles(m, names, q.roles)];
    }
  }

  /** Two hours stand in for the limit of an empty tier. */
  lemma EmptyTierCap(site: Site, catalog: seq<CatalogRole>, tier: Tier)
    requires !HasTier(catalog, tier)
    ensures Cap(site, catalog, tier) == Some(2 * HOUR)
  {
    TierMembers(catalog, tier);
    assert Ttls(OfTier(catalog, tier)) == [];
  }

  /** What the engine does not turn away. An empty catalog renders an empty allow-list, which the engine ignores. */
  predicate Requestable(m: Matcher, site: Site, catalog: seq<CatalogRole>, role: Role) {
    if catalog == [] then !SomePattern(m, site.never, role) else InCatalog(catalog, role)
  }

  predicate AllRequestable(m: Matcher, site: Site, catalog: seq<CatalogRole>, roles: seq<Role>) {
    forall r :: r in roles ==> Requestable(m, site, catalog, r)
  }

  /** The request meets the rule meant for the low tier. */
  predicate MeetsLowRule(site: Site, catalog: seq<CatalogRole>, q: Request)
    requires Cap(site, catalog, Low).Some?
  {
    WithinCap(q, Cap(site, catalog, Low).value) && (HasTier(catalog, Low) ==> AllOfTier(catalog, Low, q.roles))
  }

  /** Which of the three rules decides a request that is not turned away. */
  lemma RuleTaken(m: Matcher, site: Site, catalog: seq<CatalogRole>, q: Request)
    requires PlainNames(m, site, catalog) && Render(site, catalog).Some? && AllRequestable(m, site, catalog, q.roles)
    ensures MatchedRule(m, Render(site, catalog).value, q)
      == (if MeetsLowRule(site, catalog, q)
          then Some(LowRule(site, Names(OfTier(catalog, Low)), Cap(site, catalog, Low).value))
          else if AllOfTier(catalog, High, q.roles)
          then Some(HighRule(site, Names(OfTier(catalog, High)), Cap(site, catalog, High).value))
          else None)
  {
    var p := Render(site, catalog).value;
    if !HasTier(catalog, Low) { EmptyTierCap(site, catalog, Low); }
    LowRuleMatches(m, site, catalog, Cap(site, catalog, Low).value, q);
    HighRuleMatches(m, site, catalog, Cap(site, catalog, High).value, q);
    FirstOfThree(m, p.rules[0], p.rules[1], p.rules[2], q, true);
    FirstOfThree(m, p.rules[0], p.rules[1], p.rules[2], q, false);
    assert p.rules == [p.rules[0], p.rules[1], p.rules[2]];
  }

  /** Of a catalog with roles the allow-list holds its names; an empty one allows everything. */
  lemma AllowedNames(m: Matcher, site: Site, catalog: seq<CatalogRole>, role: Role)
    requires PlainNames(m, site, catalog) && Render(site, catalog).Some?
    ensures Allowed(m, Render(site, catalog).value, role) <==> catalog == [] || InCatalog(catalog, role)
  {
    CatalogNames(m, site, catalog);
    NamesOf(catalog);
  }

  // ---------------------------------------------------------------- what the compiled policy means

  /** For every catalog and request: a compiled policy denies exactly the requests that name a role that is not
      requestable, which is a role outside the catalog unless the catalog is empty. */
  lemma DeniedIffOutsideTheCatalog(m: Matcher, site: Site, catalog: seq<CatalogRole>, q: Request)
    requires PlainNames(m, site, catalog) && Render(site, catalog).Some?
    ensures Evaluate(m, Render(site, catalog).value, q).action == Deny <==> !AllRequestable(m, site, catalog, q.roles)
  {
    var p := Render(site, catalog).value;
    DeniedExactly(m, p, q);
    forall r ensures Allowed(m, p, r) <==> catalog == [] || InCatalog(catalog, r) { AllowedNames(m, site, catalog, r); }
    if AllRequestable(m, site, catalog, q.roles) {
      RuleTaken(m, site, catalog, q);
    } else if catalog == [] {
      assert p.rules[0] == NeverRule(site) && p.rules[0] in p.rules;
      OnceByRules(m, p, q);
    }
  }

  /** Denial means a role outside the catalog, for every request, exactly when the catalog has a role, or the
      administrative patterns cover every role. */
  lemma DenialMeansOutsideIff(m: Matcher, site: Site, catalog: seq<CatalogRole>, traits: Traits)
    requires PlainNames(m, site, catalog) && Render(site, catalog).Some?
    ensures (forall q: Request ::
               Evaluate(m, Render(site, catalog).value, q).action == Deny <==>
               exists r :: r in q.roles && !InCatalog(catalog, r))
       <==> (catalog != [] || forall r :: SomePattern(m, site.never, r))
  {
    forall q: Request
      ensures Evaluate(m, Render(site, catalog).value, q).action == Deny <==> !AllRequestable(m, site, catalog, q.roles)
    {
      DeniedIffOutsideTheCatalog(m, site, catalog, q);
    }
    if catalog == [] && exists r :: !SomePattern(m, site.never, r) {
      var r :| !SomePattern(m, site.never, r);
      var q := Request([r], [], traits, 0);
      assert r in q.roles && !InCatalog(catalog, r) && AllRequestable(m, site, catalog, q.roles);
    }
  }

  /** For every catalog and request: automatic approval, exactly. */
  lemma ApprovedIffLowRule(m: Matcher, site: Site, catalog: seq<CatalogRole>, q: Request)
    requires PlainNames(m, site, catalog) && Render(site, catalog).Some?
    ensures Evaluate(m, Render(site, catalog).value, q).action == AutoApprove
       <==> q.roles != [] && AllRequestable(m, site, catalog, q.roles) && MeetsLowRule(site, catalog, q)
  {
    var p := Render(site, catalog).value;
    AutoApprovedExactly(m, p, q);
    DeniedIffOutsideTheCatalog(m, site, catalog, q);
    if AllRequestable(m, site, catalog, q.roles) {
      RuleTaken(m, site, catalog, q);
      forall r | r in q.roles
        ensures Allowed(m, p, r)
        ensures MeetsLowRule(site, catalog, q) ==> EvaluateOnce(m, p, Alone(q, r)).action == AutoApprove
      {
        AllowedNames(m, site, catalog, r);
        RuleTaken(m, site, catalog, Alone(q, r));
      }
    }
  }

  /** With a low tier, automatic approval goes to exactly the requests for one or more low-tier roles that do not ask
      for longer than the tier's cap, if the cap is positive. */
  lemma ApprovedIffLowTier(m: Matcher, site: Site, catalog: seq<CatalogRole>, q: Request)
    requires PlainNames(m, site, catalog) && Render(site, catalog).Some? && HasTier(catalog, Low)
    ensures Evaluate(m, Render(site, catalog).value, q).action == AutoApprove
       <==> AllOfTier(catalog, Low, q.roles) && WithinCap(q, Cap(site, catalog, Low).value)
  {
    ApprovedIffLowRule(m, site, catalog, q);
    forall r | r in q.roles && InTier(catalog, Low, r) ensures Requestable(m, site, catalog, r) {}
  }

  /** Without one, the rule meant for it keeps only its time limit: whatever is requestable is approved,
      whatever its tier. */
  lemma ApprovedWithoutLowTier(m: Matcher, site: Site, catalog: seq<CatalogRole>, q: Request)
    requires PlainNames(m, site, catalog) && Render(site, catalog).Some? && !HasTier(catalog, Low)
    ensures Evaluate(m, Render(site, catalog).value, q).action == AutoApprove
       <==> q.roles != [] && AllRequestable(m, site, catalog, q.roles) && q.ttl <= 2 * HOUR
    ensures catalog != [] ==>
        (q.roles != [] && AllRequestable(m, site, catalog, q.roles) <==> AllOfTier(catalog, High, q.roles))
  {
    EmptyTierCap(site, catalog, Low);
    ApprovedIffLowRule(m, site, catalog, q);
    forall r | InCatalog(catalog, r) ensures InTier(catalog, High, r) {
      var c :| c in catalog && c.name == r;
      assert c.tier == High;
    }
  }

  /** The low tier is approved and nothing else, for every request, exactly when the catalog has a low tier or nothing
      is requestable. */
  lemma OnlyLowTierApprovedIff(m: Matcher, site: Site, catalog: seq<CatalogRole>, traits: Traits)
    requires PlainNames(m, site, catalog) && Render(site, catalog).Some?
    ensures (forall q: Request :: Evaluate(m, Render(site, catalog).value, q).action == AutoApprove ==>
             AllOfTier(catalog, Low, q.roles))
       <==> HasTier(catalog, Low) || forall r :: !Requestable(m, site, catalog, r)
  {
    var p := Render(site, catalog).value;
    forall q: Request
      ensures Evaluate(m, p, q).action == AutoApprove
         <==> q.roles != [] && AllRequestable(m, site, catalog, q.roles) && MeetsLowRule(site, catalog, q)
    {
      ApprovedIffLowRule(m, site, catalog, q);
    }
    if forall r :: !Requestable(m, site, catalog, r) {
      forall q: Request | q.roles != []
        ensures !AllRequestable(m, site, catalog, q.roles)
      {
        assert q.roles[0] in q.roles;
      }
    } else if !HasTier(catalog, Low) {
      EmptyTierCap(site, catalog, Low);
      var r :| Requestable(m, site, catalog, r);
      var q := Request([r], [], traits, 0);
      assert q.roles[0] in q.roles && AllRequestable(m, site, catalog, q.roles) && MeetsLowRule(site, catalog, q);
      assert !AllOfTier(catalog, Low, q.roles);
    }
  }

  /** Whom a compiled policy asks: approval always goes to the one approver role through the one channel, which
      mentions the approvers when all roles are of the high tier; an automatic approval and a denial give the reasons
      of their rules. */
  lemma ApprovalGoesToTheApprover(m: Matcher, site: Site, catalog: seq<CatalogRole>, q: Request)
    requires PlainNames(m, site, catalog) && Render(site, catalog).Some? && AllRequestable(m, site, catalog, q.roles)
    ensures var d := Evaluate(m, Render(site, catalog).value, q);
      && d.approvers == Approvers([site.approver], []) && d.notify.channels == [site.channel]
      && (d.notify.mentionApprovers <==> AllOfTier(catalog, High, q.roles) && !MeetsLowRule(site, catalog, q))
      && (d.action == AutoApprove ==> d.basis == ByRule(site.lowRule) && d.reason == Given(site.lowRisk))
      && (d.basis == ByRule(site.highRule) || d.basis == Unmatched || d.basis == MixedTier || d.action == AutoApprove)
  {
    var p := Render(site, catalog).value;
    RuleTaken(m, site, catalog, q);
    NoRoleOutside(m, p, q.roles);
    forall r | r in q.roles
      ensures Allowed(m, p, r)
      ensures MeetsLowRule(site, catalog, q) ==> EvaluateOnce(m, p, Alone(q, r)).action == AutoApprove
    {
      AllowedNames(m, site, catalog, r);
      RuleTaken(m, site, catalog, Alone(q, r));
    }
    if MeetsLowRule(site, catalog, q) && q.roles != [] {
      ConfirmNeverDenies(m, p, q, EvaluateOnce(m, p, q), q.roles, None);
    }
  }

  /** A denial names its ground: the allow-list, or, when the catalog is empty and there is none, the administrative
      rule. */
  lemma DenialNamesItsGround(m: Matcher, site: Site, catalog: seq<CatalogRole>, q: Request)
    requires PlainNames(m, site, catalog) && Render(site, catalog).Some? && !AllRequestable(m, site, catalog, q.roles)
    ensures var d := Evaluate(m, Render(site, catalog).value, q);
      && d.approvers == Approvers([site.approver], []) && d.notify == Notify([site.channel], false)
      && d.ttlCap == (if 0 < q.ttl < 8 * HOUR then q.ttl else 8 * HOUR)
      && if catalog == [] then d.basis == ByRule(site.neverRule) && d.reason == Given(site.administrative)
         else d.basis == NotInCatalog && d.reason.NotRequestable? && d.reason.role in q.roles
              && !InCatalog(catalog, d.reason.role)
  {
    var p := Render(site, catalog).value;
    NoRoleOutside(m, p, q.roles);
    forall r ensures Allowed(m, p, r) <==> catalog == [] || InCatalog(catalog, r) { AllowedNames(m, site, catalog, r); }
    if catalog == [] {
      assert site.never != [] ==> Clauses(m, NeverRule(site), q) == [AnyRole(m, site.never, q.roles)];
      FirstOfThree(m, p.rules[0], p.rules[1], p.rules[2], q, true);
      assert p.rules == [p.rules[0], p.rules[1], p.rules[2]];
    }
  }

  // ---------------------------------------------------------------- loading the compiled policy

  /** The fixed parts are sound: administrative patterns there are and all compile, and the rules are
      named, and apart. */
  predicate SoundSite(m: Matcher, site: Site, blank: Label) {
    && site.never != [] && (forall r :: r in site.never ==> m.compile(r).Some?)
    && site.neverRule != site.lowRule && site.lowRule != site.highRule && site.highRule != site.neverRule
    && blank != site.neverRule && blank != site.lowRule && blank != site.highRule
  }

  /** The engine loads the compiled policy exactly when the catalog has a high tier: without one the last
      rule has no clause. */
  lemma AcceptedIffHighTier(m: Matcher, site: Site, catalog: seq<CatalogRole>, blank: Label)
    requires PlainNames(m, site, catalog) && Render(site, catalog).Some? && SoundSite(m, site, blank)
    ensures Accepted(m, Render(site, catalog).value, blank) <==> HasTier(catalog, High)
  {
    var p := Render(site, catalog).value;
    if !HasTier(catalog, Low) { EmptyTierCap(site, catalog, Low); }
    TierNames(m, site, catalog, Low);
    TierNames(m, site, catalog, High);
    NamesOf(catalog);
    assert |p.rules| == 3;
    assert AcceptedRule(m, p.rules[0], blank);
    assert AcceptedRule(m, p.rules[1], blank);
    assert AcceptedRule(m, p.rules[2], blank) <==> HasTier(catalog, High);
  }
}
