/** Session limits under the compiled policy: what the sort over the catalog picks as a tier's cap, how long a grant
    may last for every catalog and request, and exactly when that respects the limits of the roles asked for. */
module PolicyLimits {
  import opened Basics
  import opened Policy
  import opened PolicyTime
  import opened PolicyRender

  // ---------------------------------------------------------------- the sort

  predicate ByHours(s: seq<Ttl>) {
    forall i, j :: 0 <= i < j < |s| ==> ToHours(s[i]) <= ToHours(s[j])
  }

  lemma {:induction false} InsertAdds(t: Ttl, s: seq<Ttl>)
    ensures multiset(Insert(t, s)) == multiset{t} + multiset(s)
  {
    if s != [] && ToHours(t) > ToHours(s[0]) {
      InsertAdds(t, s[1..]);
      assert s == [s[0]] + s[1..];
    }
  }

  lemma {:induction false} InsertSorts(t: Ttl, s: seq<Ttl>)
    requires ByHours(s)
    ensures ByHours(Insert(t, s))
  {
    if s != [] && ToHours(t) > ToHours(s[0]) {
      var rest := Insert(t, s[1..]);
      InsertSorts(t, s[1..]);
      InsertAdds(t, s[1..]);
      forall i | 0 <= i < |rest| ensures ToHours(s[0]) <= ToHours(rest[i]) {
        assert rest[i] in multiset(rest);
        assert rest[i] == t || rest[i] in s[1..];
      }
    }
  }

  lemma {:induction false} SortSorts(ts: seq<Ttl>)
    ensures ByHours(Sort(ts)) && multiset(Sort(ts)) == multiset(ts)
  {
    if ts != [] {
      SortSorts(ts[1..]);
      InsertSorts(ts[0], Sort(ts[1..]));
      InsertAdds(ts[0], Sort(ts[1..]));
      assert ts == [ts[0]] + ts[1..];
    }
  }

  /** The first role, in catalog order, of those whose limit ranks lowest. */
  function First(roles: seq<CatalogRole>): CatalogRole
    requires roles != []
  {
    if |roles| == 1 then roles[0]
    else
      var later := First(roles[1..]);
      if ToHours(roles[0].maxSessionTtl) <= ToHours(later.maxSessionTtl) then roles[0] else later
  }

  /** Because the sort is stable, its first element is that role's limit. */
  lemma {:induction false} SortPicksFirst(roles: seq<CatalogRole>)
    requires roles != []
    ensures MinTtl(roles) == First(roles).maxSessionTtl
  {
    var ts := Ttls(roles);
    assert ts[1..] == Ttls(roles[1..]);
    if |roles| == 1 {
      assert Sort(ts[1..]) == [];
    } else {
      SortPicksFirst(roles[1..]);
      assert Sort(ts[1..]) != [] by { assert Ttls(roles[1..]) != []; }
    }
  }

  predicate Ranks(roles: seq<CatalogRole>, i: nat)
    requires i < |roles|
  {
    && (forall c :: c in roles ==> ToHours(roles[i].maxSessionTtl) <= ToHours(c.maxSessionTtl))
    && (forall j :: 0 <= j < i ==> ToHours(roles[i].maxSessionTtl) < ToHours(roles[j].maxSessionTtl))
  }

  lemma {:induction false} FirstRanks(roles: seq<CatalogRole>) returns (i: nat)
    requires roles != []
    ensures i < |roles| && roles[i] == First(roles) && Ranks(roles, i)
  {
    if |roles| == 1 {
      i := 0;
    } else {
      var k := FirstRanks(roles[1..]);
      i := if ToHours(roles[0].maxSessionTtl) <= ToHours(First(roles[1..]).maxSessionTtl) then 0 else k + 1;
      assert roles == [roles[0]] + roles[1..];
      assert forall j :: 0 < j < |roles| ==> roles[j] == roles[1..][j - 1];
    }
  }

  // ---------------------------------------------------------------- the cap of a tier

  /** The engine can read every limit of the tier. */
  predicate TierParses(site: Site, catalog: seq<CatalogRole>, tier: Tier) {
    forall c :: c in catalog && c.tier == tier ==> Nanoseconds(site, c.maxSessionTtl).Some?
  }

  function Limit(site: Site, c: CatalogRole): Duration
    requires Nanoseconds(site, c.maxSessionTtl).Some?
  {
    Nanoseconds(site, c.maxSessionTtl).value
  }

  lemma PlainLimitsFollowHours(site: Site, a: CatalogRole, b: CatalogRole)
    requires !a.maxSessionTtl.Written? && !b.maxSessionTtl.Written?
    requires Nanoseconds(site, a.maxSessionTtl).Some? && Nanoseconds(site, b.maxSessionTtl).Some?
    requires ToHours(a.maxSessionTtl) <= ToHours(b.maxSessionTtl)
    ensures Limit(site, a) <= Limit(site, b)
  {
    assert Limit(site, a) as real == ToHours(a.maxSessionTtl) * (HOUR as real);
    assert Limit(site, b) as real == ToHours(b.maxSessionTtl) * (HOUR as real);
  }

  predicate PlainBelow99(c: CatalogRole) { !c.maxSessionTtl.Written? && ToHours(c.maxSessionTtl) < 99.0 }

  /** The first role, in catalog order, that ranks at 99 hours: its limit is written out, or is 99 hours. */
  function FirstAt99(roles: seq<CatalogRole>): Option<CatalogRole> {
    if roles == [] then None
    else if ToHours(roles[0].maxSessionTtl) == 99.0 then Some(roles[0])
    else FirstAt99(roles[1..])
  }

  lemma {:induction false} FirstAt99Is(roles: seq<CatalogRole>, i: nat)
    requires i < |roles| && ToHours(roles[i].maxSessionTtl) == 99.0
    requires forall j :: 0 <= j < i ==> ToHours(roles[j].maxSessionTtl) != 99.0
    ensures FirstAt99(roles) == Some(roles[i])
  {
    if i > 0 { FirstAt99Is(roles[1..], i - 1); }
  }

  lemma {:induction false} NoneAt99(roles: seq<CatalogRole>)
    ensures FirstAt99(roles).None? <==> forall c :: c in roles ==> ToHours(c.maxSessionTtl) != 99.0
    ensures FirstAt99(roles).Some? ==> FirstAt99(roles).value in roles
  {
    if roles != [] {
      NoneAt99(roles[1..]);
      assert roles == [roles[0]] + roles[1..];
    }
  }

  /** With a plain limit below 99 hours: no limit written out is shorter than every plain one. Without: if some limit
      is written out or is 99 hours, the first such in the catalog is as short as any. Otherwise nothing. */
  predicate WrittenLimitsAreNotShorter(site: Site, catalog: seq<CatalogRole>, tier: Tier)
    requires TierParses(site, catalog, tier)
  {
    if exists c :: c in catalog && c.tier == tier && PlainBelow99(c) then
      forall w :: w in catalog && w.tier == tier && w.maxSessionTtl.Written? ==>
        exists d :: d in catalog && d.tier == tier && !d.maxSessionTtl.Written? && Limit(site, d) <= Limit(site, w)
    else
      var at := FirstAt99(OfTier(catalog, tier));
      at.None? || forall c :: c in catalog && c.tier == tier ==>
        Nanoseconds(site, at.value.maxSessionTtl).Some? && Limit(site, at.value) <= Limit(site, c)
  }

  /** Over all limits the engine can read: the cap of a tier is at most every role's limit if and only if no limit
      written out undercuts the plain ones. */
  lemma CapIsTheShortestIff(site: Site, catalog: seq<CatalogRole>, tier: Tier)
    requires HasTier(catalog, tier) && TierParses(site, catalog, tier)
    ensures Cap(site, catalog, tier).Some?
    ensures (forall c :: c in catalog && c.tier == tier ==> Cap(site, catalog, tier).value <= Limit(site, c))
       <==> WrittenLimitsAreNotShorter(site, catalog, tier)
  {
    var roles := OfTier(catalog, tier);
    TierMembers(catalog, tier);
    SortPicksFirst(roles);
    var i := FirstRanks(roles);
    var f := roles[i];
    assert f in roles && Cap(site, catalog, tier) == Some(Limit(site, f));
    NoneAt99(roles);
    if exists c :: c in catalog && c.tier == tier && PlainBelow99(c) {
      var low :| low in catalog && low.tier == tier && PlainBelow99(low);
      assert low in roles && !f.maxSessionTtl.Written?;
      forall c | c in roles && !c.maxSessionTtl.Written?
        ensures Limit(site, f) <= Limit(site, c)
      {
        PlainLimitsFollowHours(site, f, c);
      }
    } else if FirstAt99(roles).Some? {
      assert ToHours(f.maxSessionTtl) == 99.0;
      FirstAt99Is(roles, i);
    } else {
      forall c | c in roles ensures Limit(site, f) <= Limit(site, c) {
        assert ToHours(c.maxSessionTtl) != 99.0 && ToHours(f.maxSessionTtl) != 99.0;
        PlainLimitsFollowHours(site, f, c);
      }
    }
  }

  /** A number of hours or minutes, positive and short enough to parse. */
  predicate SoundTtls(site: Site, catalog: seq<CatalogRole>) {
    forall c :: c in catalog ==> SoundTtl(site, c.maxSessionTtl)
  }

  predicate SoundTtl(site: Site, t: Ttl) {
    !t.Written? && Nanoseconds(site, t).Some? && Nanoseconds(site, t).value > 0
  }

  /** Of well-formed limits the cap is the shortest. */
  lemma CapIsTheShortest(site: Site, catalog: seq<CatalogRole>, tier: Tier)
    requires SoundTtls(site, catalog)
    ensures Cap(site, catalog, tier).Some? && Cap(site, catalog, tier).value > 0
    ensures forall c :: c in catalog && c.tier == tier ==> Cap(site, catalog, tier).value <= Limit(site, c)
    ensures if HasTier(catalog, tier)
            then exists c :: c in catalog && c.tier == tier && Cap(site, catalog, tier).value == Limit(site, c)
            else Cap(site, catalog, tier).value == 2 * HOUR
  {
    if HasTier(catalog, tier) {
      var roles := OfTier(catalog, tier);
      TierMembers(catalog, tier);
      SortPicksFirst(roles);
      var i := FirstRanks(roles);
      assert roles[i] in roles;
      forall c | c in roles
        ensures Limit(site, roles[i]) <= Limit(site, c)
      {
        PlainLimitsFollowHours(site, roles[i], c);
      }
    } else {
      EmptyTierCap(site, catalog, tier);
    }
  }

  // ---------------------------------------------------------------- how long a grant lasts

  /** The time of every request that is not turned away, for every catalog: that of the rule it meets, or eight hours,
      and never more than was asked for. A cap that is not positive is none. */
  lemma GrantedTimeExactly(m: Matcher, site: Site, catalog: seq<CatalogRole>, q: Request)
    requires PlainNames(m, site, catalog) && Render(site, catalog).Some? && AllRequestable(m, site, catalog, q.roles)
    ensures Evaluate(m, Render(site, catalog).value, q).ttlCap
      == (if MeetsLowRule(site, catalog, q) then Lower(Lower(8 * HOUR, Cap(site, catalog, Low).value), q.ttl)
          else if AllOfTier(catalog, High, q.roles) then Lower(Lower(8 * HOUR, Cap(site, catalog, High).value), q.ttl)
          else Lower(8 * HOUR, q.ttl))
  {
    var p := Render(site, catalog).value;
    TimeGranted(m, p, q);
    FirstNeedingNeeds(m, p, q, q.roles);
    RuleTaken(m, site, catalog, q);
    forall r | r in q.roles
      ensures Allowed(m, p, r)
      ensures MeetsLowRule(site, catalog, q) ==> !NeedsApproval(m, p, q, r)
    {
      AllowedNames(m, site, catalog, r);
      RuleTaken(m, site, catalog, Alone(q, r));
    }
  }

  predicate DistinctNames(catalog: seq<CatalogRole>) {
    forall c, d :: c in catalog && d in catalog && c.name == d.name ==> c == d
  }

  /** The time is at most the limit of every requested role. */
  predicate WithinLimits(site: Site, catalog: seq<CatalogRole>, roles: seq<Role>, time: Duration)
    requires SoundTtls(site, catalog)
  {
    forall c :: c in catalog && c.name in roles ==> time <= Limit(site, c)
  }

  /** Exactly when a grant respects the limit of every role asked for, over all catalogs with well-formed limits
      and all requests that are not turned away. With a low tier: the request is for the low tier and within its
      cap, or for the high tier alone, or the general eight hours, or what it asks for if that is less, happen to
      be within each limit. Without a low tier: it asks for more than two hours, or two hours, or what it asks
      for, are within each limit. */
  lemma GrantedTimeWithinLimitsIff(m: Matcher, site: Site, catalog: seq<CatalogRole>, q: Request)
    requires PlainNames(m, site, catalog) && SoundTtls(site, catalog) && DistinctNames(catalog)
    requires Render(site, catalog).Some? && AllRequestable(m, site, catalog, q.roles)
    ensures WithinLimits(site, catalog, q.roles, Evaluate(m, Render(site, catalog).value, q).ttlCap) <==>
      if HasTier(catalog, Low)
      then || (AllOfTier(catalog, Low, q.roles) && q.ttl <= Cap(site, catalog, Low).value)
           || AllOfTier(catalog, High, q.roles)
           || WithinLimits(site, catalog, q.roles, Lower(8 * HOUR, q.ttl))
      else q.ttl > 2 * HOUR || WithinLimits(site, catalog, q.roles, Lower(2 * HOUR, q.ttl))
  {
    hide Evaluate, Render;
    CapIsTheShortest(site, catalog, Low);
    CapIsTheShortest(site, catalog, High);
    GrantedTimeExactly(m, site, catalog, q);
    if HasTier(catalog, Low) {
      OneTierOnly(site, catalog, q.roles, Low, Lower(Lower(8 * HOUR, Cap(site, catalog, Low).value), q.ttl));
      OneTierOnly(site, catalog, q.roles, High, Lower(Lower(8 * HOUR, Cap(site, catalog, High).value), q.ttl));
      TiersApart(catalog, q.roles);
    } else if q.ttl > 2 * HOUR {
      forall c | c in catalog && c.name in q.roles ensures AllOfTier(catalog, High, q.roles) {
        forall r | r in q.roles ensures InTier(catalog, High, r) { var d :| d in catalog && d.name == r; }
      }
      OneTierOnly(site, catalog, q.roles, High, Lower(Lower(8 * HOUR, Cap(site, catalog, High).value), q.ttl));
    }
  }

  lemma OneTierOnly(site: Site, catalog: seq<CatalogRole>, roles: seq<Role>, tier: Tier, time: Duration)
    requires SoundTtls(site, catalog) && DistinctNames(catalog) && Cap(site, catalog, tier).Some?
    requires forall c :: c in catalog && c.tier == tier ==> Cap(site, catalog, tier).value <= Limit(site, c)
    requires time <= Cap(site, catalog, tier).value
    ensures AllOfTier(catalog, tier, roles) ==> WithinLimits(site, catalog, roles, time)
  {
    forall c | c in catalog && c.name in roles && InTier(catalog, tier, c.name) ensures time <= Limit(site, c) {
      var d :| d in catalog && d.tier == tier && d.name == c.name;
      assert c == d;
    }
  }

  lemma TiersApart(catalog: seq<CatalogRole>, roles: seq<Role>)
    requires DistinctNames(catalog)
    ensures !(AllOfTier(catalog, Low, roles) && AllOfTier(catalog, High, roles))
  {
    if roles != [] { assert roles[0] in roles; }
  }

  // ---------------------------------------------------------------- how a limit is exceeded

  /** A request that mixes the tiers waits for approval with the general limit of eight hours,
      whatever its roles allow. */
  lemma MixedTiersKeepTheGeneralLimit(m: Matcher, site: Site, catalog: seq<CatalogRole>, low: CatalogRole,
                                      high: CatalogRole, traits: Traits)
    requires PlainNames(m, site, catalog) && Render(site, catalog).Some? && DistinctNames(catalog)
    requires low in catalog && low.tier == Low && high in catalog && high.tier == High
    ensures Evaluate(m, Render(site, catalog).value, Request([low.name, high.name], [], traits, 0)).action
        == RequireApproval
    ensures Evaluate(m, Render(site, catalog).value, Request([low.name, high.name], [], traits, 0)).ttlCap == 8 * HOUR
  {
    hide Evaluate, Render;
    var q := Request([low.name, high.name], [], traits, 0);
    assert q.roles[0] in q.roles && q.roles[1] in q.roles;
    assert !InTier(catalog, High, low.name) && !InTier(catalog, Low, high.name);
    DeniedIffOutsideTheCatalog(m, site, catalog, q);
    ApprovedIffLowTier(m, site, catalog, q);
    GrantedTimeExactly(m, site, catalog, q);
  }

  /** A request for one low role that asks for longer than the tier's cap waits for approval with all it asks for, up
      to eight hours, however short the role's limit is. */
  lemma LongLowRequestsKeepWhatTheyAsk(m: Matcher, site: Site, catalog: seq<CatalogRole>, low: CatalogRole,
                                       ttl: Duration, traits: Traits)
    requires PlainNames(m, site, catalog) && Render(site, catalog).Some? && DistinctNames(catalog)
    requires low in catalog && low.tier == Low && 0 < Cap(site, catalog, Low).value < ttl <= 8 * HOUR
    ensures Evaluate(m, Render(site, catalog).value, Request([low.name], [], traits, ttl)).action == RequireApproval
    ensures Evaluate(m, Render(site, catalog).value, Request([low.name], [], traits, ttl)).ttlCap == ttl
  {
    hide Evaluate, Render;
    var q := Request([low.name], [], traits, ttl);
    assert q.roles[0] in q.roles && !InTier(catalog, High, low.name);
    DeniedIffOutsideTheCatalog(m, site, catalog, q);
    ApprovedIffLowTier(m, site, catalog, q);
    GrantedTimeExactly(m, site, catalog, q);
  }

  /** Without a low tier a high role asked for alone is approved automatically for two hours, however
      short its limit is. */
  lemma NoLowTierGrantsTwoHours(m: Matcher, site: Site, catalog: seq<CatalogRole>, high: CatalogRole, traits: Traits)
    requires PlainNames(m, site, catalog) && Render(site, catalog).Some? && !HasTier(catalog, Low) && high in catalog
    ensures Evaluate(m, Render(site, catalog).value, Request([high.name], [], traits, 0)).action == AutoApprove
    ensures Evaluate(m, Render(site, catalog).value, Request([high.name], [], traits, 0)).ttlCap == 2 * HOUR
  {
    hide Evaluate, Render;
    var q := Request([high.name], [], traits, 0);
    EmptyTierCap(site, catalog, Low);
    assert q.roles[0] in q.roles;
    ApprovedWithoutLowTier(m, site, catalog, q);
    GrantedTimeExactly(m, site, catalog, q);
  }

  /** A limit the engine understands but the sort does not, such as one hour and a half written out, is ranked
      above every plain one below 99 hours: under a policy that loads, the role is approved automatically for
      longer than its limit. */
  lemma CompoundLimitsAreRankedLast(m: Matcher, site: Site, blank: Label, a: Role, b: Role, h: Role, text: Label,
                                    n: nat, traits: Traits)
    requires site.parse(text).Some? && 0 < site.parse(text).value < n * HOUR && n <= 8
    requires PlainNames(m, site, Compound(a, b, h, text, n)) && SoundSite(m, site, blank)
    ensures Render(site, Compound(a, b, h, text, n)).Some?
    ensures Accepted(m, Render(site, Compound(a, b, h, text, n)).value, blank)
    ensures !WrittenLimitsAreNotShorter(site, Compound(a, b, h, text, n), Low)
    ensures Evaluate(m, Render(site, Compound(a, b, h, text, n)).value, Request([a], [], traits, 0)).action
        == AutoApprove
    ensures Evaluate(m, Render(site, Compound(a, b, h, text, n)).value, Request([a], [], traits, 0)).ttlCap
        == n * HOUR > site.parse(text).value
  {
    hide Evaluate, Accepted;
    var catalog := Compound(a, b, h, text, n);
    var q := Request([a], [], traits, 0);
    CompoundCaps(site, a, b, h, text, n);
    assert catalog[0] in catalog && catalog[1] in catalog && catalog[2] in catalog;
    assert PlainBelow99(catalog[1]);
    assert catalog[0].maxSessionTtl.Written?;
    assert InTier(catalog, Low, a) && q.roles[0] in q.roles;
    AcceptedIffHighTier(m, site, catalog, blank);
    ApprovedIffLowTier(m, site, catalog, q);
    GrantedTimeExactly(m, site, catalog, q);
  }

  function Compound(a: Role, b: Role, h: Role, text: Label, n: nat): seq<CatalogRole> {
    [CatalogRole(a, Low, Written(text)), CatalogRole(b, Low, Hours(n)), CatalogRole(h, High, Hours(1))]
  }

  lemma CompoundCaps(site: Site, a: Role, b: Role, h: Role, text: Label, n: nat)
    requires site.parse(text).Some? && n <= 8
    ensures Cap(site, Compound(a, b, h, text, n), Low) == Some(n * HOUR)
    ensures Cap(site, Compound(a, b, h, text, n), High) == Some(HOUR)
    ensures TierParses(site, Compound(a, b, h, text, n), Low)
  {
    var x, y, z := CatalogRole(a, Low, Written(text)), CatalogRole(b, Low, Hours(n)), CatalogRole(h, High, Hours(1));
    assert [x, y, z][1..] == [y, z] && [y, z][1..] == [z] && [z][1..] == [];
    assert OfTier([z], Low) == [] && OfTier([z], High) == [z];
    assert OfTier([y, z], Low) == [y] && OfTier([y, z], High) == [z];
    assert OfTier([x, y, z], Low) == [x, y] && OfTier([x, y, z], High) == [z];
    SortPicksFirst([x, y]);
    SortPicksFirst([z]);
    assert [x, y][1..] == [y];
  }
}
