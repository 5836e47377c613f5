/** The signed identity assertion of internal/teleportaccess/assertion: the stateless checks, the replay memory, and
    how often one signed body can be accepted over a whole run. Times are nanoseconds; claims are unix seconds in
    64-bit integers. */
module Assertion {
  import opened Basics

  const SECOND := 1_000_000_000
  const MAX_LIFETIME := 60 * SECOND
  const MAX_SKEW := 30
  const REPLAY_WINDOW := 300 * SECOND
  const MAX_HEADER := 8192
  const MAX_ENTRIES := 100_000
  const TWO63 := 0x8000_0000_0000_0000

  type Int64 = x: int | -TWO63 <= x < TWO63

  type Name(==, !new)

  datatype Error = BadKey | Missing | Malformed | BadSignature | Audience | Lifetime | Expired | NotYetValid |
      Subject | Replay
  datatype Result<+T> = Ok(value: T) | Err(error: Error)
  datatype Payload = Payload(aud: Name, sub: Name, jti: Name, iat: Int64, exp: Int64)

  /** The verifier's key and audience with what it calls: trimming, the signature check (none when the signature is not
      base64), the decoding of a body, and the tests on subjects and ids. */
  datatype Checks = Checks(keyLongEnough: bool, aud: Name, trim: string -> string, signed: (string, string) -> bool,
                           decode: string -> Option<Payload>, subjectOk: Name -> bool, jtiOk: Name -> bool)

  // ---------------------------------------------------------------- the stateless checks

  /** 64-bit multiplication wraps. */
  function Wrap(x: int): (w: Int64)
    ensures (w - x) % (2 * TWO63) == 0
    ensures -TWO63 <= x < TWO63 ==> w == x
  {
    (x + TWO63) % (2 * TWO63) - TWO63
  }

  /** Whole seconds since the epoch. */
  function Unix(now: int): int { now / SECOND }

  function DotAt(s: string): (i: nat)
    ensures i <= |s| && (i < |s| ==> s[i] == '.') && '.' !in s[..i]
  {
    if s == [] || s[0] == '.' then 0 else DotAt(s[1..]) + 1
  }

  function Body(c: Checks, header: string): string {
    var h := c.trim(header);
    h[..DotAt(h)]
  }

  function CheckClaims(c: Checks, p: Payload, now: int): Result<Payload> {
    if p.aud != c.aud then Err(Audience)
    else if p.iat <= 0 || p.exp <= 0 || p.exp <= p.iat then Err(Malformed)
    else if Wrap((p.exp - p.iat) * SECOND) > MAX_LIFETIME then Err(Lifetime)
    else if Unix(now) > p.exp then Err(Expired)
    else if p.iat > Unix(now) + MAX_SKEW then Err(NotYetValid)
    else if !c.subjectOk(p.sub) then Err(Subject)
    else if !c.jtiOk(p.jti) then Err(Malformed)
    else Ok(p)
  }

  function Verify(c: Checks, header: string, now: int): Result<Payload> {
    var h := c.trim(header);
    var dot := DotAt(h);
    if !c.keyLongEnough then Err(BadKey)
    else if h == "" then Err(Missing)
    else if |h| > MAX_HEADER then Err(Malformed)
    else if dot == |h| || dot == 0 || dot + 1 == |h| || '.' in h[dot + 1..] then Err(Malformed)
    else if !c.signed(h[..dot], h[dot + 1..]) then Err(BadSignature)
    else if c.decode(h[..dot]).None? then Err(Malformed)
    else CheckClaims(c, c.decode(h[..dot]).value, now)
  }

  /** An accepted assertion says what its body says, and lives at most a minute, unless its lifetime is so long that the
      multiplication wraps. */
  lemma AcceptedClaims(c: Checks, header: string, now: int)
    requires Verify(c, header, now).Ok?
    ensures c.decode(Body(c, header)) == Some(Verify(c, header, now).value)
    ensures Unix(now) <= Verify(c, header, now).value.exp && Verify(c, header, now).value.iat <= Unix(now) + MAX_SKEW
    ensures 0 < Verify(c, header, now).value.exp - Verify(c, header, now).value.iat <= 60
         || Verify(c, header, now).value.exp - Verify(c, header, now).value.iat > 9_223_372_036
  {
    var p := Verify(c, header, now).value;
    assert p.exp - p.iat <= 9_223_372_036 ==> Wrap((p.exp - p.iat) * SECOND) == (p.exp - p.iat) * SECOND;
  }

  // ---------------------------------------------------------------- the replay memory

  function Live(seen: map<Name, int>, now: int): map<Name, int> {
    map k | k in seen && now < seen[k] :: seen[k]
  }

  /** The memory after pruning, which happens only when it is full. */
  function Pruned(seen: map<Name, int>, now: int): map<Name, int> {
    if |seen| >= MAX_ENTRIES then Live(seen, now) else seen
  }

  predicate Fits(seen: map<Name, int>, jti: Name, now: int) {
    !(jti in seen && now < seen[jti]) && |Pruned(seen, now)| < MAX_ENTRIES
  }

  function Remember(seen: map<Name, int>, jti: Name, now: int): map<Name, int> {
    if jti in seen && now < seen[jti] then seen
    else if Fits(seen, jti, now) then Pruned(seen, now)[jti := now + REPLAY_WINDOW]
    else Pruned(seen, now)
  }

  lemma MemoryIsBounded(seen: map<Name, int>, jti: Name, now: int)
    requires |seen| <= MAX_ENTRIES
    ensures |Remember(seen, jti, now)| <= MAX_ENTRIES
  {
    if !(jti in seen && now < seen[jti]) {
      assert Live(seen, now).Keys <= seen.Keys;
      SubsetSize(Live(seen, now).Keys, seen.Keys);
      assert |Live(seen, now)| == |Live(seen, now).Keys| && |seen| == |seen.Keys|;
      var kept := Pruned(seen, now);
      if Fits(seen, jti, now) {
        assert kept[jti := now + REPLAY_WINDOW].Keys == kept.Keys + {jti};
        assert |kept[jti := now + REPLAY_WINDOW]| == |kept.Keys + {jti}|;
        assert |kept| == |kept.Keys|;
      }
    }
  }

  // ---------------------------------------------------------------- runs

  datatype Attempt = Attempt(header: string, now: int)

  function Step(c: Checks, seen: map<Name, int>, a: Attempt): map<Name, int> {
    match Verify(c, a.header, a.now)
    case Ok(p) => Remember(seen, p.jti, a.now)
    case Err(_) => seen
  }

  predicate Accepts(c: Checks, seen: map<Name, int>, a: Attempt) {
    Verify(c, a.header, a.now).Ok? && Fits(seen, Verify(c, a.header, a.now).value.jti, a.now)
  }

  /** The memory before attempt k. */
  function Memory(c: Checks, run: seq<Attempt>, k: nat): map<Name, int>
    requires k <= |run|
  {
    if k == 0 then map[] else Step(c, Memory(c, run, k - 1), run[k - 1])
  }

  predicate AcceptedAt(c: Checks, run: seq<Attempt>, k: nat)
    requires k < |run|
  {
    Accepts(c, Memory(c, run, k), run[k])
  }

  predicate ClockNeverBack(run: seq<Attempt>) {
    forall i, j :: 0 <= i < j < |run| ==> run[i].now <= run[j].now
  }

  lemma {:induction false} MemoryStaysBounded(c: Checks, run: seq<Attempt>, k: nat)
    requires k <= |run|
    ensures |Memory(c, run, k)| <= MAX_ENTRIES
  {
    if k > 0 {
      MemoryStaysBounded(c, run, k - 1);
      match Verify(c, run[k - 1].header, run[k - 1].now)
      case Ok(p) => MemoryIsBounded(Memory(c, run, k - 1), p.jti, run[k - 1].now);
      case Err(_) =>
    }
  }

  /** An id accepted at i is remembered until its window has passed, whatever else is accepted or pruned meanwhile. */
  lemma {:induction false} RememberedForTheWindow(c: Checks, run: seq<Attempt>, i: nat, k: nat)
    requires i < k <= |run| && ClockNeverBack(run) && AcceptedAt(c, run, i)
    requires run[k - 1].now < run[i].now + REPLAY_WINDOW
    ensures Verify(c, run[i].header, run[i].now).value.jti in Memory(c, run, k)
    ensures Memory(c, run, k)[Verify(c, run[i].header, run[i].now).value.jti] >= run[i].now + REPLAY_WINDOW
  {
    if k > i + 1 {
      RememberedForTheWindow(c, run, i, k - 1);
    }
  }

  /** A second acceptance of the same body needs a lifetime of at least 270 seconds. */
  lemma SecondAcceptance(c: Checks, run: seq<Attempt>, i: nat, j: nat)
    requires i < j < |run| && ClockNeverBack(run) && AcceptedAt(c, run, i) && AcceptedAt(c, run, j)
    requires Body(c, run[i].header) == Body(c, run[j].header)
    ensures c.decode(Body(c, run[i].header)).Some?
    ensures c.decode(Body(c, run[i].header)).value.exp - c.decode(Body(c, run[i].header)).value.iat >= 270
  {
    AcceptedClaims(c, run[i].header, run[i].now);
    AcceptedClaims(c, run[j].header, run[j].now);
    if run[j].now < run[i].now + REPLAY_WINDOW {
      RememberedForTheWindow(c, run, i, j);
      assert false;
    }
    assert Unix(run[j].now) >= Unix(run[i].now) + 300;
  }

  /** Every signed body whose lifetime does not wrap is accepted at most once in any run, however long. */
  lemma AcceptedAtMostOnce(c: Checks, run: seq<Attempt>, i: nat, j: nat)
    requires i < j < |run| && ClockNeverBack(run) && AcceptedAt(c, run, i)
    requires Body(c, run[i].header) == Body(c, run[j].header)
    requires c.decode(Body(c, run[i].header)).Some?
    requires c.decode(Body(c, run[i].header)).value.exp - c.decode(Body(c, run[i].header)).value.iat <= 9_223_372_036
    ensures !AcceptedAt(c, run, j)
  {
    AcceptedClaims(c, run[i].header, run[i].now);
    if AcceptedAt(c, run, j) {
      SecondAcceptance(c, run, i, j);
      assert false;
    }
  }

  ghost predicate AcceptedTwice(c: Checks, body: string) {
    exists run: seq<Attempt>, i: nat, j: nat {:trigger AcceptedAt(c, run, i), AcceptedAt(c, run, j)} ::
      i < j < |run| && ClockNeverBack(run) && AcceptedAt(c, run, i) && AcceptedAt(c, run, j)
      && Body(c, run[i].header) == Body(c, run[j].header) == body
  }

  /** Exactly which assertions some run accepts twice, among those it can accept at all: the ones that claim
      to live for 270 seconds or more. The lifetime check means to refuse them all and lets through those
      whose product wraps. */
  lemma AcceptedTwiceIff(c: Checks, header: string, now: int)
    requires Verify(c, header, now).Ok?
    ensures AcceptedTwice(c, Body(c, header))
       <==> Verify(c, header, now).value.exp - Verify(c, header, now).value.iat >= 270
  {
    AcceptedClaims(c, header, now);
    if AcceptedTwice(c, Body(c, header)) {
      var run: seq<Attempt>, i: nat, j: nat :|
        i < j < |run| && ClockNeverBack(run) && AcceptedAt(c, run, i) && AcceptedAt(c, run, j)
        && Body(c, run[i].header) == Body(c, run[j].header) == Body(c, header);
      SecondAcceptance(c, run, i, j);
    }
    if Verify(c, header, now).value.exp - Verify(c, header, now).value.iat >= 270 {
      LongLivedTwice(c, header, now);
    }
  }

  lemma LongLivedTwice(c: Checks, header: string, now: int)
    requires Verify(c, header, now).Ok? && Verify(c, header, now).value.exp - Verify(c, header, now).value.iat >= 270
    ensures AcceptedTwice(c, Body(c, header))
  {
    var p := Verify(c, header, now).value;
    var first := (p.iat - MAX_SKEW) * SECOND;
    var run := [Attempt(header, first), Attempt(header, first + REPLAY_WINDOW)];
    assert Unix(first) == p.iat - 30 && Unix(first + REPLAY_WINDOW) == p.iat + 270;
    assert Verify(c, header, first) == Ok(p) && Verify(c, header, first + REPLAY_WINDOW) == Ok(p);
    assert Memory(c, run, 0) == map[] && Memory(c, run, 1) == Step(c, map[], run[0]);
    assert AcceptedAt(c, run, 0);
    assert Memory(c, run, 1) == map[p.jti := first + REPLAY_WINDOW];
    assert AcceptedAt(c, run, 1);
  }

  /** Exactly which claims the checks accept at some time: those for this audience with sound subject and id, issued and
      expiring in that order after the epoch, whose lifetime in nanoseconds is at most a minute once it has wrapped. */
  lemma AcceptedAtSomeTimeIff(c: Checks, p: Payload)
    ensures (exists now :: CheckClaims(c, p, now).Ok?)
       <==>
            && p.aud == c.aud && 0 < p.iat < p.exp && c.subjectOk(p.sub) && c.jtiOk(p.jti)
            && Wrap((p.exp - p.iat) * SECOND) <= MAX_LIFETIME
  {
    hide Wrap;
    assert Unix(p.iat * SECOND) == p.iat;
    assert p.iat < p.exp ==> Unix(p.iat * SECOND) <= p.exp;
    if p.aud == c.aud && 0 < p.iat < p.exp && c.subjectOk(p.sub) && c.jtiOk(p.jti)
        && Wrap((p.exp - p.iat) * SECOND) <= MAX_LIFETIME {
      assert CheckClaims(c, p, p.iat * SECOND).Ok?;
    }
  }

  /** An assertion that claims to live for 584 years passes the check that allows one minute, and can
      be accepted twice. */
  lemma LongLifetimesWrap(c: Checks, sub: Name, jti: Name, header: string)
    requires c.subjectOk(sub) && c.jtiOk(jti)
    ensures CheckClaims(c, Payload(c.aud, sub, jti, 1, 18_446_744_075), 0).Ok?
    ensures Verify(c, header, 0) == Ok(Payload(c.aud, sub, jti, 1, 18_446_744_075)) ==>
        AcceptedTwice(c, Body(c, header))
  {
    assert Wrap(18_446_744_074 * SECOND) <= MAX_LIFETIME;
    if Verify(c, header, 0).Ok? { AcceptedTwiceIff(c, header, 0); }
  }

  // ---------------------------------------------------------------- acceptance, exactly

  /** The trimmed header is a body, a dot and a signature, neither of them empty or with a dot of its own, that the key
      signs. */
  predicate Signs(c: Checks, header: string, body: string, signature: string) {
    && c.keyLongEnough && |c.trim(header)| <= 8192
    && c.trim(header) == body + "." + signature
    && body != "" && signature != "" && '.' !in body && '.' !in signature
    && c.signed(body, signature)
  }

  /** Claims for this audience by a sound subject under a sound id, issued before they expire and after the epoch, for a
      minute as 64 bits count nanoseconds, and in their window. */
  predicate InWindow(c: Checks, p: Payload, now: int) {
    && p.aud == c.aud && c.subjectOk(p.sub) && c.jtiOk(p.jti)
    && 0 < p.iat < p.exp && Wrap((p.exp - p.iat) * 1_000_000_000) <= 60_000_000_000
    && p.iat - 30 <= now / 1_000_000_000 <= p.exp
  }

  lemma {:induction false} DotAtIs(s: string, i: nat)
    requires i < |s| && s[i] == '.' && '.' !in s[..i]
    ensures DotAt(s) == i
  {
    if i > 0 {
      assert s[0] in s[..i] && s[1..][..i - 1] == s[..i][1..];
      DotAtIs(s[1..], i - 1);
    }
  }

  lemma Parts(h: string, body: string, signature: string)
    requires h == body + "." + signature && '.' !in body
    ensures DotAt(h) == |body| < |h| && h[..DotAt(h)] == body && h[DotAt(h) + 1..] == signature
  {
    assert h[..|body|] == body;
    DotAtIs(h, |body|);
  }

  /** The stateless checks pass exactly a header that carries these claims, signed, in their window. */
  lemma VerifiedExactly(c: Checks, header: string, now: int, p: Payload)
    ensures Verify(c, header, now) == Ok(p) <==>
        InWindow(c, p, now) && exists body, signature :: Signs(c, header, body, signature) && c.decode(body) == Some(p)
  {
    var h := c.trim(header);
    var dot := DotAt(h);
    hide Wrap;
    if Verify(c, header, now) == Ok(p) {
      assert h == h[..dot] + "." + h[dot + 1..];
      assert Signs(c, header, h[..dot], h[dot + 1..]);
    } else if InWindow(c, p, now) {
      if body, signature :| Signs(c, header, body, signature) && c.decode(body) == Some(p) {
        Parts(h, body, signature);
      }
    }
  }

  /** A header of that form whose signature is not the key's is refused as such, whatever it claims. */
  lemma ForgedIsRefused(c: Checks, header: string, now: int, body: string, signature: string)
    requires c.keyLongEnough && |c.trim(header)| <= 8192 && c.trim(header) == body + "." + signature
    requires body != "" && signature != "" && '.' !in body && '.' !in signature && !c.signed(body, signature)
    ensures Verify(c, header, now) == Err(BadSignature)
  {
    Parts(c.trim(header), body, signature);
  }

  /** The id that attempt `i` claims. */
  function Claimed(c: Checks, a: Attempt): Option<Name> {
    match Verify(c, a.header, a.now)
    case Ok(p) => Some(p.jti)
    case Err(_) => None
  }

  /** The ids accepted by the first `k` attempts and less than 300 seconds old at `t`. */
  function Recent(c: Checks, run: seq<Attempt>, k: nat, t: int): set<Name>
    requires k <= |run|
  {
    set i | 0 <= i < k && AcceptedAt(c, run, i) && t < run[i].now + 300_000_000_000 && Claimed(c, run[i]).Some?
        :: Claimed(c, run[i]).value
  }

  lemma RememberLive(seen: map<Name, int>, jti: Name, now: int, t: int)
    requires now <= t
    ensures Live(Remember(seen, jti, now), t).Keys
         == Live(seen, t).Keys + (if Fits(seen, jti, now) && t < now + REPLAY_WINDOW then {jti} else {})
  {
    forall k { RememberLiveAt(seen, jti, now, t, k); }
    hide Live, Remember, Fits;
  }

  lemma RememberLiveAt(seen: map<Name, int>, jti: Name, now: int, t: int, k: Name)
    requires now <= t
    ensures k in Live(Remember(seen, jti, now), t)
        <==> k in Live(seen, t) || (k == jti && Fits(seen, jti, now) && t < now + REPLAY_WINDOW)
  {
    PrunedKeepsLive(seen, now, t, k);
    hide Pruned;
  }

  lemma PrunedKeepsLive(seen: map<Name, int>, now: int, t: int, k: Name)
    requires now <= t
    ensures k in Live(Pruned(seen, now), t) <==> k in Live(seen, t)
  {
  }

  lemma StepLive(c: Checks, seen: map<Name, int>, a: Attempt, t: int)
    requires a.now <= t
    ensures Live(Step(c, seen, a), t).Keys
         == Live(seen, t).Keys
             + (if Accepts(c, seen, a) && t < a.now + REPLAY_WINDOW then {Claimed(c, a).value} else {})
  {
    hide Verify, Live, Remember, Fits;
    match Verify(c, a.header, a.now)
    case Ok(p) => RememberLive(seen, p.jti, a.now, t);
    case Err(_) =>
  }

  lemma RecentStep(c: Checks, run: seq<Attempt>, k: nat, t: int)
    requires 0 < k <= |run|
    ensures Recent(c, run, k, t)
         == Recent(c, run, k - 1, t) + (if AcceptedAt(c, run, k - 1) && t < run[k - 1].now + REPLAY_WINDOW
                                        then {Claimed(c, run[k - 1]).value} else {})
  {
    hide Verify, Memory;
    var more := if AcceptedAt(c, run, k - 1) && t < run[k - 1].now + REPLAY_WINDOW
                then {Claimed(c, run[k - 1]).value} else {};
    forall x ensures x in Recent(c, run, k, t) <==> x in Recent(c, run, k - 1, t) + more {
      if x in Recent(c, run, k, t) {
        var i :| 0 <= i < k && AcceptedAt(c, run, i) && t < run[i].now + 300_000_000_000
                 && Claimed(c, run[i]).Some? && Claimed(c, run[i]).value == x;
        if i < k - 1 { assert x in Recent(c, run, k - 1, t); }
      }
    }
  }

  /** At any later time the live part of the memory is those ids. */
  lemma {:induction false} LiveIsRecent(c: Checks, run: seq<Attempt>, k: nat, t: int)
    requires k <= |run| && forall i :: 0 <= i < k ==> run[i].now <= t
    ensures Live(Memory(c, run, k), t).Keys == Recent(c, run, k, t)
  {
    hide Recent, Step, Accepts;
    if k == 0 {
      NothingRecent(c, run, t);
    } else {
      LiveIsRecent(c, run, k - 1, t);
      StepLive(c, Memory(c, run, k - 1), run[k - 1], t);
      RecentStep(c, run, k, t);
    }
  }

  lemma NothingRecent(c: Checks, run: seq<Attempt>, t: int)
    ensures Recent(c, run, 0, t) == {} && Live(map[], t).Keys == {}
  {
  }

  lemma FitsIff(seen: map<Name, int>, jti: Name, now: int)
    ensures Fits(seen, jti, now) <==> jti !in Live(seen, now).Keys && |Live(seen, now).Keys| < 100_000
  {
    assert Live(seen, now).Keys <= seen.Keys;
    SubsetSize(Live(seen, now).Keys, seen.Keys);
    assert |Live(seen, now)| == |Live(seen, now).Keys| && |seen| == |seen.Keys|;
  }

  /** In any run a verifier accepts exactly a header that carries claims in their window, signed by the key, under an id
      that it has not accepted in the last 300 seconds, while it remembers fewer than 100,000 such ids. */
  lemma AcceptedExactly(c: Checks, run: seq<Attempt>, k: nat)
    requires k < |run| && ClockNeverBack(run)
    ensures AcceptedAt(c, run, k) <==>
        |Recent(c, run, k, run[k].now)| < 100_000
        && exists body, signature, p ::
             Signs(c, run[k].header, body, signature) && c.decode(body) == Some(p) && InWindow(c, p, run[k].now)
             && p.jti !in Recent(c, run, k, run[k].now)
  {
    LiveIsRecent(c, run, k, run[k].now);
    var recent := Recent(c, run, k, run[k].now);
    hide Verify, Signs, InWindow, Fits, Recent;
    forall p ensures Verify(c, run[k].header, run[k].now) == Ok(p) <==>
        InWindow(c, p, run[k].now)
        && exists body, signature :: Signs(c, run[k].header, body, signature) && c.decode(body) == Some(p)
    {
      VerifiedExactly(c, run[k].header, run[k].now, p);
    }
    match Verify(c, run[k].header, run[k].now)
    case Ok(p) => FitsIff(Memory(c, run, k), p.jti, run[k].now);
    case Err(_) =>
  }

  // ---------------------------------------------------------------- the verifier

  class Verifier {
    const checks: Checks
    var seen: map<Name, int>

    constructor (checks: Checks)
      ensures this.checks == checks && seen == map[]
    {
      this.checks, seen := checks, map[];
    }

    method Forget(now: int)
      modifies this
      ensures seen == Live(old(seen), now)
    {
      var before := seen;
      var keys := before.Keys;
      while keys != {}
        invariant keys <= before.Keys
        invariant seen == map k | k in before && (k in keys || now < before[k]) :: before[k]
        decreases |keys|
      {
        var k :| k in keys;
        keys := keys - {k};
        if !(now < before[k]) { seen := seen - {k}; }
      }
    }

    method RememberId(jti: Name, now: int) returns (ok: bool)
      modifies this
      ensures ok == Fits(old(seen), jti, now)
      ensures seen == Remember(old(seen), jti, now)
    {
      if jti in seen && now < seen[jti] { return false; }
      if |seen| >= MAX_ENTRIES {
        Forget(now);
        if |seen| >= MAX_ENTRIES { return false; }
      }
      seen := seen[jti := now + REPLAY_WINDOW];
      ok := true;
    }

    method VerifyAt(header: string, now: int) returns (r: Result<Payload>)
      modifies this
      ensures seen == Step(checks, old(seen), Attempt(header, now))
      ensures r.Ok? <==> Accepts(checks, old(seen), Attempt(header, now))
      ensures r == if r.Ok? || Verify(checks, header, now).Err? then Verify(checks, header, now) else Err(Replay)
    {
      r := Verify(checks, header, now);
      if r.Err? { return; }
      var ok := RememberId(r.value.jti, now);
      if !ok { r := Err(Replay); }
    }
  }
}
