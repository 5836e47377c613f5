/** The composite keys of the store as the text they really are. `Lifecycle` keeps a notice's key as a triple and asks
    the configuration for the idempotency key; here is when the text tells two of them apart. */
module Keys {
  import opened Lifecycle

  predicate NameChar(c: char) { 'a' <= c <= 'z' || '0' <= c <= '9' || c == '-' }

  /** ^[a-z][a-z0-9-]{0,39}$ */
  predicate ValidName(s: string) {
    1 <= |s| <= 40 && 'a' <= s[0] <= 'z' && forall i :: 0 <= i < |s| ==> NameChar(s[i])
  }

  function KindText(k: NoticeKind): string {
    match k
    case Expiring => "expiring"
    case Late => "late"
    case ReadyNotice => "ready"
    case FailedNotice => "failed"
    case DeletedNotice => "deleted"
    case CleanupFailed => "cleanup-failed"
  }

  function NoticeText(kind: NoticeKind, env: string, op: string): string {
    KindText(kind) + ":" + env + ":" + op
  }

  lemma FirstColon(a: string, b: string, x: string, y: string)
    requires ':' !in a && ':' !in b && a + ":" + x == b + ":" + y
    ensures a == b && x == y
  {
    var s := a + ":" + x;
    assert s[|a|] == ':' && s[|b|] == ':';
    forall i | 0 <= i < |a| ensures s[i] != ':' { assert s[i] == a[i]; }
    forall i | 0 <= i < |b| ensures s[i] != ':' { assert s[i] == b[i]; }
    assert |a| == |b|;
    assert a == s[..|a|] == b;
    assert x == s[|a| + 1..] == y;
  }

  lemma KindTextsDiffer(a: NoticeKind, b: NoticeKind)
    ensures ':' !in KindText(a)
    ensures KindText(a) == KindText(b) ==> a == b
  {
    if KindText(a) == KindText(b) {
      assert |KindText(a)| == |KindText(b)|;
      assert KindText(a)[0] == KindText(b)[0];
    }
  }

  /** kind:environment:operation determines its three parts, because neither a kind nor a valid environment
      name has a colon. */
  lemma NoticeTextInjective(k1: NoticeKind, e1: string, o1: string, k2: NoticeKind, e2: string, o2: string)
    requires ValidName(e1) && ValidName(e2)
    requires NoticeText(k1, e1, o1) == NoticeText(k2, e2, o2)
    ensures k1 == k2 && e1 == e2 && o1 == o2
  {
    KindTextsDiffer(k1, k2);
    KindTextsDiffer(k2, k1);
    assert NoticeText(k1, e1, o1) == KindText(k1) + ":" + (e1 + ":" + o1);
    assert NoticeText(k2, e2, o2) == KindText(k2) + ":" + (e2 + ":" + o2);
    FirstColon(KindText(k1), KindText(k2), e1 + ":" + o1, e2 + ":" + o2);
    FirstColon(e1, e2, o1, o2);
  }

  const MARK := ":create:"

  function IdempotencyText(subject: string, key: string): string {
    subject + MARK + key
  }

  /** One subject's key text can be read as another's: either the longer subject swallows the whole mark, or its own
      ":create" overlaps the mark by one colon. */
  predicate Confusable(s1: string, k1: string, s2: string, k2: string) {
    || (|s1| + 8 <= |s2| && s2[..|s1| + 8] == s1 + MARK && k1 == s2[|s1| + 8..] + MARK + k2)
    || (s2 == s1 + ":create" && k1 == "create:" + k2)
  }

  lemma Swallowed(s1: string, k1: string, s2: string, k2: string)
    requires |s1| + 8 <= |s2|
    ensures IdempotencyText(s1, k1) == IdempotencyText(s2, k2)
       <==> s2[..|s1| + 8] == s1 + MARK && k1 == s2[|s1| + 8..] + MARK + k2
  {
    var n := |s1| + 8;
    var a, b := IdempotencyText(s1, k1), IdempotencyText(s2, k2);
    assert a[..n] == s1 + MARK && a[n..] == k1;
    assert b[..n] == s2[..n] && b[n..] == s2[n..] + MARK + k2;
    assert a == a[..n] + a[n..] && b == b[..n] + b[n..];
  }

  lemma Overlapping(s1: string, k1: string, s2: string, k2: string)
    requires |s1| < |s2| < |s1| + 8
    ensures IdempotencyText(s1, k1) == IdempotencyText(s2, k2) <==> s2 == s1 + ":create" && k1 == "create:" + k2
  {
    var n := |s1|;
    var a, b := IdempotencyText(s1, k1), IdempotencyText(s2, k2);
    assert MARK[0] == ':' && MARK[1] == 'c' && MARK[2] == 'r' && MARK[3] == 'e' && MARK[4] == 'a' && MARK[5] == 't'
        && MARK[6] == 'e' && MARK[7] == ':';
    if a == b {
      assert b[|s2|] == ':' && a[|s2|] == MARK[|s2| - n];
      assert |s2| == n + 7;
      assert s2 == b[..n + 7] == a[..n + 7] == s1 + ":create";
      assert k1 == a[n + 8..] == b[n + 8..] == "create:" + k2;
    }
    if s2 == s1 + ":create" && k1 == "create:" + k2 {
      assert a == s1 + ":create:" + "create:" + k2;
      assert b == s1 + ":create" + ":create:" + k2;
      assert ":create:" + "create:" == ":create" + ":create:";
    }
  }

  /** Exactly when two callers' idempotency keys are the same text. */
  lemma IdempotencyTextCollides(s1: string, k1: string, s2: string, k2: string)
    ensures IdempotencyText(s1, k1) == IdempotencyText(s2, k2)
       <==> (s1 == s2 && k1 == k2) || Confusable(s1, k1, s2, k2) || Confusable(s2, k2, s1, k1)
  {
    if |s1| == |s2| {
      assert IdempotencyText(s1, k1)[..|s1|] == s1 && IdempotencyText(s2, k2)[..|s1|] == s2;
      assert IdempotencyText(s1, k1)[|s1| + 8..] == k1 && IdempotencyText(s2, k2)[|s1| + 8..] == k2;
    } else if |s1| < |s2| {
      if |s1| + 8 <= |s2| { Swallowed(s1, k1, s2, k2); } else { Overlapping(s1, k1, s2, k2); }
    } else {
      if |s2| + 8 <= |s1| { Swallowed(s2, k2, s1, k1); } else { Overlapping(s2, k2, s1, k1); }
    }
  }

  /** Subjects free of colons never share a key. */
  lemma ColonFreeSubjectsAreSafe(s1: string, k1: string, s2: string, k2: string)
    requires ':' !in s1 && ':' !in s2 && IdempotencyText(s1, k1) == IdempotencyText(s2, k2)
    ensures s1 == s2 && k1 == k2
  {
    assert IdempotencyText(s1, k1) == s1 + ":" + ("create:" + k1);
    assert IdempotencyText(s2, k2) == s2 + ":" + ("create:" + k2);
    FirstColon(s1, s2, "create:" + k1, "create:" + k2);
    assert ("create:" + k1)[7..] == k1 && ("create:" + k2)[7..] == k2;
  }

  /** It is not enough that no subject contains the whole mark. */
  lemma WithoutTheMarkIsNotEnough()
    ensures IdempotencyText("a", "create:k") == IdempotencyText("a:create", "k")
    ensures |"a:create"| == |MARK| && "a:create" != MARK
  {
    Overlapping("a", "create:k", "a:create", "k");
    assert "a:create"[0] == 'a';
  }
}
