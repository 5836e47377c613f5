/** The writer that turns a script's output into phase callbacks (phaseWriter in internal/platform/runner.go).
    A byte is a char. */
module PhaseWriter {
  import opened Basics

  const PREFIX := "DOGFOOD_PHASE="
  const PHASES := {"cluster-ready", "platform-ready", "application-ready"}

  // ---------------------------------------------------------------- what a stream says

  function LineEnd(s: string): (i: nat)
    ensures i <= |s| && '\n' !in s[..i] && (i < |s| ==> s[i] == '\n')
  {
    if |s| == 0 || s[0] == '\n' then 0 else LineEnd(s[1..]) + 1
  }

  /** The complete lines of a stream. */
  function Lines(s: string): seq<string>
    decreases |s|
  {
    if LineEnd(s) == |s| then [] else [s[..LineEnd(s)]] + Lines(s[LineEnd(s) + 1..])
  }

  /** What follows the last line. */
  function Tail(s: string): string
    decreases |s|
  {
    if LineEnd(s) == |s| then s else Tail(s[LineEnd(s) + 1..])
  }

  function PhaseOf(line: string): Option<string> {
    if PREFIX <= line && line[|PREFIX|..] in PHASES then Some(line[|PREFIX|..]) else None
  }

  function PhasesOf(lines: seq<string>): seq<string> {
    if lines == [] then []
    else (if PhaseOf(lines[0]).Some? then [PhaseOf(lines[0]).value] else []) + PhasesOf(lines[1..])
  }

  /** The phases on the complete lines of a stream, in order. */
  function Phases(s: string): seq<string> { PhasesOf(Lines(s)) }

  /** A line names a phase exactly when it is the mark followed by one of the three phases. */
  lemma PhaseOfExactly(line: string, phase: string)
    ensures PhaseOf(line) == Some(phase) <==>
        line == "DOGFOOD_PHASE=" + phase && (phase == "cluster-ready" || phase == "platform-ready"
                                             || phase == "application-ready")
  {
    if PREFIX <= line { assert line == PREFIX + line[|PREFIX|..]; }
    if line == PREFIX + phase { assert line[|PREFIX|..] == phase; }
  }

  function Joined(lines: seq<string>): string {
    if lines == [] then "" else lines[0] + "\n" + Joined(lines[1..])
  }

  /** Lines and tail are the stream cut at every line end. */
  lemma {:induction false} LinesRebuild(s: string)
    ensures Joined(Lines(s)) + Tail(s) == s
    ensures (forall l :: l in Lines(s) ==> '\n' !in l) && '\n' !in Tail(s)
    decreases |s|
  {
    hide Lines, Tail, LineEnd;
    var i := LineEnd(s);
    if i < |s| {
      FirstOfLines(s);
      LinesRebuild(s[i + 1..]);
      OneMore(s[..i], Lines(s[i + 1..]));
      assert s == s[..i] + "\n" + s[i + 1..];
    } else {
      OnlyTail(s);
      assert s[..i] == s && Joined([]) + s == s;
    }
  }

  lemma OnlyTail(s: string)
    requires LineEnd(s) == |s|
    ensures Lines(s) == [] && Tail(s) == s
  {
    hide LineEnd;
  }

  lemma OneMore(line: string, rest: seq<string>)
    ensures Joined([line] + rest) == line + "\n" + Joined(rest)
  {
    assert ([line] + rest)[1..] == rest;
  }

  // ---------------------------------------------------------------- the writer

  /** `delivered` is every phase passed to the callback; `fails` says, of the deliveries so far, whether the
      last one is refused. */
  datatype State = State(pending: string, delivered: seq<string>, failed: bool)

  function Feed(pending: string, delivered: seq<string>, fails: seq<string> -> bool): State
    decreases |pending|
  {
    var i := LineEnd(pending);
    if i == |pending| then State(pending, delivered, false)
    else
      var phase := PhaseOf(pending[..i]);
      if phase.None? then Feed(pending[i + 1..], delivered, fails)
      else if fails(delivered + [phase.value]) then State(pending[i + 1..], delivered + [phase.value], true)
      else Feed(pending[i + 1..], delivered + [phase.value], fails)
  }

  class Writer {
    const fails: seq<string> -> bool
    var pending: string
    var delivered: seq<string>

    constructor (fails: seq<string> -> bool)
      ensures this.fails == fails && pending == "" && delivered == []
    {
      this.fails, pending, delivered := fails, "", [];
    }

    method Write(b: string) returns (n: nat, failed: bool)
      modifies this
      ensures n == |b|
      ensures State(pending, delivered, failed) == Feed(old(pending) + b, old(delivered), fails)
    {
      pending := pending + b;
      n := |b|;
      while '\n' in pending
        invariant Feed(pending, delivered, fails) == Feed(old(pending) + b, old(delivered), fails)
        decreases |pending|
      {
        var i := LineEnd(pending);
        var line := pending[..i];
        pending := pending[i + 1..];
        var phase := PhaseOf(line);
        if phase.Some? {
          delivered := delivered + [phase.value];
          if fails(delivered) { return n, true; }
        }
      }
      failed := false;
    }
  }

  // ---------------------------------------------------------------- nothing lost, nothing twice

  /** Empty, or ending with a line. */
  predicate Complete(s: string) { |s| == 0 || s[|s| - 1] == '\n' }

  lemma FirstOfLines(s: string)
    requires LineEnd(s) < |s|
    ensures Lines(s) == [s[..LineEnd(s)]] + Lines(s[LineEnd(s) + 1..]) && Tail(s) == Tail(s[LineEnd(s) + 1..])
  {
    hide LineEnd;
  }

  lemma NoLines()
    ensures Lines("") == [] && Tail("") == ""
  {
  }

  lemma {:induction false} SplitAfterLines(a: string, b: string)
    requires Complete(a)
    ensures Lines(a + b) == Lines(a) + Lines(b) && Tail(a + b) == Tail(b)
    decreases |a|
  {
    hide Lines, Tail, LineEnd;
    if a == "" {
      NoLines();
      assert a + b == b;
    } else {
      var rest := a[LineEnd(a) + 1..];
      FirstLine(a, b);
      FirstOfLines(a);
      FirstOfLines(a + b);
      RestOf(a, b, LineEnd(a) + 1);
      SplitAfterLines(rest, b);
    }
  }

  lemma RestOf(a: string, b: string, n: nat)
    requires Complete(a) && n <= |a|
    ensures Complete(a[n..]) && (a + b)[n..] == a[n..] + b
  {
  }

  lemma {:induction false} LineEndIs(s: string, i: nat)
    requires i <= |s| && (forall k :: 0 <= k < i ==> s[k] != '\n') && (i < |s| ==> s[i] == '\n')
    ensures LineEnd(s) == i
  {
    if i > 0 { LineEndIs(s[1..], i - 1); }
  }

  lemma FirstLine(a: string, b: string)
    requires |a| > 0 && Complete(a)
    ensures LineEnd(a) < |a| && LineEnd(a + b) == LineEnd(a) && (a + b)[..LineEnd(a)] == a[..LineEnd(a)]
  {
    var i := LineEnd(a);
    assert a[|a| - 1] == '\n' && '\n' !in a[..i];
    forall k | 0 <= k < i ensures (a + b)[k] != '\n' { assert (a + b)[k] == a[..i][k]; }
    LineEndIs(a + b, i);
  }

  lemma {:induction false} PhasesOfBoth(a: seq<string>, b: seq<string>)
    ensures PhasesOf(a + b) == PhasesOf(a) + PhasesOf(b)
  {
    if a == [] {
      assert a + b == b;
    } else {
      assert (a + b)[1..] == a[1..] + b;
      PhasesOfBoth(a[1..], b);
    }
  }

  lemma PhasesSplit(a: string, b: string)
    requires Complete(a)
    ensures Phases(a + b) == Phases(a) + Phases(b)
  {
    SplitAfterLines(a, b);
    PhasesOfBoth(Lines(a), Lines(b));
  }

  lemma OneLine(text: string)
    requires '\n' !in text
    ensures Complete(text + "\n") && Phases(text + "\n") == if PhaseOf(text).Some? then [PhaseOf(text).value] else []
  {
    var line := text + "\n";
    LineEndIs(line, |text|);
    assert line[..|text|] == text && line[|text| + 1..] == "";
    assert Lines("") == [];
    assert PhasesOf([text][1..]) == [];
  }

  /** Two consumed pieces in a row. */
  lemma Consumed(line: string, more: string, rest: string)
    requires Complete(line) && Complete(more)
    ensures Complete(line + more) && line + (more + rest) == (line + more) + rest
    ensures Phases(line + more) == Phases(line) + Phases(more)
  {
    PhasesSplit(line, more);
  }

  lemma NothingYet()
    ensures Complete("") && Phases("") == []
  {
    assert Lines("") == [];
  }

  /** One turn of the loop: the line taken off, what it delivered, and whether that was refused. */
  lemma FeedTurn(pending: string, delivered: seq<string>, fails: seq<string> -> bool) returns (line: string,
                 rest: string, d: seq<string>)
    requires LineEnd(pending) < |pending|
    ensures Complete(line) && |line| > 0 && pending == line + rest && d == delivered + Phases(line)
    ensures (Feed(pending, delivered, fails) == State(rest, d, true) && fails(d))
         || Feed(pending, delivered, fails) == Feed(rest, d, fails)
  {
    hide PhaseOf, Phases, Complete;
    var i := LineEnd(pending);
    var text := pending[..i];
    OneLine(text);
    line, rest := text + "\n", pending[i + 1..];
    d := if PhaseOf(text).Some? then delivered + [PhaseOf(text).value] else delivered;
    assert Feed(pending, delivered, fails) == if PhaseOf(text).Some?
        && fails(d) then State(rest, d, true) else Feed(rest, d, fails);
  }

  lemma FeedDone(pending: string, delivered: seq<string>, fails: seq<string> -> bool)
    requires LineEnd(pending) == |pending|
    ensures Feed(pending, delivered, fails) == State(pending, delivered, false)
  {}

  /** A write consumes whole lines, delivers their phases in order, and stops only at a refusal or at
      the unfinished line. */
  lemma {:induction false} FeedConsumesLines(pending: string, delivered: seq<string>, fails: seq<string> -> bool,
                                             s: State)
    returns (used: string)
    requires s == Feed(pending, delivered, fails)
    ensures Complete(used) && pending == used + s.pending
    ensures s.delivered == delivered + Phases(used)
    ensures if s.failed then fails(s.delivered) else LineEnd(s.pending) == |s.pending|
    decreases |pending|
  {
    hide Complete, Feed;
    if LineEnd(pending) == |pending| {
      used := "";
      NothingYet();
      FeedDone(pending, delivered, fails);
    } else {
      var line, rest, d := FeedTurn(pending, delivered, fails);
      if s == State(rest, d, true) && fails(d) {
        used := line;
      } else {
        var more := FeedConsumesLines(rest, d, fails, s);
        used := line + more;
        Consumed(line, more, s.pending);
        assert d + Phases(more) == delivered + (Phases(line) + Phases(more));
      }
    }
  }

  lemma {:induction false} FeedExtends(pending: string, delivered: seq<string>, fails: seq<string> -> bool)
    ensures delivered <= Feed(pending, delivered, fails).delivered
    decreases |pending|
  {
    hide LineEnd, PhaseOf;
    var i := LineEnd(pending);
    if i < |pending| {
      var phase := PhaseOf(pending[..i]);
      FeedExtends(pending[i + 1..], delivered, fails);
      if phase.Some? { FeedExtends(pending[i + 1..], delivered + [phase.value], fails); }
    }
  }

  /** A write stops at the first delivery that is refused, and says so. */
  lemma {:induction false} StopsAtTheFirstRefusal(pending: string, delivered: seq<string>,
                                                  fails: seq<string> -> bool, k: nat)
    requires |delivered| < k <= |Feed(pending, delivered, fails).delivered|
    requires fails(Feed(pending, delivered, fails).delivered[..k])
    ensures Feed(pending, delivered, fails).failed && k == |Feed(pending, delivered, fails).delivered|
    decreases |pending|
  {
    hide LineEnd, PhaseOf;
    var i := LineEnd(pending);
    if i < |pending| {
      var rest, phase := pending[i + 1..], PhaseOf(pending[..i]);
      if phase.None? {
        StopsAtTheFirstRefusal(rest, delivered, fails, k);
      } else if !fails(delivered + [phase.value]) {
        var d := delivered + [phase.value];
        FeedExtends(rest, d, fails);
        assert Feed(rest, d, fails).delivered[..|d|] == d;
        StopsAtTheFirstRefusal(rest, d, fails, k);
      }
    }
  }

  // ---------------------------------------------------------------- runs

  function Concat(chunks: seq<string>): string {
    if chunks == [] then "" else Concat(chunks[..|chunks| - 1]) + chunks[|chunks| - 1]
  }

  /** The writer after writing the chunks one by one; `failed` is the last write's answer. */
  function Run(chunks: seq<string>, fails: seq<string> -> bool): State {
    if chunks == [] then State("", [], false)
    else
      var before := Run(chunks[..|chunks| - 1], fails);
      Feed(before.pending + chunks[|chunks| - 1], before.delivered, fails)
  }

  /** Whatever the callback refuses on the way, what was delivered and what is still pending make up the stream: no
      phase is lost, repeated or out of order. */
  lemma {:induction false} NothingLost(chunks: seq<string>, fails: seq<string> -> bool, s: State) returns (used: string)
    requires s == Run(chunks, fails)
    ensures Complete(used) && Concat(chunks) == used + s.pending
    ensures s.delivered == Phases(used) && s.delivered + Phases(s.pending) == Phases(Concat(chunks))
    ensures if s.failed then fails(s.delivered) else LineEnd(s.pending) == |s.pending|
  {
    hide Complete, Feed;
    if chunks == [] {
      used := "";
      NothingYet();
    } else {
      var earlier, last := chunks[..|chunks| - 1], chunks[|chunks| - 1];
      var before := Run(earlier, fails);
      var first := NothingLost(earlier, fails, before);
      var next := FeedConsumesLines(before.pending + last, before.delivered, fails, s);
      used := first + next;
      assert Concat(chunks) == first + (before.pending + last);
      Consumed(first, next, s.pending);
    }
    PhasesSplit(used, s.pending);
  }

  /** After a write that succeeds, exactly the phases on the complete lines of the whole stream have been delivered
      and exactly the unfinished line is pending. */
  lemma DeliveredExactly(chunks: seq<string>, fails: seq<string> -> bool)
    requires !Run(chunks, fails).failed
    ensures Run(chunks, fails).delivered == Phases(Concat(chunks))
    ensures Run(chunks, fails).pending == Tail(Concat(chunks))
  {
    var s := Run(chunks, fails);
    var used := NothingLost(chunks, fails, s);
    SplitAfterLines(used, s.pending);
    assert Lines(s.pending) == [] && PhasesOf([]) == [];
  }

  /** How the stream is cut into writes does not matter to a callback that refuses nothing. */
  lemma ChunkingDoesNotMatter(a: seq<string>, b: seq<string>, fails: seq<string> -> bool)
    requires Concat(a) == Concat(b) && forall d :: !fails(d)
    ensures Run(a, fails) == Run(b, fails) == State(Tail(Concat(a)), Phases(Concat(a)), false)
  {
    var _ := NothingLost(a, fails, Run(a, fails));
    var _ := NothingLost(b, fails, Run(b, fails));
    DeliveredExactly(a, fails);
    DeliveredExactly(b, fails);
  }
}
