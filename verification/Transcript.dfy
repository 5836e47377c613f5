/** The in-memory conversation store of services/access-agent/src/agent/session-store.ts: what its trimming keeps, and
    that trimming at every append keeps what trimming the whole history once would. */
module Transcript {
  type Key(==, !new)
  type Text(==, !new)

  datatype Block = ToolUse(id: Text) | ToolResult(id: Text) | Other(text: Text)
  datatype Content = Plain(text: Text) | Blocks(blocks: seq<Block>)
  datatype Message = Message(fromUser: bool, content: Content)

  /** A turn starts with what the user typed. */
  predicate StartsTurn(m: Message) { m.fromUser && m.content.Plain? }

  // ---------------------------------------------------------------- trimming

  /** The first turn after position k, or the end. */
  function NextTurn(s: seq<Message>, k: nat): (n: nat)
    requires k < |s|
    ensures k < n <= |s| && (n < |s| ==> StartsTurn(s[n])) && forall i :: k < i < n ==> !StartsTurn(s[i])
    decreases |s| - k
  {
    if k + 1 == |s| || StartsTurn(s[k + 1]) then k + 1 else NextTurn(s, k + 1)
  }

  /** Where the kept part starts when everything before k has been dropped already. */
  function Cut(s: seq<Message>, max: nat, k: nat): (c: nat)
    requires k <= |s|
    ensures k <= c <= |s|
    decreases |s| - k
  {
    if |s| - k <= max || NextTurn(s, k) == |s| then k else Cut(s, max, NextTurn(s, k))
  }

  function Trim(s: seq<Message>, max: nat): seq<Message> { s[Cut(s, max, 0)..] }

  class Store {
    const maxTurns: nat
    var data: map<Key, seq<Message>>

    constructor (maxTurns: nat)
      ensures this.maxTurns == maxTurns && data == map[]
    {
      this.maxTurns, data := maxTurns, map[];
    }

    method Get(key: Key) returns (messages: seq<Message>)
      ensures messages == Held(data, key)
    {
      messages := if key in data then data[key] else [];
    }

    method Append(key: Key, messages: seq<Message>)
      modifies this
      ensures data == Apply(old(data), AppendTo(key, messages), maxTurns)
    {
      var cur := if key in data then data[key] else [];
      cur := DropOldest(cur + messages);
      data := data[key := cur];
    }

    method DropOldest(messages: seq<Message>) returns (cur: seq<Message>)
      ensures cur == Trim(messages, maxTurns)
    {
      cur := messages;
      ghost var k := 0;
      while |cur| > maxTurns
        invariant k <= |messages| && cur == messages[k..] && Cut(messages, maxTurns, 0) == Cut(messages, maxTurns, k)
      {
        var firstUser := FirstUserAfterStart(cur);
        NextTurnOfSuffix(messages, k);
        if firstUser <= 0 { break; }
        cur := cur[firstUser..];
        k := k + firstUser;
      }
      assert Cut(messages, maxTurns, 0) == k;
    }

    method Clear(key: Key)
      modifies this
      ensures data == Apply(old(data), ClearOf(key), maxTurns)
    {
      data := data - {key};
    }

    /** The first position after the start where a turn begins; -1 when there is none. */
    method FirstUserAfterStart(s: seq<Message>) returns (i: int)
      ensures i == if |s| > 0 && NextTurn(s, 0) < |s| then NextTurn(s, 0) else -1
    {
      if |s| == 0 { return -1; }
      i := 1;
      while i < |s|
        invariant 1 <= i <= |s| && NextTurn(s, 0) == NextTurn(s, i - 1)
      {
        if StartsTurn(s[i]) { return; }
        i := i + 1;
      }
      i := -1;
    }
  }

  lemma {:induction false} NextTurnOfSuffix(s: seq<Message>, k: nat)
    requires k < |s|
    ensures NextTurn(s[k..], 0) == NextTurn(s, k) - k
  {
    var n, m := NextTurn(s, k), NextTurn(s[k..], 0);
    if m < |s| - k { assert s[k..][m] == s[k + m]; }
    if n < |s| { assert s[k..][n - k] == s[n]; }
  }

  // ---------------------------------------------------------------- what is kept

  /** The whole of s, or the part from something the user typed on. */
  predicate WholeTurns(s: seq<Message>, k: nat) { k == 0 || (k < |s| && s[k].fromUser && s[k].content.Plain?) }

  lemma {:induction false} CutIsTheFirstThatFits(s: seq<Message>, max: nat, k: nat)
    requires k <= |s| && WholeTurns(s, k)
    ensures WholeTurns(s, Cut(s, max, k))
    ensures forall i :: k <= i < Cut(s, max, k) && WholeTurns(s, i) ==> |s| - i > max
    ensures |s| - Cut(s, max, k) > max ==> forall i :: Cut(s, max, k) < i <= |s| ==> !WholeTurns(s, i)
    decreases |s| - k
  {
    if |s| - k > max && NextTurn(s, k) < |s| { CutIsTheFirstThatFits(s, max, NextTurn(s, k)); }
  }

  /** The part from k on is the longest of whole turns that fits or, when not even the last turn fits, that turn. */
  predicate LongestThatFits(s: seq<Message>, max: nat, k: nat) {
    && k <= |s| && WholeTurns(s, k)
    && (forall i :: 0 <= i < k && WholeTurns(s, i) ==> |s| - i > max)
    && (|s| - k <= max || forall i :: k < i <= |s| ==> !WholeTurns(s, i))
  }

  /** That is what trimming keeps, and nothing else is. */
  lemma TrimKeepsTheLongestThatFits(s: seq<Message>, max: nat, k: nat)
    ensures LongestThatFits(s, max, k) <==> k == Cut(s, max, 0)
  {
    CutIsTheFirstThatFits(s, max, 0);
  }

  /** Every tool result follows the request it answers, with nothing that the user typed in between. */
  ghost predicate Paired(s: seq<Message>) {
    forall i, id :: 0 <= i < |s| && ToolResult(id) in BlocksOf(s[i]) ==> Answered(s, i, id)
  }

  predicate Answered(s: seq<Message>, i: nat, id: Text)
    requires i < |s|
  {
    exists j :: 0 <= j < i && ToolUse(id) in BlocksOf(s[j])
                && forall k :: j < k <= i ==> !(s[k].fromUser && s[k].content.Plain?)
  }

  function BlocksOf(m: Message): seq<Block> { if m.content.Blocks? then m.content.blocks else [] }

  /** No tool result loses its request. */
  lemma TrimKeepsPairs(s: seq<Message>, max: nat)
    requires Paired(s)
    ensures Paired(Trim(s, max))
  {
    CutIsTheFirstThatFits(s, max, 0);
    var c := Cut(s, max, 0);
    forall i, id | 0 <= i < |s| - c && ToolResult(id) in BlocksOf(s[c..][i]) ensures Answered(s[c..], i, id) {
      assert Answered(s, c + i, id);
      AnsweredInTheSameTurn(s, c, i, id);
    }
  }

  lemma AnsweredInTheSameTurn(s: seq<Message>, c: nat, i: nat, id: Text)
    requires c + i < |s| && WholeTurns(s, c) && Answered(s, c + i, id)
    ensures Answered(s[c..], i, id)
  {
    var j :| 0 <= j < c + i && ToolUse(id) in BlocksOf(s[j])
             && forall k :: j < k <= c + i ==> !(s[k].fromUser && s[k].content.Plain?);
    var part := s[c..];
    assert j >= c && part[j - c] == s[j];
    forall k | j - c < k <= i ensures !(part[k].fromUser && part[k].content.Plain?) { assert part[k] == s[c + k]; }
  }

  // ---------------------------------------------------------------- runs

  lemma LongestOfPart(whole: seq<Message>, max: nat, c: nat, k: nat)
    requires c <= |whole| && WholeTurns(whole, c) && forall i :: 0 <= i < c && WholeTurns(whole, i) ==>
        |whole| - i > max
    requires LongestThatFits(whole[c..], max, k)
    ensures LongestThatFits(whole, max, c + k)
  {
    forall i | c <= i <= |whole| ensures WholeTurns(whole, i) <==> WholeTurns(whole[c..], i - c) {
      if i < |whole| { assert whole[c..][i - c] == whole[i]; }
    }
  }

  /** Dropping early loses nothing that would be kept later. */
  lemma TrimEarlyOrLate(s: seq<Message>, more: seq<Message>, max: nat)
    ensures Trim(Trim(s, max) + more, max) == Trim(s + more, max)
  {
    var c, whole := Cut(s, max, 0), s + more;
    TrimKeepsTheLongestThatFits(s, max, c);
    assert Trim(s, max) + more == whole[c..];
    var k := Cut(whole[c..], max, 0);
    TrimKeepsTheLongestThatFits(whole[c..], max, k);
    forall i | 0 <= i <= c && WholeTurns(whole, i)
      ensures i < |s| ==> WholeTurns(s, i)
    {
      assert i < |s| ==> whole[i] == s[i];
    }
    assert WholeTurns(whole, c);
    LongestOfPart(whole, max, c, k);
    TrimKeepsTheLongestThatFits(whole, max, c + k);
  }

  datatype Op = AppendTo(key: Key, messages: seq<Message>) | ClearOf(key: Key)

  function Held(data: map<Key, seq<Message>>, key: Key): seq<Message> { if key in data then data[key] else [] }

  function Apply(data: map<Key, seq<Message>>, op: Op, max: nat): map<Key, seq<Message>> {
    match op
    case AppendTo(key, messages) => data[key := Trim(Held(data, key) + messages, max)]
    case ClearOf(key) => data - {key}
  }

  function Data(ops: seq<Op>, max: nat): map<Key, seq<Message>> {
    if ops == [] then map[] else Apply(Data(ops[..|ops| - 1], max), ops[|ops| - 1], max)
  }

  /** Everything appended under a key since it was last cleared. */
  function History(ops: seq<Op>, key: Key): seq<Message> {
    if ops == [] then []
    else
      var last := ops[|ops| - 1];
      if last.key != key then History(ops[..|ops| - 1], key)
      else if last.ClearOf? then []
      else History(ops[..|ops| - 1], key) + last.messages
  }

  /** However the history was cut into appends, and whatever happened under other keys, the store holds
      the trimmed history. */
  lemma {:induction false} HoldsTheTrimmedHistory(ops: seq<Op>, key: Key, max: nat)
    ensures Held(Data(ops, max), key) == Trim(History(ops, key), max)
  {
    if ops != [] {
      var before, last := ops[..|ops| - 1], ops[|ops| - 1];
      HoldsTheTrimmedHistory(before, key, max);
      if last.AppendTo? && last.key == key {
        TrimEarlyOrLate(History(before, key), last.messages, max);
      }
    }
  }
}
