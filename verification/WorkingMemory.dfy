// internal/memory/memory.go: the working memory, as far as compaction goes.
module WorkingMemories {
  import opened Provider
  import opened Transcript

  datatype Counted = Counted(msg: Message, tokens: int)

  const MIN_RECENT_PINNED: nat := 6

  function Messages(ms: seq<Counted>): (msgs: seq<Message>)
    ensures |msgs| == |ms| && forall i :: 0 <= i < |ms| ==> msgs[i] == ms[i].msg
  {
    seq(|ms|, i requires 0 <= i < |ms| => ms[i].msg)
  }

  function TokenCount(ms: seq<Counted>): int {
    if ms == [] then 0 else TokenCount(ms[..|ms| - 1]) + ms[|ms| - 1].tokens
  }

  predicate IsSystem(m: Message) { m.Note? && m.role == SystemRole }

  // A leading system message is pinned.
  function HeadPin(ms: seq<Counted>): nat { if ms != [] && IsSystem(ms[0].msg) then 1 else 0 }

  function Without(ms: seq<Counted>, i: nat): seq<Counted>
    requires i < |ms|
  {
    ms[..i] + ms[i + 1..]
  }

  // The messages that compaction leaves.
  function Compacted(ms: seq<Counted>, budget: int): (r: seq<Counted>)
    ensures |r| <= |ms|
    decreases |ms|
  {
    if budget <= 0 || TokenCount(ms) <= budget || HeadPin(ms) >= |ms| - MIN_RECENT_PINNED then ms
    else Compacted(Without(ms, HeadPin(ms)), budget)
  }

  // The messages are those dropped and those left.
  ghost predicate Parted(all: seq<Counted>, dropped: seq<Counted>, left: seq<Counted>) {
    multiset(dropped) + multiset(left) == multiset(all)
  }

  class WorkingMemory {
    var messages: seq<Counted>
    const maxTokens: int

    constructor (maxTokens: int)
      ensures messages == [] && this.maxTokens == if maxTokens <= 0 then 100000 else maxTokens
    {
      messages := [];
      this.maxTokens := if maxTokens <= 0 then 100000 else maxTokens;
    }

    // TotalTokens and tokenCount
    method TotalTokens() returns (total: int)
      ensures total == TokenCount(messages)
    {
      total := 0;
      for i := 0 to |messages|
        invariant total == TokenCount(messages[..i])
      {
        assert messages[..i + 1][..i] == messages[..i];
        total := total + messages[i].tokens;
      }
      assert messages[..|messages|] == messages;
    }

    method Compact(budget: int) returns (dropped: seq<Counted>)
      modifies this`messages
      ensures messages == Compacted(old(messages), budget)
      ensures |dropped| + |messages| == |old(messages)| && Parted(old(messages), dropped, messages)
    {
      dropped := [];
      if budget <= 0 {
        return;
      }
      while true
        invariant Compacted(messages, budget) == Compacted(old(messages), budget)
        invariant |dropped| + |messages| == |old(messages)|
        invariant Parted(old(messages), dropped, messages)
        decreases |messages|
      {
        var total := TotalTokens();
        if total <= budget {
          break;
        }
        var n := |messages|;
        var headPin := 0;
        if n > 0 && IsSystem(messages[0].msg) {
          headPin := 1;
        }
        if headPin >= n - MIN_RECENT_PINNED {
          break;
        }
        PartOneMore(old(messages), dropped, messages, headPin);
        dropped := dropped + [messages[headPin]];
        messages := messages[..headPin] + messages[headPin + 1..];
      }
    }
  }

  // ------------------------------------------------------------------
  // What is left
  // ------------------------------------------------------------------

  lemma PartOneMore(all: seq<Counted>, dropped: seq<Counted>, ms: seq<Counted>, i: nat)
    requires Parted(all, dropped, ms) && i < |ms|
    ensures Parted(all, dropped + [ms[i]], Without(ms, i))
  {
    assert ms == ms[..i] + [ms[i]] + ms[i + 1..];
  }

  // The tokens of the messages add up.
  lemma {:induction false} TokensAdd(a: seq<Counted>, b: seq<Counted>)
    ensures TokenCount(a + b) == TokenCount(a) + TokenCount(b)
    ensures forall m: Counted :: TokenCount([m]) == m.tokens
    decreases |b|
  {
    if b == [] {
      assert a + b == a;
    } else {
      var front, m := b[..|b| - 1], b[|b| - 1];
      TokensAdd(a, front);
      assert (a + b)[..|a + b| - 1] == a + front;
    }
  }

  // Nothing is dropped without need: before the last message went, the memory was over a
  // positive budget and had more than six messages behind a leading system message.
  lemma {:induction false} CompactNeeded(ms: seq<Counted>, budget: int)
    returns (before: seq<Counted>, last: Counted, after: seq<Counted>)
    requires Compacted(ms, budget) != ms
    ensures budget > 0 && TokenCount(before + [last] + after) > budget && |after| >= 6
    ensures Compacted(ms, budget) == before + after
    ensures before == [] || (|before| == 1 && before[0].msg.Note? && before[0].msg.role == SystemRole)
    ensures !(before == [] && last.msg.Note? && last.msg.role == SystemRole)
    decreases |ms|
  {
    var h := HeadPin(ms);
    var rest := Without(ms, h);
    if Compacted(rest, budget) != rest {
      before, last, after := CompactNeeded(rest, budget);
    } else {
      before, last, after := ms[..h], ms[h], ms[h + 1..];
      assert before + [last] + after == ms;
    }
  }

  // Behind its pinned head r is ms from message k on.
  ghost predicate Leaves(ms: seq<Counted>, r: seq<Counted>, k: nat) {
    k <= |ms| && r[HeadPin(r)..] == ms[k..]
  }

  lemma Shifts(ms: seq<Counted>, h: nat, k: nat)
    requires h < |ms| && h <= k < |ms|
    ensures Without(ms, h)[k..] == ms[k + 1..]
  {
  }

  // Compaction keeps the messages from one on, behind a system message that was, or came
  // to be, the first.
  lemma {:induction false} CompactLeaves(ms: seq<Counted>, budget: int) returns (k: nat)
    ensures Leaves(ms, Compacted(ms, budget), k)
    decreases |ms|
  {
    var h := HeadPin(ms);
    if budget <= 0 || TokenCount(ms) <= budget || h >= |ms| - MIN_RECENT_PINNED {
      k := h;
    } else {
      var rest := Without(ms, h);
      var r := Compacted(rest, budget);
      k := CompactLeaves(rest, budget);
      if h == 1 {
        HeadStays(rest, budget);
        assert |r[1..]| == |rest[k..]|;
      }
      Shifts(ms, h, k);
      k := k + 1;
    }
  }

  // A pinned head is never evicted, nor are the last six messages.
  lemma {:induction false} HeadStays(ms: seq<Counted>, budget: int)
    requires HeadPin(ms) == 1
    ensures var r := Compacted(ms, budget); r != [] && r[0] == ms[0]
    decreases |ms|
  {
    if !(budget <= 0 || TokenCount(ms) <= budget || 1 >= |ms| - MIN_RECENT_PINNED) {
      HeadStays(Without(ms, 1), budget);
    }
  }

  lemma LastSix(ms: seq<Counted>, h: nat)
    requires h + 6 < |ms|
    ensures var rest := Without(ms, h); |rest| == |ms| - 1 >= 6 && rest[|rest| - 6..] == ms[|ms| - 6..]
  {
  }

  lemma {:induction false} TailStays(ms: seq<Counted>, budget: int)
    requires |ms| >= 6
    ensures var r := Compacted(ms, budget); |r| >= 6 && r[|r| - 6..] == ms[|ms| - 6..]
    decreases |ms|
  {
    var h := HeadPin(ms);
    if !(budget <= 0 || TokenCount(ms) <= budget || h >= |ms| - MIN_RECENT_PINNED) {
      LastSix(ms, h);
      TailStays(Without(ms, h), budget);
    }
  }

  // Compaction stops at the budget, unless nothing more may go.
  lemma {:induction false} CompactStops(ms: seq<Counted>, budget: int)
    requires budget > 0
    ensures var r := Compacted(ms, budget);
            TokenCount(r) <= budget || |r| <= 6
            || (|r| == 7 && r[0].msg.Note? && r[0].msg.role == SystemRole)
    decreases |ms|
  {
    var h := HeadPin(ms);
    if !(TokenCount(ms) <= budget || h >= |ms| - MIN_RECENT_PINNED) {
      CompactStops(Without(ms, h), budget);
    }
  }

  // ------------------------------------------------------------------
  // Pairing
  // ------------------------------------------------------------------

  // A paired log can be cut in front of any message but an answer.
  lemma {:induction false} CutPaired(log: seq<Message>, k: nat)
    requires Paired(log) && k <= |log|
    ensures Paired(log[k..]) <==> k == |log| || !log[k].ToolAnswer?
    decreases |log|
  {
    if 0 < k < |log| {
      var n := Stride(log);
      if k >= n {
        CutPaired(log[n..], k - n);
        assert log[n..][k - n..] == log[k..];
      } else {
        assert log[k] == log[1..n][k - 1];
      }
    }
  }

  lemma HeadPaired(r: seq<Counted>)
    ensures Paired(Messages(r)) <==> Paired(Messages(r[HeadPin(r)..]))
  {
    var h := HeadPin(r);
    assert Messages(r[h..]) == Messages(r)[h..];
    if h == 0 {
      assert r[0..] == r;
    }
  }

  // Compacting a paired memory leaves it paired exactly if the first message it keeps
  // behind a leading system message is not the answer to a call it has dropped.
  lemma CompactPairedIff(ms: seq<Counted>, budget: int)
    requires Paired(Messages(ms))
    ensures var r := Compacted(ms, budget);
            Paired(Messages(r)) <==> |r| <= HeadPin(r) || !r[HeadPin(r)].msg.ToolAnswer?
  {
    var r := Compacted(ms, budget);
    var k := CompactLeaves(ms, budget);
    HeadPaired(r);
    assert Messages(r[HeadPin(r)..]) == Messages(ms)[k..];
    CutPaired(Messages(ms), k);
    assert |r| > HeadPin(r) ==> r[HeadPin(r)] == r[HeadPin(r)..][0] && ms[k..][0] == ms[k];
  }

  // The messages of a turn with one round of calls, of this many tokens each.
  function OneRound(user: string, content: string, calls: seq<ToolCall>, answers: seq<Message>, reply: string,
                    tokens: int): seq<Counted>
  {
    Evenly([Note(UserRole, user), Assistant(content, calls)] + answers + [Assistant(reply, [])], tokens)
  }

  function Evenly(msgs: seq<Message>, tokens: int): (ms: seq<Counted>)
    ensures Messages(ms) == msgs && forall i :: 0 <= i < |ms| ==> ms[i].tokens == tokens
  {
    seq(|msgs|, i requires 0 <= i < |msgs| => Counted(msgs[i], tokens))
  }

  lemma {:induction false} CountEvenly(ms: seq<Counted>)
    requires forall i :: 0 <= i < |ms| ==> ms[i].tokens == 8000
    ensures TokenCount(ms) == 8000 * |ms|
  {
    if ms != [] {
      CountEvenly(ms[..|ms| - 1]);
    }
  }

  lemma NotePaired(user: string)
    ensures Paired([Note(UserRole, user)])
  {
    assert [Note(UserRole, user)][1..] == [];
  }

  lemma RoundPaired(content: string, calls: seq<ToolCall>, answers: seq<Message>)
    requires AnswersIn(answers, calls)
    ensures Paired([Assistant(content, calls)] + answers)
  {
    var round := [Assistant(content, calls)] + answers;
    assert round[1..1 + |calls|] == answers && round[1 + |calls|..] == [];
  }

  lemma OneRoundPaired(user: string, content: string, calls: seq<ToolCall>, answers: seq<Message>, reply: string)
    requires AnswersIn(answers, calls)
    ensures Paired([Note(UserRole, user), Assistant(content, calls)] + answers + [Assistant(reply, [])])
  {
    var asked, round, last := [Note(UserRole, user)], [Assistant(content, calls)] + answers, [Assistant(reply, [])];
    NotePaired(user);
    RoundPaired(content, calls, answers);
    RoundPaired(reply, [], []);
    assert last == last + [];
    PairedConcat(asked, round);
    PairedConcat(asked + round, last);
    assert [Note(UserRole, user), Assistant(content, calls)] + answers == asked + round;
  }

  // It does not always: a turn of ten messages with seven calls, compacted at its end to a
  // budget that eight of them meet, loses the message that asked for the seven answers.
  lemma CompactOrphans(user: string, content: string, calls: seq<ToolCall>, answers: seq<Message>, reply: string,
                       budget: int)
    requires |calls| == 7 && AnswersIn(answers, calls) && 64000 <= budget < 72000
    ensures var ms := OneRound(user, content, calls, answers, reply, 8000);
            Paired(Messages(ms)) && !Paired(Messages(Compacted(ms, budget)))
  {
    var ms := OneRound(user, content, calls, answers, reply, 8000);
    OneRoundPaired(user, content, calls, answers, reply);
    assert Messages(ms)[2] == answers[0];
    assert |ms| == 10 && HeadPin(ms) == 0 && HeadPin(ms[1..]) == 0 && ms[2].msg.ToolAnswer?;
    CountEvenly(ms);
    CountEvenly(ms[1..]);
    CountEvenly(ms[2..]);
    CompactsTwice(ms, budget);
    CompactPairedIff(ms, budget);
  }

  lemma CompactsTwice(ms: seq<Counted>, budget: int)
    requires |ms| == 10 && HeadPin(ms) == 0 && HeadPin(ms[1..]) == 0
    requires TokenCount(ms) > budget && TokenCount(ms[1..]) > budget && 0 < TokenCount(ms[2..]) <= budget
    ensures Compacted(ms, budget) == ms[2..]
  {
    assert Without(ms, 0) == ms[1..] && Without(ms[1..], 0) == ms[2..];
    assert Compacted(ms[2..], budget) == ms[2..];
    assert Compacted(ms[1..], budget) == ms[2..];
  }
}
