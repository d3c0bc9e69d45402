// Every provider rejects a conversation in which a tool call lacks its result, or a result its
// call. This module says what a well-paired conversation is, and how one is built message by message.
module Transcript {
  import opened Options
  import opened RunTypes

  // The calls still unanswered after a conversation; None once the pairing has been broken.
  function Outstanding(messages: seq<Message>): (r: Option<seq<ToolCall>>) {
    if messages == [] then Some([])
    else
      var before := Outstanding(messages[..|messages| - 1]);
      if before.None? then None
      else
        match messages[|messages| - 1]
        case Plain(_) => if before.value == [] then before else None
        case Assistant(_, calls) => if before.value == [] then Some(calls) else None
        case ToolResult(id, _) =>
          if before.value != [] && before.value[0].id == id then Some(before.value[1..]) else None
  }

  // Exactly one result per call, in call order, right behind the assistant message at i.
  ghost predicate AnsweredInOrder(messages: seq<Message>, i: nat)
    requires i < |messages| && messages[i].Assistant?
  {
    var calls := messages[i].calls;
    && i + |calls| < |messages|
    && (forall k :: i < k <= i + |calls| ==>
          messages[k].ToolResult? && messages[k].callId == calls[k - i - 1].id)
    && (i + |calls| + 1 < |messages| ==> !messages[i + |calls| + 1].ToolResult?)
  }

  // The conversation ends inside the answers to its last assistant message at i: the answered
  // calls followed by `pending` are that message's calls.
  ghost predicate OpenAt(messages: seq<Message>, i: nat, pending: seq<ToolCall>) {
    && i < |messages| && messages[i].Assistant?
    && var answered := |messages| - 1 - i;
    && answered <= |messages[i].calls|
    && pending == messages[i].calls[answered..]
    && forall k :: i < k < |messages| ==>
         messages[k].ToolResult? && messages[k].callId == messages[i].calls[k - i - 1].id
  }

  // The message at k answers a call of the assistant message at i.
  ghost predicate AnswersCallOf(messages: seq<Message>, i: nat, k: nat) {
    i < k < |messages| && messages[i].Assistant? && k <= i + |messages[i].calls|
  }

  // A request that a provider accepts: no call without its result, no result without its call.
  ghost predicate WellPaired(messages: seq<Message>) {
    && (forall i :: 0 <= i < |messages| && messages[i].Assistant? ==> AnsweredInOrder(messages, i))
    && (forall k :: 0 <= k < |messages| && messages[k].ToolResult? ==>
          exists i :: AnswersCallOf(messages, i, k))
  }

  // What a fresh run starts from: replayed history keeps the texts and drops calls and results.
  predicate CarriesNoCalls(messages: seq<Message>) {
    forall i :: 0 <= i < |messages| ==>
      messages[i].Plain? || (messages[i].Assistant? && messages[i].calls == [])
  }

  lemma {:induction false} NoCallsNoneOutstanding(messages: seq<Message>)
    requires CarriesNoCalls(messages)
    ensures Outstanding(messages) == Some([])
  {
    if messages != [] {
      NoCallsNoneOutstanding(messages[..|messages| - 1]);
    }
  }

  lemma OutstandingAppend(messages: seq<Message>, m: Message)
    ensures
      Outstanding(messages + [m]) ==
      var before := Outstanding(messages);
      if before.None? then None
      else match m
        case Plain(_) => if before.value == [] then before else None
        case Assistant(_, calls) => if before.value == [] then Some(calls) else None
        case ToolResult(id, _) =>
          if before.value != [] && before.value[0].id == id then Some(before.value[1..]) else None
  {
    assert (messages + [m])[..|messages + [m]| - 1] == messages;
  }

  // What a non-empty list of unanswered calls means: the conversation stops in the middle of the
  // answers to its last assistant message.
  lemma {:induction false} OutstandingIsTail(messages: seq<Message>) returns (i: nat)
    requires Outstanding(messages).Some? && Outstanding(messages).value != []
    ensures OpenAt(messages, i, Outstanding(messages).value)
  {
    var n := |messages| - 1;
    var front := messages[..n];
    match messages[n] {
      case Plain(_) => assert false;
      case Assistant(_, _) => i := n;
      case ToolResult(_, _) =>
        i := OutstandingIsTail(front);
        assert forall k :: 0 <= k < n ==> front[k] == messages[k];
    }
  }

  // While calls are pending, an assistant message answered in full is followed by another message.
  lemma ResultBelongsToTheLast(messages: seq<Message>, i: nat)
    requires Outstanding(messages).Some? && Outstanding(messages).value != []
    requires i < |messages| && messages[i].Assistant? && AnsweredInOrder(messages, i)
    ensures i + |messages[i].calls| + 1 < |messages|
  {
    var j := OutstandingIsTail(messages);
    // Neither i nor j is a tool result, so the answers to i stop before j.
    assert messages[i].Assistant? && messages[j].Assistant?;
  }

  lemma AnsweredStays(front: seq<Message>, i: nat, m: Message)
    requires i < |front| && front[i].Assistant? && AnsweredInOrder(front, i)
    requires m.ToolResult? ==> i + |front[i].calls| + 1 < |front|
    ensures AnsweredInOrder(front + [m], i)
  {
  }

  lemma AnswerCloses(front: seq<Message>, i: nat, pending: seq<ToolCall>, m: Message)
    requires OpenAt(front, i, pending) && pending != []
    requires m.ToolResult? && m.callId == pending[0].id
    ensures OpenAt(front + [m], i, pending[1..])
    ensures pending[1..] == [] ==> AnsweredInOrder(front + [m], i)
  {
  }

  // The assistant message at i is answered, or is the one whose answers are still coming.
  ghost predicate AnsweredOrOpen(messages: seq<Message>, i: nat, pending: seq<ToolCall>)
    requires i < |messages| && messages[i].Assistant?
  {
    (pending != [] && OpenAt(messages, i, pending)) || AnsweredInOrder(messages, i)
  }

  // One more message keeps every earlier assistant message answered or open.
  lemma AppendPairs(front: seq<Message>, i: nat, pending: seq<ToolCall>, m: Message)
    requires Outstanding(front) == Some(pending) && Outstanding(front + [m]).Some?
    requires i < |front| && front[i].Assistant? && AnsweredOrOpen(front, i, pending)
    ensures AnsweredOrOpen(front + [m], i, Outstanding(front + [m]).value)
  {
    OutstandingAppend(front, m);
    if pending != [] && OpenAt(front, i, pending) {
      AnswerCloses(front, i, pending, m);
    } else {
      if m.ToolResult? {
        ResultBelongsToTheLast(front, i);
      }
      AnsweredStays(front, i, m);
    }
  }

  // In a conversation whose pairing is intact every assistant message is answered in full and in
  // order, save that the last one may still have calls pending.
  lemma {:induction false} OutstandingPairs(messages: seq<Message>, i: nat)
    requires Outstanding(messages).Some?
    requires i < |messages| && messages[i].Assistant?
    ensures AnsweredOrOpen(messages, i, Outstanding(messages).value)
  {
    var n := |messages| - 1;
    if i < n {
      OutstandingPairs(messages[..n], i);
      AppendPairs(messages[..n], i, Outstanding(messages[..n]).value, messages[n]);
      assert messages == messages[..n] + [messages[n]];
    }
  }

  lemma {:induction false} ResultHasItsCall(messages: seq<Message>, k: nat) returns (i: nat)
    requires Outstanding(messages).Some?
    requires k < |messages| && messages[k].ToolResult?
    ensures AnswersCallOf(messages, i, k)
  {
    var n := |messages| - 1;
    if k < n {
      i := ResultHasItsCall(messages[..n], k);
    } else {
      i := OutstandingIsTail(messages[..n]);
    }
  }

  lemma NoneOutstandingIsWellPaired(messages: seq<Message>)
    requires Outstanding(messages) == Some([])
    ensures WellPaired(messages)
  {
    forall i | 0 <= i < |messages| && messages[i].Assistant?
      ensures AnsweredInOrder(messages, i)
    {
      OutstandingPairs(messages, i);
    }
    forall k | 0 <= k < |messages| && messages[k].ToolResult?
      ensures exists i :: AnswersCallOf(messages, i, k)
    {
      var i := ResultHasItsCall(messages, k);
    }
  }
}
