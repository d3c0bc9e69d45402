// The helper daemon: one request, and one connection. The host's own work is a series of results, one per
// operation performed; the policy tables and number parsing are functions it is given.
module Daemon {
  import opened Options
  import opened Texts
  import opened Base64
  import opened Protocol
  import opened Framing

  type Text = seq<Byte>

  datatype Operation =
    | SysctlGet(key: Text)
    | SysctlSet(key: Text, value: Text)
    | Signal(pid: int, signal: int)
    | Service(unit: Text, action: Text)

  datatype OpResult = OpResult(ok: bool, payload: Text)

  // Why an operation is refused, if it is; and how decimal numbers are read.
  datatype Policy = Policy(refusal: Operation -> Option<Text>, number: Text -> Option<int>)

  datatype Asked = Version | Perform(op: Operation) | Nothing(reason: string)

  function Bytes(s: string): Text {
    seq(|s|, i requires 0 <= i < |s| => s[i] as int % 256)
  }

  const VERSION := "hoursx-sysd 0.1.0"

  // What a line asks for.
  function Meaning(policy: Policy, line: string): Asked {
    var request := Parse(line);
    if request.None? then Nothing("malformed request")
    else
      var verb, args := request.value.verb, request.value.args;
      if verb == "PING" then Version
      else if verb == "SYSCTL_GET" then
        if |args| == 1 then Perform(SysctlGet(args[0])) else Nothing("SYSCTL_GET takes one argument")
      else if verb == "SYSCTL_SET" then
        if |args| == 2 then Perform(SysctlSet(args[0], args[1])) else Nothing("SYSCTL_SET takes two arguments")
      else if verb == "SIGNAL" then
        if |args| != 2 then Nothing("SIGNAL takes two arguments")
        else
          var pid, signal := policy.number(args[0]), policy.number(args[1]);
          if pid.None? then Nothing("pid is not a number")
          else if signal.None? || !(0 < signal.value <= 64) then Nothing("signal is not a valid number")
          else Perform(Signal(pid.value, signal.value))
      else if verb == "SERVICE" then
        if |args| == 2 then Perform(Service(args[0], args[1])) else Nothing("SERVICE takes two arguments")
      else Nothing("unknown verb")
  }

  // The operation that a line leads to: only one that it asks for and that the policy does not refuse.
  function Performed(policy: Policy, line: string): Option<Operation> {
    var asked := Meaning(policy, line);
    if asked.Perform? && policy.refusal(asked.op).None? then Some(asked.op) else None
  }

  // The reply, when the host's next operation would turn out like that.
  function Reply(policy: Policy, line: string, outcome: OpResult): string {
    match Meaning(policy, line)
    case Version => MakeOk(Bytes(VERSION))
    case Nothing(reason) => MakeErr(Bytes(reason))
    case Perform(op) =>
      if policy.refusal(op).Some? then MakeErr(policy.refusal(op).value)
      else MakeReply(outcome.ok, outcome.payload)
  }

  // One line and what became of it; `at` is how many operations the host had performed before.
  datatype Exchange = Exchange(line: string, op: Option<Operation>, at: nat, reply: string)

  // The line led to its own operation and no other, and the reply tells how that turned out.
  predicate Proper(policy: Policy, kernel: nat -> OpResult, e: Exchange) {
    e.op == Performed(policy, e.line) && e.reply == Reply(policy, e.line, kernel(e.at))
  }

  function Operations(log: seq<Exchange>): seq<Operation> {
    if log == [] then []
    else
      var n := |log| - 1;
      Operations(log[..n]) + if log[n].op.Some? then [log[n].op.value] else []
  }

  // The exchanges followed one another, after `before` operations.
  predicate Placed(log: seq<Exchange>, before: nat) {
    log == [] ||
    var n := |log| - 1;
    Placed(log[..n], before) && log[n].at == before + |Operations(log[..n])|
  }

  lemma LogGrows(log: seq<Exchange>, e: Exchange, before: nat)
    requires Placed(log, before) && e.at == before + |Operations(log)|
    ensures Placed(log + [e], before)
    ensures Operations(log + [e]) == Operations(log) + if e.op.Some? then [e.op.value] else []
  {
    assert (log + [e])[..|log|] == log;
  }

  // ------------------------------------------------------------ calls are faithful

  // The verb and arguments by which the client calls for an operation.
  function Call(op: Operation, show: int -> Text): Request {
    match op
    case SysctlGet(key) => Request("SYSCTL_GET", [key])
    case SysctlSet(key, value) => Request("SYSCTL_SET", [key, value])
    case Signal(pid, signal) => Request("SIGNAL", [show(pid), show(signal)])
    case Service(unit, action) => Request("SERVICE", [unit, action])
  }

  lemma CallsMeanTheirOperation(policy: Policy, show: int -> Text, op: Operation)
    requires forall n: int :: policy.number(show(n)) == Some(n)
    requires op.Signal? ==> 0 < op.signal <= 64
    requires |RequestLine(Call(op, show).verb, Call(op, show).args)| <= MAX_LINE
    ensures Meaning(policy, RequestLine(Call(op, show).verb, Call(op, show).args)) == Perform(op)
  {
    var call := Call(op, show);
    RequestsArriveUnchanged(call.verb, call.args);
    assert LegalVerb(call.verb);
    hide Parse, RequestLine;
  }

  // The client's call has exactly the effect it names, and the client learns exactly how it went: the
  // operation is performed just when the policy allows it, and what comes back is its result, or the
  // reason for refusing it, exactly unless the reply is too long to be read.
  lemma CallsAreFaithful(policy: Policy, show: int -> Text, library: string -> Option<seq<Byte>>, limit: nat,
                         op: Operation, outcome: OpResult)
    requires Inverts(library) && forall n: int :: policy.number(show(n)) == Some(n)
    requires op.Signal? ==> 0 < op.signal <= 64
    requires |RequestLine(Call(op, show).verb, Call(op, show).args)| <= MAX_LINE
    ensures
      var line := RequestLine(Call(op, show).verb, Call(op, show).args);
      var reply := Reply(policy, line, outcome);
      var refusal := policy.refusal(op);
      && Performed(policy, line) == (if refusal.None? then Some(op) else None)
      && ReadReply(library, limit, reply) ==
           if |reply| - 1 > limit then Overrun
           else if |reply| > MAX_REPLY then Unavailable
           else if refusal.Some? then Got(false, refusal.value)
           else Got(outcome.ok, outcome.payload)
  {
    CallsMeanTheirOperation(policy, show, op);
    if policy.refusal(op).Some? {
      RepliesArriveUnchanged(library, limit, false, policy.refusal(op).value);
    } else {
      RepliesArriveUnchanged(library, limit, outcome.ok, outcome.payload);
    }
  }

  // How many arguments a verb takes.
  function Arity(verb: string): Option<nat> {
    match verb
    case "SYSCTL_GET" => Some(1)
    case "SYSCTL_SET" => Some(2)
    case "SIGNAL" => Some(2)
    case "SERVICE" => Some(2)
    case _ => None
  }

  // Two numbers that name a process and a signal.
  predicate NamesSignal(policy: Policy, args: seq<Text>) {
    && |args| == 2 && policy.number(args[0]).Some? && policy.number(args[1]).Some?
    && 1 <= policy.number(args[1]).value <= 64
  }

  // Of all requests that arrive, a ping is answered with the version, whatever its arguments, and performs nothing; one
  // with a verb that is not known, the wrong number of arguments or numbers that name no signal performs nothing and is
  // refused; every other one asks for the operation of its verb on its arguments, in their order.
  lemma RequestsAskFor(policy: Policy, verb: string, args: seq<Text>, outcome: OpResult)
    requires LegalVerb(verb) && |args| <= MAX_ARGS && |RequestLine(verb, args)| <= MAX_LINE
    ensures
      var line := RequestLine(verb, args);
      var asked, performed, reply := Meaning(policy, line), Performed(policy, line), Reply(policy, line, outcome);
      && (verb == "PING" ==> performed.None? && reply == MakeOk(Bytes("hoursx-sysd 0.1.0")))
      && (verb != "PING" && (Arity(verb) != Some(|args|) || (verb == "SIGNAL" && !NamesSignal(policy, args))) ==>
            performed.None? && exists reason :: reply == MakeErr(reason))
      && (verb == "SYSCTL_GET" && |args| == 1 ==> asked == Perform(SysctlGet(args[0])))
      && (verb == "SYSCTL_SET" && |args| == 2 ==> asked == Perform(SysctlSet(args[0], args[1])))
      && (verb == "SERVICE" && |args| == 2 ==> asked == Perform(Service(args[0], args[1])))
      && (verb == "SIGNAL" && NamesSignal(policy, args) ==>
            asked == Perform(Signal(policy.number(args[0]).value, policy.number(args[1]).value)))
  {
    RequestsArriveUnchanged(verb, args);
    hide Parse, RequestLine, MakeErr, MakeOk, Bytes;
    var asked := Meaning(policy, RequestLine(verb, args));
    if asked.Nothing? {
      assert Reply(policy, RequestLine(verb, args), outcome) == MakeErr(Bytes(asked.reason));
    }
  }

  // A line that is no request performs nothing, and is refused as such.
  lemma OtherLinesAskNothing(policy: Policy, line: string, outcome: OpResult)
    requires !WellFormed(line)
    ensures Performed(policy, line).None? && Reply(policy, line, outcome) == MakeErr(Bytes("malformed request"))
  {
  }

  datatype Ending = EndOfStream | TooLarge | Unwritable

  class Server {
    const policy: Policy
    const kernel: nat -> OpResult
    var performed: seq<Operation>
    // The lines handled on the connection, and what was written back.
    var handled: seq<string>
    var replies: seq<string>
    var buffer: string
    ghost var log: seq<Exchange>

    constructor (policy: Policy, kernel: nat -> OpResult)
      ensures this.policy == policy && this.kernel == kernel && performed == []
    {
      this.policy, this.kernel := policy, kernel;
      performed, handled, replies, buffer := [], [], [], "";
      log := [];
    }

    // An operation of the host.
    method Do(op: Operation) returns (result: OpResult)
      modifies this`performed
      ensures performed == old(performed) + [op] && result == kernel(|old(performed)|)
    {
      result := kernel(|performed|);
      performed := performed + [op];
    }

    method Judged(op: Operation) returns (reply: string)
      modifies this`performed
      ensures performed == if policy.refusal(op).None? then old(performed) + [op] else old(performed)
      ensures reply == if policy.refusal(op).Some? then MakeErr(policy.refusal(op).value)
                       else MakeReply(kernel(|old(performed)|).ok, kernel(|old(performed)|).payload)
    {
      var refusal := policy.refusal(op);
      if refusal.Some? {
        return MakeErr(refusal.value);
      }
      var result := Do(op);
      reply := if result.ok then MakeOk(result.payload) else MakeErr(result.payload);
    }

    method HandleRequest(line: string) returns (reply: string)
      modifies this`performed
      ensures reply == Reply(policy, line, kernel(|old(performed)|))
      ensures
        var op := Performed(policy, line);
        performed == if op.Some? then old(performed) + [op.value] else old(performed)
    {
      var request := ParseRequest(line);
      if request.None? {
        return MakeErr(Bytes("malformed request"));
      }
      var verb, args := request.value.verb, request.value.args;
      if verb == "PING" {
        return MakeOk(Bytes(VERSION));
      }
      if verb == "SYSCTL_GET" {
        if |args| != 1 {
          return MakeErr(Bytes("SYSCTL_GET takes one argument"));
        }
        reply := Judged(SysctlGet(args[0]));
        return;
      }
      if verb == "SYSCTL_SET" {
        if |args| != 2 {
          return MakeErr(Bytes("SYSCTL_SET takes two arguments"));
        }
        reply := Judged(SysctlSet(args[0], args[1]));
        return;
      }
      if verb == "SIGNAL" {
        if |args| != 2 {
          return MakeErr(Bytes("SIGNAL takes two arguments"));
        }
        var pid := policy.number(args[0]);
        if pid.None? {
          return MakeErr(Bytes("pid is not a number"));
        }
        var signal := policy.number(args[1]);
        if signal.None? || signal.value <= 0 || signal.value > 64 {
          return MakeErr(Bytes("signal is not a valid number"));
        }
        reply := Judged(Signal(pid.value, signal.value));
        return;
      }
      if verb == "SERVICE" {
        if |args| != 2 {
          return MakeErr(Bytes("SERVICE takes two arguments"));
        }
        reply := Judged(Service(args[0], args[1]));
        return;
      }
      reply := MakeErr(Bytes("unknown verb"));
    }

    // Every line handled on this connection was answered, in order, and nothing else was performed.
    ghost predicate Consistent(start: seq<Operation>) reads this {
      && |log| == |handled| == |replies|
      && (forall i :: 0 <= i < |log| ==>
            log[i].line == handled[i] && log[i].reply == replies[i] && Proper(policy, kernel, log[i]))
      && Placed(log, |start|) && performed == start + Operations(log)
    }

    ghost predicate AllWritten(writable: nat -> bool) reads this {
      forall i :: 0 <= i < |handled| ==> writable(i)
    }

    // The last reply was the first that could not be written.
    ghost predicate FirstUnwritten(writable: nat -> bool) reads this {
      handled != [] && !writable(|handled| - 1) && forall i :: 0 <= i < |handled| - 1 ==> writable(i)
    }

    // Handles one line and answers it.
    method AnswerLine(ghost start: seq<Operation>, line: string)
      requires Consistent(start)
      modifies `performed, `handled, `replies, `log
      ensures Consistent(start)
      ensures handled == old(handled) + [line]
    {
      hide Performed, Reply;
      ghost var at := |performed|;
      var reply := HandleRequest(line);
      ghost var e := Exchange(line, Performed(policy, line), at, reply);
      LogGrows(log, e, |start|);
      assert Proper(policy, kernel, e);
      handled := handled + [line];
      replies := replies + [reply];
      log := log + [e];
    }

    // Answers the complete lines in the buffer. False when a reply could not be written.
    method Drain(ghost start: seq<Operation>, ghost before: string, writable: nat -> bool) returns (ok: bool)
      requires Consistent(start)
      requires Split('\n', before) == handled + Split('\n', buffer) && AllWritten(writable)
      modifies this
      ensures Consistent(start)
      ensures Split('\n', before) == handled + Split('\n', buffer)
      ensures ok ==> handled == Lines(before) && buffer == Tail(before)
      ensures ok ==> AllWritten(writable)
      ensures !ok ==> handled <= Lines(before) && FirstUnwritten(writable)
    {
      hide Split, Performed, Reply;
      var newline := Find('\n', buffer, 0);
      while newline.Some?
        invariant newline == Find('\n', buffer, 0)
        invariant Consistent(start)
        invariant Split('\n', before) == handled + Split('\n', buffer)
        invariant AllWritten(writable)
        decreases |buffer|
      {
        var line, rest := buffer[..newline.value], buffer[newline.value + 1..];
        NextLine(buffer, newline.value);
        assert handled + ([line] + Split('\n', rest)) == (handled + [line]) + Split('\n', rest);
        buffer := rest;
        AnswerLine(start, line);
        if !writable(|handled| - 1) {
          return false;
        }
        newline := Find('\n', buffer, 0);
      }
      LastLine(buffer);
      ok := true;
    }

    // One read: appended to the buffer, and its complete lines answered.
    method AcceptRead(ghost start: seq<Operation>, ghost before: string, chunk: string, writable: nat -> bool)
      returns (stopped: Option<Ending>)
      requires Consistent(start) && handled == Lines(before) && buffer == Tail(before) && AllWritten(writable)
      modifies this
      ensures Consistent(start)
      ensures stopped.None? ==> AllWritten(writable)
      ensures stopped.None? ==> handled == Lines(before + chunk) && buffer == Tail(before + chunk)
      ensures stopped.None? ==> '\n' !in buffer && |buffer| <= MAX_LINE
      ensures stopped == Some(TooLarge) <==> |Tail(before)| + |chunk| > MAX_LINE
      ensures stopped == Some(TooLarge) ==> handled == old(handled) && |buffer| == |Tail(before)| + |chunk|
      ensures stopped.Some? && !stopped.value.TooLarge? ==>
                stopped.value.Unwritable? && handled <= Lines(before + chunk) && FirstUnwritten(writable)
    {
      hide Split, Performed, Reply;
      buffer := buffer + chunk;
      if |buffer| > MAX_LINE {
        return Some(TooLarge);
      }
      SplitAppend('\n', before, chunk);
      TailIsShort(before, chunk);
      TailIsFree(before + chunk);
      var ok := Drain(start, before + chunk, writable);
      stopped := if ok then None else Some(Unwritable);
    }

    method Connect()
      modifies `buffer, `handled, `replies, `log
      ensures Consistent(performed) && buffer == "" && handled == []
    {
      buffer, handled, replies := "", [], [];
      log := [];
    }

    // Serves one connection: reads, answers the lines that are complete, and stops at the end of the stream,
    // when a line grows too long, or when a reply cannot be written. `peak` is the most the buffer held.
    method ServeConnection(chunks: seq<string>, writable: nat -> bool)
      returns (accepted: nat, ended: Ending, ghost peak: nat)
      requires Readable(chunks)
      modifies this
      ensures Consistent(old(performed)) && accepted <= |chunks|
      ensures peak <= MAX_LINE + CHUNK
      // All of the stream was handled, exactly its lines were.
      ensures ended.EndOfStream? ==>
                && accepted == |chunks| && Fits(chunks)
                && handled == Lines(Concat(chunks)) && buffer == Tail(Concat(chunks))
      // The read that was too much was not handled, and all lines before it were.
      ensures ended.TooLarge? ==>
                && accepted < |chunks| && !Fits(chunks)
                && |Tail(Seen(chunks, accepted))| + |chunks[accepted]| > MAX_LINE
                && handled == Lines(Seen(chunks, accepted))
      // The lines up to the first reply that could not be written were handled.
      ensures ended.Unwritable? ==>
                && accepted < |chunks| && handled <= Lines(Seen(chunks, accepted + 1)) && FirstUnwritten(writable)
      ensures SafeHoweverCut(Concat(chunks)) ==> !ended.TooLarge?
    {
      NothingYet();
      hide Split, Performed, Reply, SafeHoweverCut;
      Connect();
      accepted, peak := 0, 0;
      ghost var start, seen := performed, "";
      while accepted < |chunks|
        invariant accepted <= |chunks| && peak <= MAX_LINE + CHUNK && |buffer| <= MAX_LINE
        invariant Consistent(start) && AllWritten(writable)
        invariant seen == Seen(chunks, accepted) && handled == Lines(seen) && buffer == Tail(seen)
        invariant FitsUpTo(chunks, accepted)
      {
        var chunk := chunks[accepted];
        peak := if |buffer| + |chunk| > peak then |buffer| + |chunk| else peak;
        var stopped := AcceptRead(start, seen, chunk, writable);
        if stopped.Some? {
          if stopped.value.TooLarge? {
            OverflowIsUnsafe(chunks, accepted);
          }
          return accepted, stopped.value, peak;
        }
        seen := seen + chunk;
        accepted := accepted + 1;
      }
      ended := EndOfStream;
    }
  }

  lemma OverflowIsUnsafe(chunks: seq<string>, k: nat)
    requires Readable(chunks) && k < |chunks| && |Tail(Seen(chunks, k))| + |chunks[k]| > MAX_LINE
    ensures !Fits(chunks) && !SafeHoweverCut(Concat(chunks))
  {
    if Fits(chunks) {
      FitsAt(chunks, |chunks|, k);
    }
    assert IsCutting(Concat(chunks), chunks);
    SafeIffEveryCuttingFits(Concat(chunks));
  }

  lemma NothingYet()
    ensures Lines("") == [] && Tail("") == ""
  {
  }

  lemma TailIsShort(s: string, t: string)
    ensures |Tail(s + t)| <= |Tail(s)| + |t|
  {
    hide Split;
    SplitAppend('\n', s, t);
    var later := Split('\n', Tail(s) + t);
    assert Tail(s + t) == later[|later| - 1];
    LastPieceIsShort('\n', Tail(s) + t);
  }

  lemma {:induction false} LastPieceIsShort(c: char, s: string)
    ensures |Split(c, s)[|Split(c, s)| - 1]| <= |s|
    decreases |s|
  {
    var k := Index(c, s);
    if k < |s| {
      LastPieceIsShort(c, s[k + 1..]);
    }
  }

  lemma NextLine(buffer: string, newline: nat)
    requires Find('\n', buffer, 0) == Some(newline)
    ensures Split('\n', buffer) == [buffer[..newline]] + Split('\n', buffer[newline + 1..])
  {
    assert buffer[0..newline] == buffer[..newline];
    SplitPiece('\n', buffer, newline);
  }

  lemma LastLine(buffer: string)
    requires Find('\n', buffer, 0) == None
    ensures Split('\n', buffer) == [buffer]
  {
    assert buffer[0..] == buffer[..|buffer|] == buffer;
    SplitPiece('\n', buffer, |buffer|);
  }
}
