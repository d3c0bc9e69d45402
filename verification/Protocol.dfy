// The wire grammar between the agent's process and the privileged helper: one line per request, one per
// reply, fields in base64. Texts of arguments and payloads are their UTF-8 bytes.
module Protocol {
  import opened Options
  import opened Texts
  import opened Base64

  const MAX_LINE := 65536
  const MAX_ARGS := 8
  const MAX_VERB := 32
  const MAX_REPLY := 1048576

  datatype Request = Request(verb: string, args: seq<seq<Byte>>)

  predicate LegalVerb(verb: string) {
    1 <= |verb| <= MAX_VERB && forall i :: 0 <= i < |verb| ==> 'A' <= verb[i] <= 'Z' || verb[i] == '_'
  }

  function Fields(args: seq<seq<Byte>>): (texts: seq<string>)
    ensures |texts| == |args|
    ensures forall i :: 0 <= i < |args| ==> texts[i] == Encode(Standard, args[i])
  {
    seq(|args|, i requires 0 <= i < |args| => Encode(Standard, args[i]))
  }

  // The line a client sends, without its newline.
  function RequestLine(verb: string, args: seq<seq<Byte>>): string { Join(' ', [verb] + Fields(args)) }

  // A verb and at most eight fields, all of them base64.
  predicate LegalFields(fields: seq<string>)
    requires fields != []
  {
    && LegalVerb(fields[0]) && |fields| <= 1 + MAX_ARGS
    && forall i :: 1 <= i < |fields| ==> Decode(Standard, fields[i]).Some?
  }

  // A line that is a request.
  predicate WellFormed(line: string) {
    line != "" && |line| <= MAX_LINE && LegalFields(Split(' ', line))
  }

  // The request that a line is, if it is one.
  function Parse(line: string): Option<Request> {
    var fields := Split(' ', line);
    if WellFormed(line)
    then Some(Request(fields[0],
                      seq(|fields| - 1, i requires 0 <= i < |fields| - 1 => Decode(Standard, fields[i + 1]).value)))
    else None
  }

  ghost predicate IsRequest(line: string, request: Request) {
    var fields := Split(' ', line);
    && request.verb == fields[0] && |request.args| == |fields| - 1
    && forall i :: 1 <= i < |fields| ==> Decode(Standard, fields[i]) == Some(request.args[i - 1])
  }

  lemma RequestIsParsed(line: string, request: Request)
    requires WellFormed(line) && IsRequest(line, request)
    ensures Parse(line) == Some(request)
  {
    var parsed := Parse(line).value;
    forall i | 0 <= i < |request.args|
      ensures parsed.args[i] == request.args[i]
    {
      assert Decode(Standard, Split(' ', line)[i + 1]) == Some(request.args[i]);
    }
    assert parsed.args == request.args;
  }

  method CheckVerb(token: string) returns (legal: bool)
    ensures legal <==> LegalVerb(token)
  {
    if token == "" || |token| > MAX_VERB {
      return false;
    }
    for i := 0 to |token|
      invariant forall k :: 0 <= k < i ==> 'A' <= token[k] <= 'Z' || token[k] == '_'
    {
      if (token[i] < 'A' || token[i] > 'Z') && token[i] != '_' {
        return false;
      }
    }
    legal := true;
  }

  // The first `count` fields make up this much of a request.
  ghost predicate ReadSoFar(fields: seq<string>, count: nat, verb: string, args: seq<seq<Byte>>) {
    && count <= |fields|
    && (count == 0 ==> args == [])
    && (count > 0 ==> LegalVerb(verb) && verb == fields[0] && |args| == count - 1 <= MAX_ARGS)
    && forall i :: 1 <= i < count ==> Decode(Standard, fields[i]) == Some(args[i - 1])
  }

  // What one field adds; false when it makes the line no request.
  method TakeField(ghost all: seq<string>, fields: nat, token: string, verb: string, args: seq<seq<Byte>>)
    returns (ok: bool, verb': string, args': seq<seq<Byte>>)
    requires fields < |all| && token == all[fields] && ReadSoFar(all, fields, verb, args)
    ensures if ok then ReadSoFar(all, fields + 1, verb', args') else !LegalFields(all)
  {
    if fields == 0 {
      ok := CheckVerb(token);
      return ok, token, args;
    }
    if |args| >= MAX_ARGS {
      return false, verb, args;
    }
    var decoded := DecodeText(token);
    if decoded.None? {
      return false, verb, args;
    }
    return true, verb, args + [decoded.value];
  }

  // The fields of a line that is neither empty nor too long, from left to right.
  method ParseFields(line: string) returns (result: Option<Request>)
    requires line != "" && |line| <= MAX_LINE
    ensures result.Some? <==> LegalFields(Split(' ', line))
    ensures result.Some? ==> IsRequest(line, result.value)
  {
    hide Split, Decode, LegalVerb;
    var verb, args := "", [];
    var start, fields := 0, 0;
    ghost var all := Split(' ', line);
    assert line[0..] == line;
    while start <= |line|
      invariant start <= |line| && fields < |all| && Split(' ', line[start..]) == all[fields..]
      invariant ReadSoFar(all, fields, verb, args)
      decreases |line| - start
    {
      var space := Find(' ', line, start);
      var token := if space.Some? then line[start..space.value] else line[start..];
      FirstField(line, start, if space.Some? then space.value else |line|);
      assert token == all[fields..][0];
      var ok;
      ok, verb, args := TakeField(all, fields, token, verb, args);
      if !ok {
        return None;
      }
      fields := fields + 1;
      if space.None? {
        break;
      }
      assert all[fields - 1..][1..] == all[fields..];
      start := space.value + 1;
    }
    result := Some(Request(verb, args));
  }

  // The daemon's parser.
  method ParseRequest(line: string) returns (result: Option<Request>)
    ensures result == Parse(line)
  {
    if line == "" || |line| > MAX_LINE {
      return None;
    }
    result := ParseFields(line);
    if result.Some? {
      RequestIsParsed(line, result.value);
    }
  }

  // The field from start up to `end`, which is a space or the end of the line.
  lemma FirstField(line: string, start: nat, end: nat)
    requires start <= end <= |line| && ' ' !in line[start..end] && (end < |line| ==> line[end] == ' ')
    ensures Split(' ', line[start..]) ==
            if end < |line| then [line[start..end]] + Split(' ', line[end + 1..]) else [line[start..end]]
  {
    var rest, k := line[start..], end - start;
    assert rest[..k] == line[start..end];
    SplitPiece(' ', rest, k);
    if end < |line| {
      assert rest[k + 1..] == line[end + 1..];
    } else {
      assert rest == line[start..end];
    }
  }

  // ------------------------------------------------------------ requests arrive unchanged

  lemma EncodedCharacters(x: seq<Byte>)
    ensures forall i :: 0 <= i < |Encode(Standard, x)| ==>
              var c := Encode(Standard, x)[i]; c != ' ' && c != '\n' && !IsSpace(c)
  {
    DecodeInvertsEncode(Standard, x);
    var s := Encode(Standard, x);
    forall i | 0 <= i < |s|
      ensures s[i] != ' ' && s[i] != '\n' && !IsSpace(s[i])
    {
      assert Legal(Standard, s, i);
    }
  }

  lemma RequestFieldsAreFree(c: char, verb: string, args: seq<seq<Byte>>)
    requires c == ' ' || c == '\n'
    requires c !in verb
    ensures Free(c, [verb] + Fields(args))
  {
    var fields := [verb] + Fields(args);
    forall i | 0 <= i < |fields|
      ensures c !in fields[i]
    {
      if i > 0 {
        EncodedCharacters(args[i - 1]);
        assert fields[i] == Encode(Standard, args[i - 1]);
      }
    }
  }

  // A client's line is read as the verb and the arguments it was made of exactly when the verb is legal, there
  // are at most eight arguments, and the line fits.
  lemma RequestsArriveUnchanged(verb: string, args: seq<seq<Byte>>)
    ensures Parse(RequestLine(verb, args)) == Some(Request(verb, args)) <==>
            LegalVerb(verb) && |args| <= MAX_ARGS && |RequestLine(verb, args)| <= MAX_LINE
  {
    if LegalVerb(verb) && |args| <= MAX_ARGS && |RequestLine(verb, args)| <= MAX_LINE {
      var line, fields := RequestLine(verb, args), [verb] + Fields(args);
      RequestFieldsAreFree(' ', verb, args);
      SplitInvertsJoin(' ', fields);
      forall i | 1 <= i < |fields|
        ensures Decode(Standard, fields[i]) == Some(args[i - 1])
      {
        DecodeInvertsEncode(Standard, args[i - 1]);
      }
      RequestIsParsed(line, Request(verb, args));
    }
  }

  // ------------------------------------------------------------ replies

  function MakeOk(payload: seq<Byte>): string { "OK " + Encode(Standard, payload) + "\n" }
  function MakeErr(reason: seq<Byte>): string { "ERR " + Encode(Standard, reason) + "\n" }
  function MakeReply(ok: bool, payload: seq<Byte>): string { if ok then MakeOk(payload) else MakeErr(payload) }

  // What stands before and after the first separator; all of the text and nothing without one.
  function Partition(s: string, c: char): (string, string) {
    var at := Find(c, s, 0);
    if at.Some? then (s[..at.value], s[at.value + 1..]) else (s, "")
  }

  // The library's base64 decoder, of which the client needs no more than this.
  ghost predicate Inverts(library: string -> Option<seq<Byte>>) {
    forall x: seq<Byte> :: library(Encode(Standard, x)) == Some(x)
  }

  // What the client makes of a reply: its flag and payload; no usable reply; or a line beyond what its stream
  // reader keeps, which raises an error that the client does not expect.
  datatype Reading = Got(ok: bool, payload: seq<Byte>) | Unavailable | Overrun

  // The stream reader's own limit, unless it is told another.
  const READER_LIMIT := 0x1_0000

  // The length of a line without its newline.
  function LineLength(line: string): nat {
    if line != "" && line[|line| - 1] == '\n' then |line| - 1 else |line|
  }

  // How the client reads a reply line, with a stream reader of that limit.
  function ReadReply(library: string -> Option<seq<Byte>>, limit: nat, line: string): Reading {
    if LineLength(line) > limit then Overrun
    else if line == "" || |line| > MAX_REPLY then Unavailable
    else
      var (status, field) := Partition(Strip(line), ' ');
      var payload := library(field);
      if payload.Some? then Got(status == "OK", payload.value) else Unavailable
  }

  lemma {:induction false} FindFirst(c: char, s: string, start: nat, k: nat)
    requires start <= k <= |s| && c !in s[start..k] && (k < |s| ==> s[k] == c)
    ensures Find(c, s, start) == if k < |s| then Some(k) else None
    decreases k - start
  {
    if start < k {
      assert s[start] == s[start..k][0] && s[start + 1..k] == s[start..k][1..];
      FindFirst(c, s, start + 1, k);
    }
  }

  // A reply without its newline, trimmed: an empty field leaves the status alone.
  function Trimmed(status: string, field: string): string {
    if field == "" then status else status + [' '] + field
  }

  lemma TrimmedPartition(status: string, field: string)
    requires ' ' !in status
    ensures Partition(Trimmed(status, field), ' ') == (status, field)
  {
    var s := Trimmed(status, field);
    assert s[0..|status|] == s[..|status|] == status;
    FindFirst(' ', s, 0, |status|);
    if field != "" {
      assert s[|status| + 1..] == field;
    }
  }

  lemma ReplyTrims(status: string, field: string)
    requires status != "" && forall i :: 0 <= i < |status| ==> !IsSpace(status[i])
    requires forall i :: 0 <= i < |field| ==> !IsSpace(field[i])
    ensures Strip(status + " " + field + "\n") == Trimmed(status, field)
  {
    var middle, after := Trimmed(status, field), if field == "" then " \n" else "\n";
    TrimmedEnds(status, field);
    hide Strip, Trimmed;
    StripExact("", middle, after);
    ReplyText(status, field);
  }

  lemma ReplyText(status: string, field: string)
    ensures status + " " + field + "\n" == "" + Trimmed(status, field) + if field == "" then " \n" else "\n"
  {
  }

  lemma TrimmedEnds(status: string, field: string)
    requires status != "" && forall i :: 0 <= i < |status| ==> !IsSpace(status[i])
    requires forall i :: 0 <= i < |field| ==> !IsSpace(field[i])
    ensures
      var middle := Trimmed(status, field);
      middle != "" && !IsSpace(middle[0]) && !IsSpace(middle[|middle| - 1])
  {
    var middle := Trimmed(status, field);
    assert middle[0] == status[0];
    if field != "" {
      assert middle[|middle| - 1] == field[|field| - 1];
    }
  }

  lemma ReplyReads(library: string -> Option<seq<Byte>>, limit: nat, status: string, payload: seq<Byte>, line: string)
    requires Inverts(library)
    requires status != "" && forall i :: 0 <= i < |status| ==> !IsSpace(status[i])
    requires line == status + " " + Encode(Standard, payload) + "\n" && |line| <= MAX_REPLY && |line| - 1 <= limit
    ensures ReadReply(library, limit, line) == Got(status == "OK", payload)
  {
    var field := Encode(Standard, payload);
    EncodedCharacters(payload);
    ReplyTrims(status, field);
    var trimmed := Trimmed(status, field);
    TrimmedPartition(status, field);
    assert Partition(Strip(line), ' ') == (status, field);
    assert library(field) == Some(payload);
  }

  // The client reads back the very flag and payload, the empty payload included, exactly unless the line is too
  // long: for its stream reader, which fails it, or for itself.
  lemma RepliesArriveUnchanged(library: string -> Option<seq<Byte>>, limit: nat, ok: bool, payload: seq<Byte>)
    requires Inverts(library)
    ensures
      var length := |MakeReply(ok, payload)|;
      ReadReply(library, limit, MakeReply(ok, payload)) ==
        if length - 1 > limit then Overrun else if length > MAX_REPLY then Unavailable else Got(ok, payload)
  {
    var line := MakeReply(ok, payload);
    assert line[|line| - 1] == '\n';
    if |line| - 1 <= limit && |line| <= MAX_REPLY {
      ReplyReads(library, limit, if ok then "OK" else "ERR", payload, line);
    }
  }
}
