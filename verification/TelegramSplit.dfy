// Splitting a reply into messages that the channel takes, at line ends where it can.
module TelegramSplit {
  import opened Texts

  const EMPTY_RESPONSE := "(empty response)"

  function Newlines(n: nat): string { if n == 0 then "" else Newlines(n - 1) + "\n" }

  // The chunks, each followed by so many newlines.
  function Weave(chunks: seq<string>, gaps: seq<nat>): string
    requires |chunks| == |gaps|
  {
    if chunks == [] then "" else chunks[0] + (Newlines(gaps[0]) + Weave(chunks[1..], gaps[1..]))
  }

  // How many newlines the text starts with.
  function LeadingNewlines(s: string): (n: nat)
    ensures n <= |s| && s[..n] == Newlines(n) && (n < |s| ==> s[n] != '\n')
    decreases |s|
  {
    if s == "" || s[0] != '\n' then 0
    else
      var n := LeadingNewlines(s[1..]);
      MoreNewlines(n);
      assert s[..n + 1] == "\n" + s[1..][..n];
      n + 1
  }

  lemma {:induction false} MoreNewlines(n: nat)
    ensures "\n" + Newlines(n) == Newlines(n + 1)
  {
    if n > 0 {
      MoreNewlines(n - 1);
    }
  }

  // A line is broken inside only where no line end in the second half of a full message offers itself.
  predicate FairBreak(chunk: string, gap: nat, limit: nat) {
    gap > 0 || (|chunk| == limit && '\n' !in chunk[limit / 2..])
  }

  // One step: where the next message ends.
  function NextCut(remaining: string, limit: nat): (cut: nat)
    requires limit < |remaining|
    ensures cut <= limit && (limit >= 2 ==> cut >= 1)
    ensures FairBreak(remaining[..cut], LeadingNewlines(remaining[cut..]), limit)
    ensures limit >= 1 ==> cut + LeadingNewlines(remaining[cut..]) >= 1
    // It is the last line end of a full message, if that is in its second half.
    ensures
      if '\n' in remaining[limit / 2..limit]
      then limit / 2 <= cut < limit && remaining[cut] == '\n' && '\n' !in remaining[cut + 1..limit]
      else cut == limit
  {
    var at := RFind("\n", remaining[..limit]);
    if at < limit / 2 then
      assert forall i :: limit / 2 <= i < limit ==> !OccursAt("\n", remaining[..limit], i);
      NoLineEnd(remaining[..limit], limit / 2);
      assert remaining[..limit][limit / 2..] == remaining[limit / 2..limit];
      limit
    else
      assert remaining[..limit][at..at + 1] == "\n" && remaining[at] == '\n';
      assert remaining[at] == remaining[limit / 2..limit][at - limit / 2];
      NoLineEnd(remaining[..limit], at + 1);
      assert remaining[..limit][at + 1..] == remaining[at + 1..limit];
      at
  }

  lemma NoLineEnd(s: string, from: nat)
    requires from <= |s| && forall i :: from <= i < |s| ==> !OccursAt("\n", s, i)
    ensures '\n' !in s[from..]
  {
    forall i | from <= i < |s|
      ensures s[i] != '\n'
    {
      assert !OccursAt("\n", s, i) && s[i..i + 1] == [s[i]];
    }
  }

  // All the messages of what remains.
  function Pieces(remaining: string, limit: nat): seq<string>
    requires limit >= 1
    decreases |remaining|
  {
    if remaining == "" then []
    else if |remaining| <= limit then [remaining]
    else
      var cut := NextCut(remaining, limit);
      [remaining[..cut]] + Pieces(remaining[cut..][LeadingNewlines(remaining[cut..])..], limit)
  }

  // How many newlines are dropped after each of them.
  function Gaps(remaining: string, limit: nat): (gaps: seq<nat>)
    requires limit >= 1
    ensures |gaps| == |Pieces(remaining, limit)|
    decreases |remaining|
  {
    if remaining == "" then []
    else if |remaining| <= limit then [0]
    else
      var cut := NextCut(remaining, limit);
      var drop := LeadingNewlines(remaining[cut..]);
      [drop] + Gaps(remaining[cut..][drop..], limit)
  }

  // The pieces of the text.
  method Split(text: string, limit: nat) returns (chunks: seq<string>)
    requires limit >= 1
    ensures chunks == if text == "" then [EMPTY_RESPONSE] else Pieces(text, limit)
  {
    if |text| <= limit {
      return if text == "" then [EMPTY_RESPONSE] else [text];
    }
    chunks := [];
    var remaining := text;
    while |remaining| > limit
      invariant Pieces(text, limit) == chunks + Pieces(remaining, limit)
      decreases |remaining|
    {
      var chunk, rest := CutOne(remaining, limit);
      PiecesMore(chunks, chunk, Pieces(rest, limit));
      chunks, remaining := chunks + [chunk], rest;
    }
    if remaining != "" {
      chunks := chunks + [remaining];
    }
  }

  // One message is cut off, and the newlines behind it are dropped.
  method CutOne(remaining: string, limit: nat) returns (chunk: string, rest: string)
    requires limit >= 1 && limit < |remaining|
    ensures |rest| < |remaining| && Pieces(remaining, limit) == [chunk] + Pieces(rest, limit)
  {
    var cut := NextCut(remaining, limit);
    var after := remaining[cut..];
    chunk, rest := remaining[..cut], after[LeadingNewlines(after)..];
  }

  lemma PiecesMore(chunks: seq<string>, chunk: string, later: seq<string>)
    ensures chunks + ([chunk] + later) == (chunks + [chunk]) + later
  {
  }

  // ------------------------------------------------------------ what the pieces are

  // A message within the limit that does not start with a newline that could have been dropped.
  predicate FairChunk(chunk: string, first: bool, limit: nat) {
    && |chunk| <= limit && (limit >= 2 ==> chunk != "")
    && (!first && chunk != "" ==> chunk[0] != '\n')
  }

  // The messages are fair, and so are the breaks after all but the last of them.
  ghost predicate Fair(chunks: seq<string>, gaps: seq<nat>, limit: nat) {
    && |gaps| == |chunks|
    && (forall i :: 0 <= i < |chunks| ==> FairChunk(chunks[i], i == 0, limit))
    && (forall i :: 0 <= i < |chunks| - 1 ==> FairBreak(chunks[i], gaps[i], limit))
  }

  // Every message is within the limit; put together again with the newlines that were dropped after breaks, they are
  // the text; and a line is broken inside only where no line end offers itself.
  lemma {:induction false} PiecesAreFair(text: string, limit: nat)
    requires limit >= 1
    ensures Fair(Pieces(text, limit), Gaps(text, limit), limit)
    ensures Weave(Pieces(text, limit), Gaps(text, limit)) == text
    decreases |text|
  {
    if |text| > limit {
      var cut := NextCut(text, limit);
      var drop := LeadingNewlines(text[cut..]);
      var rest := text[cut..][drop..];
      PiecesAreFair(rest, limit);
      FirstPiece(rest, limit);
      Whole(text, cut, drop);
      assert Pieces(text, limit) == [text[..cut]] + Pieces(rest, limit);
      assert Gaps(text, limit) == [drop] + Gaps(rest, limit);
      hide Pieces, Gaps, Weave, Newlines;
      FairMore(text[..cut], drop, Pieces(rest, limit), Gaps(rest, limit), limit);
      WeaveMore(text[..cut], drop, Pieces(rest, limit), Gaps(rest, limit));
    } else if text != "" {
      assert [text][1..] == [] && Newlines(0) == "" && Weave([text], [0]) == text + ("" + "");
    }
  }

  lemma FirstPiece(rest: string, limit: nat)
    requires limit >= 1
    ensures
      var pieces := Pieces(rest, limit);
      pieces != [] && pieces[0] != "" ==> rest != "" && pieces[0][0] == rest[0]
  {
  }

  lemma Whole(text: string, cut: nat, drop: nat)
    requires cut <= |text| && drop <= |text[cut..]| && text[cut..][..drop] == Newlines(drop)
    ensures text == text[..cut] + (Newlines(drop) + text[cut..][drop..])
  {
    assert text[cut..] == text[cut..][..drop] + text[cut..][drop..];
  }

  lemma FairMore(chunk: string, gap: nat, chunks: seq<string>, gaps: seq<nat>, limit: nat)
    requires Fair(chunks, gaps, limit) && FairBreak(chunk, gap, limit) && FairChunk(chunk, true, limit)
    requires chunks != [] && chunks[0] != "" ==> chunks[0][0] != '\n'
    ensures Fair([chunk] + chunks, [gap] + gaps, limit)
  {
  }

  lemma WeaveMore(chunk: string, gap: nat, chunks: seq<string>, gaps: seq<nat>)
    requires |chunks| == |gaps|
    ensures Weave([chunk] + chunks, [gap] + gaps) == chunk + (Newlines(gap) + Weave(chunks, gaps))
  {
    assert ([chunk] + chunks)[1..] == chunks && ([gap] + gaps)[1..] == gaps;
  }

  function WithoutNewlines(s: string): string {
    if s == "" then ""
    else
      var n := |s| - 1;
      WithoutNewlines(s[..n]) + if s[n] == '\n' then "" else [s[n]]
  }

  function Together(chunks: seq<string>): string {
    if chunks == [] then "" else chunks[0] + Together(chunks[1..])
  }

  lemma {:induction false} WithoutNewlinesAppend(s: string, t: string)
    ensures WithoutNewlines(s + t) == WithoutNewlines(s) + WithoutNewlines(t)
    decreases |t|
  {
    if t == "" {
      assert s + t == s;
    } else {
      var n := |t| - 1;
      WithoutNewlinesAppend(s, t[..n]);
      assert (s + t)[..|s| + n] == s + t[..n];
    }
  }

  lemma {:induction false} NewlinesVanish(n: nat)
    ensures WithoutNewlines(Newlines(n)) == ""
  {
    if n > 0 {
      NewlinesVanish(n - 1);
      assert Newlines(n)[..|Newlines(n)| - 1] == Newlines(n - 1);
    }
  }

  lemma {:induction false} WeavingAddsNewlines(chunks: seq<string>, gaps: seq<nat>)
    requires |chunks| == |gaps|
    ensures WithoutNewlines(Together(chunks)) == WithoutNewlines(Weave(chunks, gaps))
    decreases |chunks|
  {
    if chunks != [] {
      var later := Weave(chunks[1..], gaps[1..]);
      WeavingAddsNewlines(chunks[1..], gaps[1..]);
      WithoutNewlinesAppend(chunks[0], Together(chunks[1..]));
      WithoutNewlinesAppend(chunks[0], Newlines(gaps[0]) + later);
      WithoutNewlinesAppend(Newlines(gaps[0]), later);
      NewlinesVanish(gaps[0]);
    }
  }

  // Splitting loses nothing but newlines.
  lemma OnlyNewlinesAreLost(text: string, limit: nat)
    requires limit >= 1
    ensures WithoutNewlines(Together(Pieces(text, limit))) == WithoutNewlines(text)
  {
    PiecesAreFair(text, limit);
    WeavingAddsNewlines(Pieces(text, limit), Gaps(text, limit));
  }
}
