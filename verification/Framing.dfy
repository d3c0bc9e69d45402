// A byte stream cut into reads, and the lines in it.
module Framing {
  import opened Texts
  import opened Protocol
  import opened Sizes

  const CHUNK := 4096

  // The complete lines of a stream, and what follows the last newline.
  function Lines(stream: string): seq<string> {
    var pieces := Split('\n', stream);
    pieces[..|pieces| - 1]
  }

  function Tail(stream: string): string {
    var pieces := Split('\n', stream);
    pieces[|pieces| - 1]
  }

  // The first k reads, put together.
  function Seen(chunks: seq<string>, k: nat): string
    requires k <= |chunks|
  {
    if k == 0 then "" else Seen(chunks, k - 1) + chunks[k - 1]
  }

  function Concat(chunks: seq<string>): string { Seen(chunks, |chunks|) }

  // What the operating system may hand over: between one byte and a full buffer at a time.
  predicate Readable(chunks: seq<string>) {
    forall i :: 0 <= i < |chunks| ==> 1 <= |chunks[i]| <= CHUNK
  }

  predicate IsCutting(stream: string, chunks: seq<string>) { Readable(chunks) && Concat(chunks) == stream }

  // Does the buffer stay within the cap at every read?
  predicate Fits(chunks: seq<string>) { FitsUpTo(chunks, |chunks|) }

  predicate FitsUpTo(chunks: seq<string>, n: nat)
    requires n <= |chunks|
  {
    n == 0 || (FitsUpTo(chunks, n - 1) && |Tail(Seen(chunks, n - 1))| + |chunks[n - 1]| <= MAX_LINE)
  }

  lemma {:induction false} FitsAt(chunks: seq<string>, n: nat, k: nat)
    requires k < n <= |chunks| && FitsUpTo(chunks, n)
    ensures |Tail(Seen(chunks, k))| + |chunks[k]| <= MAX_LINE
  {
    if k < n - 1 {
      FitsAt(chunks, n - 1, k);
    }
  }

  // ------------------------------------------------------------ appending

  lemma TailIsFree(stream: string)
    ensures '\n' !in Tail(stream)
  {
    SplitIsFree('\n', stream);
  }

  lemma {:induction false} SeenAppend(first: seq<string>, second: seq<string>, k: nat)
    requires k <= |second|
    ensures Seen(first + second, |first| + k) == Concat(first) + Seen(second, k)
    decreases k
  {
    if k == 0 {
      SeenPrefix(first, second, |first|);
    } else {
      SeenAppend(first, second, k - 1);
    }
  }

  lemma {:induction false} SeenPrefix(first: seq<string>, second: seq<string>, k: nat)
    requires k <= |first|
    ensures Seen(first + second, k) == Seen(first, k)
    decreases k
  {
    if k > 0 {
      SeenPrefix(first, second, k - 1);
    }
  }

  // ------------------------------------------------------------ which streams are safe however they are cut

  // At every place of the stream: what is already held of the current line, and one more full read, fit.
  predicate SafeHoweverCut(stream: string) {
    forall q :: 0 <= q < |stream| ==> |Tail(stream[..q])| + Min(CHUNK, |stream| - q) <= MAX_LINE
  }

  // Reads of one byte each.
  function Bytewise(stream: string): (chunks: seq<string>)
    ensures |chunks| == |stream| && forall i :: 0 <= i < |chunks| ==> chunks[i] == [stream[i]]
  {
    seq(|stream|, i requires 0 <= i < |stream| => [stream[i]])
  }

  lemma {:induction false} BytewiseSeen(stream: string, k: nat)
    requires k <= |stream|
    ensures Seen(Bytewise(stream), k) == stream[..k]
    decreases k
  {
    if k > 0 {
      BytewiseSeen(stream, k - 1);
      assert stream[..k] == stream[..k - 1] + [stream[k - 1]];
    }
  }

  lemma BytewiseWhole(stream: string)
    ensures Concat(Bytewise(stream)) == stream
  {
    BytewiseSeen(stream, |stream|);
    assert stream[..|stream|] == stream;
  }

  // Byte by byte up to q, then one read as long as can be, then byte by byte again.
  function CutAt(stream: string, q: nat): seq<string>
    requires q < |stream|
  {
    var m := Min(CHUNK, |stream| - q);
    Bytewise(stream[..q]) + [stream[q..q + m]] + Bytewise(stream[q + m..])
  }

  lemma ReadableAppend(first: seq<string>, second: seq<string>)
    requires Readable(first) && Readable(second)
    ensures Readable(first + second)
  {
  }

  lemma CutAtPlace(stream: string, q: nat)
    requires q < |stream|
    ensures q < |CutAt(stream, q)| && |CutAt(stream, q)[q]| == Min(CHUNK, |stream| - q)
    ensures Seen(CutAt(stream, q), q) == stream[..q]
  {
    var m := Min(CHUNK, |stream| - q);
    var before, later := stream[..q], [stream[q..q + m]] + Bytewise(stream[q + m..]);
    BytewiseSeen(before, q);
    SeenPrefix(Bytewise(before), later, q);
    assert CutAt(stream, q) == Bytewise(before) + later && before[..q] == before;
  }

  lemma ConcatAppend(first: seq<string>, second: seq<string>)
    ensures Concat(first + second) == Concat(first) + Concat(second)
  {
    SeenAppend(first, second, |second|);
  }

  lemma ConcatOne(chunk: string)
    ensures Concat([chunk]) == chunk
  {
    assert Seen([chunk], 0) + chunk == chunk;
  }

  lemma CutAtIsCutting(stream: string, q: nat)
    requires q < |stream|
    ensures IsCutting(stream, CutAt(stream, q))
  {
    var m := Min(CHUNK, |stream| - q);
    var before, middle, after := stream[..q], stream[q..q + m], stream[q + m..];
    BytewiseWhole(before);
    BytewiseWhole(after);
    ConcatOne(middle);
    hide Bytewise, Readable, Seen;
    ConcatAppend(Bytewise(before), [middle]);
    ConcatAppend(Bytewise(before) + [middle], Bytewise(after));
    assert stream == before + middle + after;
    CutAtIsReadable(stream, q);
  }

  lemma CutAtIsReadable(stream: string, q: nat)
    requires q < |stream|
    ensures Readable(CutAt(stream, q))
  {
    var m := Min(CHUNK, |stream| - q);
    var front := Bytewise(stream[..q]) + [stream[q..q + m]];
    ReadableAppend(Bytewise(stream[..q]), [stream[q..q + m]]);
    ReadableAppend(front, Bytewise(stream[q + m..]));
  }

  // Each read is the part of the stream at its place.
  lemma {:induction false} ReadAt(stream: string, chunks: seq<string>, k: nat)
    requires Concat(chunks) == stream && k <= |chunks|
    ensures |Seen(chunks, k)| <= |stream| && Seen(chunks, k) == stream[..|Seen(chunks, k)|]
    decreases |chunks| - k
  {
    if k < |chunks| {
      ReadAt(stream, chunks, k + 1);
      var later := Seen(chunks, k + 1);
      assert later == Seen(chunks, k) + chunks[k];
    }
  }

  lemma {:induction false} SafePlacesFit(stream: string, chunks: seq<string>, n: nat)
    requires SafeHoweverCut(stream) && IsCutting(stream, chunks) && n <= |chunks|
    ensures FitsUpTo(chunks, n)
  {
    if n > 0 {
      SafePlacesFit(stream, chunks, n - 1);
      ReadAt(stream, chunks, n - 1);
      ReadAt(stream, chunks, n);
      var q := |Seen(chunks, n - 1)|;
      assert |Seen(chunks, n)| == q + |chunks[n - 1]|;
      assert |Tail(stream[..q])| + Min(CHUNK, |stream| - q) <= MAX_LINE;
    }
  }

  lemma UnsafePlaceOverflows(stream: string, q: nat)
    requires q < |stream| && |Tail(stream[..q])| + Min(CHUNK, |stream| - q) > MAX_LINE
    ensures IsCutting(stream, CutAt(stream, q)) && !Fits(CutAt(stream, q))
  {
    var chunks := CutAt(stream, q);
    CutAtIsCutting(stream, q);
    CutAtPlace(stream, q);
    if Fits(chunks) {
      FitsAt(chunks, |chunks|, q);
    }
  }

  // Whatever the reads, the stream is served whole exactly when every place of it is safe.
  lemma SafeIffEveryCuttingFits(stream: string)
    ensures SafeHoweverCut(stream) <==> forall chunks :: IsCutting(stream, chunks) ==> Fits(chunks)
  {
    if SafeHoweverCut(stream) {
      forall chunks | IsCutting(stream, chunks)
        ensures Fits(chunks)
      {
        SafePlacesFit(stream, chunks, |chunks|);
      }
    } else {
      var q :| 0 <= q < |stream| && |Tail(stream[..q])| + Min(CHUNK, |stream| - q) > MAX_LINE;
      UnsafePlaceOverflows(stream, q);
    }
  }

  // In particular every stream whose lines and unfinished tail leave room for one full read.
  lemma ShortLinesAreSafe(stream: string)
    requires forall i :: 0 <= i < |Split('\n', stream)| ==> |Split('\n', stream)[i]| <= MAX_LINE - CHUNK
    ensures SafeHoweverCut(stream)
  {
    forall q | 0 <= q < |stream|
      ensures |Tail(stream[..q])| <= MAX_LINE - CHUNK
    {
      var s, t := stream[..q], stream[q..];
      assert stream == s + t;
      SplitAppend('\n', s, t);
      var pieces, n := Split('\n', s), |Split('\n', s)| - 1;
      var later := Split('\n', pieces[n] + t);
      assert Split('\n', stream)[n] == later[0];
      TailIsFree(s);
      FirstPieceIsLonger('\n', Tail(s), t);
    }
  }

  lemma FirstPieceIsLonger(c: char, s: string, t: string)
    requires c !in s
    ensures |Split(c, s + t)[0]| >= |s|
  {
    var at := Find(c, s + t, 0);
    var k := if at.Some? then at.value else |s + t|;
    assert (s + t)[..k] == (s + t)[0..k];
    SplitPiece(c, s + t, k);
    assert forall i :: 0 <= i < |s| ==> (s + t)[i] == s[i];
  }

  lemma UnfinishedTail(part: string)
    requires '\n' !in part
    ensures Tail(part) == part
  {
    assert part[..|part|] == part;
    SplitPiece('\n', part, |part|);
  }

  lemma {:induction false} ShorterLineFits(line: string, n: nat)
    requires '\n' !in line && |line| < MAX_LINE && n <= |line| + 1
    ensures FitsUpTo(Bytewise(line + "\n"), n)
  {
    if n > 0 {
      ShorterLineFits(line, n - 1);
      BytewiseSeen(line + "\n", n - 1);
      assert (line + "\n")[..n - 1] == line[..n - 1];
      UnfinishedTail(line[..n - 1]);
    }
  }

  lemma FullLineIsNotServed(line: string, chunks: seq<string>)
    requires '\n' !in line && |line| >= MAX_LINE && IsCutting(line + "\n", chunks)
    ensures !Fits(chunks)
  {
    var stream, n := line + "\n", |chunks| - 1;
    ReadAt(stream, chunks, n);
    var held := Seen(chunks, n);
    assert stream == held + chunks[n];
    assert held == line[..|held|];
    UnfinishedTail(held);
  }

  // A line of the greatest length the parser takes is never served, and any shorter one is under some cutting.
  lemma LongestServedLine(line: string)
    requires '\n' !in line
    ensures (exists chunks :: IsCutting(line + "\n", chunks) && Fits(chunks)) <==> |line| < MAX_LINE
  {
    if |line| < MAX_LINE {
      BytewiseWhole(line + "\n");
      ShorterLineFits(line, |line| + 1);
      assert IsCutting(line + "\n", Bytewise(line + "\n")) && Fits(Bytewise(line + "\n"));
    } else {
      forall chunks | IsCutting(line + "\n", chunks)
        ensures !Fits(chunks)
      {
        FullLineIsNotServed(line, chunks);
      }
    }
  }
}
