// Cutting a document into overlapping chunks that end at natural boundaries where they can.
module Chunking {
  import opened Options
  import opened Texts

  const BOUNDARIES := ["\n\n", ". ", "\n"]

  // The boundary occurs past the middle.
  ghost predicate OccursLate(window: string, chunkSize: nat, boundary: string) {
    exists at :: at > chunkSize / 2 && OccursAt(boundary, window, at)
  }

  // The cut is behind the last occurrence of this boundary, which is past the middle.
  ghost predicate CutsAtLast(window: string, chunkSize: nat, boundary: string, cut: nat) {
    var at := cut - |boundary|;
    at > chunkSize / 2 && OccursAt(boundary, window, at) && forall i :: at < i ==> !OccursAt(boundary, window, i)
  }

  // The first kind of boundary that occurs past the middle decides, with the last of its occurrences; without one the
  // whole window is taken.
  ghost predicate BestCut(window: string, chunkSize: nat, boundaries: seq<string>, cut: nat) {
    || (cut == |window| && forall b :: b in boundaries ==> !OccursLate(window, chunkSize, b))
    || exists k :: 0 <= k < |boundaries| && CutsAtLast(window, chunkSize, boundaries[k], cut)
                   && forall i :: 0 <= i < k ==> !OccursLate(window, chunkSize, boundaries[i])
  }

  function BoundaryCut(window: string, chunkSize: nat, boundaries: seq<string>): (cut: nat)
    requires |window| <= chunkSize && window != ""
    ensures 1 <= cut <= |window|
  {
    if boundaries == [] then |window|
    else
      var at := RFind(boundaries[0], window);
      if at > chunkSize / 2 then at + |boundaries[0]|
      else BoundaryCut(window, chunkSize, boundaries[1..])
  }

  lemma {:induction false} CutsAreBest(window: string, chunkSize: nat, boundaries: seq<string>)
    requires |window| <= chunkSize && window != ""
    ensures BestCut(window, chunkSize, boundaries, BoundaryCut(window, chunkSize, boundaries))
    decreases |boundaries|
  {
    if boundaries != [] {
      var at := RFind(boundaries[0], window);
      if at > chunkSize / 2 {
        assert CutsAtLast(window, chunkSize, boundaries[0], at + |boundaries[0]|);
      } else {
        CutsAreBest(window, chunkSize, boundaries[1..]);
        BestCutMore(window, chunkSize, boundaries, BoundaryCut(window, chunkSize, boundaries[1..]));
      }
    }
  }

  lemma BestCutMore(window: string, chunkSize: nat, boundaries: seq<string>, cut: nat)
    requires boundaries != [] && BestCut(window, chunkSize, boundaries[1..], cut)
    requires !OccursLate(window, chunkSize, boundaries[0])
    ensures BestCut(window, chunkSize, boundaries, cut)
  {
    var rest := boundaries[1..];
    assert forall b :: b in boundaries ==> b == boundaries[0] || b in rest;
    if k :| 0 <= k < |rest| && CutsAtLast(window, chunkSize, rest[k], cut)
            && forall i :: 0 <= i < k ==> !OccursLate(window, chunkSize, rest[i]) {
      assert boundaries[k + 1] == rest[k];
      forall i | 0 <= i < k + 1
        ensures !OccursLate(window, chunkSize, boundaries[i])
      {
        if i > 0 { assert boundaries[i] == rest[i - 1]; }
      }
    }
  }

  datatype Window = Window(start: nat, end: nat)

  // The window that starts there.
  function WindowAt(text: string, chunkSize: nat, start: nat): (w: Window)
    requires start < |text| && chunkSize >= 1
    ensures w.start == start < w.end <= |text| && w.end - start <= chunkSize
    ensures |text| <= start + chunkSize ==> w.end == |text|
  {
    var end := if start + chunkSize < |text| then start + chunkSize else |text|;
    if end < |text| then Window(start, start + BoundaryCut(text[start..end], chunkSize, BOUNDARIES))
    else Window(start, end)
  }

  function NextStart(w: Window, overlap: nat): int {
    if w.end - overlap > w.start then w.end - overlap else w.end
  }

  function Windows(text: string, chunkSize: nat, overlap: nat, start: nat): seq<Window>
    requires chunkSize > overlap && start <= |text|
    decreases |text| - start
  {
    if start == |text| then []
    else
      var w := WindowAt(text, chunkSize, start);
      [w] + Windows(text, chunkSize, overlap, NextStart(w, overlap))
  }

  // The trimmed contents of the windows that are not blank.
  function Contents(text: string, windows: seq<Window>): seq<string>
    requires InText(text, windows)
    decreases |windows|
  {
    if windows == [] then []
    else
      var w := windows[0];
      var chunk := Strip(text[w.start..w.end]);
      (if chunk == "" then [] else [chunk]) + Contents(text, windows[1..])
  }

  lemma {:induction false} WindowsInRange(text: string, chunkSize: nat, overlap: nat, start: nat)
    requires chunkSize > overlap && start <= |text|
    ensures forall w :: w in Windows(text, chunkSize, overlap, start) ==>
              start <= w.start < w.end <= |text| && w.end - w.start <= chunkSize
    decreases |text| - start
  {
    if start < |text| {
      WindowsInRange(text, chunkSize, overlap, NextStart(WindowAt(text, chunkSize, start), overlap));
    }
  }

  // The chunks of what is left from `start` on.
  function ChunksFrom(text: string, chunkSize: nat, overlap: nat, start: nat): seq<string>
    requires chunkSize > overlap && start <= |text|
  {
    WindowsInRange(text, chunkSize, overlap, start);
    Contents(text, Windows(text, chunkSize, overlap, start))
  }

  lemma ChunksStep(text: string, chunkSize: nat, overlap: nat, start: nat)
    requires chunkSize > overlap && start < |text|
    ensures
      var w := WindowAt(text, chunkSize, start);
      var chunk := Strip(text[w.start..w.end]);
      ChunksFrom(text, chunkSize, overlap, start) ==
      (if chunk == "" then [] else [chunk]) + ChunksFrom(text, chunkSize, overlap, NextStart(w, overlap))
  {
    var w := WindowAt(text, chunkSize, start);
    var windows := Windows(text, chunkSize, overlap, start);
    WindowsInRange(text, chunkSize, overlap, start);
    assert windows[0] == w && windows[1..] == Windows(text, chunkSize, overlap, NextStart(w, overlap));
  }

  function Chunks(text: string, chunkSize: nat, overlap: nat): seq<string>
    requires chunkSize > overlap
  {
    ChunksFrom(Strip(text), chunkSize, overlap, 0)
  }

  // None refuses a chunk size that does not exceed the overlap.
  method SplitText(text: string, chunkSize: nat, overlap: nat) returns (chunks: Option<seq<string>>)
    ensures chunks.None? <==> chunkSize <= overlap
    ensures chunks.Some? ==> chunks.value == Chunks(text, chunkSize, overlap)
  {
    if chunkSize <= overlap {
      return None;
    }
    var stripped := Strip(text);
    if stripped == "" {
      return Some([]);
    }
    var found := FindChunks(stripped, chunkSize, overlap);
    chunks := Some(found);
  }

  method FindChunks(text: string, chunkSize: nat, overlap: nat) returns (chunks: seq<string>)
    requires chunkSize > overlap
    ensures chunks == ChunksFrom(text, chunkSize, overlap, 0)
  {
    chunks := [];
    var start := 0;
    ghost var all := ChunksFrom(text, chunkSize, overlap, 0);
    while start < |text|
      invariant 0 <= start <= |text|
      invariant all == chunks + ChunksFrom(text, chunkSize, overlap, start)
      decreases |text| - start
    {
      var end := FindEnd(text, chunkSize, start);
      var chunk := Strip(text[start..end]);
      var next := if end - overlap > start then end - overlap else end;
      ChunksAbsorb(text, chunkSize, overlap, Window(start, end), chunk, next, chunks);
      if chunk != "" {
        chunks := chunks + [chunk];
      }
      start := next;
    }
    NoMoreChunks(text, chunkSize, overlap);
  }

  lemma NoMoreChunks(text: string, chunkSize: nat, overlap: nat)
    requires chunkSize > overlap
    ensures ChunksFrom(text, chunkSize, overlap, |text|) == []
  {
  }

  lemma ChunksAbsorb(text: string, chunkSize: nat, overlap: nat, w: Window, chunk: string, next: nat,
                     found: seq<string>)
    requires chunkSize > overlap && w.start < |text| && w == WindowAt(text, chunkSize, w.start)
    requires chunk == Strip(text[w.start..w.end]) && next == NextStart(w, overlap)
    ensures found + ChunksFrom(text, chunkSize, overlap, w.start) ==
            (if chunk == "" then found else found + [chunk]) + ChunksFrom(text, chunkSize, overlap, next)
  {
    ChunksStep(text, chunkSize, overlap, w.start);
  }

  method FindEnd(text: string, chunkSize: nat, start: nat) returns (end: nat)
    requires start < |text| && chunkSize >= 1
    ensures WindowAt(text, chunkSize, start) == Window(start, end)
  {
    var window := text[start..if start + chunkSize < |text| then start + chunkSize else |text|];
    var cut := |window|;
    if start + |window| < |text| {
      cut := FindCut(window, chunkSize);
    }
    end := start + cut;
  }

  method FindCut(window: string, chunkSize: nat) returns (cut: nat)
    requires |window| <= chunkSize && window != ""
    ensures cut == BoundaryCut(window, chunkSize, BOUNDARIES)
  {
    cut := |window|;
    for i := 0 to |BOUNDARIES|
      invariant cut == |window|
      invariant BoundaryCut(window, chunkSize, BOUNDARIES) == BoundaryCut(window, chunkSize, BOUNDARIES[i..])
    {
      var at := RFind(BOUNDARIES[i], window);
      assert BOUNDARIES[i..][1..] == BOUNDARIES[i + 1..];
      if at > chunkSize / 2 {
        return at + |BOUNDARIES[i]|;
      }
    }
  }

  // ------------------------------------------------------------ what the windows cover

  predicate InText(text: string, windows: seq<Window>) {
    forall w :: w in windows ==> w.start <= w.end <= |text|
  }

  // From `start` to the end: starts go up, no window leaves a gap to the one before, and two neighbours share
  // just the overlap, or nothing where the first is no longer than that.
  ghost predicate Covers(windows: seq<Window>, start: nat, end: nat, chunkSize: nat, overlap: nat) {
    && windows != [] && windows[0].start == start && windows[|windows| - 1].end == end
    && (forall i :: 0 <= i < |windows| ==> 1 <= windows[i].end - windows[i].start <= chunkSize)
    && (forall i :: 0 <= i < |windows| - 1 ==>
          && windows[i].start < windows[i + 1].start <= windows[i].end
          && windows[i].end - windows[i + 1].start
             == if windows[i].end - windows[i].start > overlap then overlap else 0)
  }

  lemma {:induction false} WindowsCover(text: string, chunkSize: nat, overlap: nat, start: nat)
    requires chunkSize > overlap && start < |text|
    ensures Covers(Windows(text, chunkSize, overlap, start), start, |text|, chunkSize, overlap)
    decreases |text| - start
  {
    var w := WindowAt(text, chunkSize, start);
    var next := NextStart(w, overlap);
    var windows, later := Windows(text, chunkSize, overlap, start), Windows(text, chunkSize, overlap, next);
    if next < |text| {
      WindowsCover(text, chunkSize, overlap, next);
      forall i | 0 <= i < |windows| - 1
        ensures windows[i].start < windows[i + 1].start <= windows[i].end
        ensures windows[i].end - windows[i + 1].start
                == if windows[i].end - windows[i].start > overlap then overlap else 0
      {
        if i > 0 { assert windows[i] == later[i - 1] && windows[i + 1] == later[i]; }
      }
    }
  }

  // The text put together again: of each window, what the ones before it have not covered.
  function Rebuilt(text: string, windows: seq<Window>, covered: nat): string
    requires InText(text, windows)
    decreases |windows|
  {
    if windows == [] then ""
    else
      var w := windows[0];
      var from := if w.start > covered then w.start else covered;
      (if from < w.end then text[from..w.end] else "")
      + Rebuilt(text, windows[1..], if w.end > covered then w.end else covered)
  }

  lemma {:induction false} RebuildsFrom(text: string, chunkSize: nat, overlap: nat, start: nat, covered: nat)
    requires chunkSize > overlap && start <= covered <= |text|
    requires InText(text, Windows(text, chunkSize, overlap, start))
    ensures Rebuilt(text, Windows(text, chunkSize, overlap, start), covered) == text[covered..]
    decreases |text| - start
  {
    if start < |text| {
      var w := WindowAt(text, chunkSize, start);
      var next := NextStart(w, overlap);
      var windows := Windows(text, chunkSize, overlap, start);
      assert windows[1..] == Windows(text, chunkSize, overlap, next);
      var covered' := if w.end > covered then w.end else covered;
      RebuildsFrom(text, chunkSize, overlap, next, covered');
      if covered < w.end {
        assert text[covered..] == text[covered..w.end] + text[w.end..];
      }
    }
  }

  // Without what they share, the windows are the trimmed text, whole.
  lemma WindowsRebuildTheText(text: string, chunkSize: nat, overlap: nat)
    requires chunkSize > overlap
    ensures
      var stripped := Strip(text);
      var windows := Windows(stripped, chunkSize, overlap, 0);
      InText(stripped, windows) && Rebuilt(stripped, windows, 0) == stripped
  {
    WindowsInRange(Strip(text), chunkSize, overlap, 0);
    RebuildsFrom(Strip(text), chunkSize, overlap, 0, 0);
  }

  predicate Tidy(chunk: string, chunkSize: nat) {
    1 <= |chunk| <= chunkSize && !IsSpace(chunk[0]) && !IsSpace(chunk[|chunk| - 1])
  }

  lemma {:induction false} ContentsAreTidy(text: string, windows: seq<Window>, chunkSize: nat)
    requires InText(text, windows) && forall w :: w in windows ==> w.end - w.start <= chunkSize
    ensures forall chunk :: chunk in Contents(text, windows) ==> Tidy(chunk, chunkSize)
    decreases |windows|
  {
    if windows != [] {
      ContentsAreTidy(text, windows[1..], chunkSize);
      var w := windows[0];
      var chunk := Strip(text[w.start..w.end]);
      assert chunk != "" ==> Tidy(chunk, chunkSize);
    }
  }

  // No chunk is too long, blank, or untrimmed.
  lemma ChunksAreTidy(text: string, chunkSize: nat, overlap: nat)
    requires chunkSize > overlap
    ensures forall chunk :: chunk in Chunks(text, chunkSize, overlap) ==> Tidy(chunk, chunkSize)
  {
    var stripped := Strip(text);
    WindowsInRange(stripped, chunkSize, overlap, 0);
    ContentsAreTidy(stripped, Windows(stripped, chunkSize, overlap, 0), chunkSize);
  }

  // A text that fits into one chunk is still cut in two, the second a mere repetition of the end of the first,
  // exactly when it is longer than the overlap and there is an overlap.
  lemma ShortTexts(text: string, chunkSize: nat, overlap: nat)
    requires chunkSize > overlap && 1 <= |text| <= chunkSize
    ensures Windows(text, chunkSize, overlap, 0) ==
            if 0 < overlap < |text| then [Window(0, |text|), Window(|text| - overlap, |text|)]
            else [Window(0, |text|)]
  {
    var n := |text|;
    var first := WindowAt(text, chunkSize, 0);
    assert Windows(text, chunkSize, overlap, n) == [];
    assert Windows(text, chunkSize, overlap, 0) ==
           [first] + Windows(text, chunkSize, overlap, NextStart(first, overlap));
    if 0 < overlap < n {
      var second := WindowAt(text, chunkSize, n - overlap);
      assert Windows(text, chunkSize, overlap, n - overlap) == [second] + Windows(text, chunkSize, overlap, n);
    }
  }
}
