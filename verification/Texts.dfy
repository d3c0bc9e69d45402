// Texts: splitting at a separator and joining again, searching, and trimming white space.
module Texts {
  import opened Options

  // ------------------------------------------------------------ searching

  // The first place of c at or after `start`.
  function Find(c: char, s: string, start: nat): (at: Option<nat>)
    requires start <= |s|
    ensures at.Some? ==> start <= at.value < |s| && s[at.value] == c && c !in s[start..at.value]
    ensures at.None? ==> c !in s[start..]
    decreases |s| - start
  {
    if start == |s| then None else if s[start] == c then Some(start) else Find(c, s, start + 1)
  }

  predicate OccursAt(pattern: string, s: string, i: int) {
    0 <= i && i + |pattern| <= |s| && s[i..i + |pattern|] == pattern
  }

  // The last place of the pattern, at or before `from`; -1 if there is none.
  function LastPlace(pattern: string, s: string, from: int): (at: int)
    requires -1 <= from
    ensures -1 <= at <= from
    ensures at >= 0 ==> OccursAt(pattern, s, at)
    ensures forall i :: at < i <= from ==> !OccursAt(pattern, s, i)
    decreases from
  {
    if from == -1 || OccursAt(pattern, s, from) then from else LastPlace(pattern, s, from - 1)
  }

  function RFind(pattern: string, s: string): (at: int)
    ensures -1 <= at <= |s|
    ensures at >= 0 ==> OccursAt(pattern, s, at)
    ensures forall i :: at < i ==> !OccursAt(pattern, s, i)
  {
    LastPlace(pattern, s, |s|)
  }

  // ------------------------------------------------------------ splitting and joining

  // The place of the first separator; the end of the text without one.
  function Index(c: char, s: string): (k: nat)
    ensures k <= |s| && c !in s[..k] && (k < |s| ==> s[k] == c)
  {
    if s == "" || s[0] == c then 0
    else
      var k := Index(c, s[1..]);
      assert s[..k + 1] == [s[0]] + s[1..][..k];
      k + 1
  }

  lemma IndexIs(c: char, s: string, k: nat)
    requires k <= |s| && c !in s[..k] && (k < |s| ==> s[k] == c)
    ensures Index(c, s) == k
  {
    var i := Index(c, s);
    assert forall j :: 0 <= j < k ==> s[j] in s[..k];
    assert forall j :: 0 <= j < i ==> s[j] in s[..i];
  }

  // The pieces between separators; the empty text is one empty piece.
  function Split(c: char, s: string): (pieces: seq<string>)
    ensures |pieces| >= 1
    decreases |s|
  {
    var k := Index(c, s);
    if k == |s| then [s] else [s[..k]] + Split(c, s[k + 1..])
  }

  function Join(c: char, pieces: seq<string>): string
    requires |pieces| >= 1
  {
    if |pieces| == 1 then pieces[0] else pieces[0] + [c] + Join(c, pieces[1..])
  }

  predicate Free(c: char, pieces: seq<string>) {
    forall i :: 0 <= i < |pieces| ==> c !in pieces[i]
  }

  lemma SplitPiece(c: char, s: string, k: nat)
    requires k <= |s| && c !in s[..k]
    ensures k == |s| ==> Split(c, s) == [s]
    ensures k < |s| && s[k] == c ==> Split(c, s) == [s[..k]] + Split(c, s[k + 1..])
  {
    if k == |s| || s[k] == c {
      IndexIs(c, s, k);
    }
  }

  lemma {:induction false} SplitIsFree(c: char, s: string)
    ensures Free(c, Split(c, s))
    decreases |s|
  {
    var k := Index(c, s);
    if k < |s| {
      SplitIsFree(c, s[k + 1..]);
    } else {
      assert s[..k] == s;
    }
  }

  lemma JoinCons(c: char, head: string, rest: seq<string>)
    requires |rest| >= 1
    ensures Join(c, [head] + rest) == head + [c] + Join(c, rest)
  {
    assert ([head] + rest)[1..] == rest;
  }

  lemma SplitCons(c: char, head: string, tail: string)
    requires c !in head
    ensures Split(c, head + [c] + tail) == [head] + Split(c, tail)
  {
    var s := head + [c] + tail;
    assert s[..|head|] == head && s[|head| + 1..] == tail;
    SplitPiece(c, s, |head|);
  }

  lemma FrontOfCons(head: string, rest: seq<string>, more: seq<string>)
    requires rest != []
    ensures ([head] + rest)[..|rest|] + more == [head] + (rest[..|rest| - 1] + more)
    ensures ([head] + rest)[|rest|] == rest[|rest| - 1]
  {
  }

  // Splitting a longer text: all pieces but the last stay, and the last one goes on.
  lemma SplitAppendLine(c: char, s: string, t: string)
    requires c !in s
    ensures Split(c, s) == [s] && Split(c, s + t) == [s][..0] + Split(c, s + t)
  {
    IndexIs(c, s, |s|);
  }

  lemma {:induction false} SplitAppend(c: char, s: string, t: string)
    ensures
      var pieces := Split(c, s);
      var n := |pieces| - 1;
      Split(c, s + t) == pieces[..n] + Split(c, pieces[n] + t)
    decreases |s|, 0
  {
    var k := Index(c, s);
    if k == |s| {
      SplitAppendLine(c, s, t);
    } else {
      SplitAppendStep(c, s[..k], s[k + 1..], t);
      assert s == s[..k] + [c] + s[k + 1..];
    }
  }

  lemma {:induction false} SplitAppendStep(c: char, head: string, tail: string, t: string)
    requires c !in head
    ensures
      var pieces := Split(c, head + [c] + tail);
      var n := |pieces| - 1;
      Split(c, head + [c] + tail + t) == pieces[..n] + Split(c, pieces[n] + t)
    decreases |tail|, 1
  {
    hide Split;
    SplitCons(c, head, tail);
    SplitCons(c, head, tail + t);
    SplitAppend(c, tail, t);
    var rest := Split(c, tail);
    FrontOfCons(head, rest, Split(c, rest[|rest| - 1] + t));
    assert head + [c] + tail + t == head + [c] + (tail + t);
  }

  lemma {:induction false} SplitInvertsJoin(c: char, pieces: seq<string>)
    requires |pieces| >= 1 && Free(c, pieces)
    ensures Split(c, Join(c, pieces)) == pieces
    decreases |pieces|
  {
    var first, rest := pieces[0], pieces[1..];
    if rest == [] {
      assert first[..|first|] == first;
      SplitPiece(c, first, |first|);
    } else {
      forall i | 0 <= i < |rest|
        ensures c !in rest[i]
      {
        assert rest[i] == pieces[i + 1];
      }
      hide Split, Join;
      SplitInvertsJoin(c, rest);
      JoinCons(c, first, rest);
      SplitCons(c, first, Join(c, rest));
      assert pieces == [first] + rest;
    }
  }

  // ------------------------------------------------------------ white space

  predicate IsSpace(c: char) {
    c == ' ' || 9 <= c as int <= 13 || 28 <= c as int <= 31
  }

  function StripLeft(s: string): (t: string)
    ensures |t| <= |s| && t == s[|s| - |t|..]
    ensures t != "" ==> !IsSpace(t[0])
    ensures forall i :: 0 <= i < |s| - |t| ==> IsSpace(s[i])
  {
    if s != "" && IsSpace(s[0]) then StripLeft(s[1..]) else s
  }

  function StripRight(s: string): (t: string)
    ensures |t| <= |s| && t == s[..|t|]
    ensures t != "" ==> !IsSpace(t[|t| - 1])
    ensures forall i :: |t| <= i < |s| ==> IsSpace(s[i])
  {
    if s != "" && IsSpace(s[|s| - 1]) then StripRight(s[..|s| - 1]) else s
  }

  function Strip(s: string): (t: string)
    ensures |t| <= |s|
    ensures t != "" ==> !IsSpace(t[0]) && !IsSpace(t[|t| - 1])
  {
    StripRight(StripLeft(s))
  }

  // What stands between white space survives stripping whole.
  lemma {:induction false} StripExact(before: string, s: string, after: string)
    requires s != "" && !IsSpace(s[0]) && !IsSpace(s[|s| - 1])
    requires forall i :: 0 <= i < |before| ==> IsSpace(before[i])
    requires forall i :: 0 <= i < |after| ==> IsSpace(after[i])
    ensures Strip(before + s + after) == s
  {
    hide StripLeft, StripRight, IsSpace;
    var t := before + s + after;
    var left := StripLeft(t);
    var gone := |t| - |left|;
    assert t[|before|] == s[0];
    assert gone <= |before|;
    assert left[0] == t[gone];
    assert left == s + after;
    var kept := StripRight(left);
    assert left[|s| - 1] == s[|s| - 1];
    assert |kept| >= |s|;
    assert kept[|kept| - 1] == left[|kept| - 1];
  }
}
