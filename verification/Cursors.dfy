// Pagination cursors: `created_at|id` in unpadded URL-safe base64. Timestamps have a text form of their own;
// texts are their UTF-8 bytes.
module Cursors {
  import opened Options
  import opened Base64

  const BAR: Byte := 124

  datatype Cursor = Cursor(createdAt: int, id: seq<Byte>)

  // The platform's timestamps and its URL-safe decoder.
  datatype Platform = Platform(
    show: int -> seq<Byte>, parse: seq<Byte> -> Option<int>, library: string -> Option<seq<Byte>>)
  {
    // Timestamps survive their text form, which has no bar in it; the decoder inverts section 5 of RFC 4648.
    ghost predicate Faithful() {
      && (forall t: int :: parse(show(t)) == Some(t) && BAR !in show(t))
      && (forall x: seq<Byte> :: library(Encode(UrlSafe, x)) == Some(x))
    }
  }

  function StripPadding(s: string): (t: string)
    ensures |t| <= |s| && t == s[..|t|] && (t != "" ==> t[|t| - 1] != '=')
    ensures forall i :: |t| <= i < |s| ==> s[i] == '='
  {
    if s != "" && s[|s| - 1] == '=' then StripPadding(s[..|s| - 1]) else s
  }

  function Pads(n: nat): string { if n == 0 then "" else "=" + Pads(n - 1) }

  function Repad(token: string): string { token + Pads((4 - |token| % 4) % 4) }

  // The part before the first bar, and the part after it.
  function PartitionAtBar(raw: seq<Byte>): (seq<Byte>, seq<Byte>) {
    if raw == [] then ([], [])
    else if raw[0] == BAR then ([], raw[1..])
    else
      var (before, after) := PartitionAtBar(raw[1..]);
      ([raw[0]] + before, after)
  }

  function EncodeCursor(p: Platform, c: Cursor): string {
    StripPadding(Encode(UrlSafe, p.show(c.createdAt) + [BAR] + c.id))
  }

  // None is a malformed cursor.
  function DecodeCursor(p: Platform, token: string): Option<Cursor> {
    var raw := p.library(Repad(token));
    if raw.None? then None
    else
      var (timestamp, id) := PartitionAtBar(raw.value);
      var createdAt := p.parse(timestamp);
      if id == [] || createdAt.None? then None else Some(Cursor(createdAt.value, id))
  }

  // The last n characters, and only they, are padding.
  predicate PaddedBy(s: string, n: nat) {
    n <= |s| && forall i :: 0 <= i < |s| ==> (s[i] == '=' <==> i >= |s| - n)
  }

  lemma PaddingIsAtTheEnd(a: Alphabet, s: string)
    requires Canonical(a, s)
    ensures PaddedBy(s, Padding(s))
  {
    forall i: nat | i < |s| - 2
      ensures s[i] != '='
    {
      assert Legal(a, s, i);
    }
  }

  lemma {:induction false} PadsAre(n: nat)
    ensures |Pads(n)| == n && forall i :: 0 <= i < n ==> Pads(n)[i] == '='
  {
    if n > 0 {
      PadsAre(n - 1);
    }
  }

  lemma {:induction false} StripsExactly(s: string, n: nat)
    requires PaddedBy(s, n)
    ensures |StripPadding(s)| == |s| - n
    decreases n
  {
    if n > 0 {
      StripsExactly(s[..|s| - 1], n - 1);
    }
  }

  lemma RepadsExactly(s: string, n: nat)
    requires |s| % 4 == 0 && n <= 2 && PaddedBy(s, n)
    ensures Repad(StripPadding(s)) == s
  {
    var t := StripPadding(s);
    StripsExactly(s, n);
    PadsAre(n);
    PadLength(|s|, n);
    assert s[|t|..] == Pads(n);
    assert s == t + s[|t|..];
  }

  // Taking the padding off loses nothing: its length can be told from the rest.
  lemma RepadInvertsStrip(a: Alphabet, x: seq<Byte>)
    ensures Repad(StripPadding(Encode(a, x))) == Encode(a, x)
  {
    EncodingDecodes(a, x);
    PaddingIsAtTheEnd(a, Encode(a, x));
    RepadsExactly(Encode(a, x), Padding(Encode(a, x)));
  }

  lemma PadLength(length: nat, n: nat)
    requires length % 4 == 0 && n <= 2 && n <= length
    ensures (4 - (length - n) % 4) % 4 == n
  {
  }

  lemma {:induction false} PartitionIsExact(before: seq<Byte>, after: seq<Byte>)
    requires BAR !in before
    ensures PartitionAtBar(before + [BAR] + after) == (before, after)
  {
    var raw := before + [BAR] + after;
    if before == [] {
      assert raw[1..] == after;
    } else {
      assert before[0] in before && raw[0] == before[0];
      assert raw[1..] == before[1..] + [BAR] + after && [before[0]] + before[1..] == before;
      PartitionIsExact(before[1..], after);
    }
  }

  // A cursor is read back as the row it names exactly when that row has an id at all.
  lemma CursorsNameTheirRow(p: Platform, c: Cursor)
    requires p.Faithful()
    ensures DecodeCursor(p, EncodeCursor(p, c)) == (if c.id == [] then None else Some(c))
    ensures EncodeCursor(p, c) != ""
  {
    var raw := p.show(c.createdAt) + [BAR] + c.id;
    RepadInvertsStrip(UrlSafe, raw);
    assert BAR !in p.show(c.createdAt);
    PartitionIsExact(p.show(c.createdAt), c.id);
    assert p.library(Encode(UrlSafe, raw)) == Some(raw);
    FirstFour(UrlSafe, raw);
  }
}
