// Base64 as section 4 of RFC 4648 has it, with the URL-safe alphabet of section 5, and the encoder and decoder
// of the helper daemon. Shifts and masks of 24-bit blocks are written as divisions and remainders.
module Base64 {
  import opened Options

  type Byte = x: int | 0 <= x < 256
  type Sextet = x: int | 0 <= x < 64

  datatype Alphabet = Standard | UrlSafe

  function Symbol(a: Alphabet, v: Sextet): char {
    if v < 26 then ('A' as int + v) as char
    else if v < 52 then ('a' as int + v - 26) as char
    else if v < 62 then ('0' as int + v - 52) as char
    else if v == 62 then (if a.Standard? then '+' else '-')
    else if a.Standard? then '/' else '_'
  }

  function Value(a: Alphabet, c: char): Option<Sextet> {
    if 'A' <= c <= 'Z' then Some(c as int - 'A' as int)
    else if 'a' <= c <= 'z' then Some(c as int - 'a' as int + 26)
    else if '0' <= c <= '9' then Some(c as int - '0' as int + 52)
    else if c == Symbol(a, 62) then Some(62)
    else if c == Symbol(a, 63) then Some(63)
    else None
  }

  lemma ValueInvertsSymbol(a: Alphabet, v: Sextet, c: char)
    ensures Value(a, Symbol(a, v)) == Some(v) && Symbol(a, v) != '='
    ensures Value(a, c) == Some(v) ==> Symbol(a, v) == c
  {
  }

  // ------------------------------------------------------------ three bytes, four sextets

  function Sextets(x: Byte, y: Byte, z: Byte): (v: seq<Sextet>)
    ensures |v| == 4
  {
    [x / 4, x % 4 * 16 + y / 16, y % 16 * 4 + z / 64, z % 64]
  }

  function ThreeBytes(v: seq<Sextet>): (b: seq<Byte>)
    requires |v| == 4
    ensures |b| == 3
  {
    [(v[0] as int) * 4 + v[1] / 16, (v[1] as int) % 16 * 16 + v[2] / 4, (v[2] as int) % 4 * 64 + v[3]]
  }

  lemma BytesComeBack(x: Byte, y: Byte, z: Byte)
    ensures ThreeBytes(Sextets(x, y, z)) == [x, y, z]
  {
  }

  lemma SextetsComeBack(v: seq<Sextet>)
    requires |v| == 4
    ensures Sextets(ThreeBytes(v)[0], ThreeBytes(v)[1], ThreeBytes(v)[2]) == v
  {
    Regroup(v[0], v[1], v[2], v[3]);
  }

  lemma Regroup(p: nat, q: nat, r: nat, t: nat)
    requires p < 64 && q < 64 && r < 64 && t < 64
    ensures (p * 4 + q / 16) / 4 == p && (p * 4 + q / 16) % 4 * 16 + (q % 16 * 16 + r / 4) / 16 == q
    ensures (q % 16 * 16 + r / 4) % 16 * 4 + (r % 4 * 64 + t) / 64 == r && (r % 4 * 64 + t) % 64 == t
  {
    assert (p * 4 + q / 16) % 4 == q / 16;
    assert (q % 16 * 16 + r / 4) / 16 == q % 16 && (q % 16 * 16 + r / 4) % 16 == r / 4;
  }

  // The same by way of a 24-bit block, as the daemon does it.
  lemma BlockToSextets(x: nat, y: nat, z: nat, block: nat)
    requires x < 256 && y < 256 && z < 256 && block == x * 65536 + y * 256 + z
    ensures block / 262144 % 64 == x / 4 && block / 4096 % 64 == x % 4 * 16 + y / 16
    ensures block / 64 % 64 == y % 16 * 4 + z / 64 && block % 64 == z % 64
  {
    assert block / 262144 == x / 4;
    assert block / 4096 == x / 4 * 64 + (x % 4 * 16 + y / 16);
    assert block / 64 == (x * 16 + y / 16) * 64 + (y % 16 * 4 + z / 64);
    assert block == (x * 1024 + y * 4 + z / 64) * 64 + z % 64;
  }

  lemma BlockToBytes(p: nat, q: nat, r: nat, t: nat, block: nat)
    requires p < 64 && q < 64 && r < 64 && t < 64 && block == ((p * 64 + q) * 64 + r) * 64 + t
    ensures block / 65536 % 256 == p * 4 + q / 16 && block / 256 % 256 == q % 16 * 16 + r / 4
    ensures block % 256 == r % 4 * 64 + t
  {
    assert block / 65536 == p * 4 + q / 16;
    assert block / 256 == (p * 4 + q / 16) * 256 + (q % 16 * 16 + r / 4);
    assert block == ((p * 64 + q) * 16 + r / 4) * 256 + (r % 4 * 64 + t);
  }

  // ------------------------------------------------------------ encoding

  function Spell(a: Alphabet, v: seq<Sextet>): (s: string)
    ensures |s| == |v|
  {
    seq(|v|, i requires 0 <= i < |v| => Symbol(a, v[i]))
  }

  function Encode(a: Alphabet, x: seq<Byte>): string {
    if x == [] then ""
    else if |x| == 1 then Spell(a, Sextets(x[0], 0, 0))[..2] + "=="
    else if |x| == 2 then Spell(a, Sextets(x[0], x[1], 0))[..3] + "="
    else Spell(a, Sextets(x[0], x[1], x[2])) + Encode(a, x[3..])
  }

  // Four symbols for every three bytes begun.
  lemma {:induction false} EncodedLength(a: Alphabet, x: seq<Byte>)
    ensures |Encode(a, x)| == 4 * ((|x| + 2) / 3)
    decreases |x|
  {
    if |x| >= 3 {
      EncodedLength(a, x[3..]);
      OneMoreThird(|x| - 1);
    }
  }

  lemma OneMoreThird(n: nat)
    ensures (n + 3) / 3 == n / 3 + 1
  {
  }

  // What the daemon appends for a block: its first `count` symbols.
  function BlockSymbols(block: nat, count: nat): string
    requires 2 <= count <= 4
  {
    var first := [Symbol(Standard, block / 262144 % 64), Symbol(Standard, block / 4096 % 64)];
    if count == 2 then first
    else if count == 3 then first + [Symbol(Standard, block / 64 % 64)]
    else first + [Symbol(Standard, block / 64 % 64), Symbol(Standard, block % 64)]
  }

  lemma BlockSpells(x: Byte, y: Byte, z: Byte, block: nat, count: nat)
    requires 2 <= count <= 4 && block == (x as int) * 65536 + (y as int) * 256 + z
    ensures BlockSymbols(block, count) == Spell(Standard, Sextets(x, y, z))[..count]
  {
    BlockToSextets(x, y, z, block);
  }

  // The daemon's encoder.
  method EncodeBytes(input: seq<Byte>) returns (out: string)
    ensures out == Encode(Standard, input)
  {
    out := "";
    var i := 0;
    while i + 2 < |input|
      invariant 0 <= i <= |input|
      invariant out + Encode(Standard, input[i..]) == Encode(Standard, input)
    {
      var block := (input[i] as int) * 65536 + (input[i + 1] as int) * 256 + input[i + 2];
      BlockSpells(input[i], input[i + 1], input[i + 2], block, 4);
      EncodeStep(Standard, input, i);
      out := out + BlockSymbols(block, 4);
      i := i + 3;
    }
    if i + 1 == |input| {
      var block := (input[i] as int) * 65536;
      BlockSpells(input[i], 0, 0, block, 2);
      out := out + BlockSymbols(block, 2) + "==";
    } else if i + 2 == |input| {
      var block := (input[i] as int) * 65536 + (input[i + 1] as int) * 256;
      BlockSpells(input[i], input[i + 1], 0, block, 3);
      out := out + BlockSymbols(block, 3) + "=";
    }
  }

  lemma EncodeStep(a: Alphabet, x: seq<Byte>, i: nat)
    requires i + 3 <= |x|
    ensures Encode(a, x[i..]) == Spell(a, Sextets(x[i], x[i + 1], x[i + 2]))[..4] + Encode(a, x[i + 3..])
  {
    assert x[i..][3..] == x[i + 3..];
  }

  // ------------------------------------------------------------ what an encoding spells

  // The numbers that bytes, sextets and symbols spell, big end first, after `high`.
  function NumberOfBytes(high: nat, x: seq<Byte>): nat
    decreases |x|
  {
    if x == [] then high else NumberOfBytes(high * 256 + x[0], x[1..])
  }

  function NumberOfSextets(high: nat, v: seq<Sextet>): nat
    decreases |v|
  {
    if v == [] then high else NumberOfSextets(high * 64 + v[0], v[1..])
  }

  // Padding spells nothing.
  function NumberOfSymbols(a: Alphabet, high: nat, s: string): nat
    decreases |s|
  {
    if s == "" then high
    else NumberOfSymbols(a, if Value(a, s[0]).Some? then high * 64 + Value(a, s[0]).value else high, s[1..])
  }

  lemma {:induction false} SpelledNumber(a: Alphabet, high: nat, v: seq<Sextet>, rest: string)
    ensures NumberOfSymbols(a, high, Spell(a, v) + rest) == NumberOfSymbols(a, NumberOfSextets(high, v), rest)
    decreases |v|
  {
    if v == [] {
      assert Spell(a, v) + rest == rest;
    } else {
      ValueInvertsSymbol(a, v[0], '=');
      assert (Spell(a, v) + rest)[1..] == Spell(a, v[1..]) + rest;
      SpelledNumber(a, high * 64 + v[0], v[1..], rest);
    }
  }

  lemma SextetByTwo(high: nat, v: seq<Sextet>)
    requires |v| >= 2
    ensures NumberOfSextets(high, v) == NumberOfSextets((high * 64 + v[0]) * 64 + v[1], v[2..])
  {
    var h: nat := high * 64 + v[0];
    assert NumberOfSextets(high, v) == NumberOfSextets(h, v[1..]) && v[1..][1..] == v[2..];
  }

  lemma SextetNumbers(high: nat, v: seq<Sextet>)
    ensures |v| == 2 ==> NumberOfSextets(high, v) == (high * 64 + v[0]) * 64 + v[1]
    ensures |v| == 3 ==> NumberOfSextets(high, v) == ((high * 64 + v[0]) * 64 + v[1]) * 64 + v[2]
    ensures |v| == 4 ==> NumberOfSextets(high, v) == (((high * 64 + v[0]) * 64 + v[1]) * 64 + v[2]) * 64 + v[3]
  {
    if |v| >= 2 {
      var h: nat := (high * 64 + v[0]) * 64 + v[1];
      SextetByTwo(high, v);
      if |v| == 3 {
        assert v[2..] == [v[2]] && [v[2]][1..] == [];
        assert NumberOfSextets(h, [v[2]]) == NumberOfSextets(h * 64 + v[2], []);
      } else if |v| == 4 {
        SextetByTwo(h, v[2..]);
      }
    }
  }

  lemma PaddingSpellsNothing(a: Alphabet, high: nat)
    ensures NumberOfSymbols(a, high, "=") == NumberOfSymbols(a, high, "==") == high
  {
    assert "=="[1..] == "=" && "="[1..] == "";
    assert NumberOfSymbols(a, high, "") == high && NumberOfSymbols(a, high, "=") == high;
  }

  lemma OneByteSpells(a: Alphabet, high: nat, x: Byte)
    ensures NumberOfSymbols(a, high, Encode(a, [x])) == NumberOfBytes(high, [x]) * 16
  {
    var v := Sextets(x, 0, 0)[..2];
    assert Encode(a, [x]) == Spell(a, v) + "==";
    SpelledNumber(a, high, v, "==");
    SextetNumbers(high, v);
    assert [x][1..] == [];
    PaddingSpellsNothing(a, NumberOfSextets(high, v));
    assert NumberOfBytes(high, [x]) == NumberOfBytes(high * 256 + x, []);
  }

  lemma TwoBytesSpell(a: Alphabet, high: nat, x: Byte, y: Byte)
    ensures NumberOfSymbols(a, high, Encode(a, [x, y])) == NumberOfBytes(high, [x, y]) * 4
  {
    var v := Sextets(x, y, 0)[..3];
    assert Encode(a, [x, y]) == Spell(a, v) + "=";
    SpelledNumber(a, high, v, "=");
    SextetNumbers(high, v);
    PaddingSpellsNothing(a, NumberOfSextets(high, v));
    var g: nat := high * 256 + x;
    assert [x, y][1..] == [y] && [y][1..] == [];
    assert NumberOfBytes(high, [x, y]) == NumberOfBytes(g, [y]) == NumberOfBytes(g * 256 + y, []);
  }

  lemma FullQuantumSpells(a: Alphabet, high: nat, x: Byte, y: Byte, z: Byte, rest: string)
    ensures NumberOfSymbols(a, high, Spell(a, Sextets(x, y, z)) + rest) ==
            NumberOfSymbols(a, ((high * 256 + x) * 256 + y) * 256 + z, rest)
  {
    SpelledNumber(a, high, Sextets(x, y, z), rest);
    SextetNumbers(high, Sextets(x, y, z));
  }

  lemma ThreeBytesNumber(high: nat, x: seq<Byte>)
    requires |x| >= 3
    ensures NumberOfBytes(high, x) == NumberOfBytes(((high * 256 + x[0]) * 256 + x[1]) * 256 + x[2], x[3..])
  {
    var g1: nat := high * 256 + x[0];
    var g2: nat := g1 * 256 + x[1];
    assert NumberOfBytes(high, x) == NumberOfBytes(g1, x[1..]) == NumberOfBytes(g2, x[1..][1..])
        == NumberOfBytes(g2 * 256 + x[2], x[1..][1..][1..]);
    assert x[1..][1..][1..] == x[3..];
  }

  // How far the zero bits that fill up the last symbol shift the number.
  function Fill(n: nat): nat {
    if n >= 3 then Fill(n - 3) else if n == 2 then 4 else if n == 1 then 16 else 1
  }

  // The symbols spell the very number that the bytes spell, filled up with zero bits to a whole symbol.
  lemma QuantumAhead(a: Alphabet, high: nat, high': nat, x: seq<Byte>)
    requires |x| >= 3 && high' == ((high * 256 + x[0]) * 256 + x[1]) * 256 + x[2]
    ensures NumberOfSymbols(a, high, Encode(a, x)) == NumberOfSymbols(a, high', Encode(a, x[3..]))
    ensures NumberOfBytes(high, x) == NumberOfBytes(high', x[3..]) && Fill(|x|) == Fill(|x[3..]|)
  {
    FullQuantumSpells(a, high, x[0], x[1], x[2], Encode(a, x[3..]));
    ThreeBytesNumber(high, x);
  }

  lemma {:induction false} SymbolsSpellTheBytes(a: Alphabet, high: nat, x: seq<Byte>)
    ensures NumberOfSymbols(a, high, Encode(a, x)) == NumberOfBytes(high, x) * Fill(|x|)
    decreases |x|
  {
    if x == [] {
    } else if |x| == 1 {
      assert x == [x[0]];
      OneByteSpells(a, high, x[0]);
    } else if |x| == 2 {
      assert x == [x[0], x[1]];
      TwoBytesSpell(a, high, x[0], x[1]);
    } else {
      var high' := ((high * 256 + x[0]) * 256 + x[1]) * 256 + x[2];
      SymbolsSpellTheBytes(a, high', x[3..]);
      QuantumAhead(a, high, high', x);
    }
  }

  // ------------------------------------------------------------ decoding

  // Only alphabet characters, and padding in the last two places at most.
  predicate Legal(a: Alphabet, s: string, i: nat)
    requires i < |s|
  {
    Value(a, s[i]).Some? || (s[i] == '=' && |s| - 2 <= i)
  }

  predicate Accepted(a: Alphabet, s: string) {
    |s| % 4 == 0 && forall i: nat :: i < |s| ==> Legal(a, s, i)
  }

  function Padding(s: string): (n: nat)
    ensures n <= 2 && n <= |s|
  {
    (if |s| >= 1 && s[|s| - 1] == '=' then 1 else 0) + (if |s| >= 2 && s[|s| - 2] == '=' then 1 else 0)
  }

  // Padding counts as zero bits.
  function Bits(a: Alphabet, c: char): Sextet {
    if Value(a, c).Some? then Value(a, c).value else 0
  }

  function Quad(a: Alphabet, s: string): (v: seq<Sextet>)
    requires |s| >= 4
    ensures |v| == 4
  {
    [Bits(a, s[0]), Bits(a, s[1]), Bits(a, s[2]), Bits(a, s[3])]
  }

  function AllBytes(a: Alphabet, s: string): seq<Byte> {
    if |s| < 4 then [] else ThreeBytes(Quad(a, s)) + AllBytes(a, s[4..])
  }

  lemma {:induction false} AllBytesLength(a: Alphabet, s: string)
    requires |s| % 4 == 0
    ensures |AllBytes(a, s)| == |s| / 4 * 3
  {
    if s != "" {
      AllBytesLength(a, s[4..]);
      assert |s| / 4 == |s[4..]| / 4 + 1;
    }
  }

  function Decode(a: Alphabet, s: string): Option<seq<Byte>> {
    if !Accepted(a, s) then None
    else
      AllBytesLength(a, s);
      Some(AllBytes(a, s)[..|s| / 4 * 3 - Padding(s)])
  }

  // The block after j of the four symbols from i on.
  function Gathered(a: Alphabet, s: string, i: nat, j: nat): nat
    requires i + j <= |s|
  {
    if j == 0 then 0 else Gathered(a, s, i, j - 1) * 64 + Bits(a, s[i + j - 1])
  }

  lemma GatheredAll(a: Alphabet, s: string, i: nat)
    requires i + 4 <= |s|
    ensures
      var v := Quad(a, s[i..]);
      Gathered(a, s, i, 4) == (((v[0] as int) * 64 + v[1]) * 64 + v[2]) * 64 + v[3]
  {
    assert Gathered(a, s, i, 1) == Bits(a, s[i]);
    assert Gathered(a, s, i, 2) == (Bits(a, s[i]) as int) * 64 + Bits(a, s[i + 1]);
    assert Gathered(a, s, i, 3) == Gathered(a, s, i, 2) * 64 + Bits(a, s[i + 2]);
  }

  // The block of the quantum at i, unless one of its characters is out of place.
  method GatherBlock(input: string, i: nat) returns (block: Option<nat>)
    requires |input| % 4 == 0 && i % 4 == 0 && i + 4 <= |input|
    ensures block.Some? ==> block.value == Gathered(Standard, input, i, 4)
    ensures block.Some? ==> forall k: nat :: i <= k < i + 4 ==> Legal(Standard, input, k)
    ensures block.None? ==> !Accepted(Standard, input)
  {
    var gathered: nat := 0;
    for j := 0 to 4
      invariant gathered == Gathered(Standard, input, i, j)
      invariant forall k: nat :: i <= k < i + j ==> Legal(Standard, input, k)
    {
      var c := input[i + j];
      if c == '=' {
        // Padding may only stand at the end of the last quantum.
        if i + 4 != |input| || j < 2 {
          assert !Legal(Standard, input, i + j);
          return None;
        }
        gathered := gathered * 64;
      } else {
        var value := Value(Standard, c);
        if value.None? {
          assert !Legal(Standard, input, i + j);
          return None;
        }
        gathered := gathered * 64 + value.value;
      }
    }
    block := Some(gathered);
  }

  // The three bytes that the daemon takes out of a block.
  function BlockBytes(block: nat): seq<Byte> { [block / 65536 % 256, block / 256 % 256, block % 256] }

  lemma BlockDecodes(s: string, i: nat, block: nat)
    requires i + 4 <= |s| && block == Gathered(Standard, s, i, 4)
    ensures AllBytes(Standard, s[i..]) == BlockBytes(block) + AllBytes(Standard, s[i + 4..])
  {
    var v := Quad(Standard, s[i..]);
    GatheredAll(Standard, s, i);
    BlockToBytes(v[0], v[1], v[2], v[3], block);
    assert s[i..][4..] == s[i + 4..];
  }

  lemma AllRead(s: string, out: seq<Byte>, i: nat)
    requires i == |s| && AllBytes(Standard, s) == out + AllBytes(Standard, s[i..])
    ensures AllBytes(Standard, s) == out
  {
    assert s[i..] == "" && AllBytes(Standard, "") == [];
  }

  // The bytes of all quanta, padding included, unless some character is out of place.
  method DecodeQuanta(input: string) returns (bytes: Option<seq<Byte>>)
    requires |input| % 4 == 0
    ensures bytes == if Accepted(Standard, input) then Some(AllBytes(Standard, input)) else None
  {
    var out: seq<Byte> := [];
    var i := 0;
    while i < |input|
      invariant 0 <= i <= |input| && i % 4 == 0
      invariant AllBytes(Standard, input) == out + AllBytes(Standard, input[i..])
      invariant forall k: nat :: k < i ==> Legal(Standard, input, k)
    {
      var block := GatherBlock(input, i);
      if block.None? {
        return None;
      }
      BlockDecodes(input, i, block.value);
      out := out + BlockBytes(block.value);
      i := i + 4;
    }
    AllRead(input, out, i);
    bytes := Some(out);
  }

  // The daemon's decoder.
  method DecodeText(input: string) returns (out: Option<seq<Byte>>)
    ensures out == Decode(Standard, input)
  {
    if |input| % 4 != 0 {
      return None;
    }
    if input == "" {
      return Some([]);
    }
    var padding := 0;
    if input[|input| - 1] == '=' {
      padding := padding + 1;
    }
    if input[|input| - 2] == '=' {
      padding := padding + 1;
    }
    var bytes := DecodeQuanta(input);
    if bytes.None? {
      return None;
    }
    AllBytesLength(Standard, input);
    out := Some(bytes.value[..|bytes.value| - padding]);
  }

  // ------------------------------------------------------------ canonical texts

  // Padding stands at the very end only, and the bits it cuts off are zero.
  predicate Canonical(a: Alphabet, s: string) {
    && Accepted(a, s)
    && (s != "" ==>
          var n := |s|;
          && (s[n - 2] == '=' ==> s[n - 1] == '=' && Bits(a, s[n - 3]) % 16 == 0)
          && (s[n - 2] != '=' && s[n - 1] == '=' ==> Bits(a, s[n - 2]) % 4 == 0))
  }

  // A full quantum in front changes nothing but the bytes in front.
  lemma PrependQuantum(a: Alphabet, q: string, t: string)
    requires |q| == 4 && forall i :: 0 <= i < 4 ==> Value(a, q[i]).Some?
    ensures Accepted(a, q + t) <==> Accepted(a, t)
    ensures Padding(q + t) == Padding(t)
    ensures Canonical(a, q + t) <==> Canonical(a, t)
    ensures AllBytes(a, q + t) == ThreeBytes(Quad(a, q)) + AllBytes(a, t)
  {
    var s := q + t;
    assert s[4..] == t;
    AcceptedPrepend(a, q, t);
    if |t| >= 3 {
      assert s[|s| - 1] == t[|t| - 1] && s[|s| - 2] == t[|t| - 2] && s[|s| - 3] == t[|t| - 3];
    }
  }

  lemma AcceptedPrepend(a: Alphabet, q: string, t: string)
    requires |q| == 4 && forall i :: 0 <= i < 4 ==> Value(a, q[i]).Some?
    ensures Accepted(a, q + t) <==> Accepted(a, t)
  {
    var s := q + t;
    forall i: nat | i < |t|
      ensures Legal(a, t, i) <==> Legal(a, s, i + 4)
    {
      assert s[i + 4] == t[i];
    }
    if Accepted(a, t) {
      forall i: nat | i < |s|
        ensures Legal(a, s, i)
      {
        if i >= 4 { assert Legal(a, t, i - 4); }
      }
    }
  }

  lemma SpelledBits(a: Alphabet, v: seq<Sextet>)
    ensures forall i :: 0 <= i < |v| ==>
              Value(a, Spell(a, v)[i]) == Some(v[i]) && Spell(a, v)[i] != '='
  {
    forall i | 0 <= i < |v|
      ensures Value(a, Spell(a, v)[i]) == Some(v[i]) && Spell(a, v)[i] != '='
    {
      ValueInvertsSymbol(a, v[i], '=');
    }
  }

  // The first four characters of an encoding.
  lemma FirstFour(a: Alphabet, x: seq<Byte>)
    requires x != []
    ensures |Encode(a, x)| >= 4
    ensures
      var s := Encode(a, x);
      var v := Sextets(x[0], if |x| > 1 then x[1] else 0, if |x| > 2 then x[2] else 0);
      && Quad(a, s) == v
      && (forall i :: 0 <= i < 4 ==> if i <= |x| then Value(a, s[i]) == Some(v[i]) && s[i] != '=' else s[i] == '=')
      && s[4..] == Encode(a, if |x| > 3 then x[3..] else [])
  {
    var v := Sextets(x[0], if |x| > 1 then x[1] else 0, if |x| > 2 then x[2] else 0);
    var s := Encode(a, x);
    SpelledBits(a, v);
    if |x| <= 2 {
      assert s == Spell(a, v)[..|x| + 1] + s[|x| + 1..];
    } else {
      assert s == Spell(a, v) + Encode(a, x[3..]);
    }
  }

  lemma {:induction false} EncodingDecodes(a: Alphabet, x: seq<Byte>)
    ensures Canonical(a, Encode(a, x))
    ensures |AllBytes(a, Encode(a, x))| == |x| + Padding(Encode(a, x))
    ensures AllBytes(a, Encode(a, x))[..|x|] == x
    decreases |x|
  {
    if x == [] {
    } else if |x| <= 2 {
      LastBytesDecode(a, x);
    } else {
      EncodingDecodes(a, x[3..]);
      FirstThreeDecode(a, x);
      PrefixAfterThree(x, AllBytes(a, Encode(a, x[3..])));
    }
  }

  lemma FirstThreeDecode(a: Alphabet, x: seq<Byte>)
    requires |x| >= 3 && Canonical(a, Encode(a, x[3..]))
    ensures Canonical(a, Encode(a, x)) && Padding(Encode(a, x)) == Padding(Encode(a, x[3..]))
    ensures AllBytes(a, Encode(a, x)) == x[..3] + AllBytes(a, Encode(a, x[3..]))
  {
    var v := Sextets(x[0], x[1], x[2]);
    var q := Spell(a, v);
    SpelledBits(a, v);
    QuadOfSpelled(a, v);
    BytesComeBack(x[0], x[1], x[2]);
    PrependQuantum(a, q, Encode(a, x[3..]));
    assert x[..3] == [x[0], x[1], x[2]];
  }

  lemma PrefixAfterThree(x: seq<Byte>, later: seq<Byte>)
    requires |x| >= 3 && |later| >= |x| - 3 && later[..|x| - 3] == x[3..]
    ensures (x[..3] + later)[..|x|] == x
  {
    assert (x[..3] + later)[..|x|] == x[..3] + later[..|x| - 3];
  }

  lemma QuadOfSpelled(a: Alphabet, v: seq<Sextet>)
    requires |v| == 4
    ensures Quad(a, Spell(a, v)) == v
  {
    SpelledBits(a, v);
  }

  lemma LastBytesDecode(a: Alphabet, x: seq<Byte>)
    requires 1 <= |x| <= 2
    ensures Canonical(a, Encode(a, x))
    ensures |AllBytes(a, Encode(a, x))| == |x| + Padding(Encode(a, x))
    ensures AllBytes(a, Encode(a, x))[..|x|] == x
  {
    var s, y := Encode(a, x), if |x| > 1 then x[1] else 0;
    FirstFour(a, x);
    assert s[4..] == "" && |s| == 4;
    BytesComeBack(x[0], y, 0);
    assert AllBytes(a, s) == [x[0], y, 0] + [];
    forall i: nat | i < |s|
      ensures Legal(a, s, i)
    {
    }
    LowBitsClear(x[0], y);
  }

  lemma LowBitsClear(x: Byte, y: Byte)
    ensures Sextets(x, 0, 0)[1] % 16 == 0 && Sextets(x, y, 0)[2] % 4 == 0
  {
  }

  // Decoding inverts encoding, for every sequence of bytes and either alphabet.
  lemma DecodeInvertsEncode(a: Alphabet, x: seq<Byte>)
    ensures Decode(a, Encode(a, x)) == Some(x)
  {
    EncodingDecodes(a, x);
    AllBytesLength(a, Encode(a, x));
  }

  lemma SpellsItself(a: Alphabet, s: string, count: nat)
    requires count <= 4 <= |s| && forall i :: 0 <= i < count ==> Value(a, s[i]).Some?
    ensures Spell(a, Quad(a, s))[..count] == s[..count]
  {
    forall i | 0 <= i < count
      ensures Spell(a, Quad(a, s))[i] == s[i]
    {
      ValueInvertsSymbol(a, Bits(a, s[i]), s[i]);
    }
  }

  // The bytes of the text, less those that padding stands for, encode to the text.
  predicate Reencodes(a: Alphabet, s: string) {
    var all := AllBytes(a, s);
    |all| >= Padding(s) && Encode(a, all[..|all| - Padding(s)]) == s
  }

  // One canonical quantum with padding.
  lemma LastQuantumReencodes(a: Alphabet, s: string)
    requires |s| == 4 && Canonical(a, s) && Padding(s) > 0
    ensures Reencodes(a, s)
  {
    assert s[4..] == "" && AllBytes(a, s) == ThreeBytes(Quad(a, s)) + [];
    var v, n := Quad(a, s), Padding(s);
    var b := ThreeBytes(v);
    assert Legal(a, s, 0) && Legal(a, s, 1) && Legal(a, s, 2) && Legal(a, s, 3);
    SextetsComeBack(v);
    SpellsItself(a, s, 4 - n);
    if n == 2 {
      assert s == s[..2] + "==" && b[..1] == [b[0]] && Sextets(b[0], 0, 0)[..2] == v[..2];
      assert Spell(a, Sextets(b[0], 0, 0))[..2] == Spell(a, v)[..2];
    } else {
      assert s == s[..3] + "=" && b[..2] == [b[0], b[1]] && Sextets(b[0], b[1], 0)[..3] == v[..3];
      assert Spell(a, Sextets(b[0], b[1], 0))[..3] == Spell(a, v)[..3];
    }
  }

  lemma {:induction false} CanonicalTextsReencode(a: Alphabet, s: string)
    requires Canonical(a, s)
    ensures Reencodes(a, s)
    decreases |s|
  {
    if s == "" {
    } else if |s| == 4 && Padding(s) > 0 {
      LastQuantumReencodes(a, s);
    } else {
      CanonicalSplits(a, s);
      hide Reencodes, Canonical;
      CanonicalTextsReencode(a, s[4..]);
      FirstReencodes(a, s);
    }
  }

  lemma CanonicalSplits(a: Alphabet, s: string)
    requires Canonical(a, s) && s != "" && (|s| == 4 ==> Padding(s) == 0)
    ensures s == s[..4] + s[4..] && forall i :: 0 <= i < 4 ==> Value(a, s[i]).Some?
    ensures Canonical(a, s[4..]) && Padding(s) == Padding(s[4..])
  {
    var q, t := s[..4], s[4..];
    forall i: nat | i < 4
      ensures Value(a, q[i]).Some? && q[i] == s[i]
    {
      assert Legal(a, s, i);
    }
    assert s == q + t;
    PrependQuantum(a, q, t);
  }

  lemma EncodeAhead(a: Alphabet, first: seq<Byte>, rest: seq<Byte>)
    requires |first| == 3
    ensures Encode(a, first + rest) == Spell(a, Sextets(first[0], first[1], first[2])) + Encode(a, rest)
  {
    assert (first + rest)[3..] == rest;
  }

  lemma FirstReencodes(a: Alphabet, s: string)
    requires |s| >= 4 && forall i :: 0 <= i < 4 ==> Value(a, s[i]).Some?
    requires Padding(s) == Padding(s[4..]) && Reencodes(a, s[4..])
    ensures Reencodes(a, s)
  {
    var first, later := ThreeBytes(Quad(a, s)), AllBytes(a, s[4..]);
    var n := |later| - Padding(s);
    assert AllBytes(a, s) == first + later && (first + later)[..3 + n] == first + later[..n];
    hide AllBytes, Encode, Padding, ThreeBytes, Sextets;
    EncodeAhead(a, first, later[..n]);
    SextetsComeBack(Quad(a, s));
    SpellsItself(a, s, 4);
    var spelt := Spell(a, Quad(a, s));
    assert spelt == spelt[..4] == s[..4] && s == s[..4] + s[4..];
  }

  lemma CanonicalRoundTrip(a: Alphabet, s: string)
    requires Canonical(a, s)
    ensures Encode(a, Decode(a, s).value) == s
  {
    CanonicalTextsReencode(a, s);
    AllBytesLength(a, s);
  }

  // The texts that some bytes encode to are exactly the canonical ones.
  lemma EncodingsAreExactlyCanonical(a: Alphabet, s: string)
    ensures Canonical(a, s) <==> exists x :: Encode(a, x) == s
    ensures Canonical(a, s) <==> Decode(a, s).Some? && Encode(a, Decode(a, s).value) == s
  {
    if Canonical(a, s) {
      CanonicalRoundTrip(a, s);
    } else if x :| Encode(a, x) == s {
      EncodingDecodes(a, x);
    }
  }

  // The decoder accepts more than that, against its own description: bits under the padding may be set, and
  // one padding character may stand before the last symbol.
  lemma DecoderIsNotStrict()
    ensures Decode(Standard, "AAE=") == Some([0, 1]) == Decode(Standard, "AAF=")
    ensures Decode(Standard, "AA=A") == Some([0, 0]) == Decode(Standard, "AAA=")
    ensures !Canonical(Standard, "AAF=") && !Canonical(Standard, "AA=A")
  {
    OneQuantum("AAE=");
    OneQuantum("AAF=");
    OneQuantum("AA=A");
    OneQuantum("AAA=");
    assert ThreeBytes([0, 0, 4, 0])[..2] == [0, 1] && ThreeBytes([0, 0, 5, 0])[..2] == [0, 1];
    assert ThreeBytes([0, 0, 0, 0])[..2] == [0, 0];
  }

  lemma OneQuantum(s: string)
    requires |s| == 4 && forall i: nat :: i < 4 ==> Legal(Standard, s, i)
    ensures Decode(Standard, s) == Some(ThreeBytes(Quad(Standard, s))[..3 - Padding(s)])
  {
    assert s[4..] == "" && AllBytes(Standard, "") == [];
    assert AllBytes(Standard, s) == ThreeBytes(Quad(Standard, s));
    assert Accepted(Standard, s) && |s| / 4 * 3 == 3;
  }
}
