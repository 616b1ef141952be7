/** The parser's identifier checks: `isValidIdentifier`, which is meant to
    accept exactly the well-formed UTF-8 names of section 5.2.4 of the
    WebAssembly Core Specification 2.0, modelled as written; the intended
    UTF-8 check with the encoding it inverts; and `isValidIdentifierChar`. */
module ParserUtils {
  import opened Wrappers

  /** A byte as `getByte` reads it: `b & 0xFF`. */
  type Byte = b: int | 0 <= b < 0x100

  /** A Java `char`: a UTF-16 code unit. */
  type JavaChar = c: int | 0 <= c < 0x1_0000

  /** `2 ^ x` on a Java `long`: bit 1 of the two's-complement `x` flipped. */
  function XorTwo(x: int): (r: int)
    ensures r == x + 2 || r == x - 2
    ensures r / 4 == x / 4 && r % 2 == x % 2 && (r / 2) % 2 != (x / 2) % 2
  {
    if (x / 2) % 2 == 0 then x + 2 else x - 2
  }

  /** The byte at `i`, or `None` where reading `bytes[i]` throws
      ArrayIndexOutOfBoundsException. */
  function At(bytes: seq<Byte>, i: int): (r: Option<Byte>)
    ensures r.Some? <==> 0 <= i < |bytes|
    ensures r.Some? ==> r.value == bytes[i]
  {
    if 0 <= i < |bytes| then Some(bytes[i]) else None
  }

  // ---------------------------------------------------------------------------
  // isValidIdentifier as written
  // ---------------------------------------------------------------------------

  /** What the loop of `isValidIdentifier` does from position `i` on: a byte
      below 0x80 is skipped; any other byte is read again as the "second"
      byte, so one at or above 0xC0 rejects; one in 0x80..0xBF needs the next
      byte to exist and be below 0xC0, and scanning resumes three positions on. */
  function ScanAsWritten(bytes: seq<Byte>, i: nat): (r: bool)
    ensures (forall k :: i <= k < |bytes| ==> bytes[k] < 0x80) ==> r
    ensures i < |bytes| && bytes[i] >= 0xC0 ==> !r
    decreases |bytes| - i
  {
    if i >= |bytes| then true
    else if bytes[i] < 0x80 then ScanAsWritten(bytes, i + 1)
    else if bytes[i] >= 0xC0 then false
    else if i + 1 >= |bytes| then false
    else if bytes[i + 1] >= 0xC0 then false
    else ScanAsWritten(bytes, i + 3)
  }

  /** The verdict of `isValidIdentifier`. */
  function AcceptedAsWritten(bytes: seq<Byte>): (r: bool)
    ensures |bytes| == 0 ==> !r
    ensures |bytes| > 0 && (forall k :: 0 <= k < |bytes| ==> bytes[k] < 0x80) ==> r
    ensures |bytes| > 0 && bytes[0] >= 0xC0 ==> !r
  {
    |bytes| > 0 && ScanAsWritten(bytes, 0)
  }

  /** `isValidIdentifier`, statement by statement: `bytes[i++]` reads the
      byte at `i` and then advances `i`, `^` binds looser than `*` and `+`,
      and a read past the end returns `false`. */
  method IsValidIdentifier(bytes: seq<Byte>) returns (r: bool)
    ensures r == AcceptedAsWritten(bytes)
  {
    if |bytes| <= 0 {
      return false;
    }
    var i := 0;
    while i < |bytes|
      invariant 0 <= i
      invariant ScanAsWritten(bytes, i) == ScanAsWritten(bytes, 0)
      decreases |bytes| - i
    {
      var c: int := bytes[i];
      if c < 0x80 {
        i := i + 1;
        continue;
      }
      var b1 := c;
      var b2: int := bytes[i];
      i := i + 1;
      if b2 >= 0xC0 {
        return false;
      }
      var c1 := XorTwo(6 * (b1 - 0xC0) + (b2 - 0x80));
      if c1 > 0x800 {
        i := i + 1;
        continue;
      }
      match At(bytes, i)
      case None =>
        return false;
      case Some(b3) =>
        i := i + 1;
        if b3 >= 0xC0 {
          return false;
        }
        var c2 := XorTwo(12 * (b1 - 0xE0)) + XorTwo(6 * (b2 - 0x80)) + (b2 - 0x80);
        if 0xD800 <= c2 <= 0xE000 {
          return false;
        } else if c < 0x1_0000 {
          i := i + 1;
          continue;
        } else {
          match At(bytes, i)
          case None =>
            return false;
          case Some(b4) =>
            i := i + 1;
            if b4 >= 0xC0 {
              return false;
            }
            var c3 := XorTwo(16 * (b1 - 0xF0)) + XorTwo(12 * (b2 - 0x80)) + XorTwo(5 * (b3 as int - 0x80)) + (b4 as int - 0x80);
            if c3 >= 0x11_0000 {
              return false;
            }
            i := i + 1;
        }
    }
    return true;
  }

  // ---------------------------------------------------------------------------
  // UTF-8 (Table 3-7 of the Unicode Standard)
  // ---------------------------------------------------------------------------

  /** A Unicode scalar value: a code point that is not a surrogate. */
  predicate IsScalar(cp: int) {
    0 <= cp <= 0x10_FFFF && !(0xD800 <= cp <= 0xDFFF)
  }

  predicate IsContinuation(b: int) {
    0x80 <= b <= 0xBF
  }

  /** The length of the sequence a lead byte starts; 0 for a byte that
      starts none (a continuation byte, 0xC0, 0xC1, 0xF5..0xFF). */
  function LeadLength(b: Byte): (r: nat)
    ensures r <= 4
  {
    if b < 0x80 then 1
    else if 0xC2 <= b <= 0xDF then 2
    else if 0xE0 <= b <= 0xEF then 3
    else if 0xF0 <= b <= 0xF4 then 4
    else 0
  }

  /** The range of the second byte after a lead byte. */
  function SecondLow(b: Byte): int {
    if b == 0xE0 then 0xA0 else if b == 0xF0 then 0x90 else 0x80
  }

  function SecondHigh(b: Byte): int {
    if b == 0xED then 0x9F else if b == 0xF4 then 0x8F else 0xBF
  }

  /** One well-formed UTF-8 code unit sequence. */
  predicate ValidSequence(u: seq<Byte>) {
    |u| >= 1 && |u| == LeadLength(u[0])
    && (|u| >= 2 ==> SecondLow(u[0]) <= u[1] <= SecondHigh(u[0]))
    && (|u| >= 3 ==> IsContinuation(u[2]))
    && (|u| >= 4 ==> IsContinuation(u[3]))
  }

  /** Well-formed UTF-8: a concatenation of well-formed sequences. */
  predicate WellFormed(s: seq<Byte>)
    decreases |s|
  {
    s == [] || (var k := LeadLength(s[0]); 0 < k <= |s| && ValidSequence(s[..k]) && WellFormed(s[k..]))
  }

  /** The UTF-8 encoding of a scalar value. */
  function EncodeScalar(cp: int): (r: seq<Byte>)
    requires IsScalar(cp)
    ensures 1 <= |r| <= 4
  {
    if cp < 0x80 then [cp]
    else if cp < 0x800 then [0xC0 + cp / 0x40, 0x80 + cp % 0x40]
    else if cp < 0x1_0000 then [0xE0 + cp / 0x1000, 0x80 + (cp / 0x40) % 0x40, 0x80 + cp % 0x40]
    else [0xF0 + cp / 0x4_0000, 0x80 + (cp / 0x1000) % 0x40, 0x80 + (cp / 0x40) % 0x40, 0x80 + cp % 0x40]
  }

  /** The scalar value one well-formed sequence encodes. */
  function DecodeSequence(u: seq<Byte>): int
    requires ValidSequence(u)
  {
    var b0, b1, b2, b3 := u[0] as int, if |u| > 1 then u[1] as int else 0,
                          if |u| > 2 then u[2] as int else 0, if |u| > 3 then u[3] as int else 0;
    if |u| == 1 then b0
    else if |u| == 2 then (b0 - 0xC0) * 0x40 + (b1 - 0x80)
    else if |u| == 3 then (b0 - 0xE0) * 0x1000 + (b1 - 0x80) * 0x40 + (b2 - 0x80)
    else (b0 - 0xF0) * 0x4_0000 + (b1 - 0x80) * 0x1000 + (b2 - 0x80) * 0x40 + (b3 - 0x80)
  }

  predicate AllScalars(cps: seq<int>) {
    forall k :: 0 <= k < |cps| ==> IsScalar(cps[k])
  }

  /** The UTF-8 encoding of a sequence of scalar values. */
  function Encode(cps: seq<int>): seq<Byte>
    requires AllScalars(cps)
    decreases |cps|
  {
    if cps == [] then [] else EncodeScalar(cps[0]) + Encode(cps[1..])
  }

  /** The scalar values a well-formed byte sequence encodes. */
  function Decode(s: seq<Byte>): seq<int>
    requires WellFormed(s)
    decreases |s|
  {
    if s == [] then [] else var k := LeadLength(s[0]); [DecodeSequence(s[..k])] + Decode(s[k..])
  }

  lemma EncodeTwo(cp: int)
    requires IsScalar(cp) && 0x80 <= cp < 0x800
    ensures var u := EncodeScalar(cp); ValidSequence(u) && DecodeSequence(u) == cp
  {
    var u := EncodeScalar(cp);
    assert cp == (cp / 0x40) * 0x40 + cp % 0x40;
    assert 2 <= cp / 0x40 < 0x20;
    assert LeadLength(u[0]) == 2;
  }

  lemma EncodeThree(cp: int)
    requires IsScalar(cp) && 0x800 <= cp < 0x1_0000
    ensures var u := EncodeScalar(cp); ValidSequence(u) && DecodeSequence(u) == cp
  {
    var u := EncodeScalar(cp);
    var hi, mid, lo := cp / 0x1000, (cp / 0x40) % 0x40, cp % 0x40;
    assert cp / 0x40 == hi * 0x40 + mid;
    assert cp == (cp / 0x40) * 0x40 + lo;
    assert cp == hi * 0x1000 + mid * 0x40 + lo;
    assert hi == 0 ==> mid >= 0x20;
    assert hi == 0xD ==> mid < 0x20;
    assert LeadLength(u[0]) == 3;
  }

  lemma EncodeFour(cp: int)
    requires IsScalar(cp) && 0x1_0000 <= cp
    ensures var u := EncodeScalar(cp); ValidSequence(u) && DecodeSequence(u) == cp
  {
    var u := EncodeScalar(cp);
    var hi, b1, b2, lo := cp / 0x4_0000, (cp / 0x1000) % 0x40, (cp / 0x40) % 0x40, cp % 0x40;
    assert cp / 0x1000 == hi * 0x40 + b1;
    assert cp / 0x40 == (cp / 0x1000) * 0x40 + b2;
    assert cp == (cp / 0x40) * 0x40 + lo;
    assert cp == hi * 0x4_0000 + b1 * 0x1000 + b2 * 0x40 + lo;
    assert hi == 0 ==> b1 >= 0x10;
    assert hi == 4 ==> b1 < 0x10;
    assert LeadLength(u[0]) == 4;
  }

  /** A scalar value encodes to one well-formed sequence that decodes back to it. */
  lemma EncodeScalarValid(cp: int)
    requires IsScalar(cp)
    ensures var u := EncodeScalar(cp); ValidSequence(u) && DecodeSequence(u) == cp
  {
    if cp < 0x80 {
    } else if cp < 0x800 {
      EncodeTwo(cp);
    } else if cp < 0x1_0000 {
      EncodeThree(cp);
    } else {
      EncodeFour(cp);
    }
  }

  lemma DecodeTwo(u: seq<Byte>)
    requires ValidSequence(u) && |u| == 2
    ensures IsScalar(DecodeSequence(u)) && EncodeScalar(DecodeSequence(u)) == u
  {
    var cp := DecodeSequence(u);
    assert 0x80 <= cp < 0x800;
    assert cp / 0x40 == u[0] as int - 0xC0 && cp % 0x40 == u[1] as int - 0x80;
  }

  lemma DecodeThree(u: seq<Byte>)
    requires ValidSequence(u) && |u| == 3
    ensures IsScalar(DecodeSequence(u)) && EncodeScalar(DecodeSequence(u)) == u
  {
    var cp := DecodeSequence(u);
    var a: int, b: int, c: int := u[0] as int - 0xE0, u[1] as int - 0x80, u[2] as int - 0x80;
    assert cp == (a * 0x40 + b) * 0x40 + c;
    assert cp % 0x40 == c && cp / 0x40 == a * 0x40 + b;
    assert (cp / 0x40) % 0x40 == b && (cp / 0x40) / 0x40 == a;
    assert cp / 0x1000 == a;
    assert 0x800 <= cp < 0x1_0000;
  }

  lemma DecodeFour(u: seq<Byte>)
    requires ValidSequence(u) && |u| == 4
    ensures IsScalar(DecodeSequence(u)) && EncodeScalar(DecodeSequence(u)) == u
  {
    var cp := DecodeSequence(u);
    var a: int, b: int, c: int, d: int := u[0] as int - 0xF0, u[1] as int - 0x80, u[2] as int - 0x80, u[3] as int - 0x80;
    var q := (a * 0x40 + b) * 0x40 + c;
    assert cp == q * 0x40 + d;
    assert cp % 0x40 == d && cp / 0x40 == q;
    assert q % 0x40 == c && q / 0x40 == a * 0x40 + b;
    assert cp / 0x1000 == q / 0x40;
    assert (cp / 0x1000) % 0x40 == b && (cp / 0x1000) / 0x40 == a;
    assert cp / 0x4_0000 == (cp / 0x1000) / 0x40;
    assert 0x1_0000 <= cp <= 0x10_FFFF;
  }

  /** A well-formed sequence decodes to a scalar value that encodes back to it. */
  lemma DecodeSequenceValid(u: seq<Byte>)
    requires ValidSequence(u)
    ensures IsScalar(DecodeSequence(u)) && EncodeScalar(DecodeSequence(u)) == u
  {
    if |u| == 1 {
      assert EncodeScalar(u[0]) == [u[0]];
    } else if |u| == 2 {
      DecodeTwo(u);
    } else if |u| == 3 {
      DecodeThree(u);
    } else {
      DecodeFour(u);
    }
  }

  /** Encoding yields well-formed UTF-8, and decoding inverts it. */
  lemma {:induction false} EncodeDecode(cps: seq<int>)
    requires AllScalars(cps)
    ensures WellFormed(Encode(cps)) && Decode(Encode(cps)) == cps
    decreases |cps|
  {
    if cps != [] {
      var u := EncodeScalar(cps[0]);
      var s := Encode(cps);
      EncodeScalarValid(cps[0]);
      EncodeDecode(cps[1..]);
      assert s == u + Encode(cps[1..]);
      assert s[0] == u[0] && s[..|u|] == u && s[|u|..] == Encode(cps[1..]);
      assert Decode(s) == [cps[0]] + cps[1..];
    }
  }

  /** Every well-formed byte sequence is the encoding of the scalar values it decodes to. */
  lemma {:induction false} DecodeEncode(s: seq<Byte>)
    requires WellFormed(s)
    ensures AllScalars(Decode(s)) && Encode(Decode(s)) == s
    decreases |s|
  {
    if s != [] {
      var k := LeadLength(s[0]);
      DecodeSequenceValid(s[..k]);
      DecodeEncode(s[k..]);
      var cps := Decode(s);
      assert cps == [DecodeSequence(s[..k])] + Decode(s[k..]);
      assert cps[1..] == Decode(s[k..]);
      assert s == s[..k] + s[k..];
    }
  }

  /** The name check as intended: a non-empty, well-formed UTF-8 byte sequence. */
  method IsValidName(bytes: seq<Byte>) returns (r: bool)
    ensures r == (|bytes| > 0 && WellFormed(bytes))
  {
    if |bytes| == 0 {
      return false;
    }
    var i := 0;
    while i < |bytes|
      invariant 0 <= i <= |bytes|
      invariant WellFormed(bytes[i..]) == WellFormed(bytes)
    {
      var b0 := bytes[i];
      var k := LeadLength(b0);
      assert bytes[i..][0] == b0;
      if k == 0 || i + k > |bytes| {
        return false;
      }
      assert bytes[i..][..k] == bytes[i..i + k];
      assert bytes[i..][k..] == bytes[i + k..];
      if k >= 2 && !(SecondLow(b0) <= bytes[i + 1] <= SecondHigh(b0)) {
        return false;
      }
      if k >= 3 && !IsContinuation(bytes[i + 2]) {
        return false;
      }
      if k == 4 && !IsContinuation(bytes[i + 3]) {
        return false;
      }
      i := i + k;
    }
    return true;
  }

  // ---------------------------------------------------------------------------
  // Where the two checks part
  // ---------------------------------------------------------------------------

  /** As written, the encoding of a single character from U+0080 on is
      rejected (it starts with a byte from 0xC2 on), while the stray
      continuation byte in [0x80, 0x41] passes. `AsWrittenRejectsNonAscii`
      extends the rejection to every well-formed name with such a character. */
  lemma AsWrittenRejectsMultiByte(cp: int)
    requires IsScalar(cp) && cp >= 0x80
    ensures !AcceptedAsWritten(EncodeScalar(cp))
    ensures WellFormed(EncodeScalar(cp))
    ensures AcceptedAsWritten([0x80, 0x41]) && !WellFormed([0x80, 0x41])
  {
    var u := EncodeScalar(cp);
    EncodeScalarValid(cp);
    assert u[..|u|] == u && u[|u|..] == [];
    var s: seq<Byte> := [0x80, 0x41];
    assert ScanAsWritten(s, 3);
    assert LeadLength(s[0]) == 0;
  }

  /** As written, no well-formed name holding a byte from 0x80 on is accepted:
      the first such byte is a lead byte from 0xC2 on, which the scan rejects. */
  lemma AsWrittenRejectsNonAscii(bytes: seq<Byte>, k: nat)
    requires WellFormed(bytes) && k < |bytes| && bytes[k] >= 0x80
    ensures !AcceptedAsWritten(bytes)
  {
    assert bytes[0..] == bytes;
    ScanRejectsNonAscii(bytes, 0, k);
  }

  lemma {:induction false} ScanRejectsNonAscii(bytes: seq<Byte>, i: nat, k: nat)
    requires i <= k < |bytes| && bytes[k] >= 0x80 && WellFormed(bytes[i..])
    ensures !ScanAsWritten(bytes, i)
    decreases |bytes| - i
  {
    if bytes[i] < 0x80 {
      assert bytes[i..][1..] == bytes[i + 1..];
      ScanRejectsNonAscii(bytes, i + 1, k);
    }
  }

  /** On ASCII the two checks agree. */
  lemma {:induction false} AsciiAgrees(bytes: seq<Byte>)
    requires forall k :: 0 <= k < |bytes| ==> bytes[k] < 0x80
    ensures AcceptedAsWritten(bytes) == (|bytes| > 0 && WellFormed(bytes))
    decreases |bytes|
  {
    if bytes != [] {
      AsciiAgrees(bytes[1..]);
      assert bytes[..1] == [bytes[0]];
    }
  }

  // ---------------------------------------------------------------------------
  // isValidIdentifierChar
  // ---------------------------------------------------------------------------

  /** `isValidIdentifierChar`: a UTF-16 code unit that is a scalar value up to U+FFFC. */
  function IsValidIdentifierChar(ch: JavaChar): (r: bool)
    ensures r <==> IsScalar(ch) && ch <= 0xFFFC
  {
    (0x0000 <= ch <= 0xD7FF) || (0xE000 <= ch <= 0xFFFC)
  }

  /** A valid identifier character encodes to a name of one to three bytes
      that the intended check accepts. */
  lemma IdentifierCharEncodes(ch: JavaChar)
    requires IsValidIdentifierChar(ch)
    ensures 1 <= |EncodeScalar(ch)| <= 3
    ensures WellFormed(EncodeScalar(ch)) && Decode(EncodeScalar(ch)) == [ch]
  {
    EncodeDecode([ch]);
    assert Encode([ch]) == EncodeScalar(ch) + [];
    assert EncodeScalar(ch) + [] == EncodeScalar(ch);
  }
}
