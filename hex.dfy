/**
 * The `%x` verb of Go's fmt package applied to a byte slice: every byte
 * becomes two lower-case hexadecimal digits, most significant nibble first.
 * FromHex is the partner parser used to show that the rendering loses nothing.
 */
module Hex {
  import opened Optional
  import opened Bytes

  /** A lower-case hexadecimal digit, the only kind `%x` produces. */
  predicate IsHexChar(c: char) {
    ('0' <= c <= '9') || ('a' <= c <= 'f')
  }

  function HexDigit(n: nat): (c: char)
    requires n < 16
    ensures IsHexChar(c)
  {
    if n < 10 then ('0' as int + n) as char else ('a' as int + n - 10) as char
  }

  function DigitValue(c: char): (n: nat)
    requires IsHexChar(c)
    ensures n < 16 && HexDigit(n) == c
  {
    if c <= '9' then (c as int - '0' as int) else (c as int - 'a' as int + 10)
  }

  lemma DigitValueOfHexDigit(n: nat)
    requires n < 16
    ensures DigitValue(HexDigit(n)) == n
  {
  }

  /** The two digits of one byte. */
  function ByteHex(b: byte): string {
    [HexDigit(b as int / 16), HexDigit(b as int % 16)]
  }

  /** `fmt.Sprintf("%x", bs)`. */
  function ToHex(bs: seq<byte>): (s: string)
    ensures |s| == 2 * |bs|
    ensures forall i :: 0 <= i < |s| ==> IsHexChar(s[i])
  {
    if bs == [] then "" else ByteHex(bs[0]) + ToHex(bs[1..])
  }

  /** Reads back an even-length string of lower-case hexadecimal digits. */
  function FromHex(s: string): (r: Option<seq<byte>>)
    ensures r.Some? ==> 2 * |r.value| == |s|
    ensures r.Some? <==> |s| % 2 == 0 && forall i :: 0 <= i < |s| ==> IsHexChar(s[i])
    decreases |s|
  {
    if s == [] then Some([])
    else if |s| == 1 || !IsHexChar(s[0]) || !IsHexChar(s[1]) then None
    else
      match FromHex(s[2..])
      case None => None
      case Some(rest) => Some([(DigitValue(s[0]) * 16 + DigitValue(s[1])) as byte] + rest)
  }

  lemma ByteHexValue(b: byte)
    ensures (DigitValue(ByteHex(b)[0]) * 16 + DigitValue(ByteHex(b)[1])) as byte == b
  {
    DigitValueOfHexDigit(b as int / 16);
    DigitValueOfHexDigit(b as int % 16);
  }

  /** Parsing the rendering of any byte string gives that byte string back. */
  lemma {:induction false} FromHexToHex(bs: seq<byte>)
    ensures FromHex(ToHex(bs)) == Some(bs)
  {
    if bs != [] {
      var s := ToHex(bs);
      assert s[2..] == ToHex(bs[1..]);
      FromHexToHex(bs[1..]);
      ByteHexValue(bs[0]);
      assert [bs[0]] + bs[1..] == bs;
    }
  }

  lemma DivMod16(hi: nat, lo: nat)
    requires hi < 16 && lo < 16
    ensures (hi * 16 + lo) / 16 == hi && (hi * 16 + lo) % 16 == lo
  {
  }

  lemma ByteHexOfDigits(c0: char, c1: char)
    requires IsHexChar(c0) && IsHexChar(c1)
    ensures ByteHex((DigitValue(c0) * 16 + DigitValue(c1)) as byte) == [c0, c1]
  {
    var hi, lo := DigitValue(c0), DigitValue(c1);
    var n := hi * 16 + lo;
    DivMod16(hi, lo);
  }

  /** Every string the parser accepts is the rendering of what it returns. */
  lemma {:induction false} ToHexFromHex(s: string)
    requires FromHex(s).Some?
    ensures ToHex(FromHex(s).value) == s
  {
    if s != [] {
      var bs := FromHex(s).value;
      ToHexFromHex(s[2..]);
      ByteHexOfDigits(s[0], s[1]);
      assert bs == [bs[0]] + FromHex(s[2..]).value;
      assert s == [s[0], s[1]] + s[2..];
    }
  }

  /** Distinct byte strings never render to the same text. */
  lemma ToHexInjective(a: seq<byte>, b: seq<byte>)
    ensures ToHex(a) == ToHex(b) <==> a == b
  {
    if ToHex(a) == ToHex(b) {
      FromHexToHex(a);
      FromHexToHex(b);
    }
  }
}
