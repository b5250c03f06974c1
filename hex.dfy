/**
 * Hex text: the `hex` crate's `decode`, `format!("{:02x}")` encoding, and ethers'
 * `Bytes::from_str`, which allows one leading "0x".
 */
module Hex {
  import opened Types
  import opened Strings

  /** A lower-case hex digit. */
  function Digit(n: int): char
    requires 0 <= n < 16
  {
    if n < 10 then ('0' as int + n) as char else ('a' as int + n - 10) as char
  }

  /** The value of a hex digit of either case. */
  function Nibble(c: char): Option<int>
  {
    if '0' <= c <= '9' then Some(c as int - '0' as int)
    else if 'a' <= c <= 'f' then Some(c as int - 'a' as int + 10)
    else if 'A' <= c <= 'F' then Some(c as int - 'A' as int + 10)
    else None
  }

  predicate IsHexDigits(s: string)
  {
    forall i :: 0 <= i < |s| ==> Nibble(s[i]).Some?
  }

  /** The two lower-case digits of every byte, most significant first, no prefix. */
  function Encode(b: Bytes): (s: string)
    ensures |s| == 2 * |b|
  {
    if b == [] then [] else [Digit(b[0] as int / 16), Digit(b[0] as int % 16)] + Encode(b[1..])
  }

  /** `hex::FromHexError` */
  datatype HexError = OddLength | InvalidHexCharacter(c: char, index: nat)

  datatype Decoded = Decoded(bytes: Bytes) | BadHex(error: HexError)

  /** Decodes digit pairs; `offset` is the position of `s` in the whole text, for errors. */
  function DecodePairs(s: string, offset: nat): Decoded
    requires |s| % 2 == 0
    decreases |s|
  {
    if s == [] then Decoded([])
    else if Nibble(s[0]).None? then BadHex(InvalidHexCharacter(s[0], offset))
    else if Nibble(s[1]).None? then BadHex(InvalidHexCharacter(s[1], offset + 1))
    else
      var rest := DecodePairs(s[2..], offset + 2);
      if rest.BadHex? then rest
      else Decoded([(Nibble(s[0]).value * 16 + Nibble(s[1]).value) as byte] + rest.bytes)
  }

  /** `hex::decode`: an odd length first, else the first character that is not a digit. */
  function Decode(s: string): Decoded
  {
    if |s| % 2 != 0 then BadHex(OddLength) else DecodePairs(s, 0)
  }

  /** ethers `Bytes::from_str`: one optional "0x", then `hex::decode`. */
  function ParseBytes(s: string): Decoded
  {
    if StartsWith(s, "0x") then Decode(s[2..]) else Decode(s)
  }

  /** The display text of a `hex::FromHexError` (character escapes are not modelled). */
  function ErrorText(e: HexError): string
  {
    match e
    case OddLength => "Odd number of digits"
    case InvalidHexCharacter(c, index) =>
      "Invalid character '" + [c] + "' at position " + NatText(index)
  }

  lemma NibbleDigit(n: int)
    requires 0 <= n < 16
    ensures Nibble(Digit(n)) == Some(n)
  {
  }

  lemma DigitNibble(c: char)
    requires Nibble(c).Some?
    ensures 0 <= Nibble(c).value < 16 && Digit(Nibble(c).value) == LowerChar(c)
  {
  }

  /** Decoding the encoding of any bytes gives them back. */
  lemma {:induction false} DecodePairsEncode(b: Bytes, offset: nat)
    ensures DecodePairs(Encode(b), offset) == Decoded(b)
  {
    if b != [] {
      var s := Encode(b);
      var x := b[0] as int;
      NibbleDigit(x / 16);
      NibbleDigit(x % 16);
      assert s[2..] == Encode(b[1..]);
      DecodePairsEncode(b[1..], offset + 2);
      assert [b[0]] + b[1..] == b;
    }
  }

  lemma {:induction false} DecodeEncode(b: Bytes)
    ensures Decode(Encode(b)) == Decoded(b)
  {
    var s := Encode(b);
    assert |s| == 2 * |b|;
    assert |s| % 2 == 0;
    DecodePairsEncode(b, 0);
  }

  /** The display form ethers gives bytes parses back to the same bytes. */
  lemma ParseDisplayed(b: Bytes)
    ensures ParseBytes("0x" + Encode(b)) == Decoded(b)
  {
    var s := "0x" + Encode(b);
    assert StartsWith(s, "0x");
    assert s[2..] == Encode(b);
    DecodeEncode(b);
  }

  /** What decodes successfully is, up to letter case, the encoding of what it decodes to. */
  lemma {:induction false} EncodeDecodePairs(s: string, offset: nat)
    requires |s| % 2 == 0
    requires DecodePairs(s, offset).Decoded?
    ensures Encode(DecodePairs(s, offset).bytes) == ToLower(s)
    decreases |s|
  {
    if s != [] {
      var hi, lo := Nibble(s[0]).value, Nibble(s[1]).value;
      DigitNibble(s[0]);
      DigitNibble(s[1]);
      var x := hi * 16 + lo;
      assert x / 16 == hi && x % 16 == lo;
      EncodeDecodePairs(s[2..], offset + 2);
      var b := DecodePairs(s, offset).bytes;
      assert b == [x as byte] + DecodePairs(s[2..], offset + 2).bytes;
      assert b[1..] == DecodePairs(s[2..], offset + 2).bytes;
      assert ToLower(s) == [LowerChar(s[0]), LowerChar(s[1])] + ToLower(s[2..]);
    }
  }

  lemma EncodeDecode(s: string)
    requires Decode(s).Decoded?
    ensures Encode(Decode(s).bytes) == ToLower(s)
  {
    EncodeDecodePairs(s, 0);
  }

  /** A successful decode does not depend on where the text started. */
  lemma {:induction false} DecodePairsOffset(s: string, offset: nat, other: nat)
    requires |s| % 2 == 0
    requires DecodePairs(s, offset).Decoded?
    ensures DecodePairs(s, other) == DecodePairs(s, offset)
    decreases |s|
  {
    if s != [] {
      DecodePairsOffset(s[2..], offset + 2, other + 2);
    }
  }

  /** A successful decode yields one byte per digit pair. */
  lemma {:induction false} DecodePairsLength(s: string, offset: nat)
    requires |s| % 2 == 0
    requires DecodePairs(s, offset).Decoded?
    ensures |DecodePairs(s, offset).bytes| == |s| / 2
    decreases |s|
  {
    if s != [] {
      DecodePairsLength(s[2..], offset + 2);
    }
  }

  /** Dropping 2k leading digits of a decodable text drops k leading bytes. */
  lemma {:induction false} DecodePairsDrop(s: string, offset: nat, k: nat)
    requires |s| % 2 == 0 && 2 * k <= |s|
    requires DecodePairs(s, offset).Decoded?
    ensures DecodePairs(s[2 * k..], offset + 2 * k).Decoded?
    ensures |DecodePairs(s, offset).bytes| == |s| / 2
    ensures DecodePairs(s[2 * k..], offset + 2 * k).bytes == DecodePairs(s, offset).bytes[k..]
    decreases k
  {
    DecodePairsLength(s, offset);
    if k > 0 {
      var b := DecodePairs(s, offset).bytes;
      var tail := DecodePairs(s[2..], offset + 2);
      assert tail.Decoded? && b[1..] == tail.bytes;
      DecodePairsDrop(s[2..], offset + 2, k - 1);
      assert s[2..][2 * (k - 1)..] == s[2 * k..];
      assert b[1..][k - 1..] == b[k..];
    }
  }

  /** `hex::decode(&text[2k..])` of a decodable text is its decoding less k bytes. */
  lemma DecodeDrop(s: string, k: nat)
    requires Decode(s).Decoded? && 2 * k <= |s|
    ensures Decode(s[2 * k..]).Decoded?
    ensures |Decode(s).bytes| == |s| / 2
    ensures Decode(s[2 * k..]).bytes == Decode(s).bytes[k..]
  {
    DecodePairsDrop(s, 0, k);
    DecodePairsOffset(s[2 * k..], 2 * k, 0);
  }

  /** The encoding is already lower case and made of hex digits only. */
  lemma {:induction false} EncodeIsLowerHex(b: Bytes)
    ensures IsHexDigits(Encode(b))
    ensures ToLower(Encode(b)) == Encode(b)
  {
    if b != [] {
      EncodeIsLowerHex(b[1..]);
      var s := Encode(b);
      var x := b[0] as int;
      NibbleDigit(x / 16);
      NibbleDigit(x % 16);
      assert s == [Digit(x / 16), Digit(x % 16)] + Encode(b[1..]);
      assert forall i :: 2 <= i < |s| ==> s[i] == Encode(b[1..])[i - 2];
    }
  }

  lemma {:induction false} EncodeAppend(a: Bytes, b: Bytes)
    ensures Encode(a + b) == Encode(a) + Encode(b)
  {
    if a == [] {
      assert a + b == b;
    } else {
      assert (a + b)[1..] == a[1..] + b;
      EncodeAppend(a[1..], b);
    }
  }
}
