/** Hexadecimal text of bytes, as encoding/hex and the %02x verb write it (section 8 of RFC 4648, lower case). */
module Hex {
  import opened Wrappers

  type Byte = b: int | 0 <= b < 256

  function LowerDigit(n: nat): char
    requires n < 16
  {
    if n < 10 then '0' + n as char else 'a' + (n - 10) as char
  }

  /** The value of a digit in either case. */
  function HexValue(c: char): Option<nat> {
    if '0' <= c <= '9' then Some(c as nat - '0' as nat)
    else if 'a' <= c <= 'f' then Some(c as nat - 'a' as nat + 10)
    else if 'A' <= c <= 'F' then Some(c as nat - 'A' as nat + 10)
    else None
  }

  function LowerChar(c: char): char {
    if 'A' <= c <= 'Z' then 'a' + (c as nat - 'A' as nat) as char else c
  }

  function Lower(s: string): (r: string)
    ensures |r| == |s|
  {
    if s == "" then "" else [LowerChar(s[0])] + Lower(s[1..])
  }

  lemma DigitsAgree(n: nat, c: char)
    requires n < 16
    ensures HexValue(LowerDigit(n)) == Some(n)
    ensures HexValue(c).Some? ==> HexValue(c).value < 16 && LowerDigit(HexValue(c).value) == LowerChar(c)
  {
  }

  function Encode(bytes: seq<Byte>): (s: string)
    ensures |s| == 2 * |bytes|
  {
    if bytes == [] then ""
    else [LowerDigit(bytes[0] / 16), LowerDigit(bytes[0] % 16)] + Encode(bytes[1..])
  }

  function Decode(s: string): (r: Option<seq<Byte>>)
    ensures r.Some? ==> |s| == 2 * |r.value|
  {
    if s == "" then Some([])
    else if |s| == 1 || HexValue(s[0]).None? || HexValue(s[1]).None? then None
    else
      DigitsAgree(0, s[0]);
      DigitsAgree(0, s[1]);
      match Decode(s[2..])
      case None => None
      case Some(rest) => Some([HexValue(s[0]).value * 16 + HexValue(s[1]).value] + rest)
  }

  lemma {:induction false} DecodeEncode(bytes: seq<Byte>)
    ensures Decode(Encode(bytes)) == Some(bytes)
  {
    if bytes != [] {
      DecodeEncode(bytes[1..]);
      DigitsAgree(bytes[0] / 16, ' ');
      DigitsAgree(bytes[0] % 16, ' ');
      var s := Encode(bytes);
      assert s[0] == LowerDigit(bytes[0] / 16) && s[1] == LowerDigit(bytes[0] % 16);
      assert s[2..] == Encode(bytes[1..]);
      assert bytes == [bytes[0]] + bytes[1..];
    }
  }

  /** Printing what was parsed gives the text back, in lower case. */
  lemma {:induction false} EncodeDecode(s: string)
    requires Decode(s).Some?
    ensures Encode(Decode(s).value) == Lower(s)
  {
    if s != "" {
      EncodeDecode(s[2..]);
      DigitsAgree(0, s[0]);
      DigitsAgree(0, s[1]);
      var r := Decode(s).value;
      var hi, lo := HexValue(s[0]).value, HexValue(s[1]).value;
      assert r[0] / 16 == hi && r[0] % 16 == lo;
      assert r[1..] == Decode(s[2..]).value;
      assert s[1..][1..] == s[2..];
      assert Lower(s) == [LowerChar(s[0])] + ([LowerChar(s[1])] + Lower(s[2..]));
    }
  }

  /** Exactly the texts of even length over the hexadecimal digits are parsed. */
  lemma {:induction false} DecodeDomain(s: string)
    ensures Decode(s).Some? <==> |s| % 2 == 0 && forall i :: 0 <= i < |s| ==> HexValue(s[i]).Some?
  {
    if |s| >= 2 {
      DecodeDomain(s[2..]);
      assert forall i :: 2 <= i < |s| ==> s[i] == s[2..][i - 2];
    }
  }

  lemma EncodeInjective(a: seq<Byte>, b: seq<Byte>)
    requires Encode(a) == Encode(b)
    ensures a == b
  {
    DecodeEncode(a);
    DecodeEncode(b);
  }
}
