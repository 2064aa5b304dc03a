/**
 * Hexadecimal digits as the TRC-20 call data carries them: `parseInt(s, 16)`
 * on a run of hex digits, its inverse (fixed-width, lower-case encoding as in
 * ABI words), and the leading-zero strip `s.replace(/^0+/, '')`.
 */
module Hex {
  import opened Base

  predicate IsHexDigit(c: char) {
    ('0' <= c <= '9') || ('a' <= c <= 'f') || ('A' <= c <= 'F')
  }

  function DigitValue(c: char): (d: nat)
    requires IsHexDigit(c)
    ensures d < 16
  {
    if '0' <= c <= '9' then c as int - '0' as int
    else if 'a' <= c <= 'f' then c as int - 'a' as int + 10
    else c as int - 'A' as int + 10
  }

  /** The lower-case digit of a value below 16. */
  function DigitChar(d: nat): (c: char)
    requires d < 16
    ensures IsHexDigit(c) && DigitValue(c) == d
  {
    if d < 10 then ('0' as int + d) as char else ('a' as int + d - 10) as char
  }

  predicate AllHex(s: string) {
    forall i :: 0 <= i < |s| ==> IsHexDigit(s[i])
  }

  /** The value of a string of hex digits, most significant first. */
  function Value(s: string): nat
    requires AllHex(s)
    decreases |s|
  {
    if s == [] then 0 else Value(s[..|s| - 1]) * 16 + DigitValue(s[|s| - 1])
  }

  function Pow16(n: nat): (r: nat)
    ensures r >= 1
  {
    if n == 0 then 1 else 16 * Pow16(n - 1)
  }

  /** `n` as exactly `width` lower-case hex digits, zero-padded on the left. */
  function Encode(n: nat, width: nat): (s: string)
    ensures |s| == width && AllHex(s)
    decreases width
  {
    if width == 0 then [] else Encode(n / 16, width - 1) + [DigitChar(n % 16)]
  }

  /** Decoding a fixed-width encoding gives the number back whenever it fits. */
  lemma {:induction false} ValueEncode(n: nat, width: nat)
    requires n < Pow16(width)
    ensures Value(Encode(n, width)) == n
    decreases width
  {
    if width > 0 {
      var s := Encode(n, width);
      assert s[..|s| - 1] == Encode(n / 16, width - 1);
      ValueEncode(n / 16, width - 1);
    }
  }

  /** The length of the longest prefix of hex digits. */
  function PrefixLength(s: string): (k: nat)
    ensures k <= |s| && AllHex(s[..k])
    ensures k < |s| ==> !IsHexDigit(s[k])
    ensures AllHex(s) ==> k == |s|
    decreases |s|
  {
    if s == [] || !IsHexDigit(s[0]) then 0
    else
      var k := PrefixLength(s[1..]);
      assert s[..k + 1] == [s[0]] + s[1..][..k];
      1 + k
  }

  /**
   * `parseInt(s, 16)` on a string without sign, white space or `0x`: the
   * value of its leading hex digits, or `None` (NaN) when there are none.
   */
  function Parse(s: string): (r: Option<nat>)
    ensures r.None? <==> s == [] || !IsHexDigit(s[0])
    ensures AllHex(s) && s != [] ==> r == Some(Value(s))
  {
    var k := PrefixLength(s);
    if k == 0 then None
    else
      assert AllHex(s) ==> s[..k] == s;
      Some(Value(s[..k]))
  }

  /** `s.replace(/^0+/, '')`. */
  function StripZeros(s: string): (r: string)
    ensures |r| <= |s| && r == s[|s| - |r|..]
    ensures r == [] || r[0] != '0'
    ensures forall i :: 0 <= i < |s| - |r| ==> s[i] == '0'
    decreases |s|
  {
    if s != [] && s[0] == '0' then StripZeros(s[1..]) else s
  }
}
