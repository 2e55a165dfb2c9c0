/** The two pure helpers both server files define: `intToHexColor`, which renders a
    role colour, and `cryptoRandomString`, which draws the OAuth state token. */
module Helpers {

  /** The 62-character alphabet `cryptoRandomString` draws from. */
  const ALPHABET: string := "abcdefghijklmnopqrstuvwxyzABCDEFGHIJKLMNOPQRSTUVWXYZ0123456789"

  /** The lower-case digit JavaScript's `toString(16)` writes for `d`. */
  function HexDigit(d: nat): char
    requires d < 16
  {
    if d < 10 then ('0' as int + d) as char else ('a' as int + d - 10) as char
  }

  predicate IsHexDigit(c: char) {
    '0' <= c <= '9' || 'a' <= c <= 'f'
  }

  function DigitValue(c: char): nat {
    if '0' <= c <= '9' then c as int - '0' as int
    else if 'a' <= c <= 'f' then c as int - 'a' as int + 10
    else 0
  }

  /** `n.toString(16)` for a non-negative integer: no leading zeros, "0" for zero. */
  function Hex(n: nat): (s: string)
    ensures |s| >= 1
  {
    if n < 16 then [HexDigit(n)] else Hex(n / 16) + [HexDigit(n % 16)]
  }

  /** `n.toString(16)` for any integer: a negative number gets a leading '-'. */
  function JsHex(n: int): (r: string)
    ensures |r| >= 1 && (r[0] == '-' <==> n < 0)
    ensures n >= 0 ==> HexValue(r) == n
    ensures n < 0 ==> HexValue(r[1..]) == -n
  {
    HexRoundTrip(if n < 0 then -n else n);
    if n < 0 then "-" + Hex(-n) else Hex(n)
  }

  /** The number a string of hex digits denotes (an independent reading of `Hex`). */
  function HexValue(s: string): nat {
    if s == [] then 0 else HexValue(s[..|s| - 1]) * 16 + DigitValue(s[|s| - 1])
  }

  /** `s.padStart(width, fill)`: fill is put in front until the length reaches width. */
  function PadStart(s: string, width: nat, fill: char): (r: string)
    ensures |r| == if |s| < width then width else |s|
    ensures r[|r| - |s|..] == s
    ensures forall i :: 0 <= i < |r| - |s| ==> r[i] == fill
  {
    if |s| >= width then s else seq(width - |s|, _ => fill) + s
  }

  /** `intToHexColor`: zero is "#000000", any other integer is '#' followed by its
      hexadecimal form padded with zeros to six characters. */
  function IntToHexColor(colorInt: int): (r: string)
    ensures colorInt == 0 ==> r == "#000000"
    ensures |r| >= 7 && r[0] == '#'
  {
    if colorInt == 0 then "#000000" else "#" + PadStart(JsHex(colorInt), 6, '0')
  }

  function Pow16(k: nat): nat {
    if k == 0 then 1 else 16 * Pow16(k - 1)
  }

  /** Reading back what `Hex` writes gives the number again, and `Hex` writes only hex digits. */
  lemma {:induction false} HexRoundTrip(n: nat)
    ensures HexValue(Hex(n)) == n
    ensures forall i :: 0 <= i < |Hex(n)| ==> IsHexDigit(Hex(n)[i])
  {
    var s := Hex(n);
    if n >= 16 {
      HexRoundTrip(n / 16);
      assert s[..|s| - 1] == Hex(n / 16);
    }
  }

  /** Leading zeros do not change the value of a hex string. */
  lemma {:induction false} ZeroPaddingValue(zeros: string, s: string)
    requires forall i :: 0 <= i < |zeros| ==> zeros[i] == '0'
    ensures HexValue(zeros + s) == HexValue(s)
    decreases |s|, |zeros|
  {
    if s == [] {
      if zeros != [] {
        assert (zeros + s)[..|zeros| - 1] == zeros[..|zeros| - 1];
        ZeroPaddingValue(zeros[..|zeros| - 1], []);
        assert zeros[..|zeros| - 1] + [] == zeros[..|zeros| - 1];
        assert zeros + s == zeros;
      }
    } else {
      var t := zeros + s;
      assert t[..|t| - 1] == zeros + s[..|s| - 1];
      ZeroPaddingValue(zeros, s[..|s| - 1]);
    }
  }

  /** A number below 16^k needs at most k hex digits. */
  lemma {:induction false} HexWidth(n: nat, k: nat)
    requires k >= 1 && n < Pow16(k)
    ensures |Hex(n)| <= k
  {
    if n >= 16 && k > 1 {
      HexWidth(n / 16, k - 1);
    }
  }

  /** A positive colour is rendered as '#' and hex digits that read back as the colour. */
  lemma HexColorDecodes(colorInt: int)
    requires colorInt > 0
    ensures var r := IntToHexColor(colorInt);
            (forall i :: 1 <= i < |r| ==> IsHexDigit(r[i])) && HexValue(r[1..]) == colorInt
  {
    var h := Hex(colorInt);
    HexRoundTrip(colorInt);
    var padded := PadStart(h, 6, '0');
    var zeros := padded[..|padded| - |h|];
    assert padded == zeros + h;
    ZeroPaddingValue(zeros, h);
    assert IntToHexColor(colorInt)[1..] == padded;
  }

  /** A 24-bit colour is always exactly seven characters, `#rrggbb`. */
  lemma HexColorWidth(colorInt: int)
    requires 0 <= colorInt < 0x100_0000
    ensures |IntToHexColor(colorInt)| == 7
  {
    if colorInt > 0 {
      assert Pow16(6) == 0x100_0000;
      HexWidth(colorInt, 6);
    }
  }

  /** The alphabet index `Math.floor(r * chars.length)` picks for a draw `r` of `Math.random()`. */
  function Pick(r: real): (k: nat)
    requires 0.0 <= r < 1.0
    ensures k < |ALPHABET|
    ensures k as real <= r * |ALPHABET| as real < k as real + 1.0
  {
    (r * |ALPHABET| as real).Floor
  }

  predicate IsDraws(randoms: seq<real>) {
    forall i :: 0 <= i < |randoms| ==> 0.0 <= randoms[i] < 1.0
  }

  /** `cryptoRandomString(length)`: one alphabet character per draw, in draw order. */
  method CryptoRandomString(length: nat, randoms: seq<real>) returns (out: string)
    requires |randoms| >= length && IsDraws(randoms)
    ensures |out| == length
    ensures forall i :: 0 <= i < length ==> out[i] == ALPHABET[Pick(randoms[i])]
    ensures forall i :: 0 <= i < |out| ==> out[i] in ALPHABET
  {
    out := "";
    for i := 0 to length
      invariant |out| == i
      invariant forall k :: 0 <= k < i ==> out[k] == ALPHABET[Pick(randoms[k])]
    {
      out := out + [ALPHABET[Pick(randoms[i])]];
    }
  }
}
