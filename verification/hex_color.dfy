/**
 `hexToRgb` of the particle background: a CSS hex colour string such as
 "#ffffff" or "#fff" to its three 8-bit channels. The model covers inputs
 whose characters, once the first '#' is removed, are all hexadecimal digits.
 */
module HexColor {

  predicate IsHexDigit(c: char) {
    '0' <= c <= '9' || 'a' <= c <= 'f' || 'A' <= c <= 'F'
  }

  predicate AllHex(s: string) {
    forall i :: 0 <= i < |s| ==> IsHexDigit(s[i])
  }

  function HexDigitValue(c: char): (d: nat)
    requires IsHexDigit(c)
    ensures d < 16
  {
    if '0' <= c <= '9' then c as int - '0' as int
    else if 'a' <= c <= 'f' then c as int - 'a' as int + 10
    else c as int - 'A' as int + 10
  }

  function Pow16(k: nat): (r: nat)
    ensures r > 0
  {
    if k == 0 then 1 else 16 * Pow16(k - 1)
  }

  /** The value of a string of hex digits, most significant first: a
      k-digit string spells a number below 16^k. */
  function HexValue(s: string): (v: nat)
    requires AllHex(s)
    ensures v < Pow16(|s|)
  {
    if s == [] then 0 else HexValue(s[..|s| - 1]) * 16 + HexDigitValue(s[|s| - 1])
  }

  /** The byte two hex digits spell. */
  function PairValue(hi: char, lo: char): (b: nat)
    requires IsHexDigit(hi) && IsHexDigit(lo)
    ensures b < 256
  {
    HexDigitValue(hi) * 16 + HexDigitValue(lo)
  }

  /** `hex.replace("#", "")`: with a string pattern only the first occurrence goes. */
  function StripFirstHash(s: string): (r: string)
    ensures '#' !in s ==> r == s
    ensures '#' in s ==> |r| == |s| - 1
  {
    if s == [] then []
    else if s[0] == '#' then s[1..]
    else [s[0]] + StripFirstHash(s[1..])
  }

  /** The '#' removed is the first one: the characters before it and after it stay, in order. */
  lemma {:induction false} StripRemovesFirstHash(s: string, i: nat)
    requires i < |s| && s[i] == '#' && '#' !in s[..i]
    ensures StripFirstHash(s) == s[..i] + s[i + 1..]
  {
    if i > 0 {
      assert s[0] in s[..i];
      assert s[1..][..i - 1] == s[1..i];
      assert '#' !in s[1..][..i - 1];
      StripRemovesFirstHash(s[1..], i - 1);
      assert s[..i] == [s[0]] + s[1..i];
    }
  }

  /** Each character written twice: `s.split("").map(c => c + c).join("")`. */
  function Doubled(s: string): (r: string)
    ensures |r| == 2 * |s|
    ensures forall i :: 0 <= i < |r| ==> r[i] == s[i / 2]
  {
    if s == [] then [] else [s[0], s[0]] + Doubled(s[1..])
  }

  /** A 3-character string is expanded by doubling; any other length stays. */
  function ExpandShorthand(s: string): (r: string)
    ensures |s| == 3 ==> |r| == 6 && forall i :: 0 <= i < 6 ==> r[i] == s[i / 2]
    ensures |s| != 3 ==> r == s
    ensures AllHex(s) ==> AllHex(r)
  {
    if |s| == 3 then Doubled(s) else s
  }

  /** A JavaScript number as `parseInt` yields it here: NaN or an integer. */
  datatype JsNumber = NaN | Int(v: int)

  /** `parseInt(s, 16)` on a string of hex digits: NaN when there are none. */
  function ParseIntHex(s: string): (n: JsNumber)
    requires AllHex(s)
    ensures n.NaN? <==> s == ""
  {
    if s == "" then NaN else Int(HexValue(s))
  }

  const TwoTo31: int := 0x8000_0000
  const TwoTo32: int := 0x1_0000_0000

  /** ECMAScript ToInt32, applied by `>>` and `&` to their operands. */
  function ToInt32(n: JsNumber): (r: int)
    ensures -TwoTo31 <= r < TwoTo31
    ensures n.NaN? ==> r == 0
    ensures n.Int? ==> (n.v - r) % TwoTo32 == 0
  {
    match n
    case NaN => 0
    case Int(v) => var u := v % TwoTo32; if u >= TwoTo31 then u - TwoTo32 else u
  }

  /** `(x >> k) & 255` on a 32-bit integer: `>>` is floor division by 2^k
      (Euclidean division with a positive divisor), `& 255` the
      non-negative remainder modulo 256. */
  function ShiftMask(x: int, pow: nat): (r: int)
    requires pow > 0
    ensures 0 <= r < 256
    ensures (x / pow - r) % 256 == 0
  {
    (x / pow) % 256
  }

  /** `hexToRgb` */
  function HexToRgb(hex: string): (rgb: seq<int>)
    requires AllHex(StripFirstHash(hex))
    ensures |rgb| == 3
    ensures forall i :: 0 <= i < |rgb| ==> 0 <= rgb[i] <= 255
  {
    var normalized := ExpandShorthand(StripFirstHash(hex));
    var intVal := ToInt32(ParseIntHex(normalized));
    [ShiftMask(intVal, 65536), ShiftMask(intVal, 256), ShiftMask(intVal, 1)]
  }

  /** Six hex digits are the sum of their three pairs, most significant first. */
  lemma HexValueSix(n: string)
    requires |n| == 6 && AllHex(n)
    ensures HexValue(n) == PairValue(n[0], n[1]) * 65536 + PairValue(n[2], n[3]) * 256 + PairValue(n[4], n[5])
  {
    var d0, d1, d2 := HexDigitValue(n[0]), HexDigitValue(n[1]), HexDigitValue(n[2]);
    var d3, d4, d5 := HexDigitValue(n[3]), HexDigitValue(n[4]), HexDigitValue(n[5]);
    assert n[..1][..0] == [];
    assert HexValue(n[..1]) == d0;
    assert n[..2][..1] == n[..1];
    assert HexValue(n[..2]) == d0 * 16 + d1;
    assert n[..3][..2] == n[..2];
    assert HexValue(n[..3]) == (d0 * 16 + d1) * 16 + d2;
    assert n[..4][..3] == n[..3];
    assert HexValue(n[..4]) == ((d0 * 16 + d1) * 16 + d2) * 16 + d3;
    assert n[..5][..4] == n[..4];
    assert HexValue(n[..5]) == (((d0 * 16 + d1) * 16 + d2) * 16 + d3) * 16 + d4;
    assert n[..6] == n;
    assert HexValue(n) == ((((d0 * 16 + d1) * 16 + d2) * 16 + d3) * 16 + d4) * 16 + d5;
  }

  /** The bytes of a 24-bit value written as three base-256 digits. */
  lemma ThreeBytes(a: nat, b: nat, c: nat)
    requires a < 256 && b < 256 && c < 256
    ensures var x := a * 65536 + b * 256 + c;
      ShiftMask(x, 65536) == a && ShiftMask(x, 256) == b && ShiftMask(x, 1) == c
  {
    var x := a * 65536 + b * 256 + c;
    assert x / 65536 == a;
    assert x / 256 == a * 256 + b;
    assert (a * 256 + b) % 256 == b;
    assert x % 256 == c;
  }

  /** For six hex digits the channels are the digit pairs 1-2, 3-4 and 5-6. */
  lemma SixDigitChannels(hex: string)
    requires var n := StripFirstHash(hex); |n| == 6 && AllHex(n)
    ensures var n := StripFirstHash(hex);
      HexToRgb(hex) == [PairValue(n[0], n[1]), PairValue(n[2], n[3]), PairValue(n[4], n[5])]
  {
    var n := StripFirstHash(hex);
    var a, b, c := PairValue(n[0], n[1]), PairValue(n[2], n[3]), PairValue(n[4], n[5]);
    HexValueSix(n);
    var v := HexValue(n);
    assert v == a * 65536 + b * 256 + c;
    SmallIsInt32(v);
    assert ExpandShorthand(n) == n;
    assert ParseIntHex(n) == Int(v);
    ThreeBytes(a, b, c);
  }

  lemma SmallIsInt32(v: int)
    requires 0 <= v < 0x100_0000
    ensures ToInt32(Int(v)) == v
  {
    assert v % TwoTo32 == v;
  }

  /** A 3-digit shorthand gives the same channels as its doubled 6-digit form,
      each channel being 17 times its digit. */
  lemma ShorthandMatchesExpanded(hex: string)
    requires var n := StripFirstHash(hex); |n| == 3 && AllHex(n)
    ensures var n := StripFirstHash(hex);
      AllHex(Doubled(n)) && HexToRgb(hex) == HexToRgb(Doubled(n))
    ensures var n := StripFirstHash(hex);
      HexToRgb(hex) == [17 * HexDigitValue(n[0]), 17 * HexDigitValue(n[1]), 17 * HexDigitValue(n[2])]
  {
    var n := StripFirstHash(hex);
    var d := Doubled(n);
    assert '#' !in d by {
      forall i | 0 <= i < |d| ensures d[i] != '#' {
        assert IsHexDigit(d[i]);
      }
    }
    assert StripFirstHash(d) == d;
    assert ExpandShorthand(n) == d == ExpandShorthand(d);
    SixDigitChannels(d);
    assert d[0] == d[1] == n[0] && d[2] == d[3] == n[1] && d[4] == d[5] == n[2];
  }

  /** White, as the page passes it. */
  lemma WhiteChannels()
    ensures HexToRgb("#ffffff") == [255, 255, 255]
  {
    var hex := "#ffffff";
    assert StripFirstHash(hex) == hex[1..];
    SixDigitChannels(hex);
    assert PairValue('f', 'f') == 255;
  }

  /** White in shorthand. */
  lemma ShortWhiteChannels()
    ensures HexToRgb("#fff") == [255, 255, 255]
  {
    var hex := "#fff";
    assert StripFirstHash(hex) == hex[1..];
    ShorthandMatchesExpanded(hex);
    assert HexDigitValue('f') == 15;
  }

  /** Black, as the page passes it. */
  lemma BlackChannels()
    ensures HexToRgb("#000000") == [0, 0, 0]
  {
    var hex := "#000000";
    assert StripFirstHash(hex) == hex[1..];
    SixDigitChannels(hex);
    assert PairValue('0', '0') == 0;
  }

  /** No digits at all parse to NaN, which ToInt32 turns into 0: black. */
  lemma NoDigitsIsBlack(hex: string)
    requires StripFirstHash(hex) == ""
    ensures HexToRgb(hex) == [0, 0, 0]
  {
  }
}
