/**
 * The iOS colour initialiser `UIColor(hex:)` the gradient view takes its two default
 * colours from: the text is cleaned of surrounding white space and of every '#', read
 * as a hexadecimal number by a `Scanner`, and split into red, green and blue bytes.
 */
module HexColor {
  import Js

  /** The Unicode White_Space characters, the set `.whitespacesAndNewlines` stands for. */
  predicate IsWhiteSpace(c: char) {
    || ('\t' <= c <= '\r') || c == ' ' || c == '\U{0085}' || c == '\U{00A0}' || c == '\U{1680}'
    || ('\U{2000}' <= c <= '\U{200A}') || c == '\U{2028}' || c == '\U{2029}' || c == '\U{202F}'
    || c == '\U{205F}' || c == '\U{3000}'
  }

  /** Every character of `s` is white space. */
  predicate AllWhite(s: string) {
    forall i | 0 <= i < |s| :: IsWhiteSpace(s[i])
  }

  /** Drops the leading white space: what it drops is white space, and what is left starts with none. */
  function TrimLeading(s: string): (r: string)
    ensures |r| <= |s| && r == s[|s| - |r|..]
    ensures forall i | 0 <= i < |s| - |r| :: IsWhiteSpace(s[i])
    ensures r != [] ==> !IsWhiteSpace(r[0])
  {
    if s != [] && IsWhiteSpace(s[0]) then
      var r := TrimLeading(s[1..]);
      assert forall i | 1 <= i < |s| - |r| :: s[i] == s[1..][i - 1];
      r
    else s
  }

  /** Drops the trailing white space: what it drops is white space, and what is left ends with none. */
  function TrimTrailing(s: string): (r: string)
    ensures |r| <= |s| && r == s[..|r|]
    ensures forall i | |r| <= i < |s| :: IsWhiteSpace(s[i])
    ensures r != [] ==> !IsWhiteSpace(r[|r| - 1])
  {
    if s != [] && IsWhiteSpace(s[|s| - 1]) then TrimTrailing(s[..|s| - 1]) else s
  }

  /** `trimmingCharacters(in: .whitespacesAndNewlines)` */
  function Trimmed(s: string): (r: string)
    ensures r != [] ==> !IsWhiteSpace(r[0]) && !IsWhiteSpace(r[|r| - 1])
    ensures s != [] && !IsWhiteSpace(s[0]) && !IsWhiteSpace(s[|s| - 1]) ==> r == s
  {
    var t := TrimLeading(s);
    assert t == s[|s| - |t|..];
    TrimTrailing(t)
  }

  /**
   * Trimming removes exactly the white space around the text: text with no white space
   * at either end, padded on both sides with white space, trims back to itself.
   */
  lemma TrimmedPadded(lead: string, text: string, trail: string)
    requires AllWhite(lead) && AllWhite(trail)
    requires text != [] ==> !IsWhiteSpace(text[0]) && !IsWhiteSpace(text[|text| - 1])
    ensures Trimmed(lead + text + trail) == text
  {
    var s := lead + text + trail;
    if text == [] {
      assert s == lead + trail;
    } else {
      assert s == lead + (text + trail);
      TrimLeadingPadded(lead, text + trail);
      TrimTrailingPadded(text, trail);
    }
  }

  lemma {:induction false} TrimLeadingPadded(lead: string, rest: string)
    requires AllWhite(lead)
    requires rest != [] && !IsWhiteSpace(rest[0])
    ensures TrimLeading(lead + rest) == rest
    decreases |lead|
  {
    if lead != [] {
      assert (lead + rest)[0] == lead[0] && IsWhiteSpace(lead[0]);
      assert (lead + rest)[1..] == lead[1..] + rest;
      assert AllWhite(lead[1..]) by {
        forall i | 0 <= i < |lead| - 1 ensures IsWhiteSpace(lead[1..][i]) {
          assert lead[1..][i] == lead[i + 1];
        }
      }
      TrimLeadingPadded(lead[1..], rest);
    } else {
      assert lead + rest == rest;
    }
  }

  lemma {:induction false} TrimTrailingPadded(text: string, trail: string)
    requires AllWhite(trail)
    requires text != [] && !IsWhiteSpace(text[|text| - 1])
    ensures TrimTrailing(text + trail) == text
    decreases |trail|
  {
    if trail != [] {
      assert (text + trail)[..|text + trail| - 1] == text + trail[..|trail| - 1];
      TrimTrailingPadded(text, trail[..|trail| - 1]);
    } else {
      assert text + trail == text;
    }
  }

  /** `replacingOccurrences(of: "#", with: "")` */
  function WithoutHash(s: string): (r: string)
    ensures '#' !in r
    ensures forall c | c in r :: c in s
    ensures '#' !in s ==> r == s
  {
    if s == [] then []
    else (if s[0] == '#' then [] else [s[0]]) + WithoutHash(s[1..])
  }

  /** Removing the '#' characters keeps the others, in order: none is lost. */
  lemma {:induction false} WithoutHashSplice(a: string, b: string)
    ensures WithoutHash(a + "#" + b) == WithoutHash(a) + WithoutHash(b)
    decreases |a|
  {
    if a == [] {
      assert (a + "#" + b)[1..] == b;
    } else {
      assert (a + "#" + b)[1..] == a[1..] + "#" + b;
      WithoutHashSplice(a[1..], b);
    }
  }

  /** The text the scanner reads. */
  function Sanitize(hex: string): (r: string)
    ensures '#' !in r
    ensures forall c | c in r :: c in hex
  {
    var t := Trimmed(hex);
    assert forall c | c in t :: c in hex by {
      var lead := TrimLeading(hex);
      assert forall c | c in t :: c in lead;
    }
    WithoutHash(t)
  }

  predicate IsHexDigit(c: char) {
    ('0' <= c <= '9') || ('a' <= c <= 'f') || ('A' <= c <= 'F')
  }

  function DigitValue(c: char): (r: nat)
    requires IsHexDigit(c)
    ensures r < 16
  {
    if '0' <= c <= '9' then c as int - '0' as int
    else if 'a' <= c <= 'f' then c as int - 'a' as int + 10
    else c as int - 'A' as int + 10
  }

  predicate AllHex(s: string) {
    forall i | 0 <= i < |s| :: IsHexDigit(s[i])
  }

  /** The number a string of hexadecimal digits writes, most significant digit first. */
  function HexValue(s: string): (r: nat)
    requires AllHex(s)
    ensures r < Pow16(|s|)
    decreases |s|
  {
    if s == [] then 0
    else HexValue(s[..|s| - 1]) * 16 + DigitValue(s[|s| - 1])
  }

  function Pow16(n: nat): (r: nat)
    ensures r >= 1
  {
    if n == 0 then 1 else 16 * Pow16(n - 1)
  }

  /** The longest run of hexadecimal digits at the start of `s`. */
  function HexPrefix(s: string): (r: string)
    ensures |r| <= |s| && AllHex(r) && r == s[..|r|]
    ensures |r| < |s| ==> !IsHexDigit(s[|r|])
  {
    if s != [] && IsHexDigit(s[0]) then
      var rest := HexPrefix(s[1..]);
      assert s[..|rest| + 1] == [s[0]] + s[1..][..|rest|];
      [s[0]] + rest
    else []
  }

  const UInt64Max: nat := 0xFFFF_FFFF_FFFF_FFFF

  /** The digits the scanner reads: after leading white space and an optional "0x" or "0X". */
  function ScannedDigits(s: string): (r: string)
    ensures AllHex(r)
  {
    var t := TrimLeading(s);
    var hasPrefix := |t| >= 3 && t[0] == '0' && (t[1] == 'x' || t[1] == 'X') && IsHexDigit(t[2]);
    HexPrefix(if hasPrefix then t[2..] else t)
  }

  /**
   * `Scanner(string: s).scanHexInt64(&rgb)` from `rgb = 0`: the digits read give the
   * value, a value too large for 64 bits giving the largest one. With no digit `rgb`
   * stays 0.
   */
  function ScanHex(s: string): (r: nat)
    ensures r <= UInt64Max
    ensures r == HexValue(ScannedDigits(s)) || (r == UInt64Max && HexValue(ScannedDigits(s)) > UInt64Max)
  {
    var v := HexValue(ScannedDigits(s));
    if v > UInt64Max then UInt64Max else v
  }

  /** A string of at most sixteen hexadecimal digits scans as the number it writes. */
  lemma ScanHexDigits(s: string)
    requires AllHex(s) && s != [] && |s| <= 16
    ensures ScanHex(s) == HexValue(s)
  {
    ScannedAllDigits(s);
    SixteenDigitsFit(s);
  }

  lemma ScannedAllDigits(s: string)
    requires AllHex(s) && s != []
    ensures ScannedDigits(s) == s
  {
    HexIsPrintable(s[0]);
    assert TrimLeading(s) == s;
    assert |s| >= 3 ==> s[1] != 'x' && s[1] != 'X';
    HexPrefixAll(s);
  }

  lemma SixteenDigitsFit(s: string)
    requires AllHex(s) && |s| <= 16
    ensures HexValue(s) <= UInt64Max
  {
    Pow16Monotone(|s|, 16);
    Pow16Sixteen();
  }

  lemma Pow16Sixteen()
    ensures Pow16(16) == UInt64Max + 1
  {
    assert Pow16(4) == 0x1_0000;
    assert Pow16(8) == 0x1_0000_0000 by {
      assert Pow16(5) == 0x10_0000;
      assert Pow16(6) == 0x100_0000;
      assert Pow16(7) == 0x1000_0000;
    }
    assert Pow16(12) == 0x1_0000_0000_0000 by {
      assert Pow16(9) == 0x10_0000_0000;
      assert Pow16(10) == 0x100_0000_0000;
      assert Pow16(11) == 0x1000_0000_0000;
    }
    assert Pow16(13) == 0x10_0000_0000_0000;
    assert Pow16(14) == 0x100_0000_0000_0000;
    assert Pow16(15) == 0x1000_0000_0000_0000;
  }

  lemma {:induction false} HexPrefixAll(s: string)
    requires AllHex(s)
    ensures HexPrefix(s) == s
    decreases |s|
  {
    if s != [] {
      HexPrefixAll(s[1..]);
    }
  }

  lemma {:induction false} Pow16Monotone(m: nat, n: nat)
    requires m <= n
    ensures Pow16(m) <= Pow16(n)
    decreases n
  {
    if m < n {
      Pow16Monotone(m, n - 1);
    }
  }

  /**
   * The three bytes of the scanned value. For a value of at most 64 bits,
   * `(rgb & 0xFF0000) >> 16` is `rgb / 65536 % 256`, `(rgb & 0x00FF00) >> 8` is
   * `rgb / 256 % 256` and `rgb & 0x0000FF` is `rgb % 256`.
   */
  datatype Channels = Channels(red: nat, green: nat, blue: nat)

  function ChannelsOf(rgb: nat): (r: Channels)
    requires rgb <= UInt64Max
    ensures r.red < 256 && r.green < 256 && r.blue < 256
  {
    Channels(rgb / 65536 % 256, rgb / 256 % 256, rgb % 256)
  }

  /** Below 2^24 the three bytes put back together give the value read. */
  lemma ChannelsRecompose(rgb: nat)
    requires rgb < 0x100_0000
    ensures var c := ChannelsOf(rgb); c.red * 65536 + c.green * 256 + c.blue == rgb
  {
    var c := ChannelsOf(rgb);
    assert c.red == rgb / 65536;
    assert rgb / 256 == (rgb / 65536) * 256 + c.green;
    assert rgb == (rgb / 256) * 256 + c.blue;
  }

  /** Bytes below 256 put together at 65536, 256 and 1 are the bytes the value splits into. */
  lemma ChannelsOfBytes(hi: nat, mid: nat, lo: nat)
    requires hi < 256 && mid < 256 && lo < 256
    ensures ChannelsOf(hi * 65536 + mid * 256 + lo) == Channels(hi, mid, lo)
  {
    var v := hi * 65536 + mid * 256 + lo;
    assert v / 256 == hi * 256 + mid;
    assert v / 65536 == hi;
  }

  /** A colour as UIKit holds it: components between 0 and 1. */
  datatype Color = Color(red: real, green: real, blue: real, alpha: real)

  /** A byte as a colour component: `CGFloat(byte) / 255.0`. */
  function Component(byte: nat): (r: real)
    requires byte < 256
    ensures 0.0 <= r <= 1.0
    ensures byte == 0 <==> r == 0.0
    ensures byte == 255 <==> r == 1.0
  {
    byte as real / 255.0
  }

  /** `UIColor(hex:)`: it always makes a colour, opaque, from the three bytes of the scanned value. */
  function FromHex(hex: string): (r: Js.Option<Color>)
    ensures r.Some? && r.value.alpha == 1.0
  {
    var rgb := ScanHex(Sanitize(hex));
    var ch := ChannelsOf(rgb);
    Js.Some(Color(Component(ch.red), Component(ch.green), Component(ch.blue), 1.0))
  }

  /**
   * A '#' followed by six hexadecimal digits gives the colour whose
   * bytes the three digit pairs write.
   */
  lemma SixDigits(h: string)
    requires |h| == 6 && AllHex(h)
    ensures ChannelsOf(ScanHex(Sanitize("#" + h))) ==
      Channels(DigitValue(h[0]) * 16 + DigitValue(h[1]), DigitValue(h[2]) * 16 + DigitValue(h[3]),
               DigitValue(h[4]) * 16 + DigitValue(h[5]))
  {
    SanitizeHashed(h);
    ScanHexDigits(h);
    var v := HexValue(h);
    var hi, mid, lo := DigitValue(h[0]) * 16 + DigitValue(h[1]), DigitValue(h[2]) * 16 + DigitValue(h[3]),
                       DigitValue(h[4]) * 16 + DigitValue(h[5]);
    assert v == hi * 65536 + mid * 256 + lo by { HexValueSix(h); }
    ChannelsOfBytes(hi, mid, lo);
  }

  /** A '#' in front of hexadecimal digits is all that sanitising removes. */
  lemma SanitizeHashed(h: string)
    requires h != [] && AllHex(h)
    ensures Sanitize("#" + h) == h
  {
    var s := "#" + h;
    HexIsPrintable(h[|h| - 1]);
    assert s[|s| - 1] == h[|h| - 1];
    assert Trimmed(s) == s;
    assert s[1..] == h;
    assert '#' !in h by {
      forall i | 0 <= i < |h| ensures h[i] != '#' { HexIsPrintable(h[i]); }
    }
  }

  /**
   * White space around a '#'-prefixed colour is cleaned away with the '#':
   * " #1a8100\n" is read as "1a8100".
   */
  lemma SanitizePadded(lead: string, h: string, trail: string)
    requires AllWhite(lead) && AllWhite(trail)
    requires h != [] && AllHex(h)
    ensures Sanitize(lead + "#" + h + trail) == h
  {
    SanitizeHashed(h);
    HexIsPrintable(h[|h| - 1]);
    var text := "#" + h;
    assert text[|text| - 1] == h[|h| - 1];
    assert lead + "#" + h + trail == lead + text + trail;
    TrimmedPadded(lead, text, trail);
  }

  /** So a padded colour gives the same colour as the bare one. */
  lemma FromHexPadded(lead: string, h: string, trail: string)
    requires AllWhite(lead) && AllWhite(trail)
    requires h != [] && AllHex(h)
    ensures FromHex(lead + "#" + h + trail) == FromHex("#" + h)
  {
    SanitizePadded(lead, h, trail);
    SanitizeHashed(h);
  }

  lemma HexIsPrintable(c: char)
    requires IsHexDigit(c)
    ensures !IsWhiteSpace(c) && c != '#'
  {
  }

  lemma HexValueSix(h: string)
    requires |h| == 6 && AllHex(h)
    ensures HexValue(h) == (DigitValue(h[0]) * 16 + DigitValue(h[1])) * 65536
                         + (DigitValue(h[2]) * 16 + DigitValue(h[3])) * 256
                         + DigitValue(h[4]) * 16 + DigitValue(h[5])
  {
    var d := seq(6, i requires 0 <= i < 6 => DigitValue(h[i]));
    assert HexValue(h[..1]) == d[0] by { assert h[..1][..0] == []; }
    assert HexValue(h[..2]) == d[0] * 16 + d[1] by { assert h[..2][..1] == h[..1]; }
    assert HexValue(h[..3]) == (d[0] * 16 + d[1]) * 16 + d[2] by { assert h[..3][..2] == h[..2]; }
    assert HexValue(h[..4]) == ((d[0] * 16 + d[1]) * 16 + d[2]) * 16 + d[3] by { assert h[..4][..3] == h[..3]; }
    assert HexValue(h[..5]) == (((d[0] * 16 + d[1]) * 16 + d[2]) * 16 + d[3]) * 16 + d[4] by { assert h[..5][..4] == h[..4]; }
    assert h[..6] == h;
  }

  /**
   * The top colour's default, "#1a8100", is (26, 129, 0): the initialiser succeeds, so
   * the fallback to green is never taken.
   */
  lemma TopColorDefault()
    ensures ChannelsOf(ScanHex(Sanitize("#1a8100"))) == Channels(26, 129, 0)
    ensures FromHex("#1a8100") == Js.Some(Color(26.0 / 255.0, 129.0 / 255.0, 0.0, 1.0))
  {
    var h := "1a8100";
    assert "#1a8100" == "#" + h;
    assert h[0] == '1' && h[1] == 'a' && h[2] == '8' && h[3] == '1' && h[4] == '0' && h[5] == '0';
    assert AllHex(h);
    SixDigits(h);
    assert DigitValue(h[0]) * 16 + DigitValue(h[1]) == 26;
    assert DigitValue(h[2]) * 16 + DigitValue(h[3]) == 129;
    assert DigitValue(h[4]) * 16 + DigitValue(h[5]) == 0;
    assert ChannelsOf(ScanHex(Sanitize("#1a8100"))) == Channels(26, 129, 0);
    assert FromHex("#1a8100") == Js.Some(Color(Component(26), Component(129), Component(0), 1.0));
  }

  /**
   * The bottom colour's default, "#feb47b", is (254, 180, 123): the initialiser succeeds,
   * so the fallback to orange is never taken.
   */
  lemma BottomColorDefault()
    ensures ChannelsOf(ScanHex(Sanitize("#feb47b"))) == Channels(254, 180, 123)
    ensures FromHex("#feb47b") == Js.Some(Color(254.0 / 255.0, 180.0 / 255.0, 123.0 / 255.0, 1.0))
  {
    var h := "feb47b";
    assert "#feb47b" == "#" + h;
    assert h[0] == 'f' && h[1] == 'e' && h[2] == 'b' && h[3] == '4' && h[4] == '7' && h[5] == 'b';
    assert AllHex(h);
    SixDigits(h);
    assert DigitValue(h[0]) * 16 + DigitValue(h[1]) == 254;
    assert DigitValue(h[2]) * 16 + DigitValue(h[3]) == 180;
    assert DigitValue(h[4]) * 16 + DigitValue(h[5]) == 123;
    assert ChannelsOf(ScanHex(Sanitize("#feb47b"))) == Channels(254, 180, 123);
    assert FromHex("#feb47b") == Js.Some(Color(Component(254), Component(180), Component(123), 1.0));
  }
}
