/** The training screen: `Color(hex:)`, which turns a colour literal into integer
    (alpha, red, green, blue) channels before scaling them to 0..1, and the profile
    button that opens either the profile sheet or the login sheet. */
module Training {
  import opened FoundationText
  import opened Arith
  import Storage

  /** The four `UInt64` channels `(a, r, g, b)` computed before the division by 255. */
  datatype Channels = Channels(a: nat, r: nat, g: nat, b: nat)

  predicate InByteRange(c: Channels) {
    c.a <= 255 && c.r <= 255 && c.g <= 255 && c.b <= 255
  }

  lemma Pow16Values()
    ensures Pow16(3) == 0x1000 && Pow16(6) == 0x100_0000 && Pow16(8) == 0x1_0000_0000
  {
    assert Pow16(2) == 0x100;
    assert Pow16(4) == 0x1_0000;
  }

  /** `Color(hex:)` up to the division by 255. The trimmed string's length picks the
      layout: 3 digits scale each nibble by 17, 6 digits are RGB, 8 digits are ARGB,
      and any other length gives the fixed channels (1, 1, 1, 0). A shift `v >> k` is
      `v / 2^k` and a mask `& 0xFF` is `% 0x100` on these non-negative values. */
  function ColorChannels(hex: string): (c: Channels)
    ensures InByteRange(c)
    ensures |TrimNonAlphanumerics(hex)| in {3, 6} ==> c.a == 255
    ensures |TrimNonAlphanumerics(hex)| == 3 ==> c.r % 17 == 0 && c.g % 17 == 0 && c.b % 17 == 0
    ensures |TrimNonAlphanumerics(hex)| !in {3, 6, 8} ==> c == Channels(1, 1, 1, 0)
  {
    var hex := TrimNonAlphanumerics(hex);
    var v := ScanHexInt64(hex);
    Pow16Values();
    if |hex| == 3 then
      ShortChannelBounds(v);
      Channels(255, (v / 0x100) * 17, (v / 0x10 % 0x10) * 17, (v % 0x10) * 17)
    else if |hex| == 6 then
      RgbChannelBounds(v);
      Channels(255, v / 0x1_0000, v / 0x100 % 0x100, v % 0x100)
    else if |hex| == 8 then
      ArgbChannelBounds(v);
      Channels(v / 0x100_0000, v / 0x1_0000 % 0x100, v / 0x100 % 0x100, v % 0x100)
    else
      Channels(1, 1, 1, 0)
  }

  /** The three nibbles of a 3-digit value, each scaled by 17, are bytes. */
  lemma ShortChannelBounds(v: nat)
    requires v < 0x1000
    ensures (v / 0x100) * 17 <= 255 && (v / 0x10 % 0x10) * 17 <= 255 && (v % 0x10) * 17 <= 255
    ensures ((v / 0x100) * 17) % 17 == 0 && ((v / 0x10 % 0x10) * 17) % 17 == 0
    ensures ((v % 0x10) * 17) % 17 == 0
  {
    DivBound(v, 0x100, 0x10);
  }

  /** The top byte of a 6-digit value is a byte. */
  lemma RgbChannelBounds(v: nat)
    requires v < 0x100_0000
    ensures v / 0x1_0000 <= 255
  {
    DivBound(v, 0x1_0000, 0x100);
  }

  /** The top byte of an 8-digit value is a byte. */
  lemma ArgbChannelBounds(v: nat)
    requires v < 0x1_0000_0000
    ensures v / 0x100_0000 <= 255
  {
    DivBound(v, 0x100_0000, 0x100);
  }

  /** Two upper-case hex digits for a byte. */
  function HexByte(x: nat): (s: string)
    requires x < 0x100
    ensures |s| == 2 && AllHex(s) && HexValue(s) == x
    ensures IsAlphanumeric(s[0]) && IsAlphanumeric(s[1])
  {
    var s := [HexDigitChar(x / 0x10), HexDigitChar(x % 0x10)];
    assert s == [] + [s[0]] + [s[1]];
    HexValueSnoc([], s[0]);
    HexValueSnoc([s[0]], s[1]);
    s
  }

  /** `"RRGGBB"` for three bytes. */
  function RgbHex(r: nat, g: nat, b: nat): (s: string)
    requires r < 0x100 && g < 0x100 && b < 0x100
    ensures |s| == 6 && AllHex(s) && HexValue(s) == r * 0x1_0000 + g * 0x100 + b
    ensures IsAlphanumeric(s[0]) && IsAlphanumeric(s[5])
  {
    HexValueAppend(HexByte(r), HexByte(g));
    HexValueAppend(HexByte(r) + HexByte(g), HexByte(b));
    assert Pow16(2) == 0x100;
    HexByte(r) + HexByte(g) + HexByte(b)
  }

  /** The value of three bytes placed side by side gives back each byte. */
  lemma {:induction false} RgbFields(r: nat, g: nat, b: nat)
    requires r < 0x100 && g < 0x100 && b < 0x100
    ensures var v := r * 0x1_0000 + g * 0x100 + b;
      v / 0x1_0000 == r && v / 0x100 % 0x100 == g && v % 0x100 == b
  {
    var v := r * 0x1_0000 + g * 0x100 + b;
    DivModUnique(v, 0x1_0000, r, g * 0x100 + b);
    DivModUnique(v, 0x100, r * 0x100 + g, b);
    DivModUnique(r * 0x100 + g, 0x100, r, g);
  }

  /** A six-digit literal, with or without a leading '#', gives back the three bytes it
      was written from, fully opaque. */
  lemma RgbHexRoundTrip(r: nat, g: nat, b: nat)
    requires r < 0x100 && g < 0x100 && b < 0x100
    ensures ColorChannels(RgbHex(r, g, b)) == Channels(255, r, g, b)
    ensures ColorChannels("#" + RgbHex(r, g, b)) == Channels(255, r, g, b)
  {
    var s := RgbHex(r, g, b);
    TrimKeepsEdgeAlphanumeric(s);
    TrimSkipsLeadingMark('#', s);
    ScanAllHex(s);
    RgbFields(r, g, b);
  }

  /** An eight-digit literal is read as alpha first, then red, green and blue. */
  lemma ArgbHexRoundTrip(a: nat, r: nat, g: nat, b: nat)
    requires a < 0x100 && r < 0x100 && g < 0x100 && b < 0x100
    ensures ColorChannels(HexByte(a) + RgbHex(r, g, b)) == Channels(a, r, g, b)
  {
    var s := HexByte(a) + RgbHex(r, g, b);
    HexValueAppend(HexByte(a), RgbHex(r, g, b));
    assert Pow16(6) == 0x100_0000 by { Pow16Values(); }
    var low := r * 0x1_0000 + g * 0x100 + b;
    assert HexValue(s) == a * 0x100_0000 + low;
    TrimKeepsEdgeAlphanumeric(s);
    ScanAllHex(s);
    RgbFields(r, g, b);
    DivModUnique(HexValue(s), 0x100_0000, a, low);
    DivModUnique(HexValue(s), 0x1_0000, a * 0x100 + r, g * 0x100 + b);
    DivModUnique(a * 0x100 + r, 0x100, a, r);
    DivModUnique(HexValue(s), 0x100, a * 0x1_0000 + r * 0x100 + g, b);
    DivModUnique(a * 0x1_0000 + r * 0x100 + g, 0x100, a * 0x100 + r, g);
  }

  /** `"RGB"` for three nibbles. */
  function ShortHex(x: nat, y: nat, z: nat): (s: string)
    requires x < 0x10 && y < 0x10 && z < 0x10
    ensures |s| == 3 && AllHex(s) && HexValue(s) == x * 0x100 + y * 0x10 + z
    ensures IsAlphanumeric(s[0]) && IsAlphanumeric(s[2])
  {
    var s := [HexDigitChar(x), HexDigitChar(y), HexDigitChar(z)];
    assert s == [] + [s[0]] + [s[1]] + [s[2]];
    HexValueSnoc([], s[0]);
    HexValueSnoc([s[0]], s[1]);
    assert [s[0]] + [s[1]] == [s[0], s[1]];
    HexValueSnoc([s[0], s[1]], s[2]);
    assert [s[0], s[1]] + [s[2]] == s;
    s
  }

  /** The value of three nibbles placed side by side gives back each nibble. */
  lemma {:induction false} NibbleFields(x: nat, y: nat, z: nat)
    requires x < 0x10 && y < 0x10 && z < 0x10
    ensures var v := x * 0x100 + y * 0x10 + z;
      v / 0x100 == x && v / 0x10 % 0x10 == y && v % 0x10 == z
  {
    var v := x * 0x100 + y * 0x10 + z;
    DivModUnique(v, 0x100, x, y * 0x10 + z);
    DivModUnique(v, 0x10, x * 0x10 + y, z);
    DivModUnique(x * 0x10 + y, 0x10, x, y);
  }

  /** A three-digit literal repeats each nibble: 0xF becomes 255 and 0 stays 0. */
  lemma ShortHexScales(x: nat, y: nat, z: nat)
    requires x < 0x10 && y < 0x10 && z < 0x10
    ensures ColorChannels(ShortHex(x, y, z)) == Channels(255, x * 17, y * 17, z * 17)
  {
    var s := ShortHex(x, y, z);
    TrimKeepsEdgeAlphanumeric(s);
    ScanAllHex(s);
    NibbleFields(x, y, z);
  }

  /** The training screen's sheet flags, with the signed-in flag read from the store. */
  class TrainingView {
    const defaults: Storage.UserDefaults
    var showAuthSheet: bool
    var showProfileSheet: bool

    constructor (defaults: Storage.UserDefaults)
      ensures this.defaults == defaults
      ensures !showAuthSheet && !showProfileSheet
    {
      this.defaults := defaults;
      showAuthSheet := false;
      showProfileSheet := false;
    }

    /** `handleProfilePress`: the profile sheet when signed in, the login sheet otherwise;
        the other flag is left as it was. */
    method HandleProfilePress()
      modifies this
      ensures defaults.IsAuthenticated() ==> showProfileSheet && showAuthSheet == old(showAuthSheet)
      ensures !defaults.IsAuthenticated() ==> showAuthSheet && showProfileSheet == old(showProfileSheet)
      ensures !old(showAuthSheet) && !old(showProfileSheet) ==> showAuthSheet != showProfileSheet
    {
      if defaults.IsAuthenticated() {
        showProfileSheet := true;
      } else {
        showAuthSheet := true;
      }
    }
  }
}
