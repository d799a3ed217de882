/** MenuBarView.swift: `Color(hex:)`, which turns a hexadecimal colour
    string into four 8-bit channels, and the label of the start/pause button.
    A colour is kept as its integer channels 0..255; the division by 255 into
    SwiftUI's floating-point components is not modelled. */
module MenuBar {
  import opened Common
  import opened Tasks
  import opened TimerSpec

  // --- Characters -------------------------------------------------------------

  /** `CharacterSet.alphanumerics`, restricted to ASCII letters and digits. */
  predicate IsAlphanumeric(c: char) {
    '0' <= c <= '9' || 'A' <= c <= 'Z' || 'a' <= c <= 'z'
  }

  /** The characters `Color(hex:)` trims from both ends. */
  predicate NotAlphanumeric(c: char) {
    !IsAlphanumeric(c)
  }

  function HexDigitValue(c: char): (d: int)
    requires IsHexDigit(c)
    ensures 0 <= d < 16
  {
    if '0' <= c <= '9' then c as int - '0' as int
    else if 'A' <= c <= 'F' then c as int - 'A' as int + 10
    else c as int - 'a' as int + 10
  }

  /** The upper-case hexadecimal digit for 0..15. */
  function HexDigitChar(d: int): (c: char)
    requires 0 <= d < 16
    ensures IsHexDigit(c) && IsAlphanumeric(c) && HexDigitValue(c) == d
  {
    if d < 10 then ('0' as int + d) as char else ('A' as int + d - 10) as char
  }

  // --- Scanner.scanHexInt64 ----------------------------------------------------

  function Pow16(n: nat): (p: nat)
    ensures p >= 1
  {
    if n == 0 then 1 else 16 * Pow16(n - 1)
  }

  /** The longest run of hexadecimal digits at the front of `s`. */
  function HexPrefix(s: string): (r: string)
    ensures |r| <= |s| && r == s[..|r|]
    ensures forall i :: 0 <= i < |r| ==> IsHexDigit(r[i])
    ensures |r| < |s| ==> !IsHexDigit(s[|r|])
    decreases |s|
  {
    if s != [] && IsHexDigit(s[0]) then [s[0]] + HexPrefix(s[1..]) else []
  }

  /** The value hexadecimal digits spell, read left to right. */
  function HexValue(ds: string): int
    requires forall i :: 0 <= i < |ds| ==> IsHexDigit(ds[i])
    decreases |ds|
  {
    if ds == [] then 0 else HexValue(ds[..|ds| - 1]) * 16 + HexDigitValue(ds[|ds| - 1])
  }

  /** `scanHexInt64`: an optional "0x" or "0X", then as many hexadecimal
      digits as follow; 0 when there are none. */
  function ScanHex(s: string): int {
    HexValue(HexPrefix(SkipRadix(s)))
  }

  /** `s` without a leading "0x" or "0X". */
  function SkipRadix(s: string): (r: string)
    ensures |r| <= |s|
  {
    if |s| >= 2 && s[0] == '0' && (s[1] == 'x' || s[1] == 'X') then s[2..] else s
  }

  lemma {:induction false} HexValueBound(ds: string)
    requires forall i :: 0 <= i < |ds| ==> IsHexDigit(ds[i])
    ensures 0 <= HexValue(ds) < Pow16(|ds|)
    decreases |ds|
  {
    if ds != [] {
      HexValueBound(ds[..|ds| - 1]);
    }
  }

  lemma {:induction false} Pow16Monotone(m: nat, n: nat)
    requires m <= n
    ensures Pow16(m) <= Pow16(n)
    decreases n
  {
    if m < n {
      Pow16Monotone(m, n - 1);
    }
  }

  /** The scanned value has no more digits than the string has characters. */
  lemma ScanHexBound(s: string)
    ensures 0 <= ScanHex(s) < Pow16(|s|)
  {
    var ds := HexPrefix(SkipRadix(s));
    HexValueBound(ds);
    Pow16Monotone(|ds|, |s|);
  }

  lemma ShiftDigit(x: int, p: int, y: int, d: int)
    ensures (x * p + y) * 16 + d == x * (p * 16) + (y * 16 + d)
  {
  }

  lemma {:induction false} HexValueAppend(a: string, b: string)
    requires forall i :: 0 <= i < |a| ==> IsHexDigit(a[i])
    requires forall i :: 0 <= i < |b| ==> IsHexDigit(b[i])
    ensures HexValue(a + b) == HexValue(a) * Pow16(|b|) + HexValue(b)
    decreases |b|
  {
    if b == [] {
      assert a + b == a;
    } else {
      var front := b[..|b| - 1];
      var d := HexDigitValue(b[|b| - 1]);
      assert (a + b)[..|a + b| - 1] == a + front;
      assert HexValue(a + b) == HexValue(a + front) * 16 + d;
      HexValueAppend(a, front);
      assert HexValue(b) == HexValue(front) * 16 + d;
      assert Pow16(|b|) == Pow16(|front|) * 16;
      ShiftDigit(HexValue(a), Pow16(|front|), HexValue(front), d);
    }
  }

  // --- Color(hex:) ----------------------------------------------------------------

  /** Alpha, red, green and blue, each an 8-bit channel. */
  datatype Rgba = Rgba(a: int, r: int, g: int, b: int)

  /** `Color(hex:)`: the string trimmed of non-alphanumerics at both ends is
      read as 3 digits (12-bit RGB, each digit doubled), 6 digits (RGB) or 8
      digits (ARGB); any other length gives alpha 1, red 1, green 1, blue 0. */
  function ColorFromHex(hex: string): Rgba {
    var t := Trim(hex, NotAlphanumeric);
    Channels(|t|, ScanHex(t))
  }

  /** The `switch` on the digit count `count` of the scanned value `n`. */
  function Channels(count: int, n: int): Rgba {
    if count == 3 then Rgba(255, (n / 256) * 17, ((n / 16) % 16) * 17, (n % 16) * 17)
    else if count == 6 then Rgba(255, n / 65536, (n / 256) % 256, n % 256)
    else if count == 8 then Rgba(n / 16777216, (n / 65536) % 256, (n / 256) % 256, n % 256)
    else Rgba(1, 1, 1, 0)
  }

  predicate IsChannel(x: int) {
    0 <= x < 256
  }

  /** Whatever the string, every channel is an 8-bit value: opacities and
      components stay within 0..1. */
  lemma ChannelsInRange(hex: string)
    ensures var c := ColorFromHex(hex); IsChannel(c.a) && IsChannel(c.r) && IsChannel(c.g) && IsChannel(c.b)
  {
    var t := Trim(hex, NotAlphanumeric);
    ScanHexBound(t);
    var n := ScanHex(t);
    if |t| == 3 {
      assert n < 4096;
    } else if |t| == 6 {
      assert n < 16777216;
    } else if |t| == 8 {
      assert n < 4294967296;
    }
  }

  /** Two digits for 0..255. */
  function Hex2(x: int): (s: string)
    requires IsChannel(x)
    ensures |s| == 2 && forall i :: 0 <= i < 2 ==> IsHexDigit(s[i]) && IsAlphanumeric(s[i])
  {
    [HexDigitChar(x / 16), HexDigitChar(x % 16)]
  }

  lemma Hex2Value(x: int)
    requires IsChannel(x)
    ensures HexValue(Hex2(x)) == x
  {
    var s := Hex2(x);
    var hi := s[..1];
    assert hi[..0] == [];
    assert HexValue(hi) == x / 16;
    assert s[..|s| - 1] == hi;
    assert HexValue(s) == (x / 16) * 16 + x % 16;
  }

  /** A string made of alphanumerics is not trimmed. */
  lemma TrimAlphanumeric(s: string)
    requires forall i :: 0 <= i < |s| ==> IsAlphanumeric(s[i])
    ensures Trim(s, NotAlphanumeric) == s
  {
    var t := TrimStart(s, NotAlphanumeric);
    assert |t| == |s|;
    var r := TrimEnd(t, NotAlphanumeric);
    assert |r| == |t|;
  }

  /** The value of hexadecimal digits, when they make up the whole string and
      do not start "0x", is what `scanHexInt64` reads. */
  lemma ScanAllHex(s: string)
    requires forall i :: 0 <= i < |s| ==> IsHexDigit(s[i])
    ensures ScanHex(s) == HexValue(s)
  {
    if |s| >= 2 {
      assert IsHexDigit(s[1]);
    }
    assert SkipRadix(s) == s;
    HexPrefixAll(s);
  }

  /** Digits all the way are scanned all the way. */
  lemma {:induction false} HexPrefixAll(s: string)
    requires forall i :: 0 <= i < |s| ==> IsHexDigit(s[i])
    ensures HexPrefix(s) == s
    decreases |s|
  {
    if s != [] {
      var rest := s[1..];
      assert forall i :: 0 <= i < |rest| ==> IsHexDigit(rest[i]) by {
        forall i | 0 <= i < |rest| ensures IsHexDigit(rest[i]) {
          assert rest[i] == s[i + 1];
        }
      }
      HexPrefixAll(rest);
      assert s == [s[0]] + rest;
    }
  }

  /** A string of upper-case hexadecimal digits is read whole. */
  lemma ReadWhole(s: string)
    requires forall i :: 0 <= i < |s| ==> IsHexDigit(s[i]) && IsAlphanumeric(s[i])
    ensures ColorFromHex(s) == Channels(|s|, HexValue(s))
  {
    TrimAlphanumeric(s);
    ScanAllHex(s);
  }

  lemma Hex6Value(r: int, g: int, b: int)
    requires IsChannel(r) && IsChannel(g) && IsChannel(b)
    ensures HexValue(Hex2(r) + Hex2(g) + Hex2(b)) == r * 65536 + g * 256 + b
  {
    HexValueAppend(Hex2(r) + Hex2(g), Hex2(b));
    HexValueAppend(Hex2(r), Hex2(g));
    Hex2Value(r);
    Hex2Value(g);
    Hex2Value(b);
  }

  /** Six digits read back as an opaque colour with their channels. */
  lemma Hex6RoundTrip(r: int, g: int, b: int)
    requires IsChannel(r) && IsChannel(g) && IsChannel(b)
    ensures ColorFromHex(Hex2(r) + Hex2(g) + Hex2(b)) == Rgba(255, r, g, b)
  {
    var s := Hex2(r) + Hex2(g) + Hex2(b);
    ReadWhole(s);
    Hex6Value(r, g, b);
    Channels6(r, g, b);
  }

  /** The 24-bit switch case splits `r * 65536 + g * 256 + b` back into its
      channels. */
  lemma Channels6(r: int, g: int, b: int)
    requires IsChannel(r) && IsChannel(g) && IsChannel(b)
    ensures Channels(6, r * 65536 + g * 256 + b) == Rgba(255, r, g, b)
  {
    var n := r * 65536 + g * 256 + b;
    DivMod(n, 65536, r, g * 256 + b);
    DivMod(n, 256, r * 256 + g, b);
    DivMod(r * 256 + g, 256, r, g);
  }

  /** The 32-bit switch case splits the value back into its four channels,
      alpha first. */
  lemma Channels8(a: int, r: int, g: int, b: int)
    requires IsChannel(a) && IsChannel(r) && IsChannel(g) && IsChannel(b)
    ensures Channels(8, a * 16777216 + r * 65536 + g * 256 + b) == Rgba(a, r, g, b)
  {
    var n := a * 16777216 + r * 65536 + g * 256 + b;
    DivMod(n, 16777216, a, r * 65536 + g * 256 + b);
    DivMod(n, 65536, a * 256 + r, g * 256 + b);
    DivMod(a * 256 + r, 256, a, r);
    DivMod(n, 256, a * 65536 + r * 256 + g, b);
    DivMod(a * 65536 + r * 256 + g, 256, a * 256 + r, g);
  }

  /** The 12-bit switch case doubles each of the three digits. */
  lemma Channels3(r: int, g: int, b: int)
    requires 0 <= r < 16 && 0 <= g < 16 && 0 <= b < 16
    ensures Channels(3, r * 256 + g * 16 + b) == Rgba(255, r * 17, g * 17, b * 17)
  {
    var n := r * 256 + g * 16 + b;
    DivMod(n, 256, r, g * 16 + b);
    DivMod(n, 16, r * 16 + g, b);
    DivMod(r * 16 + g, 16, r, g);
  }

  lemma Hex8Value(a: int, r: int, g: int, b: int)
    requires IsChannel(a) && IsChannel(r) && IsChannel(g) && IsChannel(b)
    ensures HexValue(Hex2(a) + Hex2(r) + Hex2(g) + Hex2(b)) == a * 16777216 + r * 65536 + g * 256 + b
  {
    var low := Hex2(r) + Hex2(g) + Hex2(b);
    assert Hex2(a) + Hex2(r) + Hex2(g) + Hex2(b) == Hex2(a) + low;
    HexValueAppend(Hex2(a), low);
    Hex6Value(r, g, b);
    Hex2Value(a);
    assert |low| == 6 && Pow16(6) == 16777216;
  }

  /** Eight digits read back as a colour with their four channels, alpha
      first. */
  lemma Hex8RoundTrip(a: int, r: int, g: int, b: int)
    requires IsChannel(a) && IsChannel(r) && IsChannel(g) && IsChannel(b)
    ensures ColorFromHex(Hex2(a) + Hex2(r) + Hex2(g) + Hex2(b)) == Rgba(a, r, g, b)
  {
    var s := Hex2(a) + Hex2(r) + Hex2(g) + Hex2(b);
    ReadWhole(s);
    Hex8Value(a, r, g, b);
    Channels8(a, r, g, b);
  }

  /** Three digits read back as an opaque colour, each digit doubled (times
      17) into a full channel. */
  lemma Hex3RoundTrip(r: int, g: int, b: int)
    requires 0 <= r < 16 && 0 <= g < 16 && 0 <= b < 16
    ensures ColorFromHex([HexDigitChar(r), HexDigitChar(g), HexDigitChar(b)]) == Rgba(255, r * 17, g * 17, b * 17)
  {
    var s := [HexDigitChar(r), HexDigitChar(g), HexDigitChar(b)];
    ReadWhole(s);
    var s2 := s[..2];
    var s1 := s2[..1];
    assert s1[..0] == [];
    assert HexValue(s1) == r;
    assert s[..|s| - 1] == s2 && s2[..|s2| - 1] == s1;
    assert HexValue(s) == r * 256 + g * 16 + b;
    Channels3(r, g, b);
  }

  /** A leading "#" is trimmed away. */
  lemma HashIgnored(s: string)
    ensures ColorFromHex("#" + s) == ColorFromHex(s)
  {
    var h := "#" + s;
    assert h != [] && NotAlphanumeric(h[0]) && h[1..] == s;
    assert TrimStart(h, NotAlphanumeric) == TrimStart(s, NotAlphanumeric);
  }

  /** Six upper-case digits name the opaque colour of their three pairs. */
  lemma ReadSix(s: string, r: int, g: int, b: int)
    requires IsChannel(r) && IsChannel(g) && IsChannel(b)
    requires s == Hex2(r) + Hex2(g) + Hex2(b)
    ensures ColorFromHex(s) == Rgba(255, r, g, b)
  {
    Hex6RoundTrip(r, g, b);
  }

  /** Each priority's colour reads back as the opaque colour its digits
      name. */
  lemma PriorityColors(p: TaskPriority)
    ensures ColorFromHex(p.Color()) ==
      match p
      case Low => Rgba(255, 0x4A, 0x90, 0xE2)
      case Medium => Rgba(255, 0xF5, 0xA6, 0x23)
      case High => Rgba(255, 0xF0, 0x71, 0x67)
      case Urgent => Rgba(255, 0xD0, 0x02, 0x1B)
  {
    match p
    case Low => ReadSix(p.Color(), 0x4A, 0x90, 0xE2);
    case Medium => ReadSix(p.Color(), 0xF5, 0xA6, 0x23);
    case High => ReadSix(p.Color(), 0xF0, 0x71, 0x67);
    case Urgent => ReadSix(p.Color(), 0xD0, 0x02, 0x1B);
  }

  /** The app's palette: the accent, the cream text colour and the tint of
      the settings switches. */
  const Accent: string := "F07167"
  const Cream: string := "FDFCDC"
  const SwitchTint: string := "DBF9B8"

  /** The accent reads back as the opaque colour of its digits, the colour
      of high priority. */
  lemma AccentColor()
    ensures ColorFromHex(Accent) == Rgba(255, 0xF0, 0x71, 0x67) == ColorFromHex(High.Color())
  {
    PriorityColors(High);
  }

  /** The cream text colour reads back as the opaque colour of its digits. */
  lemma CreamColor()
    ensures ColorFromHex(Cream) == Rgba(255, 0xFD, 0xFC, 0xDC)
  {
    ReadSix(Cream, 0xFD, 0xFC, 0xDC);
  }

  /** The switch tint reads back as the opaque colour of its digits. */
  lemma SwitchTintColor()
    ensures ColorFromHex(SwitchTint) == Rgba(255, 0xDB, 0xF9, 0xB8)
  {
    ReadSix(SwitchTint, 0xDB, 0xF9, 0xB8);
  }

  // --- The timer button -----------------------------------------------------------

  /** `buttonText` of the timer button. */
  function ButtonText(isRunning: bool, isPaused: bool): string {
    if isRunning then "Pause" else if isPaused then "Resume" else "Start"
  }

  function Label(v: TimerState): string {
    ButtonText(v.isRunning, v.isPaused)
  }

  /** The label follows the commands: "Pause" once started, "Resume" once
      paused, "Start" after a reset or the end of the master session; a
      toggle turns "Pause" into "Resume" and anything else into "Pause". */
  lemma ButtonFollowsCommands(v: TimerState, now: int)
    requires WellFormed(v)
    ensures Label(Start(v, now)) == "Pause"
    ensures Label(Pause(v)) == "Resume"
    ensures Label(Reset(v, now)) == "Start"
    ensures Label(EndMasterSession(v, now)) == "Start"
    ensures Label(Toggle(v, now)) == if Label(v) == "Pause" then "Resume" else "Pause"
  {
  }
}
