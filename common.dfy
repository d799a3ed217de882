/** Shared vocabulary of the model: optional values, bytes, time units, the
    truncating integer operations Swift uses, decimal rendering, trimming and
    filtering of sequences. */
module Common {

  datatype Option<+T> = None | Some(value: T) {
    /** Swift's `x ?? default`. */
    function GetOr(default: T): T {
      match this
      case Some(v) => v
      case None => default
    }
  }

  /** One byte of a UTF-8 encoding. */
  newtype byte = x: int | 0 <= x < 256

  // --- Time -------------------------------------------------------------
  // A TimeInterval (seconds as a Double) is held as a whole number of
  // milliseconds, so the source's 0.1 s thresholds become 100. A Date is a
  // timestamp in the same unit.

  const MsPerSecond: int := 1000
  const MsPerMinute: int := 60000
  const MsPerHour: int := 3600000
  const MsPerDay: int := 86400000

  /** Calendar.startOfDay, as a day number: days are fixed 24-hour spans. */
  function DayOf(t: int): int {
    t / MsPerDay
  }

  /** Moving a timestamp by whole days moves its day number by as many. */
  lemma DayOfShift(t: int, days: int)
    ensures DayOf(t - days * MsPerDay) == DayOf(t) - days
  {
    var q, r := t / MsPerDay, t % MsPerDay;
    assert t == q * MsPerDay + r && 0 <= r < MsPerDay;
    assert t - days * MsPerDay == (q - days) * MsPerDay + r;
  }

  function Max(a: int, b: int): (m: int)
    ensures m >= a && m >= b && (m == a || m == b)
  {
    if a >= b then a else b
  }

  function Abs(a: int): (m: int)
    ensures m >= 0 && (m == a || m == -a)
  {
    if a >= 0 then a else -a
  }

  // --- Truncating arithmetic ---------------------------------------------
  // Swift's `/` and `%` on Int round toward zero; Dafny's are Euclidean.

  /** Swift's `a / b` for b > 0. */
  function Quot(a: int, b: int): int
    requires b > 0
  {
    if a >= 0 then a / b else -((-a) / b)
  }

  /** Swift's `a % b` for b > 0: takes the sign of `a`. */
  function Rem(a: int, b: int): (r: int)
    requires b > 0
    ensures a >= 0 ==> 0 <= r < b
    ensures a < 0 ==> -b < r <= 0
  {
    a - Quot(a, b) * b
  }

  /** Swift's `Int(t)` for a TimeInterval `t` held in milliseconds: the
      whole seconds, truncated toward zero. */
  function WholeSeconds(t: int): int {
    Quot(t, MsPerSecond)
  }

  /** A positive multiple of a positive number is at least that number. */
  lemma {:induction false} MulAtLeast(c: int, k: int)
    requires c > 0 && k >= 1
    ensures c * k >= c
    decreases k
  {
    if k > 1 {
      MulAtLeast(c, k - 1);
      assert c * k == c * (k - 1) + c;
    }
  }

  /** Quotient and remainder by a positive divisor are unique. */
  lemma DivUnique(c: int, a: int, b: int, q: int, r: int)
    requires c > 0 && 0 <= b < c && 0 <= r < c && c * a + b == c * q + r
    ensures a == q && b == r
  {
    if a > q {
      assert c * (a - q) == c * a - c * q;
      MulAtLeast(c, a - q);
    } else if a < q {
      assert c * (q - a) == c * q - c * a;
      MulAtLeast(c, q - a);
    }
  }

  /** The quotient and remainder of `c * q + r` by `c`, for 0 <= r < c. */
  lemma DivMod(n: int, c: int, q: int, r: int)
    requires c > 0 && 0 <= r < c && n == c * q + r
    ensures n / c == q && n % c == r
  {
    DivUnique(c, n / c, n % c, q, r);
  }

  /** Counting up by one raises the quotient exactly when it reaches a
      multiple of the divisor. */
  lemma DivStep(n: int, c: int)
    requires c > 0
    ensures n / c == (n - 1) / c + (if n % c == 0 then 1 else 0)
  {
    var q, r := (n - 1) / c, (n - 1) % c;
    var a, b := n / c, n % c;
    assert c * a + b == c * q + r + 1;
    if r + 1 == c {
      assert c * a + b == c * (q + 1) + 0;
      DivUnique(c, a, b, q + 1, 0);
    } else {
      DivUnique(c, a, b, q, r + 1);
    }
  }

  // --- Decimal rendering ---------------------------------------------------

  function DigitChar(d: int): char
    requires 0 <= d < 10
  {
    "0123456789"[d]
  }

  predicate IsDigit(c: char) {
    '0' <= c <= '9'
  }

  function DigitValue(c: char): int
    requires IsDigit(c)
  {
    c as int - '0' as int
  }

  /** The decimal digits of `n`, most significant first, no leading zeros. */
  function Digits(n: nat): (s: string)
    ensures |s| >= 1 && forall i :: 0 <= i < |s| ==> IsDigit(s[i])
    ensures n < 10 <==> |s| == 1
    decreases n
  {
    if n < 10 then [DigitChar(n)] else Digits(n / 10) + [DigitChar(n % 10)]
  }

  /** The value the digits of a string spell, read left to right. */
  function DecimalValue(s: string): int
    requires forall i :: 0 <= i < |s| ==> IsDigit(s[i])
    decreases |s|
  {
    if s == [] then 0 else DecimalValue(s[..|s| - 1]) * 10 + DigitValue(s[|s| - 1])
  }

  lemma {:induction false} DigitsValue(n: nat)
    ensures DecimalValue(Digits(n)) == n
    decreases n
  {
    if n >= 10 {
      DigitsValue(n / 10);
      var s := Digits(n);
      assert s[..|s| - 1] == Digits(n / 10);
    }
  }

  /** `String(format: "%02d", n)`: at least two characters, zero-padded,
      a minus sign in front of a negative number. */
  function Pad2(n: int): string {
    if 0 <= n < 10 then "0" + Digits(n)
    else if n >= 10 then Digits(n)
    else "-" + Digits(-n)
  }

  /** For 0 <= n < 100 the padded rendering is two digits that spell n. */
  lemma Pad2Spells(n: int)
    requires 0 <= n < 100
    ensures |Pad2(n)| == 2 && IsDigit(Pad2(n)[0]) && IsDigit(Pad2(n)[1])
    ensures DigitValue(Pad2(n)[0]) * 10 + DigitValue(Pad2(n)[1]) == n
  {
    DigitsValue(n);
    if n >= 10 {
      DigitsValue(n / 10);
    }
  }

  // --- UTF-8 -------------------------------------------------------------------

  /** The UTF-8 encoding of one Unicode scalar value. */
  function EncodeChar(c: char): (bs: seq<byte>)
    ensures 1 <= |bs| <= 4
    ensures c as int < 0x80 <==> |bs| == 1
    ensures c as int < 0x80 ==> bs[0] as int == c as int
  {
    var n := c as int;
    if n < 0x80 then [n as byte]
    else if n < 0x800 then [(0xC0 + n / 64) as byte, (0x80 + n % 64) as byte]
    else if n < 0x10000 then [(0xE0 + n / 4096) as byte, (0x80 + (n / 64) % 64) as byte, (0x80 + n % 64) as byte]
    else [(0xF0 + n / 262144) as byte, (0x80 + (n / 4096) % 64) as byte, (0x80 + (n / 64) % 64) as byte, (0x80 + n % 64) as byte]
  }

  /** Swift's `utf8` view of a string. */
  function Utf8(s: string): (bs: seq<byte>)
    ensures |s| <= |bs| <= 4 * |s|
    decreases |s|
  {
    if s == [] then [] else EncodeChar(s[0]) + Utf8(s[1..])
  }

  /** An ASCII string encodes to one byte per character, its code. */
  lemma {:induction false} Utf8Ascii(s: string)
    requires forall i :: 0 <= i < |s| ==> s[i] as int < 0x80
    ensures |Utf8(s)| == |s|
    ensures forall i :: 0 <= i < |s| ==> Utf8(s)[i] as int == s[i] as int
    decreases |s|
  {
    if s != [] {
      Utf8Ascii(s[1..]);
    }
  }

  // --- Trimming --------------------------------------------------------------

  /** `s` with the characters satisfying `drop` removed from its front. */
  function TrimStart(s: string, drop: char -> bool): (r: string)
    ensures |r| <= |s| && r == s[|s| - |r|..]
    ensures forall i :: 0 <= i < |s| - |r| ==> drop(s[i])
    ensures r != [] ==> !drop(r[0])
    decreases |s|
  {
    if s != [] && drop(s[0]) then TrimStart(s[1..], drop) else s
  }

  /** `s` with the characters satisfying `drop` removed from its back. */
  function TrimEnd(s: string, drop: char -> bool): (r: string)
    ensures |r| <= |s| && r == s[..|r|]
    ensures forall i :: |r| <= i < |s| ==> drop(s[i])
    ensures r != [] ==> !drop(r[|r| - 1])
    decreases |s|
  {
    if s != [] && drop(s[|s| - 1]) then TrimEnd(s[..|s| - 1], drop) else s
  }

  /** Foundation's `trimmingCharacters(in:)`, the set given by `drop`. */
  function Trim(s: string, drop: char -> bool): string {
    TrimEnd(TrimStart(s, drop), drop)
  }

  /** Trimming leaves nothing exactly when every character is dropped. */
  lemma TrimEmptyIff(s: string, drop: char -> bool)
    ensures Trim(s, drop) == [] <==> forall i :: 0 <= i < |s| ==> drop(s[i])
  {
    var t := TrimStart(s, drop);
    if !forall i :: 0 <= i < |s| ==> drop(s[i]) {
      assert t != [];
      assert !drop(t[0]);
    }
  }

  /** A trimmed string is a slice of the original that neither starts nor
      ends with a dropped character. */
  lemma TrimIsSlice(s: string, drop: char -> bool)
    ensures exists a, b :: 0 <= a <= b <= |s| && Trim(s, drop) == s[a..b]
    ensures Trim(s, drop) != [] ==> !drop(Trim(s, drop)[0]) && !drop(Trim(s, drop)[|Trim(s, drop)| - 1])
  {
    var t := TrimStart(s, drop);
    var r := TrimEnd(t, drop);
    var a := |s| - |t|;
    assert t == s[a..];
    assert r == t[..|r|];
    assert s[a..][..|r|] == s[a..a + |r|];
    assert 0 <= a <= a + |r| <= |s| && Trim(s, drop) == s[a..a + |r|];
    if r != [] {
      assert r[0] == t[0];
    }
  }

  // --- Sequences ---------------------------------------------------------------

  /** Swift's `filter`: the elements satisfying `p`, in their order. */
  function Filter<T(!new)>(s: seq<T>, p: T -> bool): (r: seq<T>)
    ensures |r| <= |s|
    ensures forall x :: x in r <==> x in s && p(x)
    decreases |s|
  {
    if s == [] then []
    else if p(s[0]) then [s[0]] + Filter(s[1..], p)
    else Filter(s[1..], p)
  }

  lemma {:induction false} FilterAppend<T(!new)>(s: seq<T>, x: T, p: T -> bool)
    ensures Filter(s + [x], p) == Filter(s, p) + (if p(x) then [x] else [])
    decreases |s|
  {
    if s != [] {
      assert (s + [x])[1..] == s[1..] + [x];
      FilterAppend(s[1..], x, p);
    }
  }

  /** Filtering twice is filtering once by both conditions. */
  lemma {:induction false} FilterFilter<T(!new)>(s: seq<T>, p: T -> bool, q: T -> bool, both: T -> bool)
    requires forall x :: both(x) == (p(x) && q(x))
    ensures Filter(Filter(s, p), q) == Filter(s, both)
    decreases |s|
  {
    if s != [] {
      FilterFilter(s[1..], p, q, both);
    }
  }

  /** Conditions that agree everywhere filter alike. */
  lemma {:induction false} FilterSame<T(!new)>(s: seq<T>, p: T -> bool, q: T -> bool)
    requires forall x :: p(x) == q(x)
    ensures Filter(s, p) == Filter(s, q)
    decreases |s|
  {
    if s != [] {
      FilterSame(s[1..], p, q);
    }
  }

  /** Swift's `reversed()`. */
  function Reverse<T>(s: seq<T>): (r: seq<T>)
    ensures |r| == |s|
    ensures forall i :: 0 <= i < |s| ==> r[i] == s[|s| - 1 - i]
    decreases |s|
  {
    if s == [] then [] else Reverse(s[1..]) + [s[0]]
  }

  /** `array[safe: i]`: the element when `i` is a valid index, no value
      otherwise. */
  function SafeGet<T>(s: seq<T>, i: int): (r: Option<T>)
    ensures r.Some? <==> 0 <= i < |s|
    ensures r.Some? ==> r.value == s[i]
  {
    if 0 <= i < |s| then Some(s[i]) else None
  }
}
