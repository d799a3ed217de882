/** GlobalHotKeyManager.swift: `fourCharCode`, which packs the UTF-8 bytes
    of a string into the 32-bit signature of the app's hot key. */
module HotKey {
  import opened Common

  const Mod32: int := 0x1_0000_0000

  /** `x << 8` on a `UInt32`: the top byte is shifted out. */
  function Shl8(x: int): (r: int)
    requires 0 <= x < Mod32
    ensures r == (x * 256) % Mod32
    ensures 0 <= r <= Mod32 - 256 && r % 256 == 0
  {
    DivMod(x * 256, Mod32, x / 0x100_0000, (x % 0x100_0000) * 256);
    (x % 0x100_0000) * 256
  }

  /** The code the loop builds from `bytes`: each byte shifted in from the
      right. */
  function Fold(bytes: seq<byte>): (r: int)
    ensures 0 <= r < Mod32
    decreases |bytes|
  {
    if bytes == [] then 0 else Shl8(Fold(bytes[..|bytes| - 1])) + bytes[|bytes| - 1] as int
  }

  /** `fourCharCode`: `result = (result << 8) + byte` over the string's UTF-8
      bytes. */
  method FourCharCode(s: string) returns (result: int)
    ensures result == Fold(Utf8(s))
    ensures 0 <= result < Mod32
  {
    var bytes := Utf8(s);
    result := 0;
    for i := 0 to |bytes|
      invariant result == Fold(bytes[..i])
    {
      assert bytes[..i + 1][..i] == bytes[..i];
      result := Shl8(result) + bytes[i] as int;
    }
    assert bytes[..|bytes|] == bytes;
  }

  /** Four bytes pack big-endian, the first in the top byte. */
  lemma FoldFour(a: byte, b: byte, c: byte, d: byte)
    ensures Fold([a, b, c, d]) == a as int * 0x100_0000 + b as int * 0x1_0000 + c as int * 0x100 + d as int
  {
    var s := [a, b, c, d];
    assert s[..3] == [a, b, c] && s[..3][..2] == [a, b] && s[..3][..2][..1] == [a] && [a][..0] == [];
    assert Fold([a]) == a as int;
    DivMod(a as int, 0x100_0000, 0, a as int);
    assert Fold([a, b]) == a as int * 256 + b as int;
    DivMod(a as int * 256 + b as int, 0x100_0000, 0, a as int * 256 + b as int);
    assert Fold([a, b, c]) == (a as int * 256 + b as int) * 256 + c as int;
    var abc := (a as int * 256 + b as int) * 256 + c as int;
    DivMod(abc, 0x100_0000, 0, abc);
  }

  /** Four-byte codes are distinct for distinct bytes: the packing can be
      read back. */
  lemma FoldFourInjective(x: seq<byte>, y: seq<byte>)
    requires |x| == 4 && |y| == 4 && Fold(x) == Fold(y)
    ensures x == y
  {
    assert x == [x[0], x[1], x[2], x[3]] && y == [y[0], y[1], y[2], y[3]];
    FoldFour(x[0], x[1], x[2], x[3]);
    FoldFour(y[0], y[1], y[2], y[3]);
    Unpack(x[0], x[1], x[2], x[3]);
    Unpack(y[0], y[1], y[2], y[3]);
  }

  /** The four bytes of a packed code, top first. */
  lemma Unpack(a: byte, b: byte, c: byte, d: byte)
    ensures var n := a as int * 0x100_0000 + b as int * 0x1_0000 + c as int * 0x100 + d as int;
      n / 0x100_0000 == a as int && (n / 0x1_0000) % 256 == b as int && (n / 256) % 256 == c as int && n % 256 == d as int
  {
    var n := a as int * 0x100_0000 + b as int * 0x1_0000 + c as int * 0x100 + d as int;
    DivMod(n, 0x100_0000, a as int, b as int * 0x1_0000 + c as int * 0x100 + d as int);
    DivMod(n, 0x1_0000, a as int * 256 + b as int, c as int * 0x100 + d as int);
    DivMod(a as int * 256 + b as int, 256, a as int, b as int);
    DivMod(n, 256, a as int * 0x1_0000 + b as int * 256 + c as int, d as int);
    DivMod(a as int * 0x1_0000 + b as int * 256 + c as int, 256, a as int * 256 + b as int, c as int);
  }

  /** Shifting a four-byte code left by one byte and adding a fifth gives the
      code of the last four. */
  lemma ShiftFour(a: byte, b: byte, c: byte, d: byte, e: byte)
    ensures Shl8(Fold([a, b, c, d])) + e as int == Fold([b, c, d, e])
  {
    FoldFour(a, b, c, d);
    FoldFour(b, c, d, e);
    var low := b as int * 0x1_0000 + c as int * 0x100 + d as int;
    DivMod(a as int * 0x100_0000 + low, 0x100_0000, a as int, low);
  }

  /** With more than four bytes (a string whose characters are not all
      ASCII, or too long) only the last four bytes reach the code. */
  lemma {:induction false} FoldLastFour(bytes: seq<byte>)
    requires |bytes| >= 4
    ensures Fold(bytes) == Fold(bytes[|bytes| - 4..])
    decreases |bytes|
  {
    if |bytes| > 4 {
      var front := bytes[..|bytes| - 1];
      FoldLastFour(front);
      var w := front[|front| - 4..];
      assert w == [w[0], w[1], w[2], w[3]];
      ShiftFour(w[0], w[1], w[2], w[3], bytes[|bytes| - 1]);
      assert bytes[|bytes| - 4..] == [w[1], w[2], w[3], bytes[|bytes| - 1]];
    }
  }

  /** The hot key's signature string. */
  const Signature: string := "POMD"

  /** The signature packs to 0x504F4D44 ('P' 'O' 'M' 'D'). */
  lemma SignatureCode()
    ensures Fold(Utf8(Signature)) == 0x504F4D44
  {
    Utf8Ascii(Signature);
    var bs := Utf8(Signature);
    assert bs == [0x50, 0x4F, 0x4D, 0x44];
    FoldFour(0x50, 0x4F, 0x4D, 0x44);
  }

  /** Two four-character ASCII strings have the same code only when they are
      the same string. */
  lemma AsciiCodesDistinct(s: string, t: string)
    requires |s| == 4 && |t| == 4
    requires forall i :: 0 <= i < 4 ==> s[i] as int < 0x80 && t[i] as int < 0x80
    requires Fold(Utf8(s)) == Fold(Utf8(t))
    ensures s == t
  {
    Utf8Ascii(s);
    Utf8Ascii(t);
    FoldFourInjective(Utf8(s), Utf8(t));
    assert forall i :: 0 <= i < 4 ==> s[i] as int == Utf8(s)[i] as int == Utf8(t)[i] as int == t[i] as int;
  }
}
