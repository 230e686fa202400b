/** Bytes, and unsigned words stored as little-endian bytes. */
module Bytes {
  type Byte = x: int | 0 <= x < 256

  function Pow256(n: nat): nat {
    if n == 0 then 1 else 256 * Pow256(n - 1)
  }

  // The n low bytes of w, least significant first.
  function Little(w: nat, n: nat): (s: seq<Byte>)
    ensures |s| == n
  {
    if n == 0 then [] else [w % 256] + Little(w / 256, n - 1)
  }

  function Value(s: seq<Byte>): nat {
    if s == [] then 0 else s[0] + 256 * Value(s[1..])
  }

  lemma {:induction false} LittleValue(w: nat, n: nat)
    requires w < Pow256(n)
    ensures Value(Little(w, n)) == w
  {
    if n > 0 {
      LittleValue(w / 256, n - 1);
      assert Little(w, n)[1..] == Little(w / 256, n - 1);
    }
  }

  lemma FirstByte(b: Byte, v: nat)
    ensures (b + 256 * v) % 256 == b && (b + 256 * v) / 256 == v
  {
  }

  lemma {:induction false} ValueLittle(s: seq<Byte>)
    ensures Value(s) < Pow256(|s|) && Little(Value(s), |s|) == s
  {
    if s != [] {
      ValueLittle(s[1..]);
      FirstByte(s[0], Value(s[1..]));
      assert s == [s[0]] + s[1..];
    }
  }

  // The little-endian numbers of two, four and eight bytes at the offset o.
  function Le16(s: seq<Byte>, o: nat): nat
    requires o + 2 <= |s|
  {
    s[o] as nat + 0x100 * (s[o + 1] as nat)
  }

  function Le32(s: seq<Byte>, o: nat): nat
    requires o + 4 <= |s|
  {
    Le16(s, o) + 0x1_0000 * Le16(s, o + 2)
  }

  function Le64(s: seq<Byte>, o: nat): nat
    requires o + 8 <= |s|
  {
    Le32(s, o) + 0x1_0000_0000 * Le32(s, o + 4)
  }

  lemma ValuePair(s: seq<Byte>)
    requires |s| >= 2
    ensures Value(s) == Le16(s, 0) + 0x1_0000 * Value(s[2..])
  {
    assert Value(s) == s[0] + 0x100 * Value(s[1..]);
    assert s[1..][1..] == s[2..];
    assert Value(s[1..]) == s[1] + 0x100 * Value(s[2..]);
  }

  lemma ValueShort(s: seq<Byte>, o: nat)
    requires o + 2 <= |s|
    ensures Value(s[o..o + 2]) == Le16(s, o)
  {
    ValuePair(s[o..o + 2]);
  }

  lemma ValueLong(s: seq<Byte>, o: nat)
    requires o + 4 <= |s|
    ensures Value(s[o..o + 4]) == Le32(s, o)
  {
    ValuePair(s[o..o + 4]);
    assert s[o..o + 4][2..] == s[o + 2..o + 4];
    ValueShort(s, o + 2);
  }

  lemma ValueWide(s: seq<Byte>, o: nat)
    requires o + 8 <= |s|
    ensures Value(s[o..o + 8]) == Le64(s, o)
  {
    ValuePair(s[o..o + 8]);
    assert s[o..o + 8][2..] == s[o + 2..o + 8];
    ValuePair(s[o + 2..o + 8]);
    assert s[o + 2..o + 8][2..] == s[o + 4..o + 8];
    ValueLong(s, o + 4);
  }

  lemma SliceOfSlice(s: seq<Byte>, i: nat, j: nat, a: nat, c: nat)
    requires i <= j <= |s| && a <= c <= j - i
    ensures s[i..j][a..c] == s[i + a..i + c]
  {
    var t := s[i..j];
    forall k | 0 <= k < c - a ensures t[a..c][k] == s[i + a..i + c][k] {
      assert t[a..c][k] == t[a + k];
    }
  }

  // An array of words of the given width, laid out one after the other.
  function Pack(ws: seq<nat>, width: nat): (s: seq<Byte>)
    ensures |s| == |ws| * width
  {
    if ws == [] then [] else Little(ws[0], width) + Pack(ws[1..], width)
  }

  // The k-th word of a packed array.
  function Word(s: seq<Byte>, width: nat, k: nat): nat
    requires (k + 1) * width <= |s|
  {
    Value(s[k * width..(k + 1) * width])
  }

  lemma MulMono(a: nat, b: nat, w: nat)
    requires a <= b
    ensures a * w <= b * w
  {
  }

  lemma MulStep(k: nat, w: nat)
    ensures (k + 1) * w == k * w + w
  {
  }

  lemma {:induction false} PackWord(ws: seq<nat>, width: nat, k: nat)
    requires k < |ws| && ws[k] < Pow256(width)
    ensures (k + 1) * width <= |ws| * width && Word(Pack(ws, width), width, k) == ws[k]
  {
    MulMono(k + 1, |ws|, width);
    var s := Pack(ws, width);
    MulStep(k, width);
    if k == 0 {
      assert s[0..width] == Little(ws[0], width);
      LittleValue(ws[0], width);
    } else {
      PackWord(ws[1..], width, k - 1);
      MulStep(k - 1, width);
      Shifted(Little(ws[0], width), Pack(ws[1..], width), (k - 1) * width, k * width);
    }
  }

  lemma Shifted(a: seq<Byte>, b: seq<Byte>, i: nat, j: nat)
    requires i <= j <= |b|
    ensures (a + b)[|a| + i..|a| + j] == b[i..j]
  {
  }
}
