/** Permission-group IDs are written in the source as 32 lower-case
    hexadecimal digits. This module renders a number as such a string and
    shows that the rendering is faithful to the order of numbers: Go's string
    `<` on two rendered IDs agrees with `<` on the numbers they render, so two
    IDs are equal exactly when their numbers are. */
module HexIds {
  import opened GoStrings

  /** The number of hexadecimal digits in a permission-group ID. */
  const IdWidth: nat := 32

  function Pow16(w: nat): (p: nat)
    ensures p >= 1
  {
    if w == 0 then 1 else 16 * Pow16(w - 1)
  }

  /** 16^32 = 2^128: the IDs that fit in 32 hexadecimal digits are the numbers
      below this bound. */
  const IdBound: nat := 0x1_0000_0000_0000_0000_0000_0000_0000_0000

  lemma IdBoundIsPow16()
    ensures Pow16(IdWidth) == IdBound
  {
    assert Pow16(8) == 0x1_0000_0000;
    assert Pow16(16) == 0x1_0000_0000_0000_0000;
    assert Pow16(24) == 0x1_0000_0000_0000_0000_0000_0000;
  }

  /** The `w` lowest hexadecimal digits of `n`, most significant first,
      padded with leading zeros. */
  function Hex(n: nat, w: nat): (s: string)
    ensures |s| == w
    ensures forall k :: 0 <= k < |s| ==> '0' <= s[k] <= '9' || 'a' <= s[k] <= 'f'
  {
    if w == 0 then [] else Hex(n / 16, w - 1) + [HexDigit(n % 16)]
  }

  /** A permission-group ID as the source spells it. */
  function HexId(n: nat): (s: string)
    ensures |s| == IdWidth
  {
    Hex(n, IdWidth)
  }

  lemma HexDigitOrder(a: nat, b: nat)
    requires a < 16 && b < 16
    ensures HexDigit(a) < HexDigit(b) <==> a < b
    ensures HexDigit(a) == HexDigit(b) <==> a == b
  {
  }

  lemma AppendEq(p: string, q: string, x: char, y: char)
    requires |p| == |q|
    ensures p + [x] == q + [y] <==> p == q && x == y
  {
    if p + [x] == q + [y] {
      assert (p + [x])[|p|] == x && (q + [y])[|q|] == y;
      assert p == (p + [x])[..|p|] && q == (q + [y])[..|q|];
    }
  }

  /** Within `w` digits, rendering preserves and reflects order and equality. */
  lemma {:induction false} HexOrder(n: nat, m: nat, w: nat)
    requires n < Pow16(w) && m < Pow16(w)
    ensures n < m <==> LexLess(Hex(n, w), Hex(m, w))
    ensures n == m <==> Hex(n, w) == Hex(m, w)
  {
    if w == 0 {
      assert n == 0 && m == 0;
    } else {
      var n', m', dn, dm := n / 16, m / 16, n % 16, m % 16;
      assert n == 16 * n' + dn && m == 16 * m' + dm;
      assert n' < Pow16(w - 1) && m' < Pow16(w - 1);
      HexOrder(n', m', w - 1);
      HexDigitOrder(dn, dm);
      LexLessAppend(Hex(n', w - 1), Hex(m', w - 1), HexDigit(dn), HexDigit(dm));
      AppendEq(Hex(n', w - 1), Hex(m', w - 1), HexDigit(dn), HexDigit(dm));
      assert n < m <==> n' < m' || (n' == m' && dn < dm);
    }
  }

  /** Two 128-bit IDs are ordered as strings exactly as they are as numbers,
      and render equal exactly when they are equal. */
  lemma HexIdOrder(n: nat, m: nat)
    requires n < IdBound && m < IdBound
    ensures n < m <==> LexLess(HexId(n), HexId(m))
    ensures n == m <==> HexId(n) == HexId(m)
  {
    IdBoundIsPow16();
    HexOrder(n, m, IdWidth);
  }
}
