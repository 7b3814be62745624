/** The POSIX permission mask of package `file`: a 16-bit field of which only
    the low nine bits (octal 0777) are meaningful, rendered as `rwxrwxrwx`. */
module FileMode {

  /** The nine permission bits, octal 0777. */
  const PermMask: bv16 := 0x1FF

  /** The letter table of the renderer: owner, group, other, each r, w, x. */
  const Letters: string := "rwxrwxrwx"

  /** Mode tracks the familiar posix 0777 bitmask, stored in a 16-bit field.
      The field is not constrained: only NewModeFromBits is the public way to
      build a Mode, and it masks. */
  datatype Mode = Mode(bits: bv16) {

    /** The stored bits. */
    function Raw(): bv16 {
      bits
    }

    /** Bit `j` (0 = other-execute, ... 8 = owner-read) of the stored field. */
    predicate Has(j: nat)
      requires j < 16
    {
      bits & BitAt(j) != 0
    }

    /** What position `i` of the rendering shows: the letter of the table when
        bit 8-i is set, '-' otherwise. */
    function Cell(i: nat): char
      requires i < 9
    {
      if Has(8 - i) then Letters[i] else '-'
    }

    /** The rendering, stated as three r/w/x triads: owner (bits 8, 7, 6),
        group (bits 5, 4, 3) and other (bits 2, 1, 0). */
    function Render(): (s: string)
      ensures |s| == 9
    {
      Triad(Has(8), Has(7), Has(6)) + Triad(Has(5), Has(4), Has(3)) + Triad(Has(2), Has(1), Has(0))
    }

    /** The nine-character rendering, built as the source builds it: a fixed
        buffer of nine characters filled one position per loop turn, from the
        most significant permission bit to the least. */
    method String() returns (s: string)
      ensures |s| == 9
      ensures forall i :: 0 <= i < 9 ==> s[i] == Cell(i)
      ensures s == Render()
    {
      var buf := new char[9];
      var i := 0;
      while i < 9
        invariant 0 <= i <= 9
        invariant forall k :: 0 <= k < i ==> buf[k] == Cell(k)
      {
        ShiftTest(this, 9 - 1 - i);
        if bits & (1 << (9 - 1 - i)) != 0 {
          buf[i] := Letters[i];
        } else {
          buf[i] := '-';
        }
        i := i + 1;
      }
      s := buf[..];
      forall k | 0 <= k < 9
        ensures s[k] == Render()[k]
      {
        RenderAt(this, k);
      }
    }
  }

  /** The single-bit mask of bit `j`, written out as a table. */
  function BitAt(j: nat): bv16
    requires j < 16
  {
    match j
    case 0 => 0x1 case 1 => 0x2 case 2 => 0x4 case 3 => 0x8
    case 4 => 0x10 case 5 => 0x20 case 6 => 0x40 case 7 => 0x80
    case 8 => 0x100 case 9 => 0x200 case 10 => 0x400 case 11 => 0x800
    case 12 => 0x1000 case 13 => 0x2000 case 14 => 0x4000 case _ => 0x8000
  }

  /** The source's test of bit `j`, a one shifted left by `j` and masked
      against the field, is Has(j). */
  lemma ShiftTest(m: Mode, j: nat)
    requires j < 16
    ensures (m.bits & (1 << j) != 0) == m.Has(j)
  {
  }

  /** One r/w/x triad: each permission shows its letter when granted. */
  function Triad(r: bool, w: bool, x: bool): (s: string)
  {
    [if r then 'r' else '-', if w then 'w' else '-', if x then 'x' else '-']
  }

  /** Builds a Mode, keeping only the nine permission bits of `b`. */
  function NewModeFromBits(b: bv16): (m: Mode)
    ensures m.Raw() < 512
  {
    Mode(b & PermMask)
  }

  /** Raw of a constructed mode keeps exactly the nine permission bits of the
      input and clears every bit above them, for every 16-bit input. */
  lemma NewModeRaw(b: bv16, j: nat)
    requires j < 16
    ensures NewModeFromBits(b).Has(j) <==> j < 9 && Mode(b).Has(j)
  {
  }

  /** A value that already fits in nine bits is stored unchanged. */
  lemma NewModeKeepsPermBits(b: bv16)
    requires b < 512
    ensures NewModeFromBits(b).Raw() == b
  {
  }

  /** Masking twice is masking once. */
  lemma NewModeIdempotent(b: bv16)
    ensures NewModeFromBits(NewModeFromBits(b).Raw()) == NewModeFromBits(b)
  {
  }

  /** Every position of the triad rendering is what the source's loop writes:
      the table letter when bit 8-i is set, '-' otherwise. */
  lemma RenderAt(m: Mode, i: nat)
    requires i < 9
    ensures m.Render()[i] == m.Cell(i)
  {
  }

  /** Two 16-bit values agree on their low nine bits when they agree bit by
      bit on each of them. */
  lemma LowBitsAgree(a: bv16, c: bv16)
    requires (a & 0x1 != 0) == (c & 0x1 != 0) && (a & 0x2 != 0) == (c & 0x2 != 0)
    requires (a & 0x4 != 0) == (c & 0x4 != 0) && (a & 0x8 != 0) == (c & 0x8 != 0)
    requires (a & 0x10 != 0) == (c & 0x10 != 0) && (a & 0x20 != 0) == (c & 0x20 != 0)
    requires (a & 0x40 != 0) == (c & 0x40 != 0) && (a & 0x80 != 0) == (c & 0x80 != 0)
    requires (a & 0x100 != 0) == (c & 0x100 != 0)
    ensures a & PermMask == c & PermMask
  {
  }

  /** Every character of a rendering is '-' or one of r, w, x, and the letter
      at a position can only be that position's own letter. */
  lemma RenderAlphabet(m: Mode, i: nat)
    requires i < 9
    ensures m.Render()[i] in {'-', 'r', 'w', 'x'}
    ensures m.Render()[i] != '-' ==> m.Render()[i] == Letters[i]
  {
  }

  /** Two modes render alike exactly when their nine permission bits agree. */
  lemma RenderInjective(a: Mode, c: Mode)
    ensures a.Render() == c.Render() <==> a.bits & PermMask == c.bits & PermMask
  {
    if a.Render() == c.Render() {
      forall i | 0 <= i < 9
        ensures a.Cell(i) == c.Cell(i)
      {
        RenderAt(a, i);
        RenderAt(c, i);
      }
      assert a.Cell(0) == c.Cell(0) && a.Cell(1) == c.Cell(1) && a.Cell(2) == c.Cell(2);
      assert a.Cell(3) == c.Cell(3) && a.Cell(4) == c.Cell(4) && a.Cell(5) == c.Cell(5);
      assert a.Cell(6) == c.Cell(6) && a.Cell(7) == c.Cell(7) && a.Cell(8) == c.Cell(8);
      LowBitsAgree(a.bits, c.bits);
    } else {
      var i :| 0 <= i < 9 && a.Render()[i] != c.Render()[i];
      RenderAt(a, i);
      RenderAt(c, i);
    }
  }

  /** Bits above 0777 never show in the rendering. */
  lemma RenderIgnoresHighBits(b: bv16)
    ensures NewModeFromBits(b).Render() == Mode(b).Render()
  {
  }

  /** Two constructed modes are equal exactly when they render alike. */
  lemma ConstructedRenderInjective(x: bv16, y: bv16)
    ensures NewModeFromBits(x).Render() == NewModeFromBits(y).Render()
            <==> NewModeFromBits(x) == NewModeFromBits(y)
  {
    RenderInjective(NewModeFromBits(x), NewModeFromBits(y));
  }

  /** The renderings pinned by the package's unit test (octal 0777, 0755,
      0644, 0664 and 0). */
  lemma KnownRenderings()
    ensures NewModeFromBits(0x1FF).Render() == "rwxrwxrwx"
    ensures NewModeFromBits(0x1ED).Render() == "rwxr-xr-x"
    ensures NewModeFromBits(0x1A4).Render() == "rw-r--r--"
    ensures NewModeFromBits(0x1B4).Render() == "rw-rw-r--"
    ensures NewModeFromBits(0).Render() == "---------"
  {
  }
}
