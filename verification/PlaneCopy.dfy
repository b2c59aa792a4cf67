/**
 Copying a packed I420 picture into a frame of three strided planes that live
 in one memory.
 */
module PlaneCopy {
  import opened Bytes

  /** Rows of `width` bytes, `stride` apart. */
  datatype Plane = Plane(base: nat, stride: nat, width: nat, rows: nat) {
    function At(y: nat, x: nat): nat { base + y * stride + x }

    function Size(): nat { rows * width }

    predicate Fits(length: nat) {
      && width <= stride
      && (0 < rows ==> base + (rows - 1) * stride + width <= length)
    }

    /** k is a pixel of the first n rows. */
    ghost predicate CoversIn(n: nat, k: nat) {
      exists y: nat, x: nat :: y < n && x < width && k == At(y, x)
    }

    ghost predicate Covers(k: nat) { CoversIn(rows, k) }

    /** The pixel is inside the memory, its packed place inside the source, and the bytes agree. */
    ghost predicate PixelIs(mem: Bytes, src: Bytes, start: nat, y: nat, x: nat) {
      && At(y, x) < |mem|
      && start + y * width + x < |src|
      && mem[At(y, x)] == src[start + y * width + x]
    }

    /** The first n rows hold the source bytes from `start` on. */
    ghost predicate RowsAre(mem: Bytes, src: Bytes, start: nat, n: nat) {
      forall y: nat, x: nat | y < n && x < width :: PixelIs(mem, src, start, y, x)
    }

    ghost predicate Holds(mem: Bytes, src: Bytes, start: nat) { RowsAre(mem, src, start, rows) }
  }

  // ----- index arithmetic -----

  lemma MulLess(a: nat, b: nat, c: nat)
    requires a < b
    ensures a * c + c <= b * c
  {
    assert b * c == a * c + (b - a) * c;
    assert (b - a) * c == c + (b - a - 1) * c;
  }

  /** Different places in rows of at most `step` bytes are different indices. */
  lemma PlaceUnique(step: nat, y: nat, x: nat, y': nat, x': nat)
    requires x < step && x' < step
    requires y * step + x == y' * step + x'
    ensures y == y' && x == x'
  {
    if y < y' { MulLess(y, y', step); }
    if y' < y { MulLess(y', y, step); }
  }

  /** Every index below rows * width is a place. */
  lemma PlaceOf(width: nat, rows: nat, k: nat) returns (y: nat, x: nat)
    requires k < rows * width
    ensures y < rows && x < width && k == y * width + x
  {
    assert width != 0;
    y, x := k / width, k % width;
    assert k == width * y + x;
    if rows < y { MulLess(rows, y, width); }
  }

  // ----- the copy -----

  /** memcpy of one row. */
  method CopyRow(dst: array<byte>, to: nat, src: array<byte>, from: nat, len: nat)
    requires to + len <= dst.Length && from + len <= src.Length && dst != src
    modifies dst
    ensures forall k | to <= k < to + len :: dst[k] == src[k - to + from]
    ensures forall k | 0 <= k < dst.Length && !(to <= k < to + len) :: dst[k] == old(dst[k])
  {
    for i := 0 to len
      invariant forall k | to <= k < to + i :: dst[k] == src[k - to + from]
      invariant forall k | 0 <= k < dst.Length && !(to <= k < to + i) :: dst[k] == old(dst[k])
    {
      dst[to + i] := src[from + i];
    }
  }

  /** Nothing but the first n rows has changed. */
  ghost predicate OnlyRows(before: Bytes, after: Bytes, p: Plane, n: nat) {
    && |after| == |before|
    && forall k: nat | k < |after| && !p.CoversIn(n, k) :: after[k] == before[k]
  }

  /** `after` is `middle` with row n of the plane copied in. */
  ghost predicate RowWritten(middle: Bytes, after: Bytes, p: Plane, src: Bytes, start: nat, n: nat) {
    var to, from := p.At(n, 0), start + n * p.width;
    && |after| == |middle| && to + p.width <= |after| && from + p.width <= |src|
    && (forall k | to <= k < to + p.width :: after[k] == src[k - to + from])
    && (forall k | 0 <= k < |after| && !(to <= k < to + p.width) :: after[k] == middle[k])
  }

  lemma OneMoreRow(middle: Bytes, after: Bytes, p: Plane, src: Bytes, start: nat, n: nat)
    requires p.width <= p.stride && p.RowsAre(middle, src, start, n) && RowWritten(middle, after, p, src, start, n)
    ensures p.RowsAre(after, src, start, n + 1)
  {
    forall y: nat, x: nat | y < n + 1 && x < p.width ensures p.PixelIs(after, src, start, y, x) {
      if y < n {
        assert p.PixelIs(middle, src, start, y, x);
        MulLess(y, n, p.stride);
      } else {
        var k := p.At(n, 0) + x;
        assert after[k] == src[k - p.At(n, 0) + (start + n * p.width)];
      }
    }
  }

  lemma RowCovered(p: Plane, n: nat, k: nat)
    requires p.At(n, 0) <= k < p.At(n, 0) + p.width
    ensures p.CoversIn(n + 1, k)
  {
    assert k == p.At(n, k - p.At(n, 0));
  }

  lemma CoveredStays(p: Plane, n: nat, k: nat)
    ensures p.CoversIn(n, k) ==> p.CoversIn(n + 1, k)
  {
    if p.CoversIn(n, k) {
      var y: nat, x: nat :| y < n && x < p.width && k == p.At(y, x);
      assert y < n + 1;
    }
  }

  lemma OnlyOneMoreRow(before: Bytes, middle: Bytes, after: Bytes, p: Plane, src: Bytes, start: nat, n: nat)
    requires OnlyRows(before, middle, p, n) && RowWritten(middle, after, p, src, start, n)
    ensures OnlyRows(before, after, p, n + 1)
  {
    forall k: nat | k < |after| && !p.CoversIn(n + 1, k) ensures after[k] == before[k] {
      CoveredStays(p, n, k);
      if p.At(n, 0) <= k < p.At(n, 0) + p.width { RowCovered(p, n, k); }
    }
  }

  lemma RowFits(p: Plane, length: nat, start: nat, srcLength: nat, y: nat)
    requires p.Fits(length) && start + p.Size() <= srcLength && y < p.rows
    ensures p.At(y, 0) + p.width <= length && start + y * p.width + p.width <= srcLength
  {
    if y < p.rows - 1 { MulLess(y, p.rows - 1, p.stride); }
    MulLess(y, p.rows, p.width);
  }

  method CopyPlane(dst: array<byte>, p: Plane, src: array<byte>, start: nat)
    requires p.Fits(dst.Length) && start + p.Size() <= src.Length && dst != src
    modifies dst
    ensures p.Holds(dst[..], src[..], start)
    ensures OnlyRows(old(dst[..]), dst[..], p, p.rows)
  {
    for y := 0 to p.rows
      invariant p.RowsAre(dst[..], src[..], start, y)
      invariant OnlyRows(old(dst[..]), dst[..], p, y)
    {
      ghost var middle := dst[..];
      RowFits(p, dst.Length, start, src.Length, y);
      CopyRow(dst, p.At(y, 0), src, start + y * p.width, p.width);
      assert RowWritten(middle, dst[..], p, src[..], start, y);
      OneMoreRow(middle, dst[..], p, src[..], start, y);
      OnlyOneMoreRow(old(dst[..]), middle, dst[..], p, src[..], start, y);
    }
  }

  ghost predicate Disjoint(p: Plane, q: Plane) {
    forall k: nat :: !(p.Covers(k) && q.Covers(k))
  }

  /** Where the three planes of a frame are. */
  datatype Frame = Frame(data: (nat, nat, nat), linesize: (nat, nat, nat)) {
    function Y(w: nat, h: nat): Plane { Plane(data.0, linesize.0, w, h) }
    function U(w: nat, h: nat): Plane { Plane(data.1, linesize.1, w / 2, h / 2) }
    function V(w: nat, h: nat): Plane { Plane(data.2, linesize.2, w / 2, h / 2) }

    /** The planes are inside the memory, and no byte belongs to two of them. */
    ghost predicate Fits(w: nat, h: nat, length: nat) {
      && Y(w, h).Fits(length) && U(w, h).Fits(length) && V(w, h).Fits(length)
      && Disjoint(Y(w, h), U(w, h)) && Disjoint(Y(w, h), V(w, h)) && Disjoint(U(w, h), V(w, h))
    }

    /** Every pixel of the three planes equals its packed source byte. */
    ghost predicate Holds(w: nat, h: nat, mem: Bytes, src: Bytes) {
      && Y(w, h).Holds(mem, src, 0)
      && U(w, h).Holds(mem, src, StartU(w, h))
      && V(w, h).Holds(mem, src, StartV(w, h))
    }

    ghost predicate Covers(w: nat, h: nat, k: nat) {
      Y(w, h).Covers(k) || U(w, h).Covers(k) || V(w, h).Covers(k)
    }
  }

  function StartU(w: nat, h: nat): nat { h * w }
  function StartV(w: nat, h: nat): nat { StartU(w, h) + (h / 2) * (w / 2) }
  function PictureSize(w: nat, h: nat): nat { StartV(w, h) + (h / 2) * (w / 2) }

  /** A plane is not disturbed by a later copy into a plane that shares no byte with it. */
  lemma PlaneKept(before: Bytes, after: Bytes, q: Plane, src: Bytes, start: nat, p: Plane)
    requires q.Holds(before, src, start) && OnlyRows(before, after, p, p.rows) && Disjoint(q, p)
    ensures q.Holds(after, src, start)
  {
    forall y: nat, x: nat | y < q.rows && x < q.width ensures q.PixelIs(after, src, start, y, x) {
      assert q.PixelIs(before, src, start, y, x);
      assert q.Covers(q.At(y, x));
    }
  }

  lemma ThreeCopies(f: Frame, w: nat, h: nat, src: Bytes, m0: Bytes, m1: Bytes, m2: Bytes, m3: Bytes)
    requires f.Fits(w, h, |m0|)
    requires OnlyRows(m0, m1, f.Y(w, h), h) && f.Y(w, h).Holds(m1, src, 0)
    requires OnlyRows(m1, m2, f.U(w, h), h / 2) && f.U(w, h).Holds(m2, src, StartU(w, h))
    requires OnlyRows(m2, m3, f.V(w, h), h / 2) && f.V(w, h).Holds(m3, src, StartV(w, h))
    ensures f.Holds(w, h, m3, src)
    ensures |m3| == |m0| && forall k: nat | k < |m0| && !f.Covers(w, h, k) :: m3[k] == m0[k]
  {
    PlaneKept(m1, m2, f.Y(w, h), src, 0, f.U(w, h));
    PlaneKept(m2, m3, f.Y(w, h), src, 0, f.V(w, h));
    PlaneKept(m2, m3, f.U(w, h), src, StartU(w, h), f.V(w, h));
    forall k: nat | k < |m0| && !f.Covers(w, h, k) ensures m3[k] == m0[k] {
      assert m1[k] == m0[k] && m2[k] == m1[k];
    }
  }

  /** One byte of the memory is one byte of the source. */
  ghost predicate SameByte(mem: Bytes, to: nat, src: Bytes, from: nat) {
    to < |mem| && from < |src| && mem[to] == src[from]
  }

  /** Luma pixel (y, x), in the frame's own numbers. */
  ghost predicate LumaCopied(mem: Bytes, src: Bytes, f: Frame, w: nat, h: nat, y: nat, x: nat) {
    SameByte(mem, f.data.0 + y * f.linesize.0 + x, src, y * w + x)
  }

  /** Pixel (y, x) of the first chroma plane, whose source follows the luma. */
  ghost predicate BlueCopied(mem: Bytes, src: Bytes, f: Frame, w: nat, h: nat, y: nat, x: nat) {
    SameByte(mem, f.data.1 + y * f.linesize.1 + x, src, w * h + y * (w / 2) + x)
  }

  /** Pixel (y, x) of the second chroma plane, whose source follows the first's. */
  ghost predicate RedCopied(mem: Bytes, src: Bytes, f: Frame, w: nat, h: nat, y: nat, x: nat) {
    SameByte(mem, f.data.2 + y * f.linesize.2 + x, src, w * h + (w / 2) * (h / 2) + y * (w / 2) + x)
  }

  lemma PixelsCopied(mem: Bytes, src: Bytes, f: Frame, w: nat, h: nat)
    requires f.Holds(w, h, mem, src)
    ensures forall y: nat, x: nat | y < h && x < w :: LumaCopied(mem, src, f, w, h, y, x)
    ensures forall y: nat, x: nat | y < h / 2 && x < w / 2 :: BlueCopied(mem, src, f, w, h, y, x)
    ensures forall y: nat, x: nat | y < h / 2 && x < w / 2 :: RedCopied(mem, src, f, w, h, y, x)
  {
    forall y: nat, x: nat | y < h && x < w ensures LumaCopied(mem, src, f, w, h, y, x) {
      assert f.Y(w, h).PixelIs(mem, src, 0, y, x);
    }
    forall y: nat, x: nat | y < h / 2 && x < w / 2
      ensures BlueCopied(mem, src, f, w, h, y, x) && RedCopied(mem, src, f, w, h, y, x)
    {
      assert f.U(w, h).PixelIs(mem, src, StartU(w, h), y, x);
      assert f.V(w, h).PixelIs(mem, src, StartV(w, h), y, x);
    }
  }

  /** A byte is covered exactly if it is a pixel of one of the three planes: all others are padding or foreign. */
  lemma CoversExactly(f: Frame, w: nat, h: nat, k: nat)
    ensures f.Covers(w, h, k) <==>
              || (exists y: nat, x: nat :: y < h && x < w && k == Plane(f.data.0, f.linesize.0, w, h).At(y, x))
              || (exists y: nat, x: nat :: y < h / 2 && x < w / 2 && k == Plane(f.data.1, f.linesize.1, w / 2, h / 2).At(y, x))
              || (exists y: nat, x: nat :: y < h / 2 && x < w / 2 && k == Plane(f.data.2, f.linesize.2, w / 2, h / 2).At(y, x))
  {}

  /**
   All three planes hold the picture, each pixel at its own place, and every
   other byte of the memory, padding included, is as before.
   */
  method CopyI420ToAVFrame(i420: array<byte>, mem: array<byte>, f: Frame, w: nat, h: nat)
    requires f.Fits(w, h, mem.Length) && w * h + 2 * ((w / 2) * (h / 2)) <= i420.Length && mem != i420
    modifies mem
    ensures f.Holds(w, h, mem[..], i420[..])
    ensures forall y: nat, x: nat | y < h && x < w :: LumaCopied(mem[..], i420[..], f, w, h, y, x)
    ensures forall y: nat, x: nat | y < h / 2 && x < w / 2 :: BlueCopied(mem[..], i420[..], f, w, h, y, x)
    ensures forall y: nat, x: nat | y < h / 2 && x < w / 2 :: RedCopied(mem[..], i420[..], f, w, h, y, x)
    ensures forall k: nat | k < mem.Length && !f.Covers(w, h, k) :: mem[k] == old(mem[k])
  {
    ghost var src, m0 := i420[..], mem[..];
    CopyPlane(mem, f.Y(w, h), i420, 0);
    ghost var m1 := mem[..];
    CopyPlane(mem, f.U(w, h), i420, StartU(w, h));
    ghost var m2 := mem[..];
    CopyPlane(mem, f.V(w, h), i420, StartV(w, h));
    ThreeCopies(f, w, h, src, m0, m1, m2, mem[..]);
    PixelsCopied(mem[..], src, f, w, h);
    assert forall k: nat | k < mem.Length :: mem[k] == mem[..][k] && old(mem[k]) == m0[k];
  }

  // ----- the picture can be read back -----

  function Row(mem: Bytes, p: Plane, y: nat): (row: Bytes)
    requires y < p.rows && p.Fits(|mem|)
    ensures |row| == p.width
  {
    RowFits(p, |mem|, 0, p.Size(), y);
    mem[p.At(y, 0)..p.At(y, 0) + p.width]
  }

  /** The first n rows, packed. */
  function PackRows(mem: Bytes, p: Plane, n: nat): Bytes
    requires n <= p.rows && p.Fits(|mem|)
  {
    if n == 0 then [] else PackRows(mem, p, n - 1) + Row(mem, p, n - 1)
  }

  function Pack(mem: Bytes, f: Frame, w: nat, h: nat): Bytes
    requires f.Fits(w, h, |mem|)
  {
    PackRows(mem, f.Y(w, h), h) + PackRows(mem, f.U(w, h), h / 2) + PackRows(mem, f.V(w, h), h / 2)
  }

  lemma {:induction false} PackedLength(mem: Bytes, p: Plane, n: nat)
    requires n <= p.rows && p.Fits(|mem|)
    ensures |PackRows(mem, p, n)| == n * p.width
  {
    if 0 < n {
      PackedLength(mem, p, n - 1);
      RowAdds(n - 1, p.width);
    }
  }

  lemma RowAdds(n: nat, width: nat)
    ensures (n + 1) * width == n * width + width
  {}

  lemma {:induction false} RowsReadBack(mem: Bytes, p: Plane, src: Bytes, start: nat, n: nat, end: nat)
    requires n <= p.rows && p.Fits(|mem|) && p.Holds(mem, src, start)
    requires end == start + |PackRows(mem, p, n)| && end <= |src|
    ensures PackRows(mem, p, n) == src[start..end]
  {
    if 0 < n {
      PackedLength(mem, p, n - 1);
      var middle := start + |PackRows(mem, p, n - 1)|;
      RowsReadBack(mem, p, src, start, n - 1, middle);
      RowReadBack(mem, p, src, middle, start, n - 1);
      Join(src, start, middle, end);
    }
  }

  lemma Join(src: Bytes, a: nat, b: nat, c: nat)
    requires a <= b <= c <= |src|
    ensures src[a..b] + src[b..c] == src[a..c]
  {}

  lemma RowReadBack(mem: Bytes, p: Plane, src: Bytes, from: nat, start: nat, y: nat)
    requires y < p.rows && p.Fits(|mem|) && p.Holds(mem, src, start)
    requires from == start + y * p.width && from + p.width <= |src|
    ensures Row(mem, p, y) == src[from..from + p.width]
  {
    RowFits(p, |mem|, 0, p.Size(), y);
    var row, packed := Row(mem, p, y), src[from..from + p.width];
    forall x: nat | x < |row| ensures row[x] == packed[x] {
      assert p.PixelIs(mem, src, start, y, x);
    }
  }

  /** Packing the planes again gives back the source picture. */
  lemma RoundTrip(mem: Bytes, f: Frame, src: Bytes, w: nat, h: nat)
    requires f.Fits(w, h, |mem|) && PictureSize(w, h) <= |src| && f.Holds(w, h, mem, src)
    ensures Pack(mem, f, w, h) == src[..PictureSize(w, h)]
  {
    var a, b, c := StartU(w, h), StartV(w, h), PictureSize(w, h);
    PackedLength(mem, f.Y(w, h), h);
    PackedLength(mem, f.U(w, h), h / 2);
    PackedLength(mem, f.V(w, h), h / 2);
    RowsReadBack(mem, f.Y(w, h), src, 0, h, a);
    RowsReadBack(mem, f.U(w, h), src, a, h / 2, b);
    RowsReadBack(mem, f.V(w, h), src, b, h / 2, c);
    Join(src, 0, a, b);
    Join(src, 0, b, c);
  }

  // ----- the source regions tile the picture -----

  /** A pixel of plane 0 (Y), 1 (U) or 2 (V). */
  datatype Place = Place(plane: nat, y: nat, x: nat)

  ghost predicate SourceOf(w: nat, h: nat, place: Place, k: nat) {
    match place
    case Place(0, y, x) => y < h && x < w && k == y * w + x
    case Place(1, y, x) => y < h / 2 && x < w / 2 && k == StartU(w, h) + (y * (w / 2) + x)
    case Place(2, y, x) => y < h / 2 && x < w / 2 && k == StartV(w, h) + (y * (w / 2) + x)
    case _ => false
  }

  /** Each byte of the picture is the source of exactly one pixel of one plane. */
  lemma Tiling(w: nat, h: nat, k: nat) returns (place: Place)
    requires k < PictureSize(w, h)
    ensures SourceOf(w, h, place, k)
    ensures forall other | SourceOf(w, h, other, k) :: other == place
  {
    if k < StartU(w, h) {
      var y, x := PlaceOf(w, h, k);
      place := Place(0, y, x);
    } else if k < StartV(w, h) {
      var y, x := PlaceOf(w / 2, h / 2, k - StartU(w, h));
      place := Place(1, y, x);
    } else {
      var y, x := PlaceOf(w / 2, h / 2, k - StartV(w, h));
      place := Place(2, y, x);
    }
    forall other | SourceOf(w, h, other, k) ensures other == place {
      RegionOf(w, h, other, k);
      RegionOf(w, h, place, k);
      PlaceUnique(if place.plane == 0 then w else w / 2, other.y, other.x, place.y, place.x);
    }
  }

  /** The three regions follow one another. */
  lemma RegionOf(w: nat, h: nat, place: Place, k: nat)
    requires SourceOf(w, h, place, k)
    ensures place.plane == 0 <==> k < StartU(w, h)
    ensures place.plane == 1 <==> StartU(w, h) <= k < StartV(w, h)
    ensures k < PictureSize(w, h)
  {
    var a, c := h * w, (h / 2) * (w / 2);
    assert StartU(w, h) == a && StartV(w, h) == a + c && PictureSize(w, h) == a + c + c;
    if place.plane == 0 {
      PlaceBelow(w, h, place.y, place.x);
    } else {
      PlaceBelow(w / 2, h / 2, place.y, place.x);
    }
  }

  lemma PlaceBelow(width: nat, rows: nat, y: nat, x: nat)
    requires y < rows && x < width
    ensures y * width + x < rows * width
  {
    MulLess(y, rows, width);
  }
}
