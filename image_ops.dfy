/**
 * The index arithmetic of the image augmentations: flips, centre and random crop windows,
 * the target dimensions of the aspect-preserving resize, and the saturating brightness add.
 * Pixel interpolation and all floating-point work are outside this module.
 */
module ImageOps {
  import opened Common

  /** The Python exceptions the modelled image operations can raise. */
  datatype ProcessError = ZeroDivisionError | TypeError | ValueError | IndexError

  /**
   * A height x width x channels array: `width` columns and a sequence of rows, each row a
   * sequence of pixels, a pixel `P` standing for that pixel's channel vector. The width is kept
   * beside the rows so that an image without rows still has one, as a NumPy shape does.
   */
  datatype Image<P> = Image(width: nat, rows: seq<seq<P>>) {
    /** Every row has `width` pixels. */
    predicate Wf() { forall i :: 0 <= i < |rows| ==> |rows[i]| == width }

    function Height(): nat { |rows| }
  }

  function Reverse<T>(s: seq<T>): (r: seq<T>)
    ensures |r| == |s|
    ensures forall k :: 0 <= k < |s| ==> r[k] == s[|s| - 1 - k]
  {
    seq(|s|, k requires 0 <= k < |s| => s[|s| - 1 - k])
  }

  lemma ReverseInvolutive<T>(s: seq<T>)
    ensures Reverse(Reverse(s)) == s
  {
  }

  // ---------------------------------------------------------------------------------------
  // Flips (cv2.flip with flip code 1 and 0)
  // ---------------------------------------------------------------------------------------

  /** Mirror across the vertical axis: column j of the result is column width-1-j of `img`. */
  function HorizontalFlip<P>(img: Image<P>): (r: Image<P>)
    ensures r.width == img.width && r.Height() == img.Height()
    ensures img.Wf() ==> r.Wf()
    ensures img.Wf() ==>
      forall i, j :: 0 <= i < r.Height() && 0 <= j < r.width ==>
        r.rows[i][j] == img.rows[i][img.width - 1 - j]
  {
    Image(img.width, seq(|img.rows|, i requires 0 <= i < |img.rows| => Reverse(img.rows[i])))
  }

  /** Mirror across the horizontal axis: row i of the result is row height-1-i of `img`. */
  function VerticalFlip<P>(img: Image<P>): (r: Image<P>)
    ensures r.width == img.width && r.Height() == img.Height()
    ensures img.Wf() ==> r.Wf()
    ensures img.Wf() ==>
      forall i, j :: 0 <= i < r.Height() && 0 <= j < r.width ==>
        r.rows[i][j] == img.rows[img.Height() - 1 - i][j]
  {
    Image(img.width, Reverse(img.rows))
  }

  lemma HorizontalFlipInvolutive<P>(img: Image<P>)
    ensures HorizontalFlip(HorizontalFlip(img)) == img
  {
    var once := HorizontalFlip(img);
    var twice := HorizontalFlip(once);
    forall i | 0 <= i < |img.rows|
      ensures twice.rows[i] == img.rows[i]
    {
      ReverseInvolutive(img.rows[i]);
    }
  }

  lemma VerticalFlipInvolutive<P>(img: Image<P>)
    ensures VerticalFlip(VerticalFlip(img)) == img
  {
    ReverseInvolutive(img.rows);
  }

  // ---------------------------------------------------------------------------------------
  // Slicing with Python's semantics, and crop windows
  // ---------------------------------------------------------------------------------------

  /**
   * Python's normalisation of a slice bound `i` (step 1) against a length `n`: a negative
   * bound counts from the end, and the result is clamped to [0, n].
   */
  function SliceBound(i: int, n: nat): (b: nat)
    ensures b <= n
    ensures 0 <= i <= n ==> b == i
    ensures i > n ==> b == n
    ensures i < 0 ==> b == (if i + n < 0 then 0 else n + i)
  {
    if i < 0 then (if i + n < 0 then 0 else i + n) else if i > n then n else i
  }

  /** The length of `s[start:stop]` for a sequence of length `n`. */
  function SliceLength(n: nat, start: int, stop: int): nat
  {
    var lo, hi := SliceBound(start, n), SliceBound(stop, n);
    if lo <= hi then hi - lo else 0
  }

  /** `s[start:stop]` in Python. */
  function Slice<T>(s: seq<T>, start: int, stop: int): (r: seq<T>)
    ensures |r| == SliceLength(|s|, start, stop)
    ensures 0 <= start <= stop <= |s| ==> r == s[start..stop]
    ensures forall k :: 0 <= k < |r| ==> SliceBound(start, |s|) + k < |s| && r[k] == s[SliceBound(start, |s|) + k]
  {
    var lo, hi := SliceBound(start, |s|), SliceBound(stop, |s|);
    if lo <= hi then s[lo..hi] else []
  }

  /** The pixels of a window: each sliced row is a row of the image from the clamped row
      offset, and each of its pixels comes from the clamped column offset. */
  lemma WindowPixels<P>(img: Image<P>, x1: int, x2: int, y1: int, y2: int, out: seq<seq<P>>)
    requires img.Wf()
    requires var rows := Slice(img.rows, y1, y2);
      |out| == |rows| && forall i :: 0 <= i < |rows| ==> out[i] == Slice(rows[i], x1, x2)
    ensures forall i :: 0 <= i < |out| ==> |out[i]| == SliceLength(img.width, x1, x2)
    ensures forall i, j :: 0 <= i < |out| && 0 <= j < SliceLength(img.width, x1, x2) ==>
      SliceBound(y1, img.Height()) + i < img.Height() &&
      SliceBound(x1, img.width) + j < img.width &&
      out[i][j] == img.rows[SliceBound(y1, img.Height()) + i][SliceBound(x1, img.width) + j]
  {
    var rows := Slice(img.rows, y1, y2);
    var lo := SliceBound(y1, img.Height());
    forall i | 0 <= i < |out|
      ensures lo + i < img.Height() && |out[i]| == SliceLength(img.width, x1, x2)
      ensures forall j :: 0 <= j < |out[i]| ==>
        SliceBound(x1, img.width) + j < img.width &&
        out[i][j] == img.rows[lo + i][SliceBound(x1, img.width) + j]
    {
      assert rows[i] == img.rows[lo + i];
      assert |rows[i]| == img.width;
    }
    assert SliceBound(x1, img.width) + SliceLength(img.width, x1, x2) <= img.width;
  }

  /** `data[y1:y2, x1:x2, :]`: rows sliced by [y1, y2), then columns by [x1, x2). */
  function Window<P>(img: Image<P>, x1: int, x2: int, y1: int, y2: int): (r: Image<P>)
    ensures r.width == SliceLength(img.width, x1, x2)
    ensures r.Height() == SliceLength(img.Height(), y1, y2)
    ensures img.Wf() ==> r.Wf()
    ensures img.Wf() ==>
      forall i, j :: 0 <= i < r.Height() && 0 <= j < r.width ==>
        SliceBound(y1, img.Height()) + i < img.Height() &&
        SliceBound(x1, img.width) + j < img.width &&
        r.rows[i][j] == img.rows[SliceBound(y1, img.Height()) + i][SliceBound(x1, img.width) + j]
  {
    var rows := Slice(img.rows, y1, y2);
    var r := Image(SliceLength(img.width, x1, x2),
                   seq(|rows|, i requires 0 <= i < |rows| => Slice(rows[i], x1, x2)));
    if img.Wf() then WindowPixels(img, x1, x2, y1, y2, r.rows); r else r
  }

  /**
   * CentralCrop.process for an integer width and height. On non-negative numbers Dafny's `/`
   * by 2 agrees with Python's `//`; on negative ones both round towards minus infinity.
   */
  function CentralCrop<P>(img: Image<P>, width: int, height: int): Image<P>
  {
    var dx := (img.width - width) / 2;
    var dy := (img.Height() - height) / 2;
    Window(img, dx, dx + width, dy, dy + height)
  }

  /**
   * A window that fits is exactly height x width, starts at dx = (w-width)//2, dy = (h-height)//2,
   * and is centred: the margins left and right (top and bottom) differ by at most one.
   */
  lemma CentralCropFits<P>(img: Image<P>, width: int, height: int)
    requires img.Wf()
    requires 0 <= width <= img.width && 0 <= height <= img.Height()
    ensures var r := CentralCrop(img, width, height);
      var dx, dy := (img.width - width) / 2, (img.Height() - height) / 2;
      r.Wf() && r.width == width && r.Height() == height &&
      dx <= img.width - width - dx <= dx + 1 &&
      dy <= img.Height() - height - dy <= dy + 1 &&
      forall i, j :: 0 <= i < height && 0 <= j < width ==>
        r.rows[i][j] == img.rows[dy + i][dx + j]
  {
    var dx, dy := (img.width - width) / 2, (img.Height() - height) / 2;
    assert SliceBound(dx, img.width) == dx && SliceBound(dx + width, img.width) == dx + width;
    assert SliceBound(dy, img.Height()) == dy && SliceBound(dy + height, img.Height()) == dy + height;
  }

  /** A full-size central crop returns the image unchanged. */
  lemma CentralCropFullSize<P>(img: Image<P>)
    requires img.Wf()
    ensures CentralCrop(img, img.width, img.Height()) == img
  {
    var r := CentralCrop(img, img.width, img.Height());
    CentralCropFits(img, img.width, img.Height());
    forall i | 0 <= i < img.Height()
      ensures r.rows[i] == img.rows[i]
    {
    }
  }

  /**
   * A central crop wider than the image (by d columns, d at most twice the width) does not
   * clamp: the negative start offset counts from the right edge, so only the rightmost
   * ceil(d/2) columns survive.
   */
  lemma CentralCropOversize<P>(img: Image<P>, width: int, height: int)
    requires img.Wf()
    requires img.width < width <= 3 * img.width
    ensures var r := CentralCrop(img, width, height);
      r.width == (width - img.width + 1) / 2 && r.width <= img.width &&
      forall i, j :: 0 <= i < r.Height() && 0 <= j < r.width ==>
        r.rows[i][j] == img.rows[SliceBound((img.Height() - height) / 2, img.Height()) + i][img.width - r.width + j]
  {
    var d := width - img.width;
    var dx := (img.width - width) / 2;
    assert dx == -((d + 1) / 2);
    assert SliceBound(dx, img.width) == img.width + dx;
    assert SliceBound(dx + width, img.width) == img.width;
  }

  /** randint(0, extent - size) when the image is larger than the window on that axis, else 0. */
  function RandomCropOffset(extent: nat, size: int, draw: int): int
  {
    if extent > size then draw else 0
  }

  /** RandomCrop.process for an integer width and height, with the two offset draws supplied. */
  function RandomCrop<P>(img: Image<P>, width: int, height: int, drawX: int, drawY: int): Image<P>
    requires img.width > width ==> 0 <= drawX <= img.width - width
    requires img.Height() > height ==> 0 <= drawY <= img.Height() - height
  {
    var dx := RandomCropOffset(img.width, width, drawX);
    var dy := RandomCropOffset(img.Height(), height, drawY);
    Window(img, dx, dx + width, dy, dy + height)
  }

  /** One axis of a random crop: the offset and the clamped end of the slice. */
  lemma RandomCropAxis(extent: nat, size: nat, draw: int)
    requires extent > size ==> 0 <= draw <= extent - size
    ensures var d := RandomCropOffset(extent, size, draw);
      0 <= d && d + Min(size, extent) <= extent && (extent <= size ==> d == 0) &&
      SliceBound(d, extent) == d && SliceLength(extent, d, d + size) == Min(size, extent)
  {
    var d := RandomCropOffset(extent, size, draw);
    assert SliceBound(d + size, extent) == d + Min(size, extent);
  }

  /**
   * For a non-negative window size the offsets lie in [0, w-width] (0 when the window is at
   * least as large as the image), the window stays inside the image, and the result is
   * min(height, h) x min(width, w) because slicing clamps.
   */
  lemma RandomCropWindow<P>(img: Image<P>, width: nat, height: nat, drawX: int, drawY: int)
    requires img.Wf()
    requires img.width > width ==> 0 <= drawX <= img.width - width
    requires img.Height() > height ==> 0 <= drawY <= img.Height() - height
    ensures var r := RandomCrop(img, width, height, drawX, drawY);
      r.Wf() && r.width == Min(width, img.width) && r.Height() == Min(height, img.Height())
    ensures var dx := RandomCropOffset(img.width, width, drawX);
      0 <= dx && dx + Min(width, img.width) <= img.width && (img.width <= width ==> dx == 0)
    ensures var dy := RandomCropOffset(img.Height(), height, drawY);
      0 <= dy && dy + Min(height, img.Height()) <= img.Height() && (img.Height() <= height ==> dy == 0)
    ensures var r := RandomCrop(img, width, height, drawX, drawY);
      var dx := RandomCropOffset(img.width, width, drawX);
      var dy := RandomCropOffset(img.Height(), height, drawY);
      forall i, j :: 0 <= i < r.Height() && 0 <= j < r.width ==>
        r.rows[i][j] == img.rows[dy + i][dx + j]
  {
    RandomCropAxis(img.width, width, drawX);
    RandomCropAxis(img.Height(), height, drawY);
  }

  // ---------------------------------------------------------------------------------------
  // Target dimensions of resize_by_min_edge
  // ---------------------------------------------------------------------------------------

  /**
   * The (width, height) that resize_by_min_edge hands to the resize for an image of h rows
   * and w columns. argmin over (h, w) picks the rows on a tie; the longer edge is scaled by
   * floor division, which raises ZeroDivisionError when the shorter edge is 0.
   */
  function MinEdgeTarget(h: nat, w: nat, size: int): Result<(int, int), ProcessError>
  {
    if h <= w then
      if h == 0 then Err(ZeroDivisionError) else Ok((size * w / h, size))
    else
      if w == 0 then Err(ZeroDivisionError) else Ok((size, size * h / w))
  }

  /**
   * The shorter edge (the rows on a tie) becomes `size`; the longer becomes
   * size * longer // shorter, so the aspect ratio is kept up to rounding down, and it is never
   * less than `size` when `size` is non-negative. It fails exactly when an edge is 0.
   */
  lemma MinEdgeTargetSpec(h: nat, w: nat, size: int)
    ensures MinEdgeTarget(h, w, size).Ok? <==> h > 0 && w > 0
    ensures MinEdgeTarget(h, w, size).Ok? ==>
      var (tw, th) := MinEdgeTarget(h, w, size).value;
      var shorter, longer := Min(h, w), if h <= w then w else h;
      var scaled := if h <= w then tw else th;
      (if h <= w then th == size else tw == size) &&
      scaled * shorter <= size * longer < (scaled + 1) * shorter &&
      (size >= 0 ==> scaled >= size)
  {
    if h > 0 && w > 0 {
      var shorter, longer := Min(h, w), if h <= w then w else h;
      var scaled := size * longer / shorter;
      assert scaled * shorter <= size * longer < (scaled + 1) * shorter by {
        DivisionBounds(size * longer, shorter);
      }
      if size >= 0 {
        assert size * longer >= size * shorter by { MulMonotone(size, shorter, longer); }
        DivisionAtLeast(size * longer, shorter, size);
      }
    }
  }

  lemma DivisionBounds(a: int, b: int)
    requires b > 0
    ensures (a / b) * b <= a < (a / b + 1) * b
  {
  }

  lemma MulMonotone(k: nat, x: int, y: int)
    requires x <= y
    ensures k * x <= k * y
  {
  }

  lemma DivisionAtLeast(a: int, b: int, q: int)
    requires b > 0 && a >= q * b
    ensures a / b >= q
  {
    var d := a / b;
    DivisionBounds(a, b);
    if d < q {
      MulMonotone(b, d + 1, q);
      assert false;
    }
  }

  // ---------------------------------------------------------------------------------------
  // Saturating brightness
  // ---------------------------------------------------------------------------------------

  /** A channel value of an 8-bit image. */
  type Channel = x: int | 0 <= x < 256

  /**
   * np.where((255 - data) < b, 255, data + b) on one channel value, computed on integers:
   * the result never exceeds 255, a non-negative offset saturates at 255, and a negative one
   * is added without a lower clamp.
   */
  function Brighten(x: Channel, b: int): (r: int)
    ensures r <= 255
    ensures b >= 0 ==> r == Min(x + b, 255) && r >= 0
    ensures b < 0 ==> r == x + b
  {
    if 255 - x < b then 255 else x + b
  }

  /** Brighten applied to every channel of every pixel. */
  function BrightenImage(img: Image<seq<Channel>>, b: int): (r: Image<seq<int>>)
    ensures r.width == img.width && r.Height() == img.Height()
    ensures img.Wf() ==> r.Wf()
    ensures forall i :: 0 <= i < r.Height() ==>
      |r.rows[i]| == |img.rows[i]| && (forall j :: 0 <= j < |r.rows[i]| ==> |r.rows[i][j]| == |img.rows[i][j]|)
    ensures forall i, j, c :: 0 <= i < r.Height() && 0 <= j < |r.rows[i]| && 0 <= c < |r.rows[i][j]| ==>
      j < |img.rows[i]| && c < |img.rows[i][j]| && r.rows[i][j][c] == Brighten(img.rows[i][j][c], b)
  {
    Image(img.width, seq(|img.rows|, i requires 0 <= i < |img.rows| =>
      seq(|img.rows[i]|, j requires 0 <= j < |img.rows[i]| =>
        seq(|img.rows[i][j]|, c requires 0 <= c < |img.rows[i][j]| => Brighten(img.rows[i][j][c], b)))))
  }
}
