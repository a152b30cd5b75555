/** Conversion of an image tensor back into a Gray or RGBA image
    (internal/util.go, `TensorToImage`). */
module TensorImage {
  import opened Wrappers

  /** An 8-bit colour component. Tensor elements are taken to be already in this
      range: the float32 to uint8 conversion is not modelled. */
  newtype byte = x: int | 0 <= x < 256

  /** A pixel: one component per channel. */
  type Pixel = seq<byte>

  /** What `Value()` returns for a float tensor: a three-level array for rank 3,
      a four-level array for rank 4. Contents of other ranks are never read and
      are not modelled. */
  datatype Contents =
    | Cube(cube: seq<seq<Pixel>>)
    | Batch(batch: seq<seq<seq<Pixel>>>)
    | OtherRank

  /** A tensor: its shape and its contents. */
  datatype Tensor = Tensor(shape: seq<int>, contents: Contents)

  /** `d` is a dense a x b x c array. */
  predicate Dense(d: seq<seq<Pixel>>, a: int, b: int, c: int) {
    && |d| == a
    && forall i :: 0 <= i < |d| ==>
         && |d[i]| == b
         && forall j :: 0 <= j < |d[i]| ==> |d[i][j]| == c
  }

  /** What every runtime float tensor satisfies: non-negative dimensions and
      contents whose nesting and lengths agree with the shape. */
  predicate WellFormed(t: Tensor) {
    && (forall i :: 0 <= i < |t.shape| ==> t.shape[i] >= 0)
    && (|t.shape| == 3 <==> t.contents.Cube?)
    && (|t.shape| == 4 <==> t.contents.Batch?)
    && (|t.shape| == 3 ==> Dense(t.contents.cube, t.shape[0], t.shape[1], t.shape[2]))
    && (|t.shape| == 4 ==>
          && |t.contents.batch| == t.shape[0]
          && forall b :: 0 <= b < |t.contents.batch| ==>
               Dense(t.contents.batch[b], t.shape[1], t.shape[2], t.shape[3]))
  }

  /** The single error of this component, `ErrInvalidImageTensor`. */
  datatype TensorError = InvalidImageTensor

  datatype Kind = Gray | RGBA

  datatype Color = GrayColor(y: byte) | RGBAColor(r: byte, g: byte, b: byte, a: byte)

  datatype Point = Point(x: int, y: int)

  /** `image.Rectangle`: `min` inclusive, `max` exclusive. */
  datatype Rect = Rect(min: Point, max: Point)

  /** An image: its colour model, bounds, and pixels stored row by row
      (`pix[y][x]` is the pixel at column x of row y). */
  datatype Image = Image(kind: Kind, rect: Rect, pix: seq<seq<Color>>)

  /** The three numbers the source reads off a shape, under its own names. */
  datatype Geometry = Geometry(w: int, h: int, c: int)

  /** Reads (w, h, c) off the shape; a rank-4 shape has a leading batch dimension
      that is skipped. Any other rank is not an image. */
  function ShapeGeometry(shape: seq<int>): (r: Result<Geometry, TensorError>)
    ensures r.Ok? <==> 3 <= |shape| <= 4
    ensures |shape| == 3 ==> r == Ok(Geometry(shape[0], shape[1], shape[2]))
    ensures |shape| == 4 ==> r == Ok(Geometry(shape[1], shape[2], shape[3]))
  {
    if !(3 <= |shape| <= 4) then Err(InvalidImageTensor)
    else if |shape| == 3 then Ok(Geometry(shape[0], shape[1], shape[2]))
    else Ok(Geometry(shape[1], shape[2], shape[3]))
  }

  /** A batch of images is read like its first image: prefixing a batch
      dimension to a rank-3 shape does not change the geometry. */
  lemma BatchDimensionSkipped(batch: int, shape: seq<int>)
    requires |shape| == 3
    ensures ShapeGeometry([batch] + shape) == ShapeGeometry(shape)
  {
  }

  /** Only the rank decides rejection at this step: ranks 0-2 and 5+ are refused
      whatever the dimensions are, and ranks 3 and 4 are always accepted. */
  lemma RankDecidesGeometry(s1: seq<int>, s2: seq<int>)
    requires |s1| == |s2|
    ensures ShapeGeometry(s1).Ok? == ShapeGeometry(s2).Ok?
  {
  }

  /** The channel count of each colour model. */
  function ChannelCount(k: Kind): (c: int)
    ensures c == 1 || c == 3
  {
    match k
    case Gray => 1
    case RGBA => 3
  }

  /** Chooses the colour model from the channel count: 1 is Gray, 3 is RGBA,
      anything else is not an image. */
  function Classify(c: int): (r: Result<Kind, TensorError>)
    ensures r == Ok(Gray) <==> c == 1
    ensures r == Ok(RGBA) <==> c == 3
    ensures r.Err? <==> c != 1 && c != 3
  {
    if c == 1 then Ok(Gray)
    else if c == 3 then Ok(RGBA)
    else Err(InvalidImageTensor)
  }

  /** `Classify` and `ChannelCount` are inverse to each other. */
  lemma ClassifyRoundTrip(k: Kind, c: int)
    ensures Classify(ChannelCount(k)) == Ok(k)
    ensures Classify(c) == Ok(k) ==> c == ChannelCount(k)
  {
  }

  /** The pixel array of the image: the tensor itself for rank 3, the first
      batch element for rank 4. */
  function ImageData(t: Tensor): (d: seq<seq<Pixel>>)
    requires WellFormed(t)
    requires 3 <= |t.shape| <= 4
    requires |t.shape| == 4 ==> t.shape[0] > 0
    ensures Dense(d, t.shape[|t.shape| - 3], t.shape[|t.shape| - 2], t.shape[|t.shape| - 1])
    ensures |t.shape| == 3 ==> d == t.contents.cube
    ensures |t.shape| == 4 ==> d == t.contents.batch[0]
  {
    if |t.shape| == 3 then t.contents.cube else t.contents.batch[0]
  }

  /** The colour stored for one pixel: Gray reads channel 0 only; RGBA reads
      channels 0-2 and is always opaque. */
  function ColorOf(k: Kind, p: Pixel): (col: Color)
    requires |p| == ChannelCount(k)
    ensures col.GrayColor? <==> k == Gray
    ensures k == Gray ==> col.y == p[0]
    ensures k == RGBA ==> col == RGBAColor(p[0], p[1], p[2], 255)
  {
    match k
    case Gray => GrayColor(p[0])
    case RGBA => RGBAColor(p[0], p[1], p[2], 255)
  }

  /** The colour of a freshly allocated pixel. */
  function Zero(k: Kind): Color {
    match k
    case Gray => GrayColor(0)
    case RGBA => RGBAColor(0, 0, 0, 0)
  }

  /** `pix` has `h` rows of `w` pixels each. */
  predicate Grid(pix: seq<seq<Color>>, w: int, h: int) {
    && |pix| == h
    && forall y :: 0 <= y < |pix| ==> |pix[y]| == w
  }

  /** `image.NewGray` / `image.NewRGBA` of the rectangle (0, 0)-(w, h). */
  function Blank(k: Kind, w: nat, h: nat): (pix: seq<seq<Color>>)
    ensures Grid(pix, w, h)
    ensures forall y, x :: 0 <= y < h && 0 <= x < w ==> pix[y][x] == Zero(k)
  {
    seq(h, _ => seq(w, _ => Zero(k)))
  }

  /** `Set(x, y, col)` on an image with bounds (0, 0)-(w, h): a point outside
      the bounds is silently ignored. */
  function SetPixel(pix: seq<seq<Color>>, w: int, h: int, x: int, y: int, col: Color): (q: seq<seq<Color>>)
    requires Grid(pix, w, h)
    ensures Grid(q, w, h)
    ensures forall yy, xx :: 0 <= yy < h && 0 <= xx < w ==>
              q[yy][xx] == if yy == y && xx == x then col else pix[yy][xx]
  {
    if 0 <= x < w && 0 <= y < h then pix[y := pix[y][x := col]] else pix
  }

  /** The colour the copy loop stores at (x, y): the data's pixel when row y
      and column x exist in the data, the zero colour otherwise. */
  function Copied(k: Kind, data: seq<seq<Pixel>>, y: int, x: int): Color
    requires forall i, j :: 0 <= i < |data| && 0 <= j < |data[i]| ==> |data[i][j]| == ChannelCount(k)
  {
    if 0 <= y < |data| && 0 <= x < |data[y]| then ColorOf(k, data[y][x]) else Zero(k)
  }

  /** The image the source builds, with its naming quirk kept: the first
      spatial dimension `w` is the width of the bounds, yet the copy loop uses
      it as the row index. */
  function AsWrittenImage(t: Tensor): (r: Result<Image, TensorError>)
    requires WellFormed(t)
    requires |t.shape| == 4 ==> t.shape[0] > 0
    ensures r.Err? <==> !(3 <= |t.shape| <= 4) || Classify(ShapeGeometry(t.shape).value.c).Err?
    ensures r.Ok? ==> var g := ShapeGeometry(t.shape).value;
              && r.value.kind == Classify(g.c).value
              && r.value.rect == Rect(Point(0, 0), Point(g.w, g.h))
              && Grid(r.value.pix, g.w, g.h)
              && forall y, x :: 0 <= y < g.h && 0 <= x < g.w ==>
                   r.value.pix[y][x] == Copied(r.value.kind, ImageData(t), y, x)
  {
    match ShapeGeometry(t.shape)
    case Err(e) => Err(e)
    case Ok(g) =>
      match Classify(g.c)
      case Err(e) => Err(e)
      case Ok(k) =>
        var data := ImageData(t);
        Ok(Image(k, Rect(Point(0, 0), Point(g.w, g.h)),
                 seq(g.h, y => seq(g.w, x => Copied(k, data, y, x)))))
  }

  /** `TensorToImage`: checks the rank, reads (w, h, c), chooses the colour
      model from c, allocates the image (0, 0)-(w, h), then visits every row
      index y of the data and every column index x of that row, storing the
      pixel through `Set`. */
  method TensorToImage(t: Tensor) returns (r: Result<Image, TensorError>)
    requires WellFormed(t)
    requires |t.shape| == 4 ==> t.shape[0] > 0
    ensures r == AsWrittenImage(t)
    ensures r.Err? <==> !(3 <= |t.shape| <= 4) || Classify(ShapeGeometry(t.shape).value.c).Err?
    ensures r.Ok? ==> r.value.kind == Classify(ShapeGeometry(t.shape).value.c).value
    ensures r.Ok? ==> r.value.rect == Rect(Point(0, 0), Point(ShapeGeometry(t.shape).value.w, ShapeGeometry(t.shape).value.h))
    ensures r.Ok? ==> Grid(r.value.pix, ShapeGeometry(t.shape).value.w, ShapeGeometry(t.shape).value.h)
    ensures r.Ok? ==> forall y, x :: 0 <= y < |r.value.pix| && 0 <= x < |r.value.pix[y]| ==>
              r.value.pix[y][x] ==
                if y < ShapeGeometry(t.shape).value.w && x < ShapeGeometry(t.shape).value.h
                then ColorOf(r.value.kind, ImageData(t)[y][x])
                else Zero(r.value.kind)
  {
    var shape := t.shape;
    if !(3 <= |shape| <= 4) {
      return Err(InvalidImageTensor);
    }
    var w, h, c := 0, 0, 0;
    var data: seq<seq<Pixel>>;
    if |shape| == 3 {
      w, h, c := shape[0], shape[1], shape[2];
      data := t.contents.cube;
    } else {
      w, h, c := shape[1], shape[2], shape[3];
      data := t.contents.batch[0];
    }
    assert data == ImageData(t);
    assert Dense(data, w, h, c) && w >= 0 && h >= 0;
    var kind: Kind;
    if c == 1 {
      kind := Gray;
    } else if c == 3 {
      kind := RGBA;
    } else {
      return Err(InvalidImageTensor);
    }
    var pix := Blank(kind, w, h);
    var y := 0;
    while y < |data|
      invariant 0 <= y <= |data|
      invariant Grid(pix, w, h)
      invariant forall yy, xx :: 0 <= yy < h && 0 <= xx < w ==>
                  pix[yy][xx] == if yy < y then Copied(kind, data, yy, xx) else Zero(kind)
    {
      var x := 0;
      while x < |data[y]|
        invariant 0 <= x <= |data[y]|
        invariant Grid(pix, w, h)
        invariant forall yy, xx :: 0 <= yy < h && 0 <= xx < w ==>
                    pix[yy][xx] ==
                      if yy < y || (yy == y && xx < x) then Copied(kind, data, yy, xx) else Zero(kind)
      {
        pix := SetPixel(pix, w, h, x, y, ColorOf(kind, data[y][x]));
        x := x + 1;
      }
      y := y + 1;
    }
    r := Ok(Image(kind, Rect(Point(0, 0), Point(w, h)), pix));
    var expected := seq(h, yy => seq(w, xx => Copied(kind, data, yy, xx)));
    forall yy | 0 <= yy < h
      ensures pix[yy] == expected[yy]
    {
      assert forall xx :: 0 <= xx < w ==> pix[yy][xx] == expected[yy][xx];
    }
    assert pix == expected;
  }

  /** The image `TensorToImage` evidently means to build: the data has one
      entry per row, so the first spatial dimension is the height and the
      second the width, and every pixel of the data lands at its own place. */
  function IntendedImage(t: Tensor): (r: Result<Image, TensorError>)
    requires WellFormed(t)
    requires |t.shape| == 4 ==> t.shape[0] > 0
    ensures r.Err? <==> AsWrittenImage(t).Err?
    ensures r.Ok? ==> r.value.kind == AsWrittenImage(t).value.kind
    ensures r.Ok? ==> var data := ImageData(t);
              && r.value.rect == Rect(Point(0, 0), Point(ShapeGeometry(t.shape).value.h, |data|))
              && Grid(r.value.pix, ShapeGeometry(t.shape).value.h, |data|)
              && forall y, x :: 0 <= y < |data| && 0 <= x < |data[y]| ==>
                   r.value.pix[y][x] == ColorOf(r.value.kind, data[y][x])
  {
    match ShapeGeometry(t.shape)
    case Err(e) => Err(e)
    case Ok(g) =>
      match Classify(g.c)
      case Err(e) => Err(e)
      case Ok(k) =>
        var data := ImageData(t);
        Ok(Image(k, Rect(Point(0, 0), Point(g.h, g.w)),
                 seq(g.w, y => seq(g.h, x => Copied(k, data, y, x)))))
  }

  /** For a square image the source's naming quirk is harmless: the built
      image is the intended one. */
  lemma SquareImagesAgree(t: Tensor)
    requires WellFormed(t)
    requires |t.shape| == 4 ==> t.shape[0] > 0
    requires 3 <= |t.shape| <= 4
    requires ShapeGeometry(t.shape).value.w == ShapeGeometry(t.shape).value.h
    ensures AsWrittenImage(t) == IntendedImage(t)
  {
  }

  /** A one-row, two-column gray tensor: the image is built one pixel wide and
      two high, the second data pixel (9) is dropped by `Set` as out of
      bounds, and the second row of the image stays zero. */
  lemma NonSquareImageLosesPixel()
    ensures var t := Tensor([1, 2, 1], Cube([[[7], [9]]]));
      && AsWrittenImage(t) == Ok(Image(Gray, Rect(Point(0, 0), Point(1, 2)), [[GrayColor(7)], [GrayColor(0)]]))
      && IntendedImage(t) == Ok(Image(Gray, Rect(Point(0, 0), Point(2, 1)), [[GrayColor(7), GrayColor(9)]]))
  {
    var t := Tensor([1, 2, 1], Cube([[[7], [9]]]));
    var data := ImageData(t);
    var written := seq(2, y => seq(1, x => Copied(Gray, data, y, x)));
    assert written == [[GrayColor(7)], [GrayColor(0)]] by {
      assert written[0] == [GrayColor(7)];
      assert written[1] == [GrayColor(0)];
    }
    var intended := seq(1, y => seq(2, x => Copied(Gray, data, y, x)));
    assert intended == [[GrayColor(7), GrayColor(9)]] by {
      assert intended[0] == [GrayColor(7), GrayColor(9)];
    }
  }
}
