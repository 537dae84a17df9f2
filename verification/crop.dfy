/**
  Auto-crop of a rendered sprite: the bounding box of its visible pixels
  (Pillow's getbbox on an RGBA image, which looks at alpha), the crop to that
  box, and the offset/size bookkeeping that lets a consumer put the cropped
  sprite back where it was on the original canvas.
*/
module Crop {
  import opened Wrappers

  /** A rendered image seen through its alpha channel: alpha[y][x] for row y, column x. */
  datatype Image = Image(width: nat, height: nat, alpha: seq<seq<int>>)

  predicate ValidImage(img: Image) {
    |img.alpha| == img.height && forall y :: 0 <= y < img.height ==> |img.alpha[y]| == img.width
  }

  /** A pixel is visible when its alpha is non-zero. */
  predicate Visible(img: Image, x: int, y: int) {
    0 <= y < |img.alpha| && 0 <= x < |img.alpha[y]| && img.alpha[y][x] != 0
  }

  predicate FullyTransparent(img: Image) {
    forall y, x :: 0 <= y < |img.alpha| && 0 <= x < |img.alpha[y]| ==> img.alpha[y][x] == 0
  }

  /** A Pillow box (left, upper, right, lower); right and lower are exclusive. */
  datatype BBox = BBox(left: int, upper: int, right: int, lower: int)

  predicate Covers(b: BBox, x: int, y: int) {
    b.left <= x < b.right && b.upper <= y < b.lower
  }

  predicate Encloses(outer: BBox, inner: BBox) {
    outer.left <= inner.left && inner.right <= outer.right &&
    outer.upper <= inner.upper && inner.lower <= outer.lower
  }

  datatype Pixel = Pixel(x: int, y: int)

  /** The visible pixels of one row, left to right. */
  function RowVisible(row: seq<int>, y: int): (r: seq<Pixel>)
    ensures forall p :: p in r <==> p.y == y && 0 <= p.x < |row| && row[p.x] != 0
    decreases |row|
  {
    if row == [] then []
    else
      var x := |row| - 1;
      RowVisible(row[..x], y) + (if row[x] != 0 then [Pixel(x, y)] else [])
  }

  /** The visible pixels of the whole grid, row by row. */
  function VisiblePixels(rows: seq<seq<int>>): (r: seq<Pixel>)
    ensures forall p :: p in r <==> 0 <= p.y < |rows| && 0 <= p.x < |rows[p.y]| && rows[p.y][p.x] != 0
    decreases |rows|
  {
    if rows == [] then []
    else
      var y := |rows| - 1;
      VisiblePixels(rows[..y]) + RowVisible(rows[y], y)
  }

  /** The smallest box holding `acc` and the pixel p. */
  function Hull(acc: Option<BBox>, p: Pixel): BBox {
    match acc
    case None => BBox(p.x, p.y, p.x + 1, p.y + 1)
    case Some(b) =>
      BBox(if p.x < b.left then p.x else b.left,
           if p.y < b.upper then p.y else b.upper,
           if p.x + 1 > b.right then p.x + 1 else b.right,
           if p.y + 1 > b.lower then p.y + 1 else b.lower)
  }

  /** The box around a pixel sequence; None for no pixels. */
  function BoxOf(pts: seq<Pixel>): (r: Option<BBox>)
    ensures r.None? <==> pts == []
    ensures r.Some? ==> forall i :: 0 <= i < |pts| ==> Covers(r.value, pts[i].x, pts[i].y)
    decreases |pts|
  {
    if pts == [] then None
    else Some(Hull(BoxOf(pts[..|pts| - 1]), pts[|pts| - 1]))
  }

  /** BoxOf is enclosed by every box that covers all the pixels. */
  lemma {:induction false} BoxOfSmallest(pts: seq<Pixel>, b: BBox)
    requires pts != []
    requires forall i :: 0 <= i < |pts| ==> Covers(b, pts[i].x, pts[i].y)
    ensures Encloses(b, BoxOf(pts).value)
    decreases |pts|
  {
    if |pts| > 1 {
      BoxOfSmallest(pts[..|pts| - 1], b);
    }
  }

  /** Image.getbbox(): the box of the visible pixels, or None when there are none. */
  function GetBBox(img: Image): Option<BBox> {
    BoxOf(VisiblePixels(img.alpha))
  }

  /** An image has visible pixels exactly when it is not fully transparent. */
  lemma NoPixelsIffTransparent(img: Image)
    ensures VisiblePixels(img.alpha) == [] <==> FullyTransparent(img)
  {
    if !FullyTransparent(img) {
      var y, x :| 0 <= y < |img.alpha| && 0 <= x < |img.alpha[y]| && img.alpha[y][x] != 0;
      assert Pixel(x, y) in VisiblePixels(img.alpha);
    }
    if VisiblePixels(img.alpha) != [] {
      assert VisiblePixels(img.alpha)[0] in VisiblePixels(img.alpha);
    }
  }

  /** The box of the visible pixels lies inside the image and is not empty. */
  lemma BoxInsideImage(img: Image)
    requires ValidImage(img) && VisiblePixels(img.alpha) != []
    ensures var b := BoxOf(VisiblePixels(img.alpha)).value;
      && 0 <= b.left < b.right <= img.width
      && 0 <= b.upper < b.lower <= img.height
  {
    var pts := VisiblePixels(img.alpha);
    forall i | 0 <= i < |pts| ensures Covers(BBox(0, 0, img.width, img.height), pts[i].x, pts[i].y) {
      assert pts[i] in pts;
    }
    BoxOfSmallest(pts, BBox(0, 0, img.width, img.height));
    assert Covers(BoxOf(pts).value, pts[0].x, pts[0].y);
  }

  /**
    getbbox is None exactly for a fully transparent image; otherwise it is a
    non-empty box inside the image that covers every visible pixel.
  */
  lemma GetBBoxSpec(img: Image)
    requires ValidImage(img)
    ensures GetBBox(img).None? <==> FullyTransparent(img)
    ensures GetBBox(img).Some? ==>
      var b := GetBBox(img).value;
      && 0 <= b.left < b.right <= img.width
      && 0 <= b.upper < b.lower <= img.height
      && (forall y, x :: Visible(img, x, y) ==> Covers(b, x, y))
  {
    var pts := VisiblePixels(img.alpha);
    NoPixelsIffTransparent(img);
    if pts != [] {
      BoxInsideImage(img);
      var b := BoxOf(pts).value;
      forall y, x | Visible(img, x, y) ensures Covers(b, x, y) {
        assert Pixel(x, y) in pts;
      }
    }
  }

  /** getbbox is the smallest box covering every visible pixel. */
  lemma GetBBoxSmallest(img: Image, b: BBox)
    requires GetBBox(img).Some?
    requires forall y, x :: Visible(img, x, y) ==> Covers(b, x, y)
    ensures Encloses(b, GetBBox(img).value)
  {
    var pts := VisiblePixels(img.alpha);
    forall i | 0 <= i < |pts| ensures Covers(b, pts[i].x, pts[i].y) {
      assert pts[i] in pts;
      assert Visible(img, pts[i].x, pts[i].y);
    }
    BoxOfSmallest(pts, b);
  }

  /** Image.crop(box) for a box inside the image. */
  function CropImage(img: Image, b: BBox): (c: Image)
    requires ValidImage(img)
    requires 0 <= b.left <= b.right <= img.width && 0 <= b.upper <= b.lower <= img.height
    ensures ValidImage(c)
    ensures c.width == b.right - b.left && c.height == b.lower - b.upper
    ensures forall y, x :: 0 <= y < c.height && 0 <= x < c.width ==>
      c.alpha[y][x] == img.alpha[y + b.upper][x + b.left]
  {
    Image(b.right - b.left, b.lower - b.upper,
          seq(b.lower - b.upper, y requires 0 <= y < b.lower - b.upper => img.alpha[y + b.upper][b.left..b.right]))
  }

  /**
    A cropped sprite placed back at `offset` on a transparent canvas of the
    original size, as the consumer of the metadata does.
  */
  function Paste(c: Image, offsetX: int, offsetY: int, width: nat, height: nat): (r: Image)
    requires ValidImage(c)
    ensures ValidImage(r) && r.width == width && r.height == height
  {
    Image(width, height,
          seq(height, y requires 0 <= y < height =>
            seq(width, x requires 0 <= x < width =>
              if offsetX <= x < offsetX + c.width && offsetY <= y < offsetY + c.height
              then c.alpha[y - offsetY][x - offsetX] else 0)))
  }

  datatype Size = Size(w: int, h: int)
  datatype Offset = Offset(x: int, y: int)

  /** The crop keys merged into the sprite metadata; NoCrop is the empty dict. */
  datatype CropMeta = NoCrop | CropInfo(originalSize: Size, cropOffset: Offset, croppedSize: Size)

  /** The box the crop keys describe: crop_offset as its corner, cropped_size as its extent. */
  function CropBox(m: CropMeta): BBox
    requires m.CropInfo?
  {
    BBox(m.cropOffset.x, m.cropOffset.y, m.cropOffset.x + m.croppedSize.w, m.cropOffset.y + m.croppedSize.h)
  }

  /** What auto-crop returns, with the image left at the sprite's path. */
  datatype CropResult = CropResult(meta: CropMeta, image: Image)

  /**
    auto_crop_sprite: without Pillow, when opening or saving the image fails,
    or when nothing is visible, the metadata is empty and the image is left as
    it is; otherwise the image is replaced by its crop to the visible box and
    the metadata records the original size, the box's top-left corner and the
    box's size.
  */
  function AutoCropSprite(pilAvailable: bool, img: Image, ioOk: bool): (r: CropResult)
    requires ValidImage(img)
    ensures r.meta.NoCrop? <==> !pilAvailable || !ioOk || FullyTransparent(img)
    ensures r.meta.NoCrop? ==> r.image == img
    ensures r.meta.CropInfo? ==>
      var m := r.meta;
      && m.originalSize == Size(img.width, img.height)
      && 0 <= m.cropOffset.x && 0 < m.croppedSize.w && m.cropOffset.x + m.croppedSize.w <= m.originalSize.w
      && 0 <= m.cropOffset.y && 0 < m.croppedSize.h && m.cropOffset.y + m.croppedSize.h <= m.originalSize.h
      && ValidImage(r.image) && r.image.width == m.croppedSize.w && r.image.height == m.croppedSize.h
  {
    if !pilAvailable || !ioOk then CropResult(NoCrop, img)
    else
      GetBBoxSpec(img);
      match GetBBox(img)
      case None => CropResult(NoCrop, img)
      case Some(b) =>
        CropResult(CropInfo(Size(img.width, img.height),
                            Offset(b.left, b.upper),
                            Size(b.right - b.left, b.lower - b.upper)),
                   CropImage(img, b))
  }

  /**
    Re-anchoring: pasting the cropped sprite at the recorded offset on a canvas
    of the recorded original size gives back the original image exactly, so
    the crop loses no visible pixel.
  */
  lemma ReAnchor(pilAvailable: bool, img: Image, ioOk: bool)
    requires ValidImage(img)
    requires AutoCropSprite(pilAvailable, img, ioOk).meta.CropInfo?
    ensures var r := AutoCropSprite(pilAvailable, img, ioOk);
      Paste(r.image, r.meta.cropOffset.x, r.meta.cropOffset.y, r.meta.originalSize.w, r.meta.originalSize.h) == img
  {
    var r := AutoCropSprite(pilAvailable, img, ioOk);
    GetBBoxSpec(img);
    var b := GetBBox(img).value;
    var p := Paste(r.image, b.left, b.upper, img.width, img.height);
    forall y | 0 <= y < img.height ensures p.alpha[y] == img.alpha[y] {
      forall x | 0 <= x < img.width ensures p.alpha[y][x] == img.alpha[y][x] {
        if !Covers(b, x, y) {
          assert !Visible(img, x, y);
        }
      }
    }
  }

  /**
    When auto-crop crops, the crop keys describe exactly getbbox's box, and
    the saved image is the original cropped to that box.
  */
  lemma CropFollowsGetBBox(pilAvailable: bool, img: Image, ioOk: bool)
    requires ValidImage(img)
    ensures var r := AutoCropSprite(pilAvailable, img, ioOk);
      r.meta.CropInfo? ==>
        && GetBBox(img) == Some(CropBox(r.meta))
        && r.image == CropImage(img, CropBox(r.meta))
  {
    GetBBoxSpec(img);
  }

  /**
    The recorded box is tight: it covers every visible pixel of the original,
    and any box that covers them all encloses it.
  */
  lemma CropIsTight(pilAvailable: bool, img: Image, ioOk: bool, b: BBox)
    requires ValidImage(img)
    requires AutoCropSprite(pilAvailable, img, ioOk).meta.CropInfo?
    ensures var c := CropBox(AutoCropSprite(pilAvailable, img, ioOk).meta);
      forall y, x :: Visible(img, x, y) ==> Covers(c, x, y)
    ensures (forall y, x :: Visible(img, x, y) ==> Covers(b, x, y)) ==>
      Encloses(b, CropBox(AutoCropSprite(pilAvailable, img, ioOk).meta))
  {
    GetBBoxSpec(img);
    CropFollowsGetBBox(pilAvailable, img, ioOk);
    if forall y, x :: Visible(img, x, y) ==> Covers(b, x, y) {
      GetBBoxSmallest(img, b);
    }
  }
}
