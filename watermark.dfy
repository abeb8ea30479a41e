/** `addWatermark` of src/ultis/Watermark.ts: the MIME branch and the integer
    tile placement on a transparent overlay of 3w x 3h, followed by one
    rotation of the overlay. Decoding, resizing, compositing pixels and
    encoding are Jimp's and are given as an oracle. */
module Watermark {
  import opened Text

  const STEP_X := 300
  const STEP_Y := 200
  const ROTATION := -45

  /** What is done to the overlay, in order. */
  datatype OverlayOp = Place(x: int, y: int) | Rotate(degrees: int)

  /** A finished overlay as a value: its size and the operations applied to it. */
  datatype OverlayPicture = OverlayPicture(width: int, height: int, ops: seq<OverlayOp>)

  /** The transparent Jimp overlay: its size, and the operations applied to it. */
  class Overlay {
    const width: int
    const height: int
    var ops: seq<OverlayOp>

    /** `new Jimp({ width, height, color: 0x00000000 })` */
    constructor (width: int, height: int)
      ensures this.width == width && this.height == height && ops == []
    {
      this.width := width;
      this.height := height;
      ops := [];
    }

    /** `overlay.composite(watermark, x, y, ...)` */
    method Composite(x: int, y: int)
      modifies this
      ensures ops == old(ops) + [Place(x, y)]
    {
      ops := ops + [Place(x, y)];
    }

    /** The overlay as handed to the final composite: its size and what was drawn on it. */
    function Picture(): (p: OverlayPicture)
      reads this
      ensures p.width == width && p.height == height && p.ops == ops
    {
      OverlayPicture(width, height, ops)
    }

    /** `overlay.rotate(degrees)` */
    method RotateBy(degrees: int)
      modifies this
      ensures ops == old(ops) + [Rotate(degrees)]
    {
      ops := ops + [Rotate(degrees)];
    }
  }

  /** The placements of one row, for x from `x` by `STEP_X` while below `limit`. */
  function RowFrom(x: int, y: int, limit: int): seq<OverlayOp>
    decreases limit - x
  {
    if x >= limit then [] else [Place(x, y)] + RowFrom(x + STEP_X, y, limit)
  }

  /** The rows for y from `y` by `STEP_Y` while below `ylimit`, each row over `-w <= x < 2w`. */
  function GridFrom(y: int, ylimit: int, w: int): seq<OverlayOp>
    decreases ylimit - y
  {
    if y >= ylimit then [] else RowFrom(-w, y, 2 * w) + GridFrom(y + STEP_Y, ylimit, w)
  }

  /** All placements for a w x h source, row by row. */
  function Tiles(w: nat, h: nat): seq<OverlayOp> {
    GridFrom(-(h as int), 2 * h, w)
  }

  /** `ceil(span / step)` for a non-negative span. */
  function CeilDiv(span: nat, step: nat): nat
    requires step > 0
  {
    (span + step - 1) / step
  }

  /** The nested loops of lines 36-43. */
  method PlaceTiles(overlay: Overlay, width: nat, height: nat)
    modifies overlay
    ensures overlay.ops == old(overlay.ops) + Tiles(width, height)
  {
    ghost var target := old(overlay.ops) + Tiles(width, height);
    var y := -(height as int);
    while y < 2 * height
      invariant overlay.ops + GridFrom(y, 2 * height, width) == target
      decreases 2 * height - y
    {
      ghost var rest := GridFrom(y + STEP_Y, 2 * height, width);
      assert GridFrom(y, 2 * height, width) == RowFrom(-(width as int), y, 2 * width) + rest;
      var x := -(width as int);
      while x < 2 * width
        invariant overlay.ops + RowFrom(x, y, 2 * width) + rest == target
        decreases 2 * width - x
      {
        ghost var ops := overlay.ops;
        assert RowFrom(x, y, 2 * width) == [Place(x, y)] + RowFrom(x + STEP_X, y, 2 * width);
        overlay.Composite(x, y);
        Reassociate(ops, Place(x, y), RowFrom(x + STEP_X, y, 2 * width), rest);
        x := x + STEP_X;
      }
      assert overlay.ops + RowFrom(x, y, 2 * width) == overlay.ops;
      y := y + STEP_Y;
    }
  }

  lemma Reassociate(a: seq<OverlayOp>, e: OverlayOp, b: seq<OverlayOp>, c: seq<OverlayOp>)
    ensures a + ([e] + b) + c == (a + [e]) + b + c
  {
  }

  /** Every placement of a row lies on the row's step grid within its bounds. */
  lemma {:induction false} RowFromPlacements(x: int, y: int, limit: int, x0: int)
    requires x0 <= x && (x - x0) % STEP_X == 0
    ensures forall i :: 0 <= i < |RowFrom(x, y, limit)| ==>
      RowFrom(x, y, limit)[i].Place? && RowFrom(x, y, limit)[i].y == y &&
      x0 <= RowFrom(x, y, limit)[i].x < limit && (RowFrom(x, y, limit)[i].x - x0) % STEP_X == 0
    decreases limit - x
  {
    if x < limit {
      RowFromPlacements(x + STEP_X, y, limit, x0);
    }
  }

  /** Every placement of the grid lies within the overlay's span and on the step grid. */
  lemma {:induction false} GridFromPlacements(y: int, ylimit: int, w: nat, y0: int)
    requires y0 <= y && (y - y0) % STEP_Y == 0
    ensures forall i :: 0 <= i < |GridFrom(y, ylimit, w)| ==>
      var p := GridFrom(y, ylimit, w)[i];
      p.Place? && -(w as int) <= p.x < 2 * w && (p.x + w) % STEP_X == 0 &&
      y0 <= p.y < ylimit && (p.y - y0) % STEP_Y == 0
    decreases ylimit - y
  {
    if y < ylimit {
      var row := RowFrom(-(w as int), y, 2 * w);
      RowFromPlacements(-(w as int), y, 2 * w, -(w as int));
      GridFromPlacements(y + STEP_Y, ylimit, w, y0);
      var rest := GridFrom(y + STEP_Y, ylimit, w);
      forall i | 0 <= i < |GridFrom(y, ylimit, w)|
        ensures var p := GridFrom(y, ylimit, w)[i];
          p.Place? && -(w as int) <= p.x < 2 * w && (p.x + w) % STEP_X == 0 &&
          y0 <= p.y < ylimit && (p.y - y0) % STEP_Y == 0
      {
        if i < |row| {
          assert GridFrom(y, ylimit, w)[i] == row[i];
        } else {
          assert GridFrom(y, ylimit, w)[i] == rest[i - |row|];
        }
      }
    }
  }

  /** Every tile (x, y) has -w <= x < 2w, (x + w) % 300 == 0, -h <= y < 2h and (y + h) % 200 == 0. */
  lemma TilePlacements(w: nat, h: nat)
    ensures forall i :: 0 <= i < |Tiles(w, h)| ==>
      var p := Tiles(w, h)[i];
      p.Place? && -(w as int) <= p.x < 2 * w && (p.x + w) % STEP_X == 0 &&
      -(h as int) <= p.y < 2 * h && (p.y + h) % STEP_Y == 0
  {
    GridFromPlacements(-(h as int), 2 * h, w, -(h as int));
  }

  /** One row holds `ceil((limit - x) / 300)` placements. */
  lemma {:induction false} RowFromLength(x: int, y: int, limit: int)
    ensures |RowFrom(x, y, limit)| == if x >= limit then 0 else CeilDiv(limit - x, STEP_X)
    decreases limit - x
  {
    if x < limit {
      RowFromLength(x + STEP_X, y, limit);
    }
  }

  /** The grid holds `ceil((ylimit - y) / 200)` rows of `ceil(3w / 300)` placements. */
  lemma {:induction false} GridFromLength(y: int, ylimit: int, w: nat)
    ensures |GridFrom(y, ylimit, w)| == (if y >= ylimit then 0 else CeilDiv(ylimit - y, STEP_Y)) * CeilDiv(3 * w, STEP_X)
    decreases ylimit - y
  {
    if y < ylimit {
      RowFromLength(-(w as int), y, 2 * w);
      GridFromLength(y + STEP_Y, ylimit, w);
      var rows := CeilDiv(ylimit - y, STEP_Y);
      var cols := CeilDiv(3 * w, STEP_X);
      var restRows := if y + STEP_Y >= ylimit then 0 else CeilDiv(ylimit - y - STEP_Y, STEP_Y);
      assert rows == restRows + 1 by {
        if y + STEP_Y < ylimit {
          assert rows == (ylimit - y - STEP_Y + STEP_Y - 1) / STEP_Y + 1;
        }
      }
      assert |GridFrom(y, ylimit, w)| == cols + restRows * cols;
      OneMoreRow(restRows, cols);
    }
  }

  lemma OneMoreRow(rows: int, cols: int)
    ensures (rows + 1) * cols == rows * cols + cols
  {
  }

  /** The number of tiles is ceil(3h / 200) * ceil(3w / 300). */
  lemma TileCount(w: nat, h: nat)
    ensures |Tiles(w, h)| == CeilDiv(3 * h, STEP_Y) * CeilDiv(3 * w, STEP_X)
  {
    GridFromLength(-(h as int), 2 * h, w);
  }

  /** Placement order: rows top to bottom, each row left to right. */
  predicate RowMajor(s: seq<OverlayOp>) {
    forall i, j :: 0 <= i < j < |s| && s[i].Place? && s[j].Place? ==>
      s[i].y < s[j].y || (s[i].y == s[j].y && s[i].x < s[j].x)
  }

  lemma {:induction false} RowFromOrdered(x: int, y: int, limit: int)
    ensures RowMajor(RowFrom(x, y, limit))
    ensures forall i :: 0 <= i < |RowFrom(x, y, limit)| ==> RowFrom(x, y, limit)[i].Place? && RowFrom(x, y, limit)[i].y == y && RowFrom(x, y, limit)[i].x >= x
    decreases limit - x
  {
    if x < limit {
      RowFromOrdered(x + STEP_X, y, limit);
      var rest := RowFrom(x + STEP_X, y, limit);
      var s := RowFrom(x, y, limit);
      assert s == [Place(x, y)] + rest;
      forall i | 0 <= i < |s| ensures s[i].Place? && s[i].y == y && s[i].x >= x {
        if i > 0 { assert s[i] == rest[i - 1]; }
      }
    }
  }

  lemma {:induction false} GridFromOrdered(y: int, ylimit: int, w: nat)
    ensures RowMajor(GridFrom(y, ylimit, w))
    ensures forall i :: 0 <= i < |GridFrom(y, ylimit, w)| ==> GridFrom(y, ylimit, w)[i].Place? && GridFrom(y, ylimit, w)[i].y >= y
    decreases ylimit - y
  {
    if y < ylimit {
      var row := RowFrom(-(w as int), y, 2 * w);
      var rest := GridFrom(y + STEP_Y, ylimit, w);
      RowFromOrdered(-(w as int), y, 2 * w);
      GridFromOrdered(y + STEP_Y, ylimit, w);
      var s := GridFrom(y, ylimit, w);
      assert s == row + rest;
      forall i | 0 <= i < |s| ensures s[i].Place? && s[i].y >= y {
        if i < |row| { assert s[i] == row[i]; } else { assert s[i] == rest[i - |row|]; }
      }
      forall i, j | 0 <= i < j < |s| && s[i].Place? && s[j].Place?
        ensures s[i].y < s[j].y || (s[i].y == s[j].y && s[i].x < s[j].x)
      {
        if j < |row| {
          assert s[i] == row[i] && s[j] == row[j];
        } else if i < |row| {
          assert s[i] == row[i] && s[j] == rest[j - |row|];
        } else {
          assert s[i] == rest[i - |row|] && s[j] == rest[j - |row|];
        }
      }
    }
  }

  /** The tiles are placed y in the outer loop, x in the inner loop. */
  lemma TilesRowMajor(w: nat, h: nat)
    ensures RowMajor(Tiles(w, h))
  {
    GridFromOrdered(-(h as int), 2 * h, w);
  }

  /** Jimp, as the watermark step uses it. */
  datatype Jimp = Jimp(
    read: seq<byte> -> Result<(nat, nat), Fault>, // `Jimp.read(buffer)`: width and height of the bitmap
    watermarkAsset: Option<Fault>,                // `Jimp.read` of the watermark file: None when it loads
    encode: (seq<byte>, string, nat, nat, OverlayPicture) -> Result<seq<byte>, Fault>
      // resize the mark to a tenth of the source, composite the overlay onto the
      // source at (-0.75 w, -0.75 h) and `getBuffer(mimetype)`
  )

  /** `await addWatermark(...)`: undefined, a buffer, or a rejection. */
  datatype WatermarkOutcome = Undefined | Buffer(bytes: seq<byte>) | Throws(fault: Fault)

  /** The overlay operations for a w x h source: all tiles, then one rotation by -45. */
  function OverlayOps(w: nat, h: nat): (ops: seq<OverlayOp>)
    ensures |ops| == |Tiles(w, h)| + 1 && ops[|ops| - 1] == Rotate(ROTATION)
    ensures forall i :: 0 <= i < |ops| - 1 ==> ops[i].Place?
  {
    TilePlacements(w, h);
    Tiles(w, h) + [Rotate(ROTATION)]
  }

  /** The overlay `addWatermark` composites onto a w x h source: three times its
      size each way, so the tiles from -w to 2w and -h to 2h span it; all tiles,
      then the rotation. */
  function OverlayFor(w: nat, h: nat): (o: OverlayPicture)
    ensures o.width == 3 * w && o.height == 3 * h
    ensures forall i :: 0 <= i < |o.ops| - 1 ==>
      var p := o.ops[i];
      p.Place? && -(w as int) <= p.x < -(w as int) + o.width && -(h as int) <= p.y < -(h as int) + o.height
    ensures |o.ops| >= 1 && o.ops[|o.ops| - 1] == Rotate(ROTATION)
  {
    var ops := OverlayOps(w, h);
    TilePlacements(w, h);
    assert forall i :: 0 <= i < |ops| - 1 ==> ops[i] == Tiles(w, h)[i];
    OverlayPicture(3 * w, 3 * h, ops)
  }

  /** What awaiting `addWatermark(buffer, mimetype)` gives. */
  function WatermarkResult(buffer: seq<byte>, mimetype: string, jimp: Jimp): (r: WatermarkOutcome)
    ensures !StartsWith(mimetype, "image/") <==> r.Undefined?
  {
    if !StartsWith(mimetype, "image/") then WatermarkOutcome.Undefined
    else match jimp.read(buffer)
      case Failure(f) => Throws(f)
      case Success(dims) =>
        if jimp.watermarkAsset.Some? then Throws(jimp.watermarkAsset.value)
        else match jimp.encode(buffer, mimetype, dims.0, dims.1, OverlayFor(dims.0, dims.1))
          case Failure(f) => Throws(f)
          case Success(bytes) => Buffer(bytes)
  }

  /** A PDF takes no branch and comes back undefined. */
  lemma PdfFallsThrough(buffer: seq<byte>, jimp: Jimp)
    ensures WatermarkResult(buffer, "application/pdf", jimp) == WatermarkOutcome.Undefined
  {
    assert "application/pdf"[..6] != "image/" by { assert "application/pdf"[0] == 'a'; }
  }

  /** `addWatermark`: builds the 3w x 3h overlay, places the tiles, rotates the
      overlay once and only then hands it to the final composite. */
  method AddWatermark(buffer: seq<byte>, mimetype: string, jimp: Jimp) returns (r: WatermarkOutcome)
    ensures r == WatermarkResult(buffer, mimetype, jimp)
  {
    if !StartsWith(mimetype, "image/") {
      return WatermarkOutcome.Undefined;
    }
    var read := jimp.read(buffer);
    if read.Failure? {
      return Throws(read.error);
    }
    var (width, height) := read.value;
    if jimp.watermarkAsset.Some? {
      return Throws(jimp.watermarkAsset.value);
    }
    var overlay := new Overlay(width * 3, height * 3);
    PlaceTiles(overlay, width, height);
    overlay.RotateBy(ROTATION);
    assert overlay.ops == OverlayOps(width, height);
    var encoded := jimp.encode(buffer, mimetype, width, height, overlay.Picture());
    if encoded.Failure? {
      return Throws(encoded.error);
    }
    return Buffer(encoded.value);
  }
}
