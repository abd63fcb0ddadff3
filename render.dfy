/**
 * The half-block compositor (src/app/render.rs).
 *
 * The screen is a grid of cells, each blank or holding a glyph with a
 * foreground and a background colour. A sprite is drawn two pixel rows at
 * a time: one terminal cell shows an upper and a lower pixel, written as
 * the upper-half block with fg = upper and bg = lower, or as the lower-half
 * block with fg = lower and bg = upper.
 *
 * Screen coordinates are u16 in the game; the model writes out the
 * wrapping arithmetic of a release build.
 */
module Render {
  import opened Wrappers
  import opened Sprites
  import opened Components

  datatype Color = Rgb(r: byte, g: byte, b: byte)

  const BLACK := Rgb(0, 0, 0)
  const HIGHLIGHT := Rgb(127, 255, 255)
  const TEXT_FG := Rgb(255, 255, 255)
  const TEXT_BG := Rgb(0, 0, 95)

  const UPPER_HALF: char := '\U{2580}'
  const LOWER_HALF: char := '\U{2584}'

  /** A screen cell: nothing drawn yet, or a glyph with its colours. */
  datatype Cell = Blank | Glyph(ch: char, fg: Color, bg: Color)

  // ---------------------------------------------------------------------
  // One cell of a sprite

  /** A pixel's colour; with the highlight on, an opaque pure-black outline
      pixel becomes bright cyan. */
  function Recolor(p: Rgba, highlight: bool): Color {
    if highlight && p.r == 0 && p.g == 0 && p.b == 0 && p.a > 0 then HIGHLIGHT
    else Rgb(p.r, p.g, p.b)
  }

  /** The highlight changes exactly the opaque pure-black pixels. */
  lemma HighlightOnlyOutlines(p: Rgba)
    ensures Recolor(p, false) == Rgb(p.r, p.g, p.b)
    ensures Recolor(p, true) != Recolor(p, false) <==> p.r == 0 && p.g == 0 && p.b == 0 && p.a > 0
  {
  }

  /** The colours under a cell's upper and lower halves as the renderer
      recovers them: black for a blank cell, fg over bg for an upper-half
      block, bg over fg for a lower-half block, and the sprite's own
      unhighlighted colours for any other glyph. */
  function Underlay(under: Cell, px: Rgba, px2: Rgba): (Color, Color) {
    match under
    case Blank => (BLACK, BLACK)
    case Glyph(ch, fg, bg) =>
      if ch == UPPER_HALF then (fg, bg)
      else if ch == LOWER_HALF then (bg, fg)
      else (Rgb(px.r, px.g, px.b), Rgb(px2.r, px2.g, px2.b))
  }

  /** The cell after drawing the pixel pair px (upper) and px2 (lower) over
      it: an opaque upper pixel gives an upper-half block, else an opaque
      lower pixel gives a lower-half block, else the cell is left alone. */
  function Composite(under: Cell, px: Rgba, px2: Rgba, highlight: bool): Cell {
    var (u1, u2) := Underlay(under, px, px2);
    if px.a > 0 then Glyph(UPPER_HALF, Recolor(px, highlight), if px2.a > 0 then Recolor(px2, highlight) else u2)
    else if px2.a > 0 then Glyph(LOWER_HALF, Recolor(px2, highlight), u1)
    else under
  }

  /** The upper and lower colours a cell shows, when it is blank (black) or
      a half block; None for any other glyph. */
  function Shows(c: Cell): Option<(Color, Color)> {
    match c
    case Blank => Some((BLACK, BLACK))
    case Glyph(ch, fg, bg) =>
      if ch == UPPER_HALF then Some((fg, bg))
      else if ch == LOWER_HALF then Some((bg, fg))
      else None
  }

  /** An opaque pixel covers what is below it; a transparent one lets it
      through. */
  function Over(p: Rgba, highlight: bool, below: Color): Color {
    if p.a > 0 then Recolor(p, highlight) else below
  }

  /** Drawing a pixel pair over a blank or half-block cell is pixel-wise
      binary-alpha compositing of each half. */
  lemma CompositeIsOver(under: Cell, px: Rgba, px2: Rgba, highlight: bool)
    requires Shows(under).Some?
    ensures var (top, bottom) := Shows(under).value;
      Shows(Composite(under, px, px2, highlight)) == Some((Over(px, highlight, top), Over(px2, highlight, bottom)))
  {
  }

  /** Over any other glyph (text), a transparent half shows the sprite's own
      unhighlighted colour rather than the text's. */
  lemma CompositeOverText(under: Cell, px: Rgba, px2: Rgba, highlight: bool)
    requires under.Glyph? && under.ch != UPPER_HALF && under.ch != LOWER_HALF
    requires px.a > 0 || px2.a > 0
    ensures Shows(Composite(under, px, px2, highlight)) ==
      Some((Over(px, highlight, Rgb(px.r, px.g, px.b)), Over(px2, highlight, Rgb(px2.r, px2.g, px2.b))))
  {
  }

  /** A pixel pair with both alphas 0 leaves the cell as it was; otherwise
      the cell becomes a half block whatever it held. */
  lemma CompositeWrites(under: Cell, px: Rgba, px2: Rgba, highlight: bool)
    ensures px.a == 0 && px2.a == 0 ==> Composite(under, px, px2, highlight) == under
    ensures px.a > 0 || px2.a > 0 ==>
      Composite(under, px, px2, highlight).Glyph? &&
      Composite(under, px, px2, highlight).ch in {UPPER_HALF, LOWER_HALF}
  {
  }

  // ---------------------------------------------------------------------
  // Screen coordinates (u16 with wrap-around)

  /** The value of an integer cast to u16. */
  function U16(v: int): (r: nat)
    ensures r < 65536
  {
    v % 65536
  }

  /** The screen column sprite column x lands on, or None when it is
      skipped: its position is negative, or the u16 column is off screen. */
  function ScreenCol(posX: int, x: nat, width: nat): Option<nat> {
    if posX + x < 0 then None
    else
      var c := U16(U16(posX) + U16(x));
      if c < width then Some(c) else None
  }

  /** The screen row pixel row y lands on (two pixel rows per cell), or None.
      The game skips on the pixel row being negative, not the cell row. */
  function ScreenRow(posY: int, y: nat, height: nat): Option<nat> {
    if posY + y < 0 then None
    else
      var r := U16(U16(posY) + U16(y / 2));
      if r < height then Some(r) else None
  }

  /** The sprite column drawn at screen column sx, if any (of a frame fw
      columns wide). */
  function SourceCol(posX: int, sx: nat, fw: nat, width: nat): Option<nat> {
    var x := U16(sx - posX);
    if x < fw && ScreenCol(posX, x, width) == Some(sx) then Some(x) else None
  }

  /** The upper pixel row drawn at screen row sy, if any (of a frame fh rows
      high). */
  function SourceRow(posY: int, sy: nat, fh: nat, height: nat): Option<nat> {
    var y := 2 * U16(sy - posY);
    if y < fh && ScreenRow(posY, y, height) == Some(sy) then Some(y) else None
  }

  lemma U16Cancel(a: int, x: nat)
    requires x < 65536
    ensures U16(U16(U16(a) + x) - a) == x
  {
    var q := a / 65536;
    assert a == 65536 * q + U16(a);
    var t := U16(a) + x;
    var j := t / 65536;
    assert t == 65536 * j + U16(t);
    assert U16(t) - a == x - 65536 * (j + q);
  }

  /** Every drawn sprite column is recovered from its screen column: the
      column map is injective on a frame of at most 65536 columns. */
  lemma ColInverse(posX: int, x: nat, fw: nat, width: nat)
    requires x < fw <= 65536
    ensures ScreenCol(posX, x, width).Some? ==> SourceCol(posX, ScreenCol(posX, x, width).value, fw, width) == Some(x)
  {
    if ScreenCol(posX, x, width).Some? {
      U16Cancel(posX, x);
    }
  }

  /** Every drawn even pixel row is recovered from its screen row. */
  lemma RowInverse(posY: int, y: nat, fh: nat, height: nat)
    requires y < fh <= 65536 && y % 2 == 0
    ensures ScreenRow(posY, y, height).Some? ==> SourceRow(posY, ScreenRow(posY, y, height).value, fh, height) == Some(y)
  {
    if ScreenRow(posY, y, height).Some? {
      U16Cancel(posY, y / 2);
    }
  }

  /** Away from the u16 limit, sprite column x is drawn exactly when
      posX + x is a screen column, and there. */
  lemma ColLandsExactly(posX: int, x: nat, width: nat)
    requires posX + x < 65536
    ensures ScreenCol(posX, x, width) == if 0 <= posX + x < width then Some(posX + x) else None
  {
    if 0 <= posX + x {
      var q := posX / 65536;
      assert posX == 65536 * q + U16(posX);
      assert U16(posX) + x == posX + x - 65536 * q;
    }
  }

  /** On a screen of at most 32768 rows, pixel row y (even, below 65536) is
      drawn exactly when the cell row posY + y / 2 is on screen, and there:
      testing the pixel row instead of the cell row for being negative is
      harmless, as a negative cell row wraps to a u16 row beyond the screen. */
  lemma RowLandsExactly(posY: int, y: nat, height: nat)
    requires height <= 32768 && y < 65536 && posY + y / 2 < 65536
    ensures ScreenRow(posY, y, height) == if 0 <= posY + y / 2 < height then Some(posY + y / 2) else None
  {
    if 0 <= posY + y {
      var q := posY / 65536;
      assert posY == 65536 * q + U16(posY);
      var t := U16(posY) + y / 2;
      assert t == posY + y / 2 - 65536 * q;
      if posY + y / 2 < 0 {
        assert U16(t) == posY + y / 2 + 65536;
      }
    }
  }

  // ---------------------------------------------------------------------
  // Frame extraction

  /** Pixel (x, y) of frame box f of a sheet image, the columns mirrored
      when flip is set. */
  function FramePixel(img: seq<seq<Rgba>>, f: Xywh, flip: bool, y: nat, x: nat): Rgba
    requires FrameFits(img, f) && y < f.h && x < f.w
  {
    var col := if flip then f.x + f.w - 1 - x else f.x + x;
    img[f.y + y][col]
  }

  /** Row r of a frame's pixels. */
  predicate RowOf(row: seq<Rgba>, img: seq<seq<Rgba>>, f: Xywh, flip: bool, r: nat)
    requires FrameFits(img, f) && r < f.h
  {
    |row| == f.w && forall c :: 0 <= c < f.w ==> row[c] == FramePixel(img, f, flip, r, c)
  }

  /** The pixel rows of a frame. */
  predicate FrameRows(rows: seq<seq<Rgba>>, img: seq<seq<Rgba>>, f: Xywh, flip: bool)
    requires FrameFits(img, f)
  {
    |rows| == f.h && forall r :: 0 <= r < f.h ==> RowOf(rows[r], img, f, flip, r)
  }

  /** The flipped frame is the frame mirrored left to right. */
  lemma FlipMirrors(img: seq<seq<Rgba>>, f: Xywh, y: nat, x: nat)
    requires FrameFits(img, f) && y < f.h && x < f.w
    ensures FramePixel(img, f, true, y, x) == FramePixel(img, f, false, y, f.w - 1 - x)
    ensures FramePixel(img, f, false, y, x) == img[f.y + y][f.x + x]
  {
  }

  /** Copies out the frame's rows, each read right to left when flipped. */
  method ExtractFrame(img: seq<seq<Rgba>>, f: Xywh, flip: bool) returns (rows: seq<seq<Rgba>>)
    requires FrameFits(img, f)
    ensures FrameRows(rows, img, f, flip)
  {
    rows := [];
    var y := f.y;
    while y < f.y + f.h
      invariant f.y <= y <= f.y + f.h
      invariant |rows| == y - f.y
      invariant forall r :: 0 <= r < |rows| ==> RowOf(rows[r], img, f, flip, r)
    {
      var row: seq<Rgba> := [];
      if flip {
        var x := f.x + f.w;
        while x > f.x
          invariant f.x <= x <= f.x + f.w
          invariant |row| == f.x + f.w - x
          invariant forall c :: 0 <= c < |row| ==> row[c] == FramePixel(img, f, flip, y - f.y, c)
        {
          x := x - 1;
          row := row + [img[y][x]];
        }
      } else {
        var x := f.x;
        while x < f.x + f.w
          invariant f.x <= x <= f.x + f.w
          invariant |row| == x - f.x
          invariant forall c :: 0 <= c < |row| ==> row[c] == FramePixel(img, f, flip, y - f.y, c)
        {
          row := row + [img[y][x]];
          x := x + 1;
        }
      }
      rows := rows + [row];
      y := y + 1;
    }
  }

  // ---------------------------------------------------------------------
  // The screen buffer

  /** The double-buffered terminal screen's back buffer: cells[y, x]. */
  class Screen {
    const width: nat
    const height: nat
    const cells: array2<Cell>

    ghost predicate Valid() {
      && cells.Length0 == height && cells.Length1 == width
      && 1 <= width <= 65535 && 1 <= height <= 65535
    }

    /** A blank screen of the terminal's size. */
    constructor (width: nat, height: nat)
      requires 1 <= width <= 65535 && 1 <= height <= 65535
      ensures Valid() && this.width == width && this.height == height
      ensures forall y, x :: 0 <= y < height && 0 <= x < width ==> cells[y, x] == Blank
    {
      this.width := width;
      this.height := height;
      cells := new Cell[height, width]((y, x) => Blank);
    }

    /** Forgets everything drawn: every cell becomes blank. */
    method Erase()
      requires Valid()
      modifies cells
      ensures forall y, x :: 0 <= y < height && 0 <= x < width ==> cells[y, x] == Blank
    {
      var y := 0;
      while y < height
        invariant 0 <= y <= height
        invariant forall r, c :: 0 <= r < y && 0 <= c < width ==> cells[r, c] == Blank
      {
        var x := 0;
        while x < width
          invariant 0 <= x <= width
          invariant forall r, c :: 0 <= r < y && 0 <= c < width ==> cells[r, c] == Blank
          invariant forall c :: 0 <= c < x ==> cells[y, c] == Blank
        {
          cells[y, x] := Blank;
          x := x + 1;
        }
        y := y + 1;
      }
    }

    /** Writes one glyph; a position off the screen is ignored. */
    method Put(ch: char, fg: Color, bg: Color, x: nat, y: nat)
      requires Valid()
      modifies cells
      ensures forall r, c :: 0 <= r < height && 0 <= c < width ==>
        cells[r, c] == if r == y && c == x then Glyph(ch, fg, bg) else old(cells[r, c])
    {
      if x < width && y < height {
        cells[y, x] := Glyph(ch, fg, bg);
      }
    }
  }

  // ---------------------------------------------------------------------
  // Drawing one sprite

  /** The sprite can be drawn: its sheet is well formed and its frame is a
      frame of the sheet. */
  predicate Drawable(info: LoadedSprite, s: Sprite) {
    SheetOk(info) && s.frame < |info.data.frames|
  }

  function FrameBox(info: LoadedSprite, s: Sprite): (f: Xywh)
    requires Drawable(info, s)
    ensures FrameFits(info.image, f) && f.h % 2 == 0 && f.w <= 65536 && f.h <= 65536
  {
    info.data.frames[s.frame].frame
  }

  /** The frame column and upper pixel row that the sprite draws at screen
      cell (sx, sy), if any. */
  function SourceAt(info: LoadedSprite, s: Sprite, pos: Position, sx: nat, sy: nat, width: nat, height: nat): (r: Option<(nat, nat)>)
    requires Drawable(info, s)
    ensures r.Some? ==> r.value.0 < FrameBox(info, s).w && r.value.1 + 1 < FrameBox(info, s).h && r.value.1 % 2 == 0
  {
    var f := FrameBox(info, s);
    var c := SourceCol(pos.x, sx, f.w, width);
    var r := SourceRow(pos.y, sy, f.h, height);
    if c.Some? && r.Some? then Some((c.value, r.value)) else None
  }

  /** Screen cell (sx, sy) after the sprite is drawn over a cell holding
      under: the frame's pixel pair at that cell composited over it, or
      under when the sprite does not reach the cell. */
  function SpriteCell(under: Cell, info: LoadedSprite, s: Sprite, pos: Position, sx: nat, sy: nat, width: nat, height: nat): Cell
    requires Drawable(info, s)
  {
    match SourceAt(info, s, pos, sx, sy, width, height)
    case None => under
    case Some((x, y)) =>
      var f := FrameBox(info, s);
      Composite(under, FramePixel(info.image, f, s.flip, y, x), FramePixel(info.image, f, s.flip, y + 1, x), s.highlight)
  }

  /** Cell (sx, sy) once the drawing loop has passed pixel row yDone up to
      column xDone. */
  function Drawn(under: Cell, info: LoadedSprite, s: Sprite, pos: Position, sx: nat, sy: nat, width: nat, height: nat, yDone: nat, xDone: nat): Cell
    requires Drawable(info, s)
  {
    match SourceAt(info, s, pos, sx, sy, width, height)
    case Some((x, y)) =>
      if y < yDone || (y == yDone && x < xDone) then SpriteCell(under, info, s, pos, sx, sy, width, height) else under
    case None => under
  }

  /** A column the loop skips changes no cell. */
  lemma SkipColumn(under: Cell, info: LoadedSprite, s: Sprite, pos: Position, sx: nat, sy: nat, width: nat, height: nat, y: nat, x: nat)
    requires Drawable(info, s) && ScreenCol(pos.x, x, width).None?
    ensures Drawn(under, info, s, pos, sx, sy, width, height, y, x + 1) == Drawn(under, info, s, pos, sx, sy, width, height, y, x)
  {
  }

  /** A row pair the loop skips changes no cell. */
  lemma SkipRow(under: Cell, info: LoadedSprite, s: Sprite, pos: Position, sx: nat, sy: nat, width: nat, height: nat, y: nat)
    requires Drawable(info, s) && y % 2 == 0 && ScreenRow(pos.y, y, height).None?
    ensures Drawn(under, info, s, pos, sx, sy, width, height, y + 2, 0) == Drawn(under, info, s, pos, sx, sy, width, height, y, 0)
  {
  }

  /** A finished row pair is the start of the next one. */
  lemma NextRow(under: Cell, info: LoadedSprite, s: Sprite, pos: Position, sx: nat, sy: nat, width: nat, height: nat, y: nat)
    requires Drawable(info, s) && y % 2 == 0
    ensures Drawn(under, info, s, pos, sx, sy, width, height, y + 2, 0) == Drawn(under, info, s, pos, sx, sy, width, height, y, FrameBox(info, s).w)
  {
  }

  /** Drawing at the cell (c, r) that pixel (x, y) lands on completes that
      cell and leaves every other cell's progress unchanged. */
  lemma PutStep(under: Cell, info: LoadedSprite, s: Sprite, pos: Position, sx: nat, sy: nat, width: nat, height: nat, y: nat, x: nat)
    requires Drawable(info, s) && y % 2 == 0 && y < FrameBox(info, s).h && x < FrameBox(info, s).w
    requires ScreenCol(pos.x, x, width).Some? && ScreenRow(pos.y, y, height).Some?
    ensures var c, r := ScreenCol(pos.x, x, width).value, ScreenRow(pos.y, y, height).value;
      && (sx == c && sy == r ==>
        && Drawn(under, info, s, pos, sx, sy, width, height, y, x) == under
        && Drawn(under, info, s, pos, sx, sy, width, height, y, x + 1) ==
           Composite(under, FramePixel(info.image, FrameBox(info, s), s.flip, y, x), FramePixel(info.image, FrameBox(info, s), s.flip, y + 1, x), s.highlight))
      && (sx != c || sy != r ==>
        Drawn(under, info, s, pos, sx, sy, width, height, y, x + 1) == Drawn(under, info, s, pos, sx, sy, width, height, y, x))
  {
    var f := FrameBox(info, s);
    ColInverse(pos.x, x, f.w, width);
    RowInverse(pos.y, y, f.h, height);
  }

  /** Draws the sprite's current frame at pos, two pixel rows per screen row:
      each screen cell it reaches gets the frame's pixel pair composited over
      what the cell held, and every other cell is left as it was. */
  method RenderSpriteAtPos(scr: Screen, info: LoadedSprite, s: Sprite, pos: Position)
    requires scr.Valid() && Drawable(info, s)
    modifies scr.cells
    ensures forall sy, sx :: 0 <= sy < scr.height && 0 <= sx < scr.width ==>
      scr.cells[sy, sx] == SpriteCell(old(scr.cells[sy, sx]), info, s, pos, sx, sy, scr.width, scr.height)
  {
    var f := FrameBox(info, s);
    var rows := ExtractFrame(info.image, f, s.flip);
    var y := 0;
    while y < |rows|
      invariant y <= |rows| && y % 2 == 0
      invariant forall sy, sx :: 0 <= sy < scr.height && 0 <= sx < scr.width ==>
        scr.cells[sy, sx] == Drawn(old(scr.cells[sy, sx]), info, s, pos, sx, sy, scr.width, scr.height, y, 0)
    {
      var at := ScreenRow(pos.y, y, scr.height);
      if at.None? {
        forall sy, sx | 0 <= sy < scr.height && 0 <= sx < scr.width
          ensures scr.cells[sy, sx] == Drawn(old(scr.cells[sy, sx]), info, s, pos, sx, sy, scr.width, scr.height, y + 2, 0)
        {
          SkipRow(old(scr.cells[sy, sx]), info, s, pos, sx, sy, scr.width, scr.height, y);
        }
      } else {
        var scrY := at.value;
        var x := 0;
        while x < |rows[y]|
          invariant x <= |rows[y]|
          invariant forall sy, sx :: 0 <= sy < scr.height && 0 <= sx < scr.width ==>
            scr.cells[sy, sx] == Drawn(old(scr.cells[sy, sx]), info, s, pos, sx, sy, scr.width, scr.height, y, x)
        {
          var col := ScreenCol(pos.x, x, scr.width);
          if col.None? {
            forall sy, sx | 0 <= sy < scr.height && 0 <= sx < scr.width
              ensures scr.cells[sy, sx] == Drawn(old(scr.cells[sy, sx]), info, s, pos, sx, sy, scr.width, scr.height, y, x + 1)
            {
              SkipColumn(old(scr.cells[sy, sx]), info, s, pos, sx, sy, scr.width, scr.height, y, x);
            }
          } else {
            var scrX := col.value;
            // px2 is the pixel under px in the frame
            var px, px2 := rows[y][x], rows[y + 1][x];
            var under := scr.cells[scrY, scrX];
            var (u1, u2) := Underlay(under, px, px2);
            if px.a > 0 {
              scr.Put(UPPER_HALF, Recolor(px, s.highlight), if px2.a > 0 then Recolor(px2, s.highlight) else u2, scrX, scrY);
            } else if px2.a > 0 {
              scr.Put(LOWER_HALF, Recolor(px2, s.highlight), u1, scrX, scrY);
            }
            forall sy, sx | 0 <= sy < scr.height && 0 <= sx < scr.width
              ensures scr.cells[sy, sx] == Drawn(old(scr.cells[sy, sx]), info, s, pos, sx, sy, scr.width, scr.height, y, x + 1)
            {
              PutStep(old(scr.cells[sy, sx]), info, s, pos, sx, sy, scr.width, scr.height, y, x);
            }
          }
          x := x + 1;
        }
        forall sy, sx | 0 <= sy < scr.height && 0 <= sx < scr.width
          ensures scr.cells[sy, sx] == Drawn(old(scr.cells[sy, sx]), info, s, pos, sx, sy, scr.width, scr.height, y + 2, 0)
        {
          NextRow(old(scr.cells[sy, sx]), info, s, pos, sx, sy, scr.width, scr.height, y);
        }
      }
      y := y + 2;
    }
  }

  // ---------------------------------------------------------------------
  // Text

  /** A character written at screen cell (x, y). */
  datatype Placement = Placement(ch: char, x: nat, y: nat)

  /** The characters text writes, starting at column x of row y for a line
      that starts at column startX: writing stops for good at the first
      character met past the last column, a newline moves to startX on the
      next (u16) row, and any other character is written and moves one
      column right. */
  function Placements(text: string, x: nat, y: nat, startX: nat, width: nat): seq<Placement>
    decreases |text|
  {
    if text == [] || x > width - 1 then []
    else if text[0] == '\n' then Placements(text[1..], startX, U16(y + 1), startX, width)
    else [Placement(text[0], x, y)] + Placements(text[1..], x + 1, y, startX, width)
  }

  /** Screen cell (sx, sy) after the placements over a cell holding under:
      the last character placed there, white on dark blue, or under. */
  function TextCell(ps: seq<Placement>, sx: nat, sy: nat, under: Cell): Cell
    decreases |ps|
  {
    if ps == [] then under
    else
      var p := ps[|ps| - 1];
      if p.x == sx && p.y == sy then Glyph(p.ch, TEXT_FG, TEXT_BG)
      else TextCell(ps[..|ps| - 1], sx, sy, under)
  }

  /** Writes text from (startX, startY) as Placements describes. */
  method RenderTextAtPos(scr: Screen, text: string, startX: nat, startY: nat)
    requires scr.Valid() && startX < 65536 && startY < 65536
    modifies scr.cells
    ensures forall sy, sx :: 0 <= sy < scr.height && 0 <= sx < scr.width ==>
      scr.cells[sy, sx] == TextCell(Placements(text, startX, startY, startX, scr.width), sx, sy, old(scr.cells[sy, sx]))
  {
    var x: nat, y: nat := startX, startY;
    ghost var placed: seq<Placement> := [];
    var i := 0;
    while i < |text|
      invariant 0 <= i <= |text| && x < 65536 && y < 65536
      invariant placed + Placements(text[i..], x, y, startX, scr.width) == Placements(text, startX, startY, startX, scr.width)
      invariant forall sy, sx :: 0 <= sy < scr.height && 0 <= sx < scr.width ==>
        scr.cells[sy, sx] == TextCell(placed, sx, sy, old(scr.cells[sy, sx]))
    {
      var ch := text[i];
      if x > scr.width - 1 {
        break;
      }
      assert text[i..][1..] == text[i + 1..];
      if ch == '\n' {
        y := U16(y + 1);
        x := startX;
        i := i + 1;
        continue;
      }
      scr.Put(ch, TEXT_FG, TEXT_BG, x, y);
      assert (placed + [Placement(ch, x, y)])[..|placed|] == placed;
      placed := placed + [Placement(ch, x, y)];
      x := x + 1;
      i := i + 1;
    }
    assert Placements(text[i..], x, y, startX, scr.width) == [];
    assert placed + [] == placed;
  }

  /** The characters of t written left to right from (x, y). */
  function Line(t: string, x: nat, y: nat): (ps: seq<Placement>)
    ensures |ps| == |t|
    ensures forall k :: 0 <= k < |t| ==> ps[k] == Placement(t[k], x + k, y)
  {
    seq(|t|, k requires 0 <= k < |t| => Placement(t[k], x + k, y))
  }

  function Min(a: int, b: int): int {
    if a < b then a else b
  }

  /** Text without a newline is written on its row from x on, cut off at the
      screen's right edge: exactly its first width - x characters when it
      does not fit. */
  lemma {:induction false} OneLine(text: string, x: nat, y: nat, startX: nat, width: nat)
    requires '\n' !in text && 1 <= width
    ensures Placements(text, x, y, startX, width) == Line(text[..if x >= width then 0 else Min(|text|, width - x)], x, y)
    decreases |text|
  {
    if text != [] && x < width {
      assert text[0] in text;
      assert '\n' !in text[1..] by {
        assert forall k :: 0 <= k < |text| - 1 ==> text[1..][k] == text[k + 1];
      }
      OneLine(text[1..], x + 1, y, startX, width);
      var n := Min(|text|, width - x);
      var rest := Line(text[1..][..if x + 1 >= width then 0 else Min(|text| - 1, width - x - 1)], x + 1, y);
      assert [Placement(text[0], x, y)] + rest == Line(text[..n], x, y);
    }
  }

  /** Every placement is on the screen's columns at or right of the line
      start, and never a newline. */
  lemma {:induction false} PlacementsBounded(text: string, x: nat, y: nat, startX: nat, width: nat)
    requires startX <= x
    ensures forall p :: p in Placements(text, x, y, startX, width) ==> startX <= p.x < width && p.ch != '\n'
    decreases |text|
  {
    if text != [] && x <= width - 1 {
      if text[0] == '\n' {
        PlacementsBounded(text[1..], startX, U16(y + 1), startX, width);
      } else {
        PlacementsBounded(text[1..], x + 1, y, startX, width);
      }
    }
  }

  /** No placement is at (sx, sy). */
  predicate Untouched(ps: seq<Placement>, sx: nat, sy: nat) {
    forall k :: 0 <= k < |ps| ==> ps[k].x != sx || ps[k].y != sy
  }

  /** The cell of the last placement at (sx, sy) shows its character, white
      on dark blue, whatever the cell held before; a cell with no placement
      keeps what it held. */
  lemma {:induction false} TextCovers(ps: seq<Placement>, sx: nat, sy: nat, under: Cell)
    ensures (exists k :: 0 <= k < |ps| && ps[k].x == sx && ps[k].y == sy) ==>
      && TextCell(ps, sx, sy, under) == TextCell(ps, sx, sy, Blank)
      && TextCell(ps, sx, sy, under).Glyph? && TextCell(ps, sx, sy, under).fg == TEXT_FG && TextCell(ps, sx, sy, under).bg == TEXT_BG
    ensures Untouched(ps, sx, sy) ==> TextCell(ps, sx, sy, under) == under
    decreases |ps|
  {
    if ps != [] {
      var pre := ps[..|ps| - 1];
      assert forall k :: 0 <= k < |pre| ==> pre[k] == ps[k];
      TextCovers(pre, sx, sy, under);
    }
  }

  /** On a line, the cell of the k-th character shows that character. */
  lemma {:induction false} LineShows(t: string, x: nat, y: nat, k: nat, under: Cell)
    requires k < |t|
    ensures TextCell(Line(t, x, y), x + k, y, under) == Glyph(t[k], TEXT_FG, TEXT_BG)
    decreases |t|
  {
    var ps := Line(t, x, y);
    if k < |t| - 1 {
      var pre := t[..|t| - 1];
      assert ps[..|ps| - 1] == Line(pre, x, y);
      LineShows(pre, x, y, k, under);
    }
  }

  // ---------------------------------------------------------------------
  // Draw order

  /** Strictly increasing positions. */
  predicate Increasing(idx: seq<nat>) {
    forall i, j :: 0 <= i < j < |idx| ==> idx[i] < idx[j]
  }

  /** Positions of entities that have a Position and a Sprite. */
  predicate Visible(ents: seq<Entity>, idx: seq<nat>) {
    forall i :: 0 <= i < |idx| ==> idx[i] < |ents| && HasSpritePos(ents[idx[i]])
  }

  /** The entities with both a Position and a Sprite, in entity order (the
      order of the component join). */
  function Drawables(ents: seq<Entity>): (idx: seq<nat>)
    ensures Visible(ents, idx) && Increasing(idx)
    ensures forall i :: 0 <= i < |ents| && HasSpritePos(ents[i]) ==> i in idx
    decreases |ents|
  {
    if ents == [] then []
    else
      var n := |ents| - 1;
      var pre := Drawables(ents[..n]);
      assert forall k :: 0 <= k < n ==> ents[..n][k] == ents[k];
      if HasSpritePos(ents[n]) then pre + [n] else pre
  }

  function Depth(ents: seq<Entity>, k: nat): int
    requires k < |ents| && HasSpritePos(ents[k])
  {
    ents[k].pos.value.z
  }

  /** Entity a is drawn before entity b: a smaller depth, or the same depth
      and earlier in entity order (the sort is stable). */
  predicate Before(ents: seq<Entity>, a: nat, b: nat)
    requires a < |ents| && HasSpritePos(ents[a]) && b < |ents| && HasSpritePos(ents[b])
  {
    Depth(ents, a) < Depth(ents, b) || (Depth(ents, a) == Depth(ents, b) && a < b)
  }

  predicate SortedBefore(ents: seq<Entity>, order: seq<nat>)
    requires Visible(ents, order)
  {
    forall i, j :: 0 <= i < j < |order| ==> Before(ents, order[i], order[j])
  }

  /** Inserts k after every entry of the sorted order whose depth is at most
      k's. */
  function Insert(ents: seq<Entity>, order: seq<nat>, k: nat): (r: seq<nat>)
    requires Visible(ents, order) && k < |ents| && HasSpritePos(ents[k])
    ensures multiset(r) == multiset(order) + multiset{k}
    ensures forall j :: j in r ==> j in order || j == k
    ensures Visible(ents, r)
    decreases |order|
  {
    if order == [] then [k]
    else
      var n := |order| - 1;
      assert forall j :: j in order[..n] ==> j in order;
      if Depth(ents, order[n]) <= Depth(ents, k) then order + [k]
      else
        assert order == order[..n] + [order[n]];
        Insert(ents, order[..n], k) + [order[n]]
  }

  /** The stable sort by depth of the join, as an insertion sort. */
  function SortByDepth(ents: seq<Entity>, idx: seq<nat>): (r: seq<nat>)
    requires Visible(ents, idx)
    ensures multiset(r) == multiset(idx) && Visible(ents, r)
    decreases |idx|
  {
    if idx == [] then []
    else
      var n := |idx| - 1;
      assert idx == idx[..n] + [idx[n]];
      assert forall j :: j in idx[..n] ==> j in idx;
      Insert(ents, SortByDepth(ents, idx[..n]), idx[n])
  }

  /** The order the renderer draws in. */
  function DrawOrder(ents: seq<Entity>): (order: seq<nat>)
    ensures Visible(ents, order)
  {
    SortByDepth(ents, Drawables(ents))
  }

  lemma {:induction false} InsertSorted(ents: seq<Entity>, order: seq<nat>, k: nat)
    requires Visible(ents, order) && k < |ents| && HasSpritePos(ents[k])
    requires SortedBefore(ents, order) && forall j :: j in order ==> j < k
    ensures SortedBefore(ents, Insert(ents, order, k))
    decreases |order|
  {
    if order != [] {
      var n := |order| - 1;
      var last := order[n];
      if Depth(ents, last) > Depth(ents, k) {
        var pre := order[..n];
        assert forall j :: j in pre ==> j in order;
        assert forall i, j :: 0 <= i < j < |pre| ==> pre[i] == order[i] && pre[j] == order[j];
        InsertSorted(ents, pre, k);
        var ins := Insert(ents, pre, k);
        forall j | j in ins ensures Before(ents, j, last) {
          if j != k {
            var i :| 0 <= i < |pre| && pre[i] == j;
            assert order[i] == j;
          }
        }
        var r := ins + [last];
        forall i, j | 0 <= i < j < |r| ensures Before(ents, r[i], r[j]) {
          if j == |r| - 1 {
            assert r[i] in ins;
          } else {
            assert r[i] == ins[i] && r[j] == ins[j];
          }
        }
      } else {
        forall i | 0 <= i <= n ensures Before(ents, order[i], k) {
          if i < n {
            assert Before(ents, order[i], last);
          }
          assert order[i] in order;
        }
        var r := order + [k];
        forall i, j | 0 <= i < j < |r| ensures Before(ents, r[i], r[j]) {
          if j < |r| - 1 {
            assert r[i] == order[i] && r[j] == order[j];
          }
        }
      }
    }
  }

  lemma EarlierIsSmaller(idx: seq<nat>, n: nat, j: nat)
    requires Increasing(idx) && n < |idx| && j in multiset(idx[..n])
    ensures j < idx[n]
  {
    var i :| 0 <= i < n && idx[..n][i] == j;
    assert idx[i] == j;
  }

  lemma {:induction false} SortByDepthSorted(ents: seq<Entity>, idx: seq<nat>)
    requires Visible(ents, idx) && Increasing(idx)
    ensures SortedBefore(ents, SortByDepth(ents, idx))
    decreases |idx|
  {
    if idx != [] {
      var n := |idx| - 1;
      var pre := idx[..n];
      assert forall j :: j in pre ==> j in idx;
      SortByDepthSorted(ents, pre);
      var sorted := SortByDepth(ents, pre);
      forall j | j in sorted ensures j < idx[n] {
        assert j in multiset(sorted);
        EarlierIsSmaller(idx, n, j);
      }
      InsertSorted(ents, sorted, idx[n]);
    }
  }

  /** Every entity with a Position and a Sprite is drawn, and only those,
      each once, in increasing depth, and entities of equal depth in entity
      order. */
  lemma DrawOrderSorted(ents: seq<Entity>)
    ensures var order := DrawOrder(ents);
      && SortedBefore(ents, order)
      && (forall i, j :: 0 <= i < j < |order| ==> order[i] != order[j])
      && (forall i :: 0 <= i < |ents| ==> (i in order <==> HasSpritePos(ents[i])))
  {
    var idx := Drawables(ents);
    SortByDepthSorted(ents, idx);
    var order := DrawOrder(ents);
    forall i | 0 <= i < |ents| ensures i in order <==> HasSpritePos(ents[i]) {
      assert i in order <==> i in multiset(order);
      assert i in idx <==> i in multiset(idx);
      if i in order {
        var k :| 0 <= k < |order| && order[k] == i;
      }
    }
  }

  // ---------------------------------------------------------------------
  // The whole frame

  const NO_MESSAGES := "No new messages."
  const HELP_TOOLTIP := "arrows/hjkl: move | " + "q: quit | " + "space: pickup | " + "u: use | " + "?: hide help "

  /** The sheet entity k is drawn from can draw its sprite. */
  lemma DrawableOf(store: Store, ents: seq<Entity>, k: nat)
    requires ValidStore(store) && EntsOk(store, ents) && k < |ents| && HasSpritePos(ents[k])
    ensures ents[k].sprite.value.storeIndex < |store| && Drawable(store[ents[k].sprite.value.storeIndex], ents[k].sprite.value)
  {
    assert ElemOk(store, ents[k]);
  }

  /** Cell (sx, sy) after the entities of order are drawn in turn over a
      cell holding under. */
  function SpriteLayers(store: Store, ents: seq<Entity>, order: seq<nat>, sx: nat, sy: nat, width: nat, height: nat, under: Cell): Cell
    requires ValidStore(store) && EntsOk(store, ents) && Visible(ents, order)
    decreases |order|
  {
    if order == [] then under
    else
      var n := |order| - 1;
      DrawAt(store, ents, order[n], sx, sy, width, height, SpriteLayers(store, ents, order[..n], sx, sy, width, height, under))
  }

  /** Cell (sx, sy) after entity k is drawn over a cell holding under. */
  function DrawAt(store: Store, ents: seq<Entity>, k: nat, sx: nat, sy: nat, width: nat, height: nat, under: Cell): Cell
    requires ValidStore(store) && EntsOk(store, ents) && k < |ents| && HasSpritePos(ents[k])
  {
    var s := ents[k].sprite.value;
    DrawableOf(store, ents, k);
    SpriteCell(under, store[s.storeIndex], s, ents[k].pos.value, sx, sy, width, height)
  }

  /** The message the terminal window shows, if it is open. */
  function ShownMessage(showTerminal: bool, read: bool, messages: seq<string>, index: nat): (m: Option<string>)
    requires showTerminal && !read ==> index < |messages|
    ensures m.Some? <==> showTerminal
    ensures m.Some? && read ==> m.value == NO_MESSAGES
    ensures m.Some? && !read ==> m.value == messages[index]
  {
    if !showTerminal then None
    else if read then Some(NO_MESSAGES)
    else Some(messages[index])
  }

  /** Cell (sx, sy) of a rendered frame: the sprites in draw order over a
      blank screen, then the message from the second column of the top row,
      then the help line on the bottom row. */
  function FrameCell(store: Store, ents: seq<Entity>, message: Option<string>, help: bool, sx: nat, sy: nat, width: nat, height: nat): Cell
    requires ValidStore(store) && EntsOk(store, ents) && 1 <= height
  {
    var base := SpriteLayers(store, ents, DrawOrder(ents), sx, sy, width, height, Blank);
    var shown := if message.Some? then TextCell(Placements(message.value, 1, 0, 1, width), sx, sy, base) else base;
    if help then TextCell(Placements(HELP_TOOLTIP, 0, height - 1, 0, width), sx, sy, shown) else shown
  }

  /** Renders one frame into the back buffer. Clearing the terminal and
      sending the buffer to it are I/O and not part of the model. */
  method Run(scr: Screen, game: Game, store: Store, ents: seq<Entity>)
    requires scr.Valid() && WorldOk(store, ents)
    requires game.showTerminal && !game.terminalRead ==> game.terminalMessageIndex < |game.terminalMessages|
    modifies scr.cells
    ensures forall sy, sx :: 0 <= sy < scr.height && 0 <= sx < scr.width ==>
      scr.cells[sy, sx] == FrameCell(store, ents,
        ShownMessage(game.showTerminal, game.terminalRead, game.terminalMessages, game.terminalMessageIndex),
        game.showHelp, sx, sy, scr.width, scr.height)
  {
    // With clear_screen set the terminal is cleared as well; either way the
    // buffer starts blank.
    scr.Erase();
    var order := DrawOrder(ents);
    var i := 0;
    while i < |order|
      invariant i <= |order|
      invariant forall sy, sx :: 0 <= sy < scr.height && 0 <= sx < scr.width ==>
        scr.cells[sy, sx] == SpriteLayers(store, ents, order[..i], sx, sy, scr.width, scr.height, Blank)
    {
      var k := order[i];
      var s, pos := ents[k].sprite.value, ents[k].pos.value;
      DrawableOf(store, ents, k);
      RenderSpriteAtPos(scr, store[s.storeIndex], s, pos);
      assert order[..i + 1][..i] == order[..i];
      i := i + 1;
    }
    assert order[..i] == order;
    if game.showTerminal {
      var message := if game.terminalRead then NO_MESSAGES else game.terminalMessages[game.terminalMessageIndex];
      RenderTextAtPos(scr, message, 1, 0);
    }
    if game.showHelp {
      RenderTextAtPos(scr, HELP_TOOLTIP, 0, scr.height - 1);
    }
  }

  // ---------------------------------------------------------------------
  // What a frame shows

  /** Entity k's sprite covers cell (sx, sy) with two opaque pixels. */
  predicate CoversOpaque(store: Store, ents: seq<Entity>, k: nat, sx: nat, sy: nat, width: nat, height: nat)
    requires ValidStore(store) && EntsOk(store, ents) && k < |ents| && HasSpritePos(ents[k])
  {
    var s := ents[k].sprite.value;
    DrawableOf(store, ents, k);
    var info := store[s.storeIndex];
    var src := SourceAt(info, s, ents[k].pos.value, sx, sy, width, height);
    && src.Some?
    && FramePixel(info.image, FrameBox(info, s), s.flip, src.value.1, src.value.0).a > 0
    && FramePixel(info.image, FrameBox(info, s), s.flip, src.value.1 + 1, src.value.0).a > 0
  }

  lemma VisibleSuffix(ents: seq<Entity>, order: seq<nat>, j: nat)
    requires Visible(ents, order) && j <= |order|
    ensures Visible(ents, order[j..]) && Visible(ents, order[..j])
  {
    assert forall i :: 0 <= i < |order| - j ==> order[j..][i] == order[j + i];
  }

  /** Drawing entity k at a cell it covers opaquely gives the same cell
      whatever the cell held. */
  lemma OpaqueIgnoresUnder(store: Store, ents: seq<Entity>, k: nat, sx: nat, sy: nat, width: nat, height: nat, u1: Cell, u2: Cell)
    requires ValidStore(store) && EntsOk(store, ents) && k < |ents| && HasSpritePos(ents[k])
    requires CoversOpaque(store, ents, k, sx, sy, width, height)
    ensures DrawAt(store, ents, k, sx, sy, width, height, u1) == DrawAt(store, ents, k, sx, sy, width, height, u2)
  {
  }

  /** Drawing order, one entity more: the last entity over the rest. */
  lemma LayersStep(store: Store, ents: seq<Entity>, order: seq<nat>, sx: nat, sy: nat, width: nat, height: nat, under: Cell)
    requires ValidStore(store) && EntsOk(store, ents) && Visible(ents, order) && order != []
    ensures SpriteLayers(store, ents, order, sx, sy, width, height, under) ==
      DrawAt(store, ents, order[|order| - 1], sx, sy, width, height, SpriteLayers(store, ents, order[..|order| - 1], sx, sy, width, height, under))
  {
  }

  /** The last sprite drawn, opaque at a cell, is all the cell shows of
      the sprites. */
  lemma HiddenAtTop(store: Store, ents: seq<Entity>, order: seq<nat>, sx: nat, sy: nat, width: nat, height: nat, under: Cell)
    requires ValidStore(store) && EntsOk(store, ents) && Visible(ents, order) && order != []
    requires CoversOpaque(store, ents, order[|order| - 1], sx, sy, width, height)
    ensures SpriteLayers(store, ents, order, sx, sy, width, height, under) ==
      SpriteLayers(store, ents, order[|order| - 1..], sx, sy, width, height, Blank)
  {
    var n := |order| - 1;
    var top := order[n..];
    VisibleSuffix(ents, order, n);
    LayersStep(store, ents, order, sx, sy, width, height, under);
    LayersStep(store, ents, top, sx, sy, width, height, Blank);
    assert top[..|top| - 1] == [];
    OpaqueIgnoresUnder(store, ents, order[n], sx, sy, width, height,
      SpriteLayers(store, ents, order[..n], sx, sy, width, height, under), Blank);
  }

  /** Drawing one more sprite over both sides of an equation between
      layerings keeps it. */
  lemma HiddenAbove(store: Store, ents: seq<Entity>, order: seq<nat>, j: nat, sx: nat, sy: nat, width: nat, height: nat, under: Cell)
    requires ValidStore(store) && EntsOk(store, ents) && Visible(ents, order) && j < |order| - 1
    requires Visible(ents, order[..|order| - 1]) && Visible(ents, order[..|order| - 1][j..])
    requires SpriteLayers(store, ents, order[..|order| - 1], sx, sy, width, height, under) ==
      SpriteLayers(store, ents, order[..|order| - 1][j..], sx, sy, width, height, Blank)
    ensures SpriteLayers(store, ents, order, sx, sy, width, height, under) == SpriteLayers(store, ents, order[j..], sx, sy, width, height, Blank)
  {
    var top := order[j..];
    VisibleSuffix(ents, order, j);
    LayersStep(store, ents, order, sx, sy, width, height, under);
    LayersStep(store, ents, top, sx, sy, width, height, Blank);
    assert top[..|top| - 1] == order[..|order| - 1][j..];
  }

  /** A sprite whose two pixels at a cell are opaque hides everything drawn
      before it there: the cell is what drawing it and the later sprites over
      a blank cell gives. */
  lemma {:induction false} HiddenBelow(store: Store, ents: seq<Entity>, order: seq<nat>, j: nat, sx: nat, sy: nat, width: nat, height: nat, under: Cell)
    requires ValidStore(store) && EntsOk(store, ents) && Visible(ents, order) && j < |order|
    requires CoversOpaque(store, ents, order[j], sx, sy, width, height)
    ensures SpriteLayers(store, ents, order, sx, sy, width, height, under) == SpriteLayers(store, ents, order[j..], sx, sy, width, height, Blank)
    decreases |order|
  {
    var n := |order| - 1;
    if j == n {
      HiddenAtTop(store, ents, order, sx, sy, width, height, under);
    } else {
      var pre := order[..n];
      VisibleSuffix(ents, order, n);
      VisibleSuffix(ents, pre, j);
      assert pre[j] == order[j];
      HiddenBelow(store, ents, pre, j, sx, sy, width, height, under);
      HiddenAbove(store, ents, order, j, sx, sy, width, height, under);
    }
  }

  lemma NoNewlineJoin(a: string, b: string)
    requires '\n' !in a && '\n' !in b
    ensures '\n' !in a + b
  {
  }

  /** The help line has no newline, so it is one row. */
  lemma HelpIsOneLine()
    ensures '\n' !in HELP_TOOLTIP
  {
    NoNewlineJoin("arrows/hjkl: move | ", "q: quit | ");
    NoNewlineJoin("arrows/hjkl: move | " + "q: quit | ", "space: pickup | ");
    NoNewlineJoin("arrows/hjkl: move | " + "q: quit | " + "space: pickup | ", "u: use | ");
    NoNewlineJoin("arrows/hjkl: move | " + "q: quit | " + "space: pickup | " + "u: use | ", "?: hide help ");
  }

  /** Text without a newline covers nothing off its own row. */
  lemma OffTheRow(text: string, x: nat, y: nat, startX: nat, sx: nat, sy: nat, width: nat, under: Cell)
    requires '\n' !in text && 1 <= width && sy != y
    ensures TextCell(Placements(text, x, y, startX, width), sx, sy, under) == under
  {
    OneLine(text, x, y, startX, width);
    TextCovers(Placements(text, x, y, startX, width), sx, sy, under);
  }

  /** Text without a newline that starts at column 0 shows its k-th
      character in column k of its row, for every column of the screen it
      reaches. */
  lemma OnTheRow(text: string, y: nat, sx: nat, width: nat, under: Cell)
    requires '\n' !in text && 1 <= width && sx < Min(|text|, width)
    ensures TextCell(Placements(text, 0, y, 0, width), sx, y, under) == Glyph(text[sx], TEXT_FG, TEXT_BG)
  {
    OneLine(text, 0, y, 0, width);
    LineShows(text[..Min(|text|, width)], 0, y, sx, under);
  }

  /** With help shown, the bottom row shows the help line from column 0,
      cut off at the screen's right edge, whatever is drawn below it. */
  lemma HelpLine(store: Store, ents: seq<Entity>, message: Option<string>, sx: nat, width: nat, height: nat)
    requires ValidStore(store) && EntsOk(store, ents) && 1 <= height && 1 <= width
    requires sx < Min(|HELP_TOOLTIP|, width)
    ensures FrameCell(store, ents, message, true, sx, height - 1, width, height) == Glyph(HELP_TOOLTIP[sx], TEXT_FG, TEXT_BG)
  {
    var base := SpriteLayers(store, ents, DrawOrder(ents), sx, height - 1, width, height, Blank);
    var shown := if message.Some? then TextCell(Placements(message.value, 1, 0, 1, width), sx, height - 1, base) else base;
    HelpOver(sx, width, height, shown);
  }

  /** The help line drawn over any cell of its row that it reaches. */
  lemma HelpOver(sx: nat, width: nat, height: nat, under: Cell)
    requires 1 <= height && 1 <= width && sx < Min(|HELP_TOOLTIP|, width)
    ensures TextCell(Placements(HELP_TOOLTIP, 0, height - 1, 0, width), sx, height - 1, under) == Glyph(HELP_TOOLTIP[sx], TEXT_FG, TEXT_BG)
  {
    HelpIsOneLine();
    OnTheRow(HELP_TOOLTIP, height - 1, sx, width, under);
  }

  /** Where the open terminal's message writes a character (and the help
      line does not), the cell shows the message's character there, white on
      dark blue, whatever sprites are below it. */
  lemma MessageOnTop(store: Store, ents: seq<Entity>, message: string, help: bool, k: nat, sx: nat, sy: nat, width: nat, height: nat)
    requires ValidStore(store) && EntsOk(store, ents) && 1 <= height && 1 <= width
    requires var ps := Placements(message, 1, 0, 1, width); k < |ps| && ps[k].x == sx && ps[k].y == sy
    requires !help || sy != height - 1
    ensures var cell := FrameCell(store, ents, Some(message), help, sx, sy, width, height);
      && cell == TextCell(Placements(message, 1, 0, 1, width), sx, sy, Blank)
      && cell.Glyph? && cell.fg == TEXT_FG && cell.bg == TEXT_BG
  {
    var ps := Placements(message, 1, 0, 1, width);
    var base := SpriteLayers(store, ents, DrawOrder(ents), sx, sy, width, height, Blank);
    TextCovers(ps, sx, sy, base);
    TextCovers(ps, sx, sy, Blank);
    if help {
      HelpIsOneLine();
      OffTheRow(HELP_TOOLTIP, 0, height - 1, 0, sx, sy, width, TextCell(ps, sx, sy, base));
    }
  }

  /** Where no text is written, the cell shows the sprites drawn in depth
      order over a blank screen. */
  lemma SpritesShowThrough(store: Store, ents: seq<Entity>, message: Option<string>, help: bool, sx: nat, sy: nat, width: nat, height: nat)
    requires ValidStore(store) && EntsOk(store, ents) && 1 <= height && 1 <= width
    requires message.Some? ==> Untouched(Placements(message.value, 1, 0, 1, width), sx, sy)
    requires !help || sy != height - 1
    ensures FrameCell(store, ents, message, help, sx, sy, width, height) == SpriteLayers(store, ents, DrawOrder(ents), sx, sy, width, height, Blank)
  {
    var base := SpriteLayers(store, ents, DrawOrder(ents), sx, sy, width, height, Blank);
    if message.Some? {
      var ps := Placements(message.value, 1, 0, 1, width);
      TextCovers(ps, sx, sy, base);
      assert TextCell(ps, sx, sy, base) == base;
    }
    var shown := if message.Some? then TextCell(Placements(message.value, 1, 0, 1, width), sx, sy, base) else base;
    assert shown == base;
    if help {
      HelpIsOneLine();
      OffTheRow(HELP_TOOLTIP, 0, height - 1, 0, sx, sy, width, base);
    }
  }
}
