/**
 * The application shell (src/app/mod.rs): classifying key events into
 * commands, laying out the starting field, and one update of the frame
 * loop (tick, render, flush, input reset).
 *
 * Polling the terminal, the clock and the random generator are parameters:
 * the polled event, the elapsed time and an Rng draw source.
 */
module App {
  import opened Wrappers
  import opened Sprites
  import opened Components
  import opened Rules
  import opened World
  import opened Render

  // ---------------------------------------------------------------------
  // Key input

  datatype KeyCode = Char(c: char) | LeftKey | RightKey | UpKey | DownKey | OtherKey

  datatype KeyEventKind = Press | Repeat | Release

  /** Modifier flags as the terminal library encodes them. */
  type Modifiers = bv8

  const NO_MODIFIERS: Modifiers := 0
  const SHIFT: Modifiers := 1
  const CONTROL: Modifiers := 2

  /** What one poll of the terminal returns. */
  datatype Event =
    | FocusGained | FocusLost
    | Key(kind: KeyEventKind, code: KeyCode, mods: Modifiers)
    | Mouse | Paste(data: string) | Resize(columns: nat, rows: nat)

  /** The command a pressed key stands for, tried in order: q or exactly
      Ctrl+c quits; an arrow key or its vi letter (either case) moves, the
      Shift variant when the modifiers are exactly Shift; u acts, space picks
      up, ? toggles help; anything else is no input. */
  function KeyInput(code: KeyCode, mods: Modifiers): InputState {
    if (code == Char('c') && mods == CONTROL) || code == Char('q') then Quit
    else if code == LeftKey || code == Char('h') || code == Char('H') then
      (if mods == SHIFT then ShiftLeft else Left)
    else if code == RightKey || code == Char('l') || code == Char('L') then
      (if mods == SHIFT then ShiftRight else Right)
    else if code == DownKey || code == Char('j') || code == Char('J') then
      (if mods == SHIFT then ShiftDown else Down)
    else if code == UpKey || code == Char('k') || code == Char('K') then
      (if mods == SHIFT then ShiftUp else Up)
    else if code == Char('u') then Action
    else if code == Char(' ') then Pickup
    else if code == Char('?') then ToggleHelp
    else NoInput
  }

  /** The command of one poll: nothing polled, a non-key event or a key
      release or repeat is no input. */
  function EventInput(polled: Option<Event>): InputState {
    match polled
    case None => NoInput
    case Some(ev) =>
      if ev.Key? && ev.kind == Press then KeyInput(ev.code, ev.mods) else NoInput
  }

  /** The direction a key names, independently of modifiers: arrows and the
      vi letters h, j, k, l in either case. */
  function Heading(code: KeyCode): Option<InputState> {
    match code
    case LeftKey => Some(Left)
    case RightKey => Some(Right)
    case UpKey => Some(Up)
    case DownKey => Some(Down)
    case Char(c) =>
      if c in {'h', 'H'} then Some(Left)
      else if c in {'l', 'L'} then Some(Right)
      else if c in {'k', 'K'} then Some(Up)
      else if c in {'j', 'J'} then Some(Down)
      else None
    case OtherKey => None
  }

  function Shifted(d: InputState): InputState {
    match d
    case Left => ShiftLeft
    case Right => ShiftRight
    case Up => ShiftUp
    case Down => ShiftDown
    case _ => d
  }

  predicate IsMove(i: InputState) {
    i in {Left, Right, Up, Down, ShiftLeft, ShiftRight, ShiftUp, ShiftDown}
  }

  /** Quitting is q with any modifiers, or c with exactly Control. */
  lemma QuitKeys(code: KeyCode, mods: Modifiers)
    ensures KeyInput(code, mods) == Quit <==> code == Char('q') || (code == Char('c') && mods == CONTROL)
  {
  }

  /** A key moves exactly when it names a direction; it moves that way, and
      takes the Shift variant exactly when the modifiers are exactly Shift. */
  lemma MoveKeys(code: KeyCode, mods: Modifiers)
    ensures IsMove(KeyInput(code, mods)) <==> Heading(code).Some?
    ensures Heading(code).Some? ==>
      KeyInput(code, mods) == if mods == SHIFT then Shifted(Heading(code).value) else Heading(code).value
  {
  }

  /** The remaining keys, and that a key never produces the clear command. */
  lemma CommandKeys(code: KeyCode, mods: Modifiers)
    ensures KeyInput(code, mods) == Action <==> code == Char('u')
    ensures KeyInput(code, mods) == Pickup <==> code == Char(' ')
    ensures KeyInput(code, mods) == ToggleHelp <==> code == Char('?')
    ensures KeyInput(code, mods) != Clear
  {
  }

  /** Only a key press yields a command, and only the one its key and
      modifiers give. */
  lemma OnlyPressesCount(polled: Option<Event>)
    ensures EventInput(polled) != NoInput ==>
      polled.Some? && polled.value.Key? && polled.value.kind == Press &&
      EventInput(polled) == KeyInput(polled.value.code, polled.value.mods)
    ensures EventInput(polled) != Clear
  {
  }

  // ---------------------------------------------------------------------
  // The starting field

  /** The store indices of the sheets the layout names. */
  datatype LayoutIds = LayoutIds(
    dirt: nat, grass: nat, transition: nat, cryopod: nat, terminal: nat,
    player: nat, shovel: nat, packet: nat, watercan: nat)

  predicate LayoutFits(store: Store, ids: LayoutIds) {
    && ValidStore(store)
    && ids.dirt < |store| && ids.grass < |store| && ids.transition < |store|
    && ids.cryopod < |store| && ids.terminal < |store| && ids.player < |store|
    && ids.shovel < |store| && ids.packet < |store| && ids.watercan < |store|
  }

  /** u16 subtraction, wrapping around below 0 as a release build does. */
  function WrappingSub(a: nat, b: nat): int {
    if a >= b then a - b else a + 65536 - b
  }

  /** For u16 operands it is subtraction modulo 2^16. */
  lemma WrappingSubIsModular(a: nat, b: nat)
    requires a < 65536 && b < 65536
    ensures WrappingSub(a, b) == U16(a - b)
    ensures 0 <= WrappingSub(a, b) < 65536
  {
    if a < b {
      assert a - b + 65536 == WrappingSub(a, b);
    }
  }

  /** A dirt tile of the ground; it carries no id. */
  function DirtTile(sheet: nat, frame: nat, flip: bool, x: int, y: int): Entity {
    Entity(Some(Position(x, y, DEPTH_GROUND)), Some(DefaultSprite().(storeIndex := sheet, frame := frame, flip := flip)), None, None)
  }

  /** A piece of the animated transition overlay. */
  function OverlayTile(sheet: nat, x: int, y: int): Entity {
    Entity(Some(Position(x, y, DEPTH_OVERLAY)), Some(DefaultSprite().(storeIndex := sheet, spriteType := Overlay, animating := true)), None, None)
  }

  /** A grass tuft: an interactive crop-kind sprite with an id. */
  function GrassTile(id: nat, sheet: nat, frame: nat, flip: bool, x: int, y: int): Entity {
    Entity(Some(Position(x, y, DEPTH_GRASS + id)),
           Some(DefaultSprite().(id := id, storeIndex := sheet, frame := frame, flip := flip, animating := true, spriteType := SpriteType.Crop)),
           Some(Interactible(ItemType.Grass, false)), None)
  }

  /** The six fixed entities, with ids first .. first + 5 in this order: the
      cryopod, the terminal, the player, and the shovel, seed packet and
      watercan. */
  function FixedEntities(ids: LayoutIds, height: nat, first: nat): (es: seq<Entity>)
    ensures |es| == 6 && forall k :: 0 <= k < 6 ==> IdOf(es[k]) == first + k
  {
    [ Entity(Some(Position(1, 0, DEPTH_PLAYER - first)),
             Some(DefaultSprite().(id := first, storeIndex := ids.cryopod, animating := true, spriteType := Tool)),
             Some(Interactible(Pod, false)), None),
      Entity(Some(Position(11, 2, DEPTH_PLAYER - (first + 1))),
             Some(DefaultSprite().(id := first + 1, storeIndex := ids.terminal, spriteType := Tool, animating := true, flip := true)),
             Some(Interactible(Terminal, false)), None),
      Entity(Some(Position(5, height / 2 - 2, DEPTH_PLAYER + first + 2)),
             Some(DefaultSprite().(id := first + 2, storeIndex := ids.player, spriteType := Player)),
             None, None),
      Entity(Some(Position(2, height - 7, DEPTH_TOOLS + first + 3)),
             Some(DefaultSprite().(id := first + 3, storeIndex := ids.shovel, spriteType := Tool)),
             Some(Interactible(Shovel, true)), None),
      Entity(Some(Position(8, height - 4, DEPTH_TOOLS + first + 4)),
             Some(DefaultSprite().(id := first + 4, storeIndex := ids.packet, spriteType := Tool)),
             Some(Interactible(Packet, true)), None),
      Entity(Some(Position(8, height - 8, DEPTH_TOOLS + first + 5)),
             Some(DefaultSprite().(id := first + 5, storeIndex := ids.watercan, spriteType := Tool)),
             Some(Interactible(Watercan, true)), None) ]
  }

  /** The grid: columns 0, 8, 16, ... left of the width, rows 0, 4, 8, ...
      above the height. */
  function Columns(width: nat): nat {
    (width + 7) / 8
  }

  function Lines(height: nat): nat {
    (height + 3) / 4
  }

  /** A row has reached its end when its last point is below the width. */
  lemma ColumnsAt(i: nat, width: nat)
    requires width <= 8 * i < width + 8
    ensures i == Columns(width)
  {
  }

  lemma LinesAt(j: nat, height: nat)
    requires height <= 4 * j < height + 4
    ensures j == Lines(height)
  {
  }

  /** The grid points so far, extended by one point of row j. */
  lemma RowNext(width: nat, j: nat, y: nat, i: nat)
    ensures Rows(width, j) + Row(y, 0) == Rows(width, j)
    ensures Rows(width, j) + Row(y, i + 1) == (Rows(width, j) + Row(y, i)) + [(8 * i, y)]
  {
    assert Rows(width, j) + [] == Rows(width, j);
  }

  /** A full row at y = 4j completes the first j + 1 rows. */
  lemma RowEnds(width: nat, j: nat, y: nat, i: nat)
    requires y == 4 * j && i == Columns(width)
    ensures Rows(width, j) + Row(y, i) == Rows(width, j + 1)
  {
  }

  lemma OnGrid(i: nat, j: nat)
    ensures (8 * i) % 8 == 0 && (4 * j) % 4 == 0
  {
  }

  /** The first n points of the row at y. */
  function Row(y: nat, n: nat): seq<(nat, nat)> {
    if n == 0 then [] else Row(y, n - 1) + [(8 * (n - 1), y)]
  }

  /** The first m rows of the grid, in row-major order. */
  function Rows(width: nat, m: nat): seq<(nat, nat)> {
    if m == 0 then [] else Rows(width, m - 1) + Row(4 * (m - 1), Columns(width))
  }

  function Grid(width: nat, height: nat): seq<(nat, nat)> {
    Rows(width, Lines(height))
  }

  /** The grid points the overlay covers: every second column and row. */
  function Coarse(ps: seq<(nat, nat)>): seq<(nat, nat)>
    decreases |ps|
  {
    if ps == [] then []
    else
      var p := ps[|ps| - 1];
      Coarse(ps[..|ps| - 1]) + if p.0 % 16 == 0 && p.1 % 8 == 0 then [p] else []
  }

  predicate IsDirt(e: Entity) {
    e.pos.Some? && e.sprite.Some? && e.sprite.value.spriteType == Background
  }

  predicate IsOverlay(e: Entity) {
    e.pos.Some? && e.sprite.Some? && e.sprite.value.spriteType == Overlay
  }

  /** The positions of the dirt tiles, in creation order. */
  function DirtPoints(es: seq<Entity>): seq<(int, int)>
    decreases |es|
  {
    if es == [] then []
    else
      var e := es[|es| - 1];
      DirtPoints(es[..|es| - 1]) + if IsDirt(e) then [(e.pos.value.x, e.pos.value.y)] else []
  }

  /** The positions of the overlay pieces, in creation order. */
  function OverlayPoints(es: seq<Entity>): seq<(int, int)>
    decreases |es|
  {
    if es == [] then []
    else
      var e := es[|es| - 1];
      OverlayPoints(es[..|es| - 1]) + if IsOverlay(e) then [(e.pos.value.x, e.pos.value.y)] else []
  }

  /** The non-zero ids, in creation order. */
  function Ids(es: seq<Entity>): seq<nat>
    decreases |es|
  {
    if es == [] then []
    else
      var e := es[|es| - 1];
      Ids(es[..|es| - 1]) + if IdOf(e) != 0 then [IdOf(e)] else []
  }

  /** lo + 1, lo + 2, ..., hi. */
  function Span(lo: nat, hi: nat): seq<nat>
    decreases hi
  {
    if hi <= lo then [] else Span(lo, hi - 1) + [hi]
  }

  /** 1, 2, ..., n. */
  function Count(n: nat): seq<nat> {
    Span(0, n)
  }

  lemma {:induction false} SpanJoin(a: nat, b: nat, c: nat)
    requires a <= b <= c
    ensures Span(a, b) + Span(b, c) == Span(a, c)
    decreases c
  {
    if c == b {
      assert Span(a, b) + [] == Span(a, b);
    } else {
      SpanJoin(a, b, c - 1);
    }
  }

  lemma {:induction false} SpanAt(a: nat, b: nat)
    requires a <= b
    ensures |Span(a, b)| == b - a && forall k :: 0 <= k < b - a ==> Span(a, b)[k] == a + 1 + k
    decreases b
  {
    if b > a {
      SpanAt(a, b - 1);
    }
  }

  function AsPoints(ps: seq<(nat, nat)>): seq<(int, int)>
    decreases |ps|
  {
    if ps == [] then [] else AsPoints(ps[..|ps| - 1]) + [(ps[|ps| - 1].0 as int, ps[|ps| - 1].1 as int)]
  }

  lemma FiltersJoin(a: seq<Entity>, b: seq<Entity>)
    ensures DirtPoints(a + b) == DirtPoints(a) + DirtPoints(b)
    ensures OverlayPoints(a + b) == OverlayPoints(a) + OverlayPoints(b)
    ensures Ids(a + b) == Ids(a) + Ids(b)
  {
    DirtJoin(a, b);
    OverlayJoin(a, b);
    IdsJoin(a, b);
  }

  lemma {:induction false} DirtJoin(a: seq<Entity>, b: seq<Entity>)
    ensures DirtPoints(a + b) == DirtPoints(a) + DirtPoints(b)
    decreases |b|
  {
    if b == [] {
      assert a + b == a;
    } else {
      var n := |b| - 1;
      assert (a + b)[..|a + b| - 1] == a + b[..n];
      assert (a + b)[|a + b| - 1] == b[n];
      DirtJoin(a, b[..n]);
    }
  }

  lemma {:induction false} OverlayJoin(a: seq<Entity>, b: seq<Entity>)
    ensures OverlayPoints(a + b) == OverlayPoints(a) + OverlayPoints(b)
    decreases |b|
  {
    if b == [] {
      assert a + b == a;
    } else {
      var n := |b| - 1;
      assert (a + b)[..|a + b| - 1] == a + b[..n];
      assert (a + b)[|a + b| - 1] == b[n];
      OverlayJoin(a, b[..n]);
    }
  }

  lemma {:induction false} IdsJoin(a: seq<Entity>, b: seq<Entity>)
    ensures Ids(a + b) == Ids(a) + Ids(b)
    decreases |b|
  {
    if b == [] {
      assert a + b == a;
    } else {
      var n := |b| - 1;
      assert (a + b)[..|a + b| - 1] == a + b[..n];
      assert (a + b)[|a + b| - 1] == b[n];
      IdsJoin(a, b[..n]);
    }
  }

  lemma {:induction false} PointsJoin(a: seq<(nat, nat)>, b: seq<(nat, nat)>)
    ensures AsPoints(a + b) == AsPoints(a) + AsPoints(b)
    ensures Coarse(a + b) == Coarse(a) + Coarse(b)
    decreases |b|
  {
    if b == [] {
      assert a + b == a;
    } else {
      var n := |b| - 1;
      assert (a + b)[..|a + b| - 1] == a + b[..n];
      assert (a + b)[|a + b| - 1] == b[n];
      PointsJoin(a, b[..n]);
    }
  }

  /** Ids handed out as 1, 2, ..., n in creation order are unique and at
      most n. */
  lemma {:induction false} IdsCounted(es: seq<Entity>, n: nat)
    requires Ids(es) == Count(n)
    ensures UniqueIds(es) && IdsAtMost(es, n)
    decreases |es|
  {
    if es != [] {
      var pre, last := es[..|es| - 1], es[|es| - 1];
      assert es == pre + [last];
      if IdOf(last) != 0 {
        SpanAt(0, n);
        var ip := Ids(pre);
        var whole := ip + [IdOf(last)];
        assert whole == Span(0, n);
        assert n > 0;
        assert Span(0, n) == Span(0, n - 1) + [n];
        assert whole[..|ip|] == ip && whole[|ip|] == IdOf(last);
        assert (Span(0, n - 1) + [n])[..n - 1] == Span(0, n - 1);
        assert ip == Count(n - 1) && IdOf(last) == n;
        IdsCounted(pre, n - 1);
        AppendLast(pre, last, n);
      } else {
        IdsCounted(pre, n);
        AppendLast(pre, last, n);
      }
    }
  }

  lemma AppendLast(pre: seq<Entity>, last: Entity, n: nat)
    requires UniqueIds(pre) && IdsAtMost(pre, n)
    requires IdOf(last) == 0 || (IdOf(last) == n && IdsAtMost(pre, n - 1))
    ensures UniqueIds(pre + [last]) && IdsAtMost(pre + [last], n)
  {
    var es := pre + [last];
    assert forall i :: 0 <= i < |pre| ==> es[i] == pre[i];
  }

  /** One entity of the starting field: a dirt tile with a frame of its
      sheet, an overlay piece at a coarse grid point, or a grass tuft with an
      id and a frame of its sheet, only away from the right and bottom edges
      (the bounds are u16 differences, as in the game). */
  predicate FieldTile(store: Store, ids: LayoutIds, width: nat, height: nat, e: Entity)
  {
    && e.pos.Some? && e.sprite.Some?
    && var p, s := e.pos.value, e.sprite.value;
    && 0 <= p.x < width && 0 <= p.y < height && p.x % 8 == 0 && p.y % 4 == 0
    && (|| (e == DirtTile(ids.dirt, s.frame, s.flip, p.x, p.y) && ids.dirt < |store| && s.frame < FrameCount(store, ids.dirt))
        || (e == OverlayTile(ids.transition, p.x, p.y) && p.x % 16 == 0 && p.y % 8 == 0)
        || (&& e == GrassTile(s.id, ids.grass, s.frame, s.flip, p.x, p.y) && s.id != 0
            && ids.grass < |store| && s.frame < FrameCount(store, ids.grass)
            && p.x < WrappingSub(width, 8) && p.y < WrappingSub(height, 4)))
  }

  /** The tiles of grid point (x, y) are field tiles, one of them dirt, one
      of them the overlay at a coarse point, and they carry the ids
      n + 1 .. n' in order. */
  predicate TileOk(store: Store, ids: LayoutIds, width: nat, height: nat, tile: seq<Entity>, x: nat, y: nat, n: nat, n': nat)
  {
    && AllField(store, ids, width, height, tile)
    && DirtPoints(tile) == [(x as int, y as int)]
    && OverlayPoints(tile) == (if x % 16 == 0 && y % 8 == 0 then [(x as int, y as int)] else [])
    && n <= n' && Ids(tile) == Span(n, n')
  }

  /** What the grass test of one grid point drew: the id, frame and flip of
      the tuft. */
  datatype GrassDraw = GrassDraw(id: nat, frame: nat, flip: bool)

  /** The tiles of grid point (x, y) in creation order, for the given draws. */
  function TileEntities(ids: LayoutIds, x: nat, y: nat, frame: nat, flip: bool, grass: Option<GrassDraw>): seq<Entity> {
    [DirtTile(ids.dirt, frame, flip, x, y)]
    + (if x % 16 == 0 && y % 8 == 0 then [OverlayTile(ids.transition, x, y)] else [])
    + (if grass.Some? then [GrassTile(grass.value.id, ids.grass, grass.value.frame, grass.value.flip, x, y)] else [])
  }

  /** The tiles of a grid point are field tiles: dirt, the overlay at a
      coarse point, and grass with the next id. */
  lemma TileEntitiesOk(store: Store, ids: LayoutIds, width: nat, height: nat, x: nat, y: nat, frame: nat, flip: bool,
                       grass: Option<GrassDraw>, n: nat)
    requires x < width && y < height && x % 8 == 0 && y % 4 == 0
    requires ids.dirt < |store| && frame < FrameCount(store, ids.dirt)
    requires grass.Some? ==>
      && grass.value.id == n + 1 && ids.grass < |store| && grass.value.frame < FrameCount(store, ids.grass)
      && x < WrappingSub(width, 8) && y < WrappingSub(height, 4)
    ensures TileOk(store, ids, width, height, TileEntities(ids, x, y, frame, flip, grass), x, y, n, if grass.Some? then n + 1 else n)
  {
    var d := [DirtTile(ids.dirt, frame, flip, x, y)];
    var o := if x % 16 == 0 && y % 8 == 0 then [OverlayTile(ids.transition, x, y)] else [];
    var g := if grass.Some? then [GrassTile(grass.value.id, ids.grass, grass.value.frame, grass.value.flip, x, y)] else [];
    DirtPiece(store, ids, width, height, x, y, frame, flip);
    OverlayPiece(store, ids, width, height, x, y);
    GrassPiece(store, ids, width, height, x, y, grass, n);
    FiltersJoin(d, o);
    FiltersJoin(d + o, g);
    FieldJoin(store, ids, width, height, d, o);
    FieldJoin(store, ids, width, height, d + o, g);
    assert DirtPoints(d + o + g) == [(x as int, y as int)] + [] + [];
    assert OverlayPoints(d + o + g) == [] + OverlayPoints(o) + [];
    assert Ids(d + o + g) == [] + [] + Ids(g);
  }

  lemma DirtPiece(store: Store, ids: LayoutIds, width: nat, height: nat, x: nat, y: nat, frame: nat, flip: bool)
    requires x < width && y < height && x % 8 == 0 && y % 4 == 0
    requires ids.dirt < |store| && frame < FrameCount(store, ids.dirt)
    ensures var d := [DirtTile(ids.dirt, frame, flip, x, y)];
      && AllField(store, ids, width, height, d) && DirtPoints(d) == [(x as int, y as int)]
      && OverlayPoints(d) == [] && Ids(d) == []
  {
    var e := DirtTile(ids.dirt, frame, flip, x, y);
    DirtIsField(store, ids, width, height, frame, flip, x, y);
    Grow(store, ids, width, height, [], e);
    assert [] + [e] == [e];
  }

  lemma OverlayPiece(store: Store, ids: LayoutIds, width: nat, height: nat, x: nat, y: nat)
    requires x < width && y < height && x % 8 == 0 && y % 4 == 0
    ensures var o := if x % 16 == 0 && y % 8 == 0 then [OverlayTile(ids.transition, x, y)] else [];
      && AllField(store, ids, width, height, o) && DirtPoints(o) == []
      && OverlayPoints(o) == (if x % 16 == 0 && y % 8 == 0 then [(x as int, y as int)] else []) && Ids(o) == []
  {
    if x % 16 == 0 && y % 8 == 0 {
      var e := OverlayTile(ids.transition, x, y);
      OverlayIsField(store, ids, width, height, x, y);
      Grow(store, ids, width, height, [], e);
      assert [] + [e] == [e];
    }
  }

  lemma GrassPiece(store: Store, ids: LayoutIds, width: nat, height: nat, x: nat, y: nat, grass: Option<GrassDraw>, n: nat)
    requires x < width && y < height && x % 8 == 0 && y % 4 == 0
    requires grass.Some? ==>
      && grass.value.id == n + 1 && ids.grass < |store| && grass.value.frame < FrameCount(store, ids.grass)
      && x < WrappingSub(width, 8) && y < WrappingSub(height, 4)
    ensures var g := if grass.Some? then [GrassTile(grass.value.id, ids.grass, grass.value.frame, grass.value.flip, x, y)] else [];
      && AllField(store, ids, width, height, g) && DirtPoints(g) == [] && OverlayPoints(g) == []
      && Ids(g) == Span(n, if grass.Some? then n + 1 else n)
  {
    if grass.Some? {
      var e := GrassTile(grass.value.id, ids.grass, grass.value.frame, grass.value.flip, x, y);
      GrassIsField(store, ids, width, height, grass.value.id, grass.value.frame, grass.value.flip, x, y);
      Grow(store, ids, width, height, [], e);
      assert [] + [e] == [e];
      assert Span(n, n + 1) == Span(n, n) + [n + 1];
    }
  }

  /** The tiles of grid point (x, y), in the order the game creates them:
      dirt with a random frame and flip, the overlay at every second column
      and row, and, away from the edges, grass with chance 1/4, which draws
      an id before its frame and flip. */
  method Tile(store: Store, ids: LayoutIds, width: nat, height: nat, x: nat, y: nat, rng: Rng, si: SpriteIndexer)
    returns (tile: seq<Entity>, ghost frame: nat, ghost flip: bool, ghost grass: Option<GrassDraw>)
    requires LayoutFits(store, ids)
    requires x < width && y < height && x % 8 == 0 && y % 4 == 0
    modifies rng, si
    ensures tile == TileEntities(ids, x, y, frame, flip, grass)
    ensures frame < FrameCount(store, ids.dirt)
    ensures grass.Some? ==>
      && grass.value.id == old(si.count) + 1 && grass.value.frame < FrameCount(store, ids.grass)
      && x < WrappingSub(width, 8) && y < WrappingSub(height, 4)
    ensures si.count == if grass.Some? then old(si.count) + 1 else old(si.count)
  {
    var f0 := rng.GenRange(0, FrameCount(store, ids.dirt));
    var coin := rng.GenRange(0, 2);
    var g: Option<GrassDraw> := None;
    if x < WrappingSub(width, 8) && y < WrappingSub(height, 4) {
      var chance := rng.GenRange(0, 4);
      if chance == 0 {
        var id := si.NewIndex();
        var f := rng.GenRange(0, FrameCount(store, ids.grass));
        var c := rng.GenRange(0, 2);
        g := Some(GrassDraw(id, f, c == 0));
      }
    }
    tile := TileEntities(ids, x, y, f0, coin == 0, g);
    frame, flip, grass := f0, coin == 0, g;
  }

  lemma DirtIsField(store: Store, ids: LayoutIds, width: nat, height: nat, frame: nat, flip: bool, x: nat, y: nat)
    requires x < width && y < height && x % 8 == 0 && y % 4 == 0
    requires ids.dirt < |store| && frame < FrameCount(store, ids.dirt)
    ensures FieldTile(store, ids, width, height, DirtTile(ids.dirt, frame, flip, x, y))
    ensures IsDirt(DirtTile(ids.dirt, frame, flip, x, y)) && !IsOverlay(DirtTile(ids.dirt, frame, flip, x, y))
    ensures IdOf(DirtTile(ids.dirt, frame, flip, x, y)) == 0
  {
  }

  lemma OverlayIsField(store: Store, ids: LayoutIds, width: nat, height: nat, x: nat, y: nat)
    requires x < width && y < height && x % 8 == 0 && y % 4 == 0 && x % 16 == 0 && y % 8 == 0
    ensures FieldTile(store, ids, width, height, OverlayTile(ids.transition, x, y))
    ensures !IsDirt(OverlayTile(ids.transition, x, y)) && IsOverlay(OverlayTile(ids.transition, x, y))
    ensures IdOf(OverlayTile(ids.transition, x, y)) == 0
  {
  }

  lemma GrassIsField(store: Store, ids: LayoutIds, width: nat, height: nat, id: nat, frame: nat, flip: bool, x: nat, y: nat)
    requires x < width && y < height && x % 8 == 0 && y % 4 == 0
    requires x < WrappingSub(width, 8) && y < WrappingSub(height, 4)
    requires id != 0 && ids.grass < |store| && frame < FrameCount(store, ids.grass)
    ensures FieldTile(store, ids, width, height, GrassTile(id, ids.grass, frame, flip, x, y))
    ensures !IsDirt(GrassTile(id, ids.grass, frame, flip, x, y)) && !IsOverlay(GrassTile(id, ids.grass, frame, flip, x, y))
    ensures IdOf(GrassTile(id, ids.grass, frame, flip, x, y)) == id
  {
  }

  /** Appending one entity to a field extends each filter by what it picks
      of it. */
  lemma Grow(store: Store, ids: LayoutIds, width: nat, height: nat, es: seq<Entity>, e: Entity)
    ensures AllField(store, ids, width, height, es + [e]) <==> AllField(store, ids, width, height, es) && FieldTile(store, ids, width, height, e)
    ensures DirtPoints(es + [e]) == DirtPoints(es) + if IsDirt(e) then [(e.pos.value.x, e.pos.value.y)] else []
    ensures OverlayPoints(es + [e]) == OverlayPoints(es) + if IsOverlay(e) then [(e.pos.value.x, e.pos.value.y)] else []
    ensures Ids(es + [e]) == Ids(es) + if IdOf(e) != 0 then [IdOf(e)] else []
  {
    assert (es + [e])[..|es|] == es;
    assert [] + [e] == [e];
  }

  /** Every entity is a field tile. */
  predicate AllField(store: Store, ids: LayoutIds, width: nat, height: nat, es: seq<Entity>)
    decreases |es|
  {
    es == [] || (AllField(store, ids, width, height, es[..|es| - 1]) && FieldTile(store, ids, width, height, es[|es| - 1]))
  }

  lemma {:induction false} FieldJoin(store: Store, ids: LayoutIds, width: nat, height: nat, a: seq<Entity>, b: seq<Entity>)
    ensures AllField(store, ids, width, height, a + b) <==> AllField(store, ids, width, height, a) && AllField(store, ids, width, height, b)
    decreases |b|
  {
    if b == [] {
      assert a + b == a;
    } else {
      var n := |b| - 1;
      assert (a + b)[..|a + b| - 1] == a + b[..n];
      assert (a + b)[|a + b| - 1] == b[n];
      FieldJoin(store, ids, width, height, a, b[..n]);
    }
  }

  /** AllField says what it promises of each entity. */
  lemma {:induction false} FieldAt(store: Store, ids: LayoutIds, width: nat, height: nat, es: seq<Entity>)
    ensures AllField(store, ids, width, height, es) <==> forall k :: 0 <= k < |es| ==> FieldTile(store, ids, width, height, es[k])
    decreases |es|
  {
    if es != [] {
      var n := |es| - 1;
      FieldAt(store, ids, width, height, es[..n]);
      assert forall k :: 0 <= k < n ==> es[..n][k] == es[k];
    }
  }

  /** The first entities of the field cover the grid points pts in order,
      and their ids are 1, ..., n. */
  predicate FieldSoFar(store: Store, ids: LayoutIds, width: nat, height: nat, ents: seq<Entity>, pts: seq<(nat, nat)>, n: nat)
  {
    && AllField(store, ids, width, height, ents)
    && DirtPoints(ents) == AsPoints(pts)
    && OverlayPoints(ents) == AsPoints(Coarse(pts))
    && Ids(ents) == Count(n)
  }

  /** Appending a grid point extends the points and, at a coarse point, the
      overlay's points. */
  lemma PointStep(pts: seq<(nat, nat)>, x: nat, y: nat)
    ensures AsPoints(pts + [(x, y)]) == AsPoints(pts) + [(x as int, y as int)]
    ensures AsPoints(Coarse(pts + [(x, y)])) == AsPoints(Coarse(pts)) + if x % 16 == 0 && y % 8 == 0 then [(x as int, y as int)] else []
  {
    assert (pts + [(x, y)])[..|pts|] == pts;
    var c := Coarse(pts);
    if x % 16 == 0 && y % 8 == 0 {
      assert (c + [(x, y)])[..|c|] == c;
    } else {
      assert c + [] == c;
    }
  }

  /** Appending the tiles of grid point (x, y) extends the field by it. */
  lemma TileStep(store: Store, ids: LayoutIds, width: nat, height: nat, ents: seq<Entity>, pts: seq<(nat, nat)>,
                 tile: seq<Entity>, x: nat, y: nat, n: nat, n': nat, pts': seq<(nat, nat)>)
    requires FieldSoFar(store, ids, width, height, ents, pts, n)
    requires pts' == pts + [(x, y)]
    requires TileOk(store, ids, width, height, tile, x, y, n, n')
    ensures FieldSoFar(store, ids, width, height, ents + tile, pts', n')
  {
    FiltersJoin(ents, tile);
    PointStep(pts, x, y);
    SpanJoin(0, n, n');
    FieldJoin(store, ids, width, height, ents, tile);
  }

  /** Appending the tiles drawn for grid point (x, y) extends the field by
      that point. */
  lemma DrawStep(store: Store, ids: LayoutIds, width: nat, height: nat, ents: seq<Entity>, pts: seq<(nat, nat)>,
                 x: nat, y: nat, frame: nat, flip: bool, grass: Option<GrassDraw>, n: nat, pts': seq<(nat, nat)>)
    requires FieldSoFar(store, ids, width, height, ents, pts, n)
    requires pts' == pts + [(x, y)]
    requires x < width && y < height && x % 8 == 0 && y % 4 == 0
    requires ids.dirt < |store| && frame < FrameCount(store, ids.dirt)
    requires grass.Some? ==>
      && grass.value.id == n + 1 && ids.grass < |store| && grass.value.frame < FrameCount(store, ids.grass)
      && x < WrappingSub(width, 8) && y < WrappingSub(height, 4)
    ensures FieldSoFar(store, ids, width, height, ents + TileEntities(ids, x, y, frame, flip, grass), pts',
                       if grass.Some? then n + 1 else n)
  {
    TileEntitiesOk(store, ids, width, height, x, y, frame, flip, grass, n);
    TileStep(store, ids, width, height, ents, pts, TileEntities(ids, x, y, frame, flip, grass), x, y, n,
             if grass.Some? then n + 1 else n, pts');
  }

  /** Entities with the ids c+1, c+2, ... in order. */
  lemma {:induction false} IdsOfRun(es: seq<Entity>, c: nat)
    requires forall k :: 0 <= k < |es| ==> IdOf(es[k]) == c + 1 + k
    ensures Ids(es) == Span(c, c + |es|)
    decreases |es|
  {
    if es != [] {
      IdsOfRun(es[..|es| - 1], c);
    }
  }

  /** The tiles of grid point (x, y) extend the field by that point. */
  method FieldPoint(store: Store, ids: LayoutIds, width: nat, height: nat, x: nat, y: nat, ghost pts: seq<(nat, nat)>,
                    ents0: seq<Entity>, rng: Rng, si: SpriteIndexer)
    returns (ents: seq<Entity>)
    requires LayoutFits(store, ids)
    requires x < width && y < height && x % 8 == 0 && y % 4 == 0
    requires FieldSoFar(store, ids, width, height, ents0, pts, si.count)
    modifies rng, si
    ensures FieldSoFar(store, ids, width, height, ents, pts + [(x, y)], si.count)
  {
    ghost var c0 := si.count;
    var tile, frame, flip, grass := Tile(store, ids, width, height, x, y, rng, si);
    DrawStep(store, ids, width, height, ents0, pts, x, y, frame, flip, grass, c0, pts + [(x, y)]);
    ents := ents0 + tile;
  }

  /** The inner grid loop of the start-up code: the points of the row at
      y, left to right, get their tiles. */
  method FieldRow(store: Store, ids: LayoutIds, width: nat, height: nat, y: nat, ghost j: nat, ents0: seq<Entity>, rng: Rng, si: SpriteIndexer)
    returns (ents: seq<Entity>)
    requires LayoutFits(store, ids) && y == 4 * j && y < height
    requires FieldSoFar(store, ids, width, height, ents0, Rows(width, j), si.count)
    modifies rng, si
    ensures FieldSoFar(store, ids, width, height, ents, Rows(width, j + 1), si.count)
  {
    ents := ents0;
    var x := 0;
    ghost var i := 0;
    ghost var pts := Rows(width, j);
    RowNext(width, j, y, 0);
    while x < width
      invariant x == 8 * i && x < width + 8
      invariant pts == Rows(width, j) + Row(y, i)
      invariant FieldSoFar(store, ids, width, height, ents, pts, si.count)
    {
      OnGrid(i, j);
      ents := FieldPoint(store, ids, width, height, x, y, pts, ents, rng, si);
      RowNext(width, j, y, i);
      pts := pts + [(x, y)];
      x, i := x + 8, i + 1;
    }
    ColumnsAt(i, width);
    RowEnds(width, j, y, i);
  }

  /** The outer grid loop of the start-up code: every row, top to bottom. */
  method Field(store: Store, ids: LayoutIds, width: nat, height: nat, rng: Rng, si: SpriteIndexer)
    returns (ents: seq<Entity>)
    requires LayoutFits(store, ids)
    requires si.count == 0
    modifies rng, si
    ensures FieldSoFar(store, ids, width, height, ents, Grid(width, height), si.count)
  {
    ents := [];
    var y := 0;
    ghost var j := 0;
    while y < height
      invariant y == 4 * j && y < height + 4
      invariant FieldSoFar(store, ids, width, height, ents, Rows(width, j), si.count)
    {
      ents := FieldRow(store, ids, width, height, y, j, ents, rng, si);
      y, j := y + 4, j + 1;
    }
    LinesAt(j, height);
    assert Grid(width, height) == Rows(width, j);
  }

  /** The starting table: the field over the grid, then the six fixed
      entities with the last six ids; the ids handed out are 1 .. count in
      creation order. */
  predicate LaidOut(store: Store, ids: LayoutIds, width: nat, height: nat, ents: seq<Entity>, count: nat) {
    && |ents| >= 6 && count >= 6
    && ents[|ents| - 6..] == FixedEntities(ids, height, count - 5)
    && FieldSoFar(store, ids, width, height, ents[..|ents| - 6], Grid(width, height), count - 6)
    && Ids(ents) == Count(count)
  }

  method Layout(store: Store, ids: LayoutIds, width: nat, height: nat, rng: Rng, si: SpriteIndexer)
    returns (ents: seq<Entity>)
    requires LayoutFits(store, ids)
    requires si.count == 0
    modifies rng, si
    ensures LaidOut(store, ids, width, height, ents, si.count)
  {
    ents := Field(store, ids, width, height, rng, si);
    var first := si.NewIndex();
    var rest := si.NewIndex();
    rest := si.NewIndex();
    rest := si.NewIndex();
    rest := si.NewIndex();
    rest := si.NewIndex();
    FieldThenFixed(store, ids, width, height, ents, first);
    ents := ents + FixedEntities(ids, height, first);
  }

  /** The six fixed entities, numbered after the field, complete the
      layout. */
  lemma FieldThenFixed(store: Store, ids: LayoutIds, width: nat, height: nat, field: seq<Entity>, first: nat)
    requires first >= 1
    requires FieldSoFar(store, ids, width, height, field, Grid(width, height), first - 1)
    ensures LaidOut(store, ids, width, height, field + FixedEntities(ids, height, first), first + 5)
  {
    var fixed := FixedEntities(ids, height, first);
    var ents := field + fixed;
    FiltersJoin(field, fixed);
    IdsOfRun(fixed, first - 1);
    SpanJoin(0, first - 1, first + 5);
    assert ents[..|ents| - 6] == field;
    assert ents[|ents| - 6..] == fixed;
  }

  // ---------------------------------------------------------------------
  // Which points the layout covers

  lemma MultipleAt(a: nat, m: nat)
    requires a % 8 == 0 && 8 * m <= a < 8 * m + 8
    ensures a == 8 * m
  {
  }

  /** The row at y holds exactly the multiples of 8 below 8n, at height y. */
  lemma {:induction false} RowMembers(y: nat, n: nat, p: (nat, nat))
    ensures p in Row(y, n) <==> p.1 == y && p.0 % 8 == 0 && p.0 < 8 * n
    decreases n
  {
    if n > 0 {
      RowMembers(y, n - 1, p);
      if p.1 == y && p.0 % 8 == 0 && 8 * (n - 1) <= p.0 < 8 * n {
        MultipleAt(p.0, n - 1);
      }
    }
  }

  lemma MultipleAt4(a: nat, m: nat)
    requires a % 4 == 0 && 4 * m <= a < 4 * m + 4
    ensures a == 4 * m
  {
  }

  /** The first m rows hold the multiples of 8 below 8 * Columns(width)
      paired with the multiples of 4 below 4m. */
  lemma {:induction false} RowsMembers(width: nat, m: nat, p: (nat, nat))
    ensures p in Rows(width, m) <==>
      p.0 % 8 == 0 && p.0 < 8 * Columns(width) && p.1 % 4 == 0 && p.1 < 4 * m
    decreases m
  {
    if m > 0 {
      var c := Columns(width);
      var pre := Rows(width, m - 1);
      var row := Row(4 * (m - 1), c);
      assert Rows(width, m) == pre + row;
      assert p in pre + row <==> p in pre || p in row;
      RowsMembers(width, m - 1, p);
      RowMembers(4 * (m - 1), c, p);
      if p.1 % 4 == 0 && 4 * (m - 1) <= p.1 < 4 * m {
        MultipleAt4(p.1, m - 1);
      }
    }
  }

  lemma BelowColumns(a: nat, width: nat)
    requires a % 8 == 0
    ensures a < 8 * Columns(width) <==> a < width
  {
  }

  lemma BelowLines(a: nat, height: nat)
    requires a % 4 == 0
    ensures a < 4 * Lines(height) <==> a < height
  {
  }

  /** The grid is every point whose column is a multiple of 8 below the
      width and whose row is a multiple of 4 below the height. */
  lemma GridMembers(width: nat, height: nat, p: (nat, nat))
    ensures p in Grid(width, height) <==>
      p.0 % 8 == 0 && p.0 < width && p.1 % 4 == 0 && p.1 < height
  {
    RowsMembers(width, Lines(height), p);
    if p.0 % 8 == 0 {
      BelowColumns(p.0, width);
    }
    if p.1 % 4 == 0 {
      BelowLines(p.1, height);
    }
  }

  lemma {:induction false} CoarseMembers(ps: seq<(nat, nat)>, p: (nat, nat))
    ensures p in Coarse(ps) <==> p in ps && p.0 % 16 == 0 && p.1 % 8 == 0
    decreases |ps|
  {
    if ps != [] {
      var pre := ps[..|ps| - 1];
      CoarseMembers(pre, p);
      assert ps == pre + [ps[|ps| - 1]];
    }
  }

  lemma {:induction false} AsPointsMembers(ps: seq<(nat, nat)>, x: int, y: int)
    ensures (x, y) in AsPoints(ps) <==> x >= 0 && y >= 0 && (x as nat, y as nat) in ps
    decreases |ps|
  {
    if ps != [] {
      var pre := ps[..|ps| - 1];
      AsPointsMembers(pre, x, y);
      assert ps == pre + [ps[|ps| - 1]];
    }
  }

  lemma {:induction false} NoTiles(es: seq<Entity>)
    requires forall k :: 0 <= k < |es| ==> !IsDirt(es[k]) && !IsOverlay(es[k])
    ensures DirtPoints(es) == [] && OverlayPoints(es) == []
    decreases |es|
  {
    if es != [] {
      NoTiles(es[..|es| - 1]);
    }
  }

  /** None of the fixed entities is a tile. */
  lemma FixedNotTiles(ids: LayoutIds, height: nat, first: nat)
    ensures DirtPoints(FixedEntities(ids, height, first)) == []
    ensures OverlayPoints(FixedEntities(ids, height, first)) == []
  {
    NoTiles(FixedEntities(ids, height, first));
  }

  /** The tiles of a laid-out table are those of the grid. */
  lemma LaidOutTiles(store: Store, ids: LayoutIds, width: nat, height: nat, ents: seq<Entity>, count: nat)
    requires LaidOut(store, ids, width, height, ents, count)
    ensures DirtPoints(ents) == AsPoints(Grid(width, height))
    ensures OverlayPoints(ents) == AsPoints(Coarse(Grid(width, height)))
  {
    var n := |ents| - 6;
    assert ents == ents[..n] + ents[n..];
    FiltersJoin(ents[..n], ents[n..]);
    FixedNotTiles(ids, height, count - 5);
    assert DirtPoints(ents) == DirtPoints(ents[..n]) + [];
    assert OverlayPoints(ents) == OverlayPoints(ents[..n]) + [];
  }

  /** A list of tiles on the grid covers exactly the grid's points. */
  lemma OnGridPoints(width: nat, height: nat, dirt: seq<(int, int)>, overlay: seq<(int, int)>, x: int, y: int)
    requires dirt == AsPoints(Grid(width, height))
    requires overlay == AsPoints(Coarse(Grid(width, height)))
    ensures (x, y) in dirt <==> 0 <= x < width && 0 <= y < height && x % 8 == 0 && y % 4 == 0
    ensures (x, y) in overlay <==> 0 <= x < width && 0 <= y < height && x % 16 == 0 && y % 8 == 0
  {
    var grid := Grid(width, height);
    AsPointsMembers(grid, x, y);
    AsPointsMembers(Coarse(grid), x, y);
    if x >= 0 && y >= 0 {
      GridMembers(width, height, (x as nat, y as nat));
      CoarseMembers(grid, (x as nat, y as nat));
    }
  }

  /** After the layout there is one dirt tile at each point of the 8 by 4
      grid and an overlay piece at each point of the 16 by 8 grid, and no
      tile anywhere else. */
  lemma LaidOutCovers(store: Store, ids: LayoutIds, width: nat, height: nat, ents: seq<Entity>, count: nat,
                      x: int, y: int)
    requires LaidOut(store, ids, width, height, ents, count)
    ensures (x, y) in DirtPoints(ents) <==>
      0 <= x < width && 0 <= y < height && x % 8 == 0 && y % 4 == 0
    ensures (x, y) in OverlayPoints(ents) <==>
      0 <= x < width && 0 <= y < height && x % 16 == 0 && y % 8 == 0
  {
    LaidOutTiles(store, ids, width, height, ents, count);
    OnGridPoints(width, height, DirtPoints(ents), OverlayPoints(ents), x, y);
  }

  /** Field tiles are valid in the store and none is the player. */
  lemma FieldEntsOk(store: Store, ids: LayoutIds, width: nat, height: nat, es: seq<Entity>)
    requires LayoutFits(store, ids) && FrameCount(store, ids.grass) >= 8
    requires AllField(store, ids, width, height, es)
    ensures EntsOk(store, es) && forall k :: 0 <= k < |es| ==> !IsPlayer(es[k])
  {
    FieldAt(store, ids, width, height, es);
    assert SheetOk(store[ids.transition]);
    forall k | 0 <= k < |es|
      ensures ElemOk(store, es[k]) && !IsPlayer(es[k])
    {
      assert FieldTile(store, ids, width, height, es[k]);
    }
  }

  /** The fixed entities are valid in the store and only the third is the
      player. */
  lemma FixedOk(store: Store, ids: LayoutIds, height: nat, first: nat)
    requires LayoutFits(store, ids) && first >= 1
    ensures EntsOk(store, FixedEntities(ids, height, first))
    ensures forall k :: 0 <= k < 6 ==> (IsPlayer(FixedEntities(ids, height, first)[k]) <==> k == 2)
  {
    var es := FixedEntities(ids, height, first);
    forall k | 0 <= k < 6
      ensures ElemOk(store, es[k])
    {
      var i := es[k].sprite.value.storeIndex;
      assert SheetOk(store[i]);
    }
  }

  /** The field followed by the fixed entities: all valid, and the fixed
      player is the only player. */
  lemma JoinedEnts(store: Store, ids: LayoutIds, width: nat, height: nat, field: seq<Entity>, first: nat)
    requires LayoutFits(store, ids) && FrameCount(store, ids.grass) >= 8 && first >= 1
    requires AllField(store, ids, width, height, field)
    ensures var ents := field + FixedEntities(ids, height, first);
      forall k :: 0 <= k < |ents| ==> ElemOk(store, ents[k]) && (IsPlayer(ents[k]) <==> k == |field| + 2)
  {
    var fixed := FixedEntities(ids, height, first);
    var ents := field + fixed;
    FieldEntsOk(store, ids, width, height, field);
    FixedOk(store, ids, height, first);
    forall k | 0 <= k < |ents|
      ensures ElemOk(store, ents[k]) && (IsPlayer(ents[k]) <==> k == |field| + 2)
    {
      if k < |field| {
        assert ents[k] == field[k];
      } else {
        assert ents[k] == fixed[k - |field|];
      }
    }
  }

  /** The starting table is well formed: valid sprites, unique ids no
      larger than the counter, exactly one player and nothing queued. */
  lemma LayoutTable(store: Store, ids: LayoutIds, width: nat, height: nat, ents: seq<Entity>, count: nat)
    requires LayoutFits(store, ids) && FrameCount(store, ids.grass) >= 8
    requires LaidOut(store, ids, width, height, ents, count)
    ensures TableOk(store, ents, [], count)
    ensures |ents| >= 6 && IsPlayer(ents[|ents| - 4])
  {
    var n := |ents| - 6;
    assert ents == ents[..n] + FixedEntities(ids, height, count - 5);
    JoinedEnts(store, ids, width, height, ents[..n], count - 5);
    assert Spawned([]) == [] && ents + [] == ents;
    IdsCounted(ents, count);
  }

  // ---------------------------------------------------------------------
  // The application

  /** The errors start-up reports: the loaders' errors and a sheet that is
      not in the store. */
  datatype AppError = StdioError | SerdeError | ImageError | SpriteStoreFailure

  /** How a failed sheet load surfaces: a missing file as a store error,
      JSON that does not parse as a serde error, a picture that does not
      decode as an image error. */
  function LoadFailure(e: LoadError): AppError {
    match e
    case MissingFile => SpriteStoreFailure
    case Malformed => SerdeError
    case Undecodable => ImageError
  }

  /** Message k of the story's ten terminal messages. */
  function Message(k: nat): string {
    if k == 0 then "### Welcome to Luna!\nYou've chosen to farm. Feel free to get started.\nYou will find a shovel, watercan, and seed packet nearby.\nPress 'u' again to mark this message as read and proceed."
    else if k == 1 then "### Keep up the good work.\nIf you water your crops,\nthey'll grow every day."
    else if k == 2 then "New message...\n... > Hey babe! I'll be there soon!\nI can't wait to see your farm. And face. -K"
    else if k == 3 then "New message...\n... > Hey, I left you something.\nTry planting the seeds. -K"
    else if k == 4 then "### Unauthorized crops detected.\nCease illegal personal growth immediately,\nor face farming license revocation."
    else if k == 5 then "New message...\n... > Aw, babe... you're actually growing them.\nRemember when we designed these crops together? -K"
    else if k == 6 then "### Crop authorization granted.\nApologies for our mistake, doctor.\nThe AI responsible has been sacked."
    else if k == 7 then "New message...\n... > Okay, good news.\nDon't ask how, but... I'll be there tomorrow!\nGrow anything nice yet? -K"
    else if k == 8 then "Special message intercepted...\n... > Hey, it's June. I hope you liked the demo.\nLove, peace, and pleasant farming to all who play this.\nWhatever you're struggling with, I believe in you.\nKeep up the good fight and we'll get through this together!"
    else "### Farming sequence completed. Have fun!"
  }

  /** The story's messages, in order. */
  const MESSAGES: seq<string> := seq(10, Message)

  /** The sheets the layout names are all in the store. */
  predicate LayoutReady(store: Store) {
    && HasAsset(store, "tile-dirt") && HasAsset(store, "grass") && HasAsset(store, "transition")
    && HasAsset(store, "cryopod") && HasAsset(store, "terminal") && HasAsset(store, "character-00")
    && HasAsset(store, "tool-shovel") && HasAsset(store, "tool-packet") && HasAsset(store, "tool-watercan")
  }

  /** The indices the layout's name lookups give. */
  function LayoutAssets(store: Store): (ids: LayoutIds)
    requires ValidStore(store) && LayoutReady(store)
    ensures LayoutFits(store, ids)
  {
    LayoutIds(AssetIndex(store, "tile-dirt"), AssetIndex(store, "grass"), AssetIndex(store, "transition"),
              AssetIndex(store, "cryopod"), AssetIndex(store, "terminal"), AssetIndex(store, "character-00"),
              AssetIndex(store, "tool-shovel"), AssetIndex(store, "tool-packet"), AssetIndex(store, "tool-watercan"))
  }

  /** The store index a name lookup gives, or 0 when it fails. */
  function IndexOr0(store: Store, name: string): (i: nat)
    ensures HasAsset(store, name) ==> IndexByName(store, name) == Ok(i)
  {
    match IndexByName(store, name)
    case Ok(i) => i
    case Err(_) => 0
  }

  /** The indices of the sheets the tick looks up by name. */
  function TickAssets(store: Store): AssetIds {
    AssetIds(IndexOr0(store, "particle-dirt"), IndexOr0(store, "particle-water"), IndexOr0(store, "particle-heart"),
             IndexOr0(store, "tool-packet2"), IndexOr0(store, "character-01"),
             IndexOr0(store, "crop-empty"), IndexOr0(store, "crop-leaf"), IndexOr0(store, "crop-flower"),
             IndexOr0(store, "grass"))
  }

  /** The running application: the elapsed time, the command of this frame,
      the world the systems run on, and the screen buffer. */
  class App {
    var time: nat
    var input: InputState
    const world: World
    const screen: Screen

    /** The world is well formed with nothing queued between frames. */
    ghost predicate Valid()
      reads this, world, world.game, world.indexer
    {
      world.Valid() && screen.Valid() && world.pending == []
    }

    constructor (world: World, screen: Screen)
      ensures this.world == world && this.screen == screen
      ensures time == 0 && input == NoInput
    {
      this.world := world;
      this.screen := screen;
      time := 0;
      input := NoInput;
    }

    /** One poll: the command of the polled event, if any, becomes this
        frame's command. */
    method ProcessInput(polled: Option<Event>) returns (r: InputState)
      modifies this`input
      ensures r == EventInput(polled) && input == r
    {
      r := EventInput(polled);
      input := r;
    }

    /** One frame: the time advances to `now`, the tick runs on this frame's
        command, the screen is drawn from the table as the tick left it, the
        queued changes are applied, and the command is reset. The terminal
        size the tick reads is a parameter; the ghost results record the
        random draws of the tick (see TickSpec). */
    method Update(now: nat, width: int, height: int)
      returns (ghost out: TickOut, ghost targets: seq<(int, int)>, ghost cropFlip: bool, ghost flips: seq<bool>, ghost frames: seq<nat>)
      requires Valid()
      requires 16 < width <= 65535 && 8 < height <= 65535
      modifies this`time, this`input, world, world.game, world.indexer, world.rng, screen.cells
      ensures Valid()
      ensures time == now && input == NoInput
      ensures DrawsFit(world.store, world.assets, |old(world.ents)|, width, height, targets, flips, frames)
      ensures out == TickSpec(world.store, world.assets, old(world.ents), old(ViewOf(world.game)), old(input), now,
                              width, height, old(world.indexer.count), targets, cropFlip, flips, frames)
      ensures ViewOf(world.game) == out.view && world.indexer.count == out.count
      ensures world.ents == Applied(out.ents, out.ops)
      ensures ShowsFrame(screen, world.store, out.ents,
                         ShownMessage(out.view.showTerminal, out.view.read, world.game.terminalMessages, out.view.index),
                         out.view.showHelp)
    {
      time := now;
      out, targets, cropFlip, flips, frames := TickAndDraw(width, height);
      world.Flush();
      input := NoInput;
    }

    /** The two systems of a frame: the tick on this frame's command, then
        the render of the table the tick left, before its queued changes
        are applied. */
    method TickAndDraw(width: int, height: int)
      returns (ghost out: TickOut, ghost targets: seq<(int, int)>, ghost cropFlip: bool, ghost flips: seq<bool>, ghost frames: seq<nat>)
      requires Valid()
      requires 16 < width <= 65535 && 8 < height <= 65535
      modifies world, world.game, world.indexer, world.rng, screen.cells
      ensures world.Valid() && screen.Valid()
      ensures DrawsFit(world.store, world.assets, |old(world.ents)|, width, height, targets, flips, frames)
      ensures out == TickSpec(world.store, world.assets, old(world.ents), old(ViewOf(world.game)), input, time,
                              width, height, old(world.indexer.count), targets, cropFlip, flips, frames)
      ensures world.ents == out.ents && world.pending == out.ops && ViewOf(world.game) == out.view
      ensures world.indexer.count == out.count
      ensures ShowsFrame(screen, world.store, out.ents,
                         ShownMessage(out.view.showTerminal, out.view.read, world.game.terminalMessages, out.view.index),
                         out.view.showHelp)
    {
      ghost var ents0, view0, count0 := world.ents, ViewOf(world.game), world.indexer.count;
      var act;
      act, targets, cropFlip, flips, frames := world.Tick(input, time, width, height);
      out := TickSpec(world.store, world.assets, ents0, view0, input, time, width, height, count0, targets, cropFlip, flips, frames);
      assert world.ents == out.ents && ViewOf(world.game) == out.view;
      Run(screen, world.game, world.store, world.ents);
    }
  }

  /** The screen shows the frame of table ents with the given message and
      help line: every cell is the frame's cell. */
  ghost predicate ShowsFrame(scr: Screen, store: Store, ents: seq<Entity>, message: Option<string>, help: bool)
    reads scr, scr.cells
  {
    && scr.Valid() && ValidStore(store) && EntsOk(store, ents)
    && forall sy, sx :: 0 <= sy < scr.height && 0 <= sx < scr.width ==>
         scr.cells[sy, sx] == FrameCell(store, ents, message, help, sx, sy, scr.width, scr.height)
  }

  /** The field and the fixed entities with a fresh id counter and random
      generator. */
  method Populate(store: Store, ids: LayoutIds, width: nat, height: nat, source: nat -> nat)
    returns (ents: seq<Entity>, si: SpriteIndexer, rng: Rng)
    requires LayoutFits(store, ids)
    ensures fresh(si) && fresh(rng) && rng.source == source
    ensures LaidOut(store, ids, width, height, ents, si.count)
    ensures FrameCount(store, ids.grass) >= 8 ==> TableOk(store, ents, [], si.count)
  {
    si := new SpriteIndexer(0);
    rng := new Rng(source);
    ents := Layout(store, ids, width, height, rng, si);
    if FrameCount(store, ids.grass) >= 8 {
      LayoutTable(store, ids, width, height, ents, si.count);
    }
  }

  /** The layout and the tick find the same grass sheet, so a tick-ready
      store has enough grass frames for the field. */
  lemma GrassShared(store: Store)
    requires ValidStore(store) && LayoutReady(store)
    ensures AssetsOk(store, TickAssets(store)) ==> FrameCount(store, LayoutAssets(store).grass) >= 8
  {
  }

  /** The application over a store with the sheets the layout needs. */
  method Start(store: Store, ids: LayoutIds, assets: AssetIds, width: nat, height: nat, source: nat -> nat) returns (app: App)
    requires LayoutFits(store, ids) && 1 <= width <= 65535 && 1 <= height <= 65535
    requires AssetsOk(store, assets) ==> FrameCount(store, ids.grass) >= 8
    ensures fresh(app) && fresh(app.world) && fresh(app.world.game) && fresh(app.world.indexer) && fresh(app.screen)
    ensures app.time == 0 && app.input == NoInput
    ensures app.world.store == store && app.world.assets == assets && app.world.pending == []
    ensures app.screen.width == width && app.screen.height == height
    ensures app.world.game.terminalMessages == MESSAGES && app.world.game.terminalMessageIndex == 0
    ensures app.world.game.holding == NoItem && app.world.game.showHelp
    ensures LaidOut(store, ids, width, height, app.world.ents, app.world.indexer.count)
    ensures AssetsOk(store, assets) ==> app.Valid()
  {
    var ents, si, rng := Populate(store, ids, width, height, source);
    var screen := new Screen(width, height);
    var game := new Game(MESSAGES);
    var world := new World(ents, store, assets, game, si, rng);
    app := new App(world, screen);
  }

  /** Start-up: the loaded store (or the loader's error), the terminal size
      and the random source give the application with its starting field,
      or the first error. The lookups the grid loops repeat give the same
      answer every time, so they are made once, before the loops. */
  method NewApp(width: nat, height: nat, loaded: Result<Store, LoadError>, source: nat -> nat) returns (r: Result<App, AppError>)
    requires 1 <= width <= 65535 && 1 <= height <= 65535
    requires loaded.Ok? ==> ValidStore(loaded.value)
    ensures loaded.Err? ==> r == Err(LoadFailure(loaded.error))
    ensures loaded.Ok? ==> (r.Err? <==> !LayoutReady(loaded.value))
    ensures loaded.Ok? && r.Err? ==> r.error == SpriteStoreFailure
    ensures r.Ok? ==>
      var app := r.value;
      && fresh(app) && fresh(app.world) && fresh(app.world.game) && fresh(app.world.indexer) && fresh(app.screen)
      && app.time == 0 && app.input == NoInput
      && app.world.store == loaded.value && app.world.assets == TickAssets(loaded.value) && app.world.pending == []
      && app.screen.width == width && app.screen.height == height
      && app.world.game.terminalMessages == MESSAGES && app.world.game.terminalMessageIndex == 0
      && app.world.game.holding == NoItem && app.world.game.showHelp
    ensures r.Ok? ==>
      LaidOut(loaded.value, LayoutAssets(loaded.value), width, height, r.value.world.ents, r.value.world.indexer.count)
    ensures r.Ok? && AssetsOk(loaded.value, TickAssets(loaded.value)) ==> r.value.Valid()
  {
    if loaded.Err? {
      return Err(LoadFailure(loaded.error));
    }
    var store := loaded.value;
    if !LayoutReady(store) {
      return Err(SpriteStoreFailure);
    }
    GrassShared(store);
    var app := Start(store, LayoutAssets(store), TickAssets(store), width, height, source);
    r := Ok(app);
  }
}
