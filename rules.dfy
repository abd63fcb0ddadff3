/**
 * The per-entity rules of the simulation tick (UpdateGameState::run in
 * src/app/state.rs), as pure functions on component values, with the
 * properties the game relies on. The World module applies them entity by
 * entity in the game's loops.
 */
module Rules {
  import opened Wrappers
  import opened Sprites
  import opened Components
  import opened Nearest

  // ---------------------------------------------------------------------
  // The assets the tick looks up by name

  /** The store indices of the sheets the tick names. */
  datatype AssetIds = AssetIds(
    particleDirt: nat, particleWater: nat, particleHeart: nat,
    packet2: nat, visitor: nat,
    cropEmpty: nat, cropLeaf: nat, cropFlower: nat, grass: nat)

  /** Sheet i is the first one called `name`, the one the store's name
      lookup finds (see NamesIsLookup). */
  predicate Names(store: Store, name: string, i: nat) {
    i < |store| && store[i].name == name && forall j :: 0 <= j < i ==> store[j].name != name
  }

  /** In an indexed store, Names holds exactly of the result of the name
      lookup. */
  lemma NamesIsLookup(store: Store, name: string, i: nat)
    requires Indexed(store)
    ensures Names(store, name, i) <==> IndexByName(store, name) == Ok(i)
  {
    var r := IndexByName(store, name);
    if r.Ok? {
      var k :| 0 <= k < |store| && store[k].index == r.value && store[k].name == name &&
        forall j :: 0 <= j < k ==> store[j].name != name;
      assert k == r.value;
      if Names(store, name, i) {
        assert !(i < k) && !(k < i);
      }
    }
  }

  /** The store is well formed and `a` holds the indices its name lookup
      gives for those sheets. The sheets the tick assigns fixed frames to are
      long enough: crop and grass sheets have at least 8 frames (watering
      adds 4 to a frame below 4), the visitor's sheet at least 2 (a held NPC
      shows frame 1). */
  predicate AssetsOk(store: Store, a: AssetIds) {
    && AssetsFit(store, a)
    && Names(store, "particle-dirt", a.particleDirt)
    && Names(store, "particle-water", a.particleWater)
    && Names(store, "particle-heart", a.particleHeart)
    && Names(store, "tool-packet2", a.packet2)
    && Names(store, "character-01", a.visitor)
    && Names(store, "crop-empty", a.cropEmpty)
    && Names(store, "crop-leaf", a.cropLeaf)
    && Names(store, "crop-flower", a.cropFlower)
    && Names(store, "grass", a.grass)
  }

  /** The part of AssetsOk the entities the tick creates rely on: the
      sheets exist and are long enough. */
  predicate AssetsFit(store: Store, a: AssetIds) {
    && ValidStore(store)
    && a.particleDirt < |store| && a.particleWater < |store| && a.particleHeart < |store|
    && a.packet2 < |store| && a.visitor < |store|
    && a.cropEmpty < |store| && a.cropLeaf < |store| && a.cropFlower < |store| && a.grass < |store|
    && FrameCount(store, a.cropEmpty) >= 8
    && FrameCount(store, a.cropLeaf) >= 8
    && FrameCount(store, a.cropFlower) >= 8
    && FrameCount(store, a.grass) >= 8
    && FrameCount(store, a.visitor) >= 2
  }

  function Max(a: int, b: int): int {
    if a < b then b else a
  }

  // ---------------------------------------------------------------------
  // Held items and highlighting (state.rs:305-345)

  /** Pods and NPCs are wide and sit 3 further left and up. */
  function WideOffset(t: ItemType): int {
    if t == Pod || t == ItemType.Npc then -3 else 0
  }

  /** Small tools sit lower in the hand. */
  function SmallOffset(holding: ItemType): int {
    if holding == Watercan || holding == Terminal then 1
    else if holding == Packet || holding == Packet2 then 2
    else 0
  }

  /** Using an item lowers it by one row. */
  function ActionOffset(input: InputState): int {
    if input == Action then 1 else 0
  }

  /** The hand is on the side the player faces. */
  function FlipOffset(flip: bool): int {
    if flip then -3 else 5
  }

  /** The held item moves to the player's hand and faces the same way;
      its highlight is cleared. */
  function Pin(e: Entity, player: (int, int), playerFlip: bool, holding: ItemType, input: InputState): (r: Entity)
    requires HasItemSpritePos(e)
    ensures HasItemSpritePos(r) && SameIdentity(e, r)
    ensures r.item == e.item && r.npc == e.npc && r.pos.value.z == e.pos.value.z
    ensures r.sprite.value == e.sprite.value.(highlight := false, flip := playerFlip)
    ensures r.pos.value.x == Max(0, player.0 + FlipOffset(playerFlip) + WideOffset(e.item.value.itemType))
    ensures r.pos.value.y == Max(-2, player.1 + SmallOffset(holding) + ActionOffset(input) + WideOffset(e.item.value.itemType))
  {
    var wide := WideOffset(e.item.value.itemType);
    var y := player.1 + SmallOffset(holding) + ActionOffset(input) + wide;
    var x := player.0 + FlipOffset(playerFlip) + wide;
    e.(sprite := Some(e.sprite.value.(highlight := false, flip := playerFlip)),
       pos := Some(e.pos.value.(x := if x < 0 then 0 else x, y := if y < -2 then -2 else y)))
  }

  /** Where the held item ends up depends on the player alone: pinning an
      item already pinned leaves it where it is. */
  lemma {:induction false} PinIsIdempotent(e: Entity, player: (int, int), playerFlip: bool, holding: ItemType, input: InputState)
    requires HasItemSpritePos(e)
    ensures Pin(Pin(e, player, playerFlip, holding, input), player, playerFlip, holding, input) == Pin(e, player, playerFlip, holding, input)
  {
    var once := Pin(e, player, playerFlip, holding, input);
    var twice := Pin(once, player, playerFlip, holding, input);
    assert twice.pos == once.pos;
    assert twice.sprite == once.sprite;
  }

  /** A sprite is highlighted exactly when nothing is held and it is the
      nearest tool, closer than the pickup distance. */
  function Highlight(e: Entity, holding: ItemType, tool: Found): (r: Entity)
    requires HasItemSpritePos(e)
    ensures HasItemSpritePos(r) && SameIdentity(e, r) && r.pos == e.pos && r.item == e.item && r.npc == e.npc
    ensures r.sprite.value.highlight <==> holding == NoItem && tool.id == e.sprite.value.id && tool.dist < PICKUP_DISTANCE
    ensures r.sprite.value.(highlight := false) == e.sprite.value.(highlight := false)
  {
    var on := holding == NoItem && tool.id == e.sprite.value.id && tool.dist < PICKUP_DISTANCE;
    e.(sprite := Some(e.sprite.value.(highlight := on)))
  }

  /** While something is held, no sprite is highlighted. */
  lemma HoldingClearsHighlight(e: Entity, holding: ItemType, tool: Found)
    requires HasItemSpritePos(e) && holding != NoItem
    ensures !Highlight(e, holding, tool).sprite.value.highlight
  {
  }

  // ---------------------------------------------------------------------
  // The NPC walker (state.rs:367-407)

  /** One unit toward the target on one axis. */
  function StepToward(c: int, target: int): int {
    if c < target then c + 1 else if c > target then c - 1 else c
  }

  function Abs(d: int): nat {
    if d < 0 then -d else d
  }

  /** One step of an NPC at time `time`. A held NPC shows frame 1 and stands
      still. Otherwise, once its wait is over, it moves one unit toward its
      target on each axis where it is not there yet; where it has arrived it
      stops animating, and once it has stood for its stop time it takes
      `next` as its new target. */
  function NpcStep(e: Entity, holding: ItemType, time: nat, next: (int, int)): (r: Entity)
    requires HasNpcPosSprite(e)
    ensures HasNpcPosSprite(r) && SameIdentity(e, r) && r.item == e.item
    ensures r.pos.value.z == e.pos.value.z
    ensures r.sprite.value.storeIndex == e.sprite.value.storeIndex
    ensures r.sprite.value.frame == e.sprite.value.frame || r.sprite.value.frame <= 1
  {
    var s := e.sprite.value;
    var p := e.pos.value;
    var n := e.npc.value;
    if holding == ItemType.Npc then
      e.(sprite := Some(s.(animating := false, frame := 1)))
    else if !(n.lastMove + n.moveWait < time) then
      e
    else
      var tx := n.moveTarget.0;
      var ty := n.moveTarget.1;
      var s1 := if p.x != tx then s.(animating := true, flip := !(p.x < tx)) else s;
      var s2 := if p.y != ty then s1.(animating := true) else s1;
      var x := StepToward(p.x, tx);
      var y := StepToward(p.y, ty);
      var lastMove := if p.x != tx || p.y != ty then time else n.lastMove;
      var arrived := x == tx && y == ty;
      var s3 := if arrived then s2.(animating := false, frame := 0) else s2;
      var target := if arrived && lastMove + n.moveStop < time then next else n.moveTarget;
      e.(sprite := Some(s3),
         pos := Some(p.(x := x, y := y)),
         npc := Some(n.(lastMove := lastMove, moveTarget := target)))
  }

  /** The NPC draws a new target this step: it is not held, its wait is
      over, it already stands on its target and has stood there longer than
      its stop time. */
  predicate NpcRetargets(e: Entity, holding: ItemType, time: nat)
    requires HasNpcPosSprite(e)
  {
    var p := e.pos.value;
    var n := e.npc.value;
    && holding != ItemType.Npc
    && n.lastMove + n.moveWait < time
    && p.x == n.moveTarget.0 && p.y == n.moveTarget.1
    && n.lastMove + n.moveStop < time
  }

  /** The drawn target is used exactly when NpcRetargets holds. */
  lemma NpcTargetUse(e: Entity, holding: ItemType, time: nat, a: (int, int), b: (int, int))
    requires HasNpcPosSprite(e)
    ensures NpcRetargets(e, holding, time) ==> NpcStep(e, holding, time, a).npc.value.moveTarget == a
    ensures !NpcRetargets(e, holding, time) ==> NpcStep(e, holding, time, a) == NpcStep(e, holding, time, b)
  {
  }

  /** A held NPC stands still and shows frame 1. */
  lemma NpcHeld(e: Entity, time: nat, next: (int, int))
    requires HasNpcPosSprite(e)
    ensures var r := NpcStep(e, ItemType.Npc, time, next);
      r.pos == e.pos && r.npc == e.npc && r.sprite.value.frame == 1 && !r.sprite.value.animating
  {
  }

  /** Before its wait is over an unheld NPC does not change. */
  lemma NpcWaits(e: Entity, holding: ItemType, time: nat, next: (int, int))
    requires HasNpcPosSprite(e) && holding != ItemType.Npc
    requires !(e.npc.value.lastMove + e.npc.value.moveWait < time)
    ensures NpcStep(e, holding, time, next) == e
  {
  }

  /** Once the wait is over, an unheld NPC moves exactly one unit toward its
      target on each axis it is not aligned on, never past it; when it stands
      on the target afterwards it shows frame 0 and stops animating. */
  lemma NpcApproaches(e: Entity, holding: ItemType, time: nat, next: (int, int))
    requires HasNpcPosSprite(e) && holding != ItemType.Npc
    requires e.npc.value.lastMove + e.npc.value.moveWait < time
    ensures var r := NpcStep(e, holding, time, next);
      var p := e.pos.value;
      var q := r.pos.value;
      var t := e.npc.value.moveTarget;
      && Abs(q.x - t.0) == (if p.x == t.0 then 0 else Abs(p.x - t.0) - 1)
      && Abs(q.y - t.1) == (if p.y == t.1 then 0 else Abs(p.y - t.1) - 1)
      && (p.x <= q.x <= t.0 || t.0 <= q.x <= p.x)
      && (p.y <= q.y <= t.1 || t.1 <= q.y <= p.y)
      && (q.x == t.0 && q.y == t.1 ==> r.sprite.value.frame == 0 && !r.sprite.value.animating)
      && (p.x != t.0 ==> r.sprite.value.flip == (t.0 < p.x))
  {
  }

  // ---------------------------------------------------------------------
  // The animation clock (state.rs:410-427)

  /** Overlay tiles start animating while a transition is requested and stop
      on their last frame otherwise; other sprites are left alone. */
  function OverlayReset(s: Sprite, endFrame: nat, showTransition: bool): (r: Sprite)
    ensures r.(animating := s.animating) == s
    ensures s.spriteType == Overlay && showTransition ==> r.animating
    ensures s.spriteType == Overlay && !showTransition && s.frame == endFrame ==> !r.animating
    ensures s.spriteType != Overlay || (!showTransition && s.frame != endFrame) ==> r == s
  {
    if s.spriteType != Overlay then s
    else if showTransition then s.(animating := true)
    else if s.frame == endFrame then s.(animating := false)
    else s
  }

  /** An animating sprite whose current frame has been shown longer than that
      frame's duration moves to the next frame, wrapping to 0 after the last,
      and restarts its clock. The frame stays a frame of the sheet. */
  function Animate(s: Sprite, frames: seq<SheetFrame>, time: nat): (r: Sprite)
    requires s.frame < |frames|
    ensures r.frame < |frames|
    ensures r.(frame := s.frame, lastAnimate := s.lastAnimate) == s
    ensures s.animating && s.lastAnimate + frames[s.frame].duration < time ==>
      r.frame == (s.frame + 1) % |frames| && r.lastAnimate == time
    ensures !(s.animating && s.lastAnimate + frames[s.frame].duration < time) ==> r == s
  {
    if s.animating && s.lastAnimate + frames[s.frame].duration < time then
      s.(lastAnimate := time, frame := (s.frame + 1) % |frames|)
    else s
  }

  /** Two frames of 100 and 150 ms, animating from time 0: at 120 ms the
      sprite shows frame 1, and at 320 ms it has wrapped back to frame 0. */
  lemma AnimationScenario()
    ensures var frames := [SheetFrame(Xywh(0, 0, 1, 2), WH(1, 2), 100), SheetFrame(Xywh(0, 0, 1, 2), WH(1, 2), 150)];
      var s0 := DefaultSprite().(animating := true);
      var s1 := Animate(s0, frames, 120);
      var s2 := Animate(s1, frames, 320);
      s1.frame == 1 && s1.lastAnimate == 120 && s2.frame == 0 && s2.lastAnimate == 320
  {
  }

  /** Without a transition request an overlay that has reached its last frame
      stops there: the next tick leaves it on that frame. */
  lemma OverlaySettles(s: Sprite, frames: seq<SheetFrame>, time: nat)
    requires |frames| > 0 && s.spriteType == Overlay && s.frame == |frames| - 1
    ensures Animate(OverlayReset(s, |frames| - 1, false), frames, time).frame == |frames| - 1
    ensures !Animate(OverlayReset(s, |frames| - 1, false), frames, time).animating
  {
  }

  // ---------------------------------------------------------------------
  // The player (state.rs:434-672)

  /** The integer impulse of a movement key: two columns or one row, twice
      that with Shift. */
  function Impulse(input: InputState): (int, int) {
    match input
    case Left => (-2, 0)
    case Right => (2, 0)
    case Up => (0, -1)
    case Down => (0, 1)
    case ShiftLeft => (-4, 0)
    case ShiftRight => (4, 0)
    case ShiftUp => (0, -2)
    case ShiftDown => (0, 2)
    case _ => (0, 0)
  }

  predicate Moves(input: InputState) {
    Impulse(input) != (0, 0)
  }

  /** Each Shift variant moves twice as far as the plain direction. */
  lemma ShiftDoubles()
    ensures Impulse(ShiftLeft) == (2 * Impulse(Left).0, 0)
    ensures Impulse(ShiftRight) == (2 * Impulse(Right).0, 0)
    ensures Impulse(ShiftUp) == (0, 2 * Impulse(Up).1)
    ensures Impulse(ShiftDown) == (0, 2 * Impulse(Down).1)
  {
  }

  function ClampX(x: int, width: int): int {
    if x < 0 then 0 else if x > width - 10 then width - 10 else x
  }

  function ClampY(y: int, height: int): int {
    if y < -2 then -2 else if y > height - 5 then height - 5 else y
  }

  /** A movement key turns the player toward a horizontal impulse and starts
      its walk animation; the position changes only when half the current
      frame's duration has passed since the last move, and is clamped to the
      field. */
  function Steer(s: Sprite, p: Position, input: InputState, frameWait: nat, time: nat, width: int, height: int): (Sprite, Position)
    requires Moves(input)
  {
    var d := Impulse(input);
    var flip := if d.0 < 0 then true else if d.0 > 0 then false else s.flip;
    var s1 := s.(flip := flip, animating := true);
    if s.lastMove + frameWait / 2 < time then
      (s1.(lastMove := time), p.(x := ClampX(p.x + d.0, width), y := ClampY(p.y + d.1, height)))
    else (s1, p)
  }

  /** The player moves only when the movement clock allows; then it ends up
      inside x in [0, width-10], y in [-2, height-5], exactly one impulse
      away when that stays inside, and at the nearest edge otherwise. */
  lemma SteerBounds(s: Sprite, p: Position, input: InputState, frameWait: nat, time: nat, width: int, height: int)
    requires Moves(input) && width >= 10 && height >= 3
    ensures var (s', p') := Steer(s, p, input, frameWait, time, width, height);
      var d := Impulse(input);
      && s'.animating && p'.z == p.z
      && (d.0 < 0 ==> s'.flip) && (d.0 > 0 ==> !s'.flip)
      && (!(s.lastMove + frameWait / 2 < time) ==> p' == p && s'.lastMove == s.lastMove)
      && (s.lastMove + frameWait / 2 < time ==>
            && 0 <= p'.x <= width - 10 && -2 <= p'.y <= height - 5
            && (0 <= p.x + d.0 <= width - 10 ==> p'.x == p.x + d.0)
            && (-2 <= p.y + d.1 <= height - 5 ==> p'.y == p.y + d.1)
            && s'.lastMove == time)
  {
  }

  /** With no key pressed the player stops animating 400 ms after its last
      move and shows frame 0. */
  function Idle(s: Sprite, time: nat): (r: Sprite)
    ensures s.lastMove + 400 < time ==> r == s.(animating := false, frame := 0)
    ensures !(s.lastMove + 400 < time) ==> r == s
  {
    if s.lastMove + 400 < time then s.(animating := false, frame := 0) else s
  }

  /** The pickup key: with empty hands, take the nearest tool when it is
      closer than the pickup distance; with something in hand, drop it. */
  function PickupResult(holding: ItemType, tool: Found): (r: ItemType)
    ensures holding != NoItem ==> r == NoItem
    ensures holding == NoItem && tool.dist < PICKUP_DISTANCE ==> r == tool.itemType
    ensures holding == NoItem && tool.dist >= PICKUP_DISTANCE ==> r == NoItem
  {
    if holding == NoItem && tool.itemType != NoItem && tool.dist < PICKUP_DISTANCE then tool.itemType
    else if holding != NoItem then NoItem
    else holding
  }

  /** Pressing pickup twice in the same place puts the tool back down. */
  lemma PickupTwiceDrops(tool: Found)
    ensures PickupResult(PickupResult(NoItem, tool), tool) == NoItem
  {
  }

  // ---------------------------------------------------------------------
  // The action key (state.rs:472-623)

  /** What the action pass does to single sprites. */
  datatype Command = Delete | Water | Seed | Seed2 | Grow | NoCommand

  /** A command and the id of the sprite it is for (0 for none or for all). */
  datatype SpriteAction = SpriteAction(id: nat, command: Command)

  const NO_ACTION := SpriteAction(0, NoCommand)

  datatype TerminalMove = KeepTerminal | CloseTerminal | OpenTerminal

  /** The particle shown over the work: dirt from the shovel, water from the
      can, a heart over the player. */
  datatype ParticleKind = DirtParticle | WaterParticle | HeartParticle

  /** Everything the action key decides: the command for the action pass,
      what happens to the terminal, the particle it spawns and whether it
      plants a new empty crop. */
  datatype Plan = Plan(action: SpriteAction, terminal: TerminalMove, particle: Option<ParticleKind>, plantsCrop: bool)

  const NO_PLAN := Plan(NO_ACTION, KeepTerminal, None, false)

  /** The action key's decision chain. */
  function ActionPlan(holding: ItemType, tool: Found, crop: Found, showTerminal: bool): Plan {
    var close := crop.dist < CROP_DISTANCE;
    if holding == NoItem && tool.itemType == Pod then
      NO_PLAN.(action := SpriteAction(0, Grow))
    else if holding == NoItem && tool.itemType == Terminal then
      if showTerminal then NO_PLAN.(terminal := CloseTerminal)
      else if tool.dist <= PICKUP_DISTANCE then NO_PLAN.(terminal := OpenTerminal)
      else NO_PLAN
    else if holding == Shovel then
      if close then Plan(SpriteAction(crop.id, Delete), KeepTerminal, Some(DirtParticle), false)
      else Plan(NO_ACTION, KeepTerminal, Some(DirtParticle), true)
    else if holding == Watercan then
      Plan(if close then SpriteAction(crop.id, Water) else NO_ACTION, KeepTerminal, Some(WaterParticle), false)
    else if holding == Packet then
      NO_PLAN.(action := if close then SpriteAction(crop.id, Seed) else NO_ACTION)
    else if holding == Packet2 then
      NO_PLAN.(action := if close then SpriteAction(crop.id, Seed2) else NO_ACTION)
    else if (holding == NoItem || holding == ItemType.Npc) && tool.itemType == ItemType.Npc then
      NO_PLAN.(particle := Some(HeartParticle))
    else
      NO_PLAN
  }

  /** The properties of the decision chain: sleeping needs empty hands next
      to nothing but the pod; every single-sprite command goes to the nearest
      crop, closer than the crop distance, and matches the tool in hand; a
      crop is planted only by the shovel away from any crop; the terminal is
      only touched with empty hands. */
  lemma {:induction false} ActionPlanProperties(holding: ItemType, tool: Found, crop: Found, showTerminal: bool)
    ensures var p := ActionPlan(holding, tool, crop, showTerminal);
      && (p.action.command == Grow <==> holding == NoItem && tool.itemType == Pod)
      && (p.action.command == Grow ==> p.action.id == 0)
      && (p.action.command in {Delete, Water, Seed, Seed2} ==> p.action.id == crop.id && crop.dist < CROP_DISTANCE)
      && (p.action.command == Delete <==> holding == Shovel && crop.dist < CROP_DISTANCE)
      && (p.action.command == Water <==> holding == Watercan && crop.dist < CROP_DISTANCE)
      && (p.action.command == Seed <==> holding == Packet && crop.dist < CROP_DISTANCE)
      && (p.action.command == Seed2 <==> holding == Packet2 && crop.dist < CROP_DISTANCE)
      && (p.plantsCrop <==> holding == Shovel && crop.dist >= CROP_DISTANCE)
      && (p.terminal != KeepTerminal ==> holding == NoItem && tool.itemType == Terminal)
      && (p.terminal == OpenTerminal ==> !showTerminal && tool.dist <= PICKUP_DISTANCE)
  {
    var p := ActionPlan(holding, tool, crop, showTerminal);
    if holding == NoItem {
      assert p.action.command in {Grow, NoCommand};
    }
  }

  // ---------------------------------------------------------------------
  // Entities the tick creates

  /** A particle spawned with id `id` at `at`, drawn above everything else. */
  function ParticleEntity(kind: ParticleKind, id: nat, store: Store, a: AssetIds, at: (int, int)): (r: Entity)
    requires AssetsFit(store, a) && id != 0
    ensures ElemOk(store, r) && IdOf(r) == id && !IsPlayer(r)
    ensures r.sprite.Some? && r.sprite.value.spriteType == Particle && r.item.None? && r.npc.None?
  {
    var sheet := match kind
      case DirtParticle => a.particleDirt
      case WaterParticle => a.particleWater
      case HeartParticle => a.particleHeart;
    Entity(Some(Position(at.0, at.1, DEPTH_OVERLAY + id)),
           Some(DefaultSprite().(id := id, storeIndex := sheet, spriteType := Particle, animating := true)),
           None, None)
  }

  /** A freshly dug, empty crop plot. */
  function EmptyCropEntity(id: nat, store: Store, a: AssetIds, at: (int, int), flip: bool): (r: Entity)
    requires AssetsFit(store, a) && id != 0
    ensures ElemOk(store, r) && IdOf(r) == id && !IsPlayer(r)
    ensures HasItemSpritePos(r) && r.item.value.itemType == ItemType.Crop && r.sprite.value.spriteType == SpriteType.Crop
  {
    Entity(Some(Position(at.0, at.1, DEPTH_CROPS + id)),
           Some(DefaultSprite().(id := id, storeIndex := a.cropEmpty, flip := flip, spriteType := SpriteType.Crop)),
           Some(Interactible(ItemType.Crop, false)), None)
  }

  /** The second seed packet, left in the middle of the field. */
  function Packet2Entity(id: nat, store: Store, a: AssetIds, width: int, height: int): (r: Entity)
    requires AssetsFit(store, a) && id != 0
    ensures ElemOk(store, r) && IdOf(r) == id && !IsPlayer(r)
    ensures HasItemSpritePos(r) && r.item.value == Interactible(Packet2, true) && r.sprite.value.spriteType == Tool
  {
    Entity(Some(Position(width / 2, height / 2, DEPTH_TOOLS + id)),
           Some(DefaultSprite().(id := id, storeIndex := a.packet2, spriteType := Tool)),
           Some(Interactible(Packet2, true)), None)
  }

  /** The visitor: a walking NPC entering at the top middle and heading for
      the centre. */
  function VisitorEntity(id: nat, store: Store, a: AssetIds, width: int, height: int, time: nat): (r: Entity)
    requires AssetsFit(store, a) && id != 0
    ensures ElemOk(store, r) && IdOf(r) == id && !IsPlayer(r)
    ensures HasNpcPosSprite(r) && HasItemSpritePos(r) && r.item.value.itemType == ItemType.Npc
    ensures r.npc.value == NpcState((width / 2, height / 2), time, 200, 2000)
  {
    Entity(Some(Position(width / 2, 0, DEPTH_PLAYER + id)),
           Some(DefaultSprite().(id := id, storeIndex := a.visitor, spriteType := Tool)),
           Some(Interactible(ItemType.Npc, false)),
           Some(NpcState((width / 2, height / 2), time, 200, 2000)))
  }

  /** The animated grass that replaces a crop at the end of its life. Its
      starting frame is a frame of the grass sheet. */
  function GrassEntity(id: nat, store: Store, a: AssetIds, at: (int, int), flip: bool, frame: nat): (r: Entity)
    requires AssetsFit(store, a) && id != 0
    requires frame < FrameCount(store, a.grass)
    ensures ElemOk(store, r) && IdOf(r) == id && !IsPlayer(r)
    ensures HasItemSpritePos(r) && r.item.value.itemType == Grass && r.sprite.value.spriteType == SpriteType.Crop
  {
    Entity(Some(Position(at.0, at.1, DEPTH_CROPS + id)),
           Some(DefaultSprite().(id := id, storeIndex := a.grass, flip := flip, frame := frame,
                                 animating := true, spriteType := SpriteType.Crop)),
           Some(Interactible(Grass, false)), None)
  }

  /** The number of frames the replacement grass's starting frame is drawn
      below. The game takes the count of the sheet of the crop being
      replaced; the intended count is the grass sheet's. */
  function GrassFrameBoundAsWritten(store: Store, cropSheet: nat): nat
    requires cropSheet < |store|
  {
    FrameCount(store, cropSheet)
  }

  /** The corrected bound: the grass sheet's own frame count, so every drawn
      frame is a frame of the grass sheet. */
  function GrassFrameBound(store: Store, a: AssetIds): (n: nat)
    requires AssetsFit(store, a)
    ensures n >= 8 && n == |store[a.grass].data.frames|
  {
    FrameCount(store, a.grass)
  }

  /** With a flower sheet of 12 frames and a grass sheet of 8, the bound as
      written lets the new grass start on frame 11, which the grass sheet
      does not have; the next tick's frame-duration lookup would then index
      past the end of the grass frames. */
  lemma GrassFrameOutOfRange()
    ensures var flower := SheetOfFrames("crop-flower", 0, 12);
      var grass := SheetOfFrames("grass", 1, 8);
      var store := [flower, grass];
      Indexed(store) && GrassFrameBoundAsWritten(store, 0) == 12 &&
      11 < GrassFrameBoundAsWritten(store, 0) && !(11 < FrameCount(store, 1))
  {
  }

  /** A sheet of n one-by-two-pixel frames (used to state concrete cases). */
  function SheetOfFrames(name: string, index: nat, n: nat): (s: LoadedSprite)
    ensures |s.data.frames| == n && s.name == name && s.index == index
  {
    LoadedSprite(name, index, SpriteSheet(seq(n, _ => SheetFrame(Xywh(0, 0, 1, 2), WH(1, 2), 100)), name + ".png"),
                 [[Rgba(0, 0, 0, 0)], [Rgba(0, 0, 0, 0)]])
  }

  // ---------------------------------------------------------------------
  // The narrative (state.rs:681-836)

  /** A crop that satisfies the story check of `stage` (stages 1, 3, 4 and
      6 wait for a crop in some state). */
  predicate CropMatches(e: Entity, stage: nat, flower: nat, read: bool) {
    && HasItemSprite(e)
    && e.item.value.itemType == ItemType.Crop
    && var s := e.sprite.value;
       match stage
       case 1 => s.frame > 0
       case 3 => s.storeIndex == flower && read
       case 4 => s.storeIndex == flower && read && (s.frame == 2 || s.frame == 5)
       case 6 => s.storeIndex == flower && read && (s.frame == 3 || s.frame == 6)
       case _ => false
  }

  /** The story moves on from message `stage` on a night's sleep when: the
      message has been read (stages 0, 2, 5, 7, 8); some crop has been
      watered (1); the message has been read and a flower crop has been
      sown (3), has grown two steps (4) or has bloomed (6). */
  predicate StageMet(stage: nat, read: bool, ents: seq<Entity>, flower: nat) {
    if stage in {0, 2, 5, 7, 8} then read
    else if stage in {1, 3, 4, 6} then exists i :: 0 <= i < |ents| && CropMatches(ents[i], stage, flower, read)
    else false
  }

  /** After the last message the story never moves. */
  lemma StoryEnds(stage: nat, read: bool, ents: seq<Entity>, flower: nat)
    requires stage > 8
    ensures !StageMet(stage, read, ents, flower)
  {
  }

  /** Stages 3, 4 and 6 need the current message read, like the others but
      stage 1. */
  lemma StoryNeedsReading(stage: nat, ents: seq<Entity>, flower: nat)
    requires stage != 1
    ensures !StageMet(stage, false, ents, flower)
  {
    if stage in {3, 4, 6} {
      forall i | 0 <= i < |ents| ensures !CropMatches(ents[i], stage, flower, false) {
      }
    }
  }

  // ---------------------------------------------------------------------
  // Particle cleanup (state.rs:839-848)

  /** A particle showing the last frame of its sheet. */
  predicate Finished(store: Store, e: Entity) {
    && e.sprite.Some? && e.sprite.value.spriteType == Particle && e.sprite.value.storeIndex < |store|
    && e.sprite.value.frame == FrameCount(store, e.sprite.value.storeIndex) - 1
  }

  /** The removals the cleanup queues for ents, in entity order: the sprite
      and the position of each finished particle. */
  function CleanupOps(store: Store, ents: seq<Entity>): seq<LazyOp>
    decreases |ents|
  {
    if |ents| == 0 then []
    else
      var n := |ents| - 1;
      CleanupOps(store, ents[..n]) +
      (if Finished(store, ents[n]) then [Remove(n, SpriteC), Remove(n, PositionC)] else [])
  }

  /** The cleanup removes the sprite and the position of exactly the finished
      particles and nothing else. */
  lemma {:induction false} CleanupTargets(store: Store, ents: seq<Entity>)
    ensures forall op :: op in CleanupOps(store, ents) ==>
      op.Remove? && op.target < |ents| && Finished(store, ents[op.target]) && op.kind in {SpriteC, PositionC}
    ensures forall i :: 0 <= i < |ents| && Finished(store, ents[i]) ==>
      Remove(i, SpriteC) in CleanupOps(store, ents) && Remove(i, PositionC) in CleanupOps(store, ents)
    decreases |ents|
  {
    if |ents| > 0 {
      var n := |ents| - 1;
      CleanupTargets(store, ents[..n]);
      assert forall i :: 0 <= i < n ==> ents[..n][i] == ents[i];
    }
  }

  // ---------------------------------------------------------------------
  // The action pass (state.rs:850-949)

  /** A crop at the end of its life on a night's sleep: it is replaced by
      grass. */
  predicate Withers(e: Entity, act: SpriteAction)
    requires HasItemSpritePos(e)
  {
    && e.item.value.itemType != Terminal
    && act.command == Grow && e.item.value.itemType == ItemType.Crop && e.sprite.value.frame == 7
  }

  /** The sprite dug up by the shovel. */
  predicate Deleted(e: Entity, act: SpriteAction)
    requires HasItemSpritePos(e)
  {
    && e.item.value.itemType != Terminal
    && !(act.command == Grow && e.item.value.itemType == ItemType.Crop && e.sprite.value.frame < 4)
    && act.id == e.sprite.value.id && act.command == Delete
  }

  /** The in-place part of the action pass for one entity: the terminal shows
      whether its message is unread; on a night's sleep crops in frames 4..6
      (watered) grow to frames 1..3; the sprite the command is for is watered
      (frame + 4 below 4) or sown (an empty plot becomes a leaf or flower
      crop on frame 0). */
  function ActOn(e: Entity, act: SpriteAction, read: bool, a: AssetIds): (r: Entity)
    requires HasItemSpritePos(e)
    ensures HasItemSpritePos(r) && SameIdentity(e, r) && r.pos == e.pos && r.item == e.item && r.npc == e.npc
  {
    var s := e.sprite.value;
    var t := e.item.value.itemType;
    if t == Terminal then
      e.(sprite := Some(if read then s.(frame := 0, animating := false) else s.(animating := true)))
    else if act.command == Grow && t == ItemType.Crop && s.frame < 4 then
      e
    else
      var grown := if act.command == Grow && t == ItemType.Crop && 4 <= s.frame < 7 then s.(frame := s.frame - 4 + 1) else s;
      var after :=
        if act.id != grown.id then grown
        else if act.command == Water && grown.frame < 4 then grown.(frame := grown.frame + 4)
        else if act.command == Seed then
          (if grown.storeIndex == a.cropEmpty then grown.(frame := 0, storeIndex := a.cropLeaf) else grown)
        else if act.command == Seed2 then
          (if grown.storeIndex == a.cropEmpty then grown.(frame := 0, storeIndex := a.cropFlower) else grown)
        else grown;
      e.(sprite := Some(after))
  }

  /** How a crop's frame changes on a night's sleep: frames below 4 stay,
      watered frames 4..6 become 1..3 (one step of growth), later frames stay
      in place (frame 7 is replaced as a whole). */
  lemma GrowBands(e: Entity, read: bool, a: AssetIds)
    requires HasItemSpritePos(e) && e.item.value.itemType == ItemType.Crop
    ensures var f := e.sprite.value.frame;
      var f' := ActOn(e, SpriteAction(0, Grow), read, a).sprite.value.frame;
      (f < 4 ==> f' == f) && (4 <= f < 7 ==> f' == f - 3) && (f >= 7 ==> f' == f)
  {
  }

  /** Watering adds 4 to the frame of the target exactly when it is below 4;
      it never touches another sprite. */
  lemma WaterRule(e: Entity, id: nat, read: bool, a: AssetIds)
    requires HasItemSpritePos(e) && e.item.value.itemType != Terminal
    ensures var f := e.sprite.value.frame;
      var r := ActOn(e, SpriteAction(id, Water), read, a);
      && (id == e.sprite.value.id && f < 4 ==> r.sprite.value == e.sprite.value.(frame := f + 4))
      && (id != e.sprite.value.id || f >= 4 ==> r == e)
  {
  }

  /** The action pass keeps an entity valid, provided a water command, when
      it is for this sprite, is for a crop-kind sprite. */
  lemma ActOnKeepsValid(e: Entity, act: SpriteAction, read: bool, store: Store, a: AssetIds)
    requires HasItemSpritePos(e) && AssetsFit(store, a) && ElemOk(store, e)
    requires act.command == Water && act.id == e.sprite.value.id ==> e.sprite.value.spriteType == SpriteType.Crop
    ensures ElemOk(store, ActOn(e, act, read, a))
  {
    var s := e.sprite.value;
    var r := ActOn(e, act, read, a).sprite.value;
    if s.spriteType == SpriteType.Crop {
      assert FrameCount(store, s.storeIndex) >= 8;
    }
    assert r.storeIndex == s.storeIndex || r.storeIndex == a.cropLeaf || r.storeIndex == a.cropFlower;
  }
}
