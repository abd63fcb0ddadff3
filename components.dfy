/**
 * The game's component records, its global state and the id counter
 * (the data part of src/app/state.rs).
 *
 * An entity is a record of optional components; the world keeps entities
 * in a sequence in creation order, which is the order the entity-component
 * joins of the game visit them in.
 */
module Components {
  import opened Wrappers
  import opened Sprites

  datatype SpriteType = Background | Overlay | Player | Tool | Crop | Particle

  datatype ItemType = NoItem | Grass | Pod | Terminal | Shovel | Watercan | Packet | Packet2 | Crop | Npc

  /** The logical commands one tick can receive (one per poll). */
  datatype InputState =
    | Up | Down | Left | Right
    | ShiftUp | ShiftDown | ShiftLeft | ShiftRight
    | Pickup | Action | ToggleHelp | Quit | Clear | NoInput

  /** x is a terminal column, y a terminal row (two sprite pixel rows), z
      only orders drawing. */
  datatype Position = Position(x: int, y: int, z: int)

  datatype Sprite = Sprite(
    id: nat,
    storeIndex: nat,
    flip: bool,
    frame: nat,
    animating: bool,
    lastAnimate: nat,
    lastMove: nat,
    spriteType: SpriteType,
    highlight: bool,
    hidden: bool,
    delete: bool)

  /** A sprite with every field at its default. */
  function DefaultSprite(): Sprite {
    Sprite(0, 0, false, 0, false, 0, 0, Background, false, false, false)
  }

  datatype Interactible = Interactible(itemType: ItemType, holdToUse: bool)

  datatype Npc = NpcState(moveTarget: (int, int), lastMove: nat, moveWait: nat, moveStop: nat)

  datatype Entity = Entity(
    pos: Option<Position>,
    sprite: Option<Sprite>,
    item: Option<Interactible>,
    npc: Option<Npc>)

  /** Component kinds a deferred removal names. */
  datatype ComponentKind = SpriteC | PositionC | InteractibleC | NpcC

  /** A deferred structural change: a freshly created entity with its
      components, or the removal of one component from an entity. */
  datatype LazyOp = Spawn(entity: Entity) | Remove(target: nat, kind: ComponentKind)

  // Depth bands (z) of the sprite kinds.
  const DEPTH_GROUND := 0
  const DEPTH_CROPS := 100_000
  const DEPTH_GRASS := 200_000
  const DEPTH_PLAYER := 300_000
  const DEPTH_TOOLS := 400_000
  const DEPTH_OVERLAY := 500_000

  const PICKUP_DISTANCE := 4
  const CROP_DISTANCE := 2

  // ---------------------------------------------------------------------
  // Joins: which entities a loop over some components visits

  /** Has Interactible, Sprite and Position. */
  predicate HasItemSpritePos(e: Entity) {
    e.item.Some? && e.sprite.Some? && e.pos.Some?
  }

  /** Has Sprite and Position. */
  predicate HasSpritePos(e: Entity) {
    e.sprite.Some? && e.pos.Some?
  }

  /** Has Npc, Position and Sprite. */
  predicate HasNpcPosSprite(e: Entity) {
    e.npc.Some? && e.pos.Some? && e.sprite.Some?
  }

  /** Has Interactible and Sprite. */
  predicate HasItemSprite(e: Entity) {
    e.item.Some? && e.sprite.Some?
  }

  predicate IsPlayer(e: Entity) {
    HasSpritePos(e) && e.sprite.value.spriteType == Player
  }

  // ---------------------------------------------------------------------
  // Global game state

  class Game {
    var holding: ItemType
    var showHelp: bool
    var showTransition: bool
    var terminalMessages: seq<string>
    var showTerminal: bool
    var terminalMessageIndex: nat
    var terminalRead: bool
    var clearScreen: bool

    /** The state a new game starts in: nothing held, help and the
        transition shown, the first message unread. */
    constructor (messages: seq<string>)
      ensures holding == NoItem && showHelp && showTransition && !showTerminal
      ensures terminalMessages == messages && terminalMessageIndex == 0
      ensures !terminalRead && !clearScreen
    {
      holding := NoItem;
      showHelp := true;
      showTransition := true;
      terminalMessages := messages;
      showTerminal := false;
      terminalMessageIndex := 0;
      terminalRead := false;
      clearScreen := false;
    }

    /** Moves the story to the next message, which is not read yet. */
    method AdvanceTerminal()
      modifies this`terminalMessageIndex, this`terminalRead
      ensures terminalMessageIndex == old(terminalMessageIndex) + 1
      ensures !terminalRead
    {
      terminalMessageIndex := terminalMessageIndex + 1;
      terminalRead := false;
    }
  }

  // ---------------------------------------------------------------------
  // The sprite id counter

  /** Hands out sprite ids; 0 is never handed out and stands for "no id". */
  class SpriteIndexer {
    var count: nat

    constructor (start: nat)
      ensures count == start
    {
      count := start;
    }

    /** Each call returns one more than the previous one, so ids are fresh,
        increasing and never 0. */
    method NewIndex() returns (id: nat)
      modifies this
      ensures count == old(count) + 1
      ensures id == count && id > old(count) && id != 0
    {
      count := count + 1;
      id := count;
    }
  }

  // ---------------------------------------------------------------------
  // The injected random source

  /** A seeded random source: the k-th draw is source(k). */
  class Rng {
    const source: nat -> nat
    var drawn: nat

    constructor (source: nat -> nat)
      ensures this.source == source && drawn == 0
    {
      this.source := source;
      drawn := 0;
    }

    /** A value in [lo, hi) taken from the next draw. */
    method GenRange(lo: int, hi: int) returns (r: int)
      requires lo < hi
      modifies this
      ensures r == Pick(source, old(drawn), lo, hi)
      ensures lo <= r < hi
      ensures drawn == old(drawn) + 1
    {
      r := lo + Reduce(source(drawn), hi - lo);
      drawn := drawn + 1;
    }
  }

  /** The value in [lo, hi) that draw number k of source stands for. */
  function Pick(source: nat -> nat, k: nat, lo: int, hi: int): (r: int)
    requires lo < hi
    ensures lo <= r < hi
  {
    lo + Reduce(source(k), hi - lo)
  }

  /** v reduced below n by repeated subtraction. */
  function Reduce(v: nat, n: nat): (r: nat)
    requires n > 0
    ensures r < n
    decreases v
  {
    if v < n then v else Reduce(v - n, n)
  }

  // ---------------------------------------------------------------------
  // Invariants of the entity table that the tick and the renderer rely on

  /** The sheet of a sprite exists and its frame index is a frame of it. */
  predicate SpriteOk(store: Store, s: Sprite) {
    s.storeIndex < |store| && s.frame < FrameCount(store, s.storeIndex)
  }

  /** Per entity: sheet and frame valid; crops are on sheets of at least 8
      frames (watering adds 4 to a frame below 4); NPCs on sheets of at least
      2 frames (a held NPC shows frame 1); interactive sprites carry an id. */
  predicate ElemOk(store: Store, e: Entity) {
    e.sprite.Some? ==>
      && SpriteOk(store, e.sprite.value)
      && (e.sprite.value.spriteType == SpriteType.Crop ==> FrameCount(store, e.sprite.value.storeIndex) >= 8)
      && (e.npc.Some? ==> FrameCount(store, e.sprite.value.storeIndex) >= 2)
      && (e.item.Some? ==> e.sprite.value.id != 0)
  }

  predicate EntsOk(store: Store, ents: seq<Entity>) {
    forall i :: 0 <= i < |ents| ==> ElemOk(store, ents[i])
  }

  /** The store is well formed and every entity's sprite is valid in it. */
  predicate WorldOk(store: Store, ents: seq<Entity>) {
    ValidStore(store) && EntsOk(store, ents)
  }

  function IdOf(e: Entity): nat {
    if e.sprite.Some? then e.sprite.value.id else 0
  }

  /** Non-zero sprite ids are unique. */
  predicate UniqueIds(ents: seq<Entity>) {
    forall i, j :: 0 <= i < j < |ents| && IdOf(ents[i]) != 0 ==> IdOf(ents[i]) != IdOf(ents[j])
  }

  /** No id above the counter has been handed out. */
  predicate IdsAtMost(ents: seq<Entity>, count: nat) {
    forall i :: 0 <= i < |ents| ==> IdOf(ents[i]) <= count
  }

  /** At most one entity is the player. */
  predicate OnePlayer(ents: seq<Entity>) {
    forall i, j :: 0 <= i < |ents| && 0 <= j < |ents| && IsPlayer(ents[i]) && IsPlayer(ents[j]) ==> i == j
  }

  /** Two records of the same entity before and after a pass that mutates
      components in place: the same components, the same id, sprite kind and
      interactible. */
  predicate SameIdentity(a: Entity, b: Entity) {
    && a.pos.Some? == b.pos.Some?
    && a.sprite.Some? == b.sprite.Some?
    && a.npc.Some? == b.npc.Some?
    && a.item == b.item
    && (a.sprite.Some? ==> a.sprite.value.id == b.sprite.value.id && a.sprite.value.spriteType == b.sprite.value.spriteType)
  }

  predicate SameIdentities(a: seq<Entity>, b: seq<Entity>) {
    |a| == |b| && forall i :: 0 <= i < |a| ==> SameIdentity(a[i], b[i])
  }

  /** Passes that keep identities keep the id and player invariants. */
  lemma IdentitiesKeepInvariants(a: seq<Entity>, b: seq<Entity>, count: nat)
    requires SameIdentities(a, b)
    requires UniqueIds(a) && IdsAtMost(a, count) && OnePlayer(a)
    ensures UniqueIds(b) && IdsAtMost(b, count) && OnePlayer(b)
  {
    assert forall i :: 0 <= i < |a| ==> IdOf(a[i]) == IdOf(b[i]) && (IsPlayer(a[i]) <==> IsPlayer(b[i]));
  }
}
