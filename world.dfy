/**
 * The entity table and one simulation tick (UpdateGameState::run in
 * src/app/state.rs), with the deferred structural changes the tick queues
 * and the flush that applies them afterwards.
 *
 * The table is a sequence of entities in creation order; an entity's
 * handle is its position. Entities are never destroyed, only stripped of
 * components, so handles stay valid; queued creations are appended at the
 * flush.
 */
module World {
  import opened Wrappers
  import opened Sprites
  import opened Components
  import opened Nearest
  import opened Rules

  // ---------------------------------------------------------------------
  // Deferred changes and their flush

  /** The entities the queued creations will append, in queue order. */
  function Spawned(ops: seq<LazyOp>): seq<Entity>
    decreases |ops|
  {
    if |ops| == 0 then []
    else (if ops[0].Spawn? then [ops[0].entity] else []) + Spawned(ops[1..])
  }

  lemma {:induction false} SpawnedAppend(ops: seq<LazyOp>, more: seq<LazyOp>)
    ensures Spawned(ops + more) == Spawned(ops) + Spawned(more)
    decreases |ops|
  {
    if |ops| == 0 {
      assert ops + more == more;
    } else {
      assert (ops + more)[0] == ops[0];
      assert (ops + more)[1..] == ops[1..] + more;
      SpawnedAppend(ops[1..], more);
    }
  }

  /** A queued creation for each entity, in order. */
  function SpawnAll(es: seq<Entity>): (ops: seq<LazyOp>)
    ensures |ops| == |es| && forall k :: 0 <= k < |es| ==> ops[k] == Spawn(es[k])
  {
    seq(|es|, k requires 0 <= k < |es| => Spawn(es[k]))
  }

  lemma {:induction false} SpawnedOfSpawnAll(es: seq<Entity>)
    ensures Spawned(SpawnAll(es)) == es
    decreases |es|
  {
    if |es| > 0 {
      assert SpawnAll(es)[1..] == SpawnAll(es[1..]);
      SpawnedOfSpawnAll(es[1..]);
    }
  }

  /** An entity without the component of kind k. */
  function Strip(e: Entity, k: ComponentKind): Entity {
    match k
    case SpriteC => e.(sprite := None)
    case PositionC => e.(pos := None)
    case InteractibleC => e.(item := None)
    case NpcC => e.(npc := None)
  }

  /** An entity without the components whose kinds are in ks. */
  function StripAll(e: Entity, ks: set<ComponentKind>): Entity {
    Entity(if PositionC in ks then None else e.pos,
           if SpriteC in ks then None else e.sprite,
           if InteractibleC in ks then None else e.item,
           if NpcC in ks then None else e.npc)
  }

  /** One deferred change applied to the table. A removal on an entity that
      lacks the component changes nothing. */
  function ApplyOp(ents: seq<Entity>, op: LazyOp): seq<Entity> {
    match op
    case Spawn(e) => ents + [e]
    case Remove(i, k) => if i < |ents| then ents[i := Strip(ents[i], k)] else ents
  }

  /** The table after applying the queued changes in order. */
  function Applied(ents: seq<Entity>, ops: seq<LazyOp>): seq<Entity>
    decreases |ops|
  {
    if |ops| == 0 then ents else Applied(ApplyOp(ents, ops[0]), ops[1..])
  }

  /** The kinds of component queued for removal from entity i. */
  function RemovedKinds(ops: seq<LazyOp>, i: nat): set<ComponentKind> {
    set k: ComponentKind | Remove(i, k) in ops
  }

  lemma StripThenStripAll(e: Entity, k: ComponentKind, ks: set<ComponentKind>)
    ensures StripAll(Strip(e, k), ks) == StripAll(e, ks + {k})
  {
  }

  /** The kinds queued for entity i by a queue are those of its first
      change and those of the rest. */
  lemma RemovedKindsStep(ops: seq<LazyOp>, i: nat)
    requires |ops| > 0
    ensures RemovedKinds(ops, i) ==
      RemovedKinds(ops[1..], i) + (if ops[0].Remove? && ops[0].target == i then {ops[0].kind} else {})
  {
    assert ops == [ops[0]] + ops[1..];
  }

  /** The flush grows the table by the queued creations. */
  lemma {:induction false} FlushLength(ents: seq<Entity>, ops: seq<LazyOp>)
    ensures |Applied(ents, ops)| == |ents| + |Spawned(ops)|
    decreases |ops|
  {
    if |ops| > 0 {
      var first := if ops[0].Spawn? then [ops[0].entity] else [];
      FlushLength(ApplyOp(ents, ops[0]), ops[1..]);
      assert Spawned(ops) == first + Spawned(ops[1..]);
    }
  }

  /** The queue's removals that are for existing entities stay so after one
      change is applied. */
  lemma TargetsAfterOne(ents: seq<Entity>, ops: seq<LazyOp>)
    requires |ops| > 0
    requires forall k :: 0 <= k < |ops| && ops[k].Remove? ==> ops[k].target < |ents|
    ensures forall k :: 0 <= k < |ops[1..]| && ops[1..][k].Remove? ==> ops[1..][k].target < |ApplyOp(ents, ops[0])|
  {
    assert forall k :: 0 <= k < |ops[1..]| ==> ops[1..][k] == ops[k + 1];
  }

  /** Entity i of the table loses exactly the components queued for
      removal from it. */
  lemma {:induction false} FlushAt(ents: seq<Entity>, ops: seq<LazyOp>, i: nat)
    requires i < |ents|
    requires forall k :: 0 <= k < |ops| && ops[k].Remove? ==> ops[k].target < |ents|
    ensures i < |Applied(ents, ops)| && Applied(ents, ops)[i] == StripAll(ents[i], RemovedKinds(ops, i))
    decreases |ops|
  {
    if |ops| == 0 {
      assert RemovedKinds(ops, i) == {};
    } else {
      var next := ApplyOp(ents, ops[0]);
      TargetsAfterOne(ents, ops);
      FlushAt(next, ops[1..], i);
      RemovedKindsStep(ops, i);
      if ops[0].Remove? && ops[0].target == i {
        StripThenStripAll(ents[i], ops[0].kind, RemovedKinds(ops[1..], i));
      }
    }
  }

  /** The queued creations end up after the existing entities, in queue
      order. */
  lemma {:induction false} FlushSuffix(ents: seq<Entity>, ops: seq<LazyOp>)
    requires forall k :: 0 <= k < |ops| && ops[k].Remove? ==> ops[k].target < |ents|
    ensures |ents| <= |Applied(ents, ops)| && Applied(ents, ops)[|ents|..] == Spawned(ops)
    decreases |ops|
  {
    FlushLength(ents, ops);
    if |ops| > 0 {
      var next := ApplyOp(ents, ops[0]);
      var first := if ops[0].Spawn? then [ops[0].entity] else [];
      TargetsAfterOne(ents, ops);
      FlushSuffix(next, ops[1..]);
      assert Spawned(ops) == first + Spawned(ops[1..]);
      var out := Applied(next, ops[1..]);
      assert Applied(ents, ops) == out;
      assert next[|ents|..] == first;
      assert out[|ents|..] == out[|ents|..|next|] + out[|next|..];
      if ops[0].Spawn? {
        var rest := ops[1..];
        FlushAt(next, rest, |ents|);
        assert forall k :: 0 <= k < |rest| ==> rest[k] == ops[k + 1];
        assert RemovedKinds(rest, |ents|) == {};
        assert out[|ents|..|next|] == [out[|ents|]];
      }
    }
  }

  /** What the flush does: every existing entity loses exactly the
      components queued for removal from it, and the queued creations are
      appended in queue order. */
  lemma FlushShape(ents: seq<Entity>, ops: seq<LazyOp>)
    requires forall k :: 0 <= k < |ops| && ops[k].Remove? ==> ops[k].target < |ents|
    ensures |Applied(ents, ops)| == |ents| + |Spawned(ops)|
    ensures forall i :: 0 <= i < |ents| ==> Applied(ents, ops)[i] == StripAll(ents[i], RemovedKinds(ops, i))
    ensures Applied(ents, ops)[|ents|..] == Spawned(ops)
  {
    FlushLength(ents, ops);
    FlushSuffix(ents, ops);
    forall i | 0 <= i < |ents| ensures Applied(ents, ops)[i] == StripAll(ents[i], RemovedKinds(ops, i)) {
      FlushAt(ents, ops, i);
    }
  }

  // ---------------------------------------------------------------------
  // The table invariant

  /** The entity table with its queued creations is well formed: sprites
      are valid in the store, ids are unique and not above the counter, at
      most one entity is the player, and every queued removal is for an
      existing entity. */
  predicate TableOk(store: Store, ents: seq<Entity>, pending: seq<LazyOp>, count: nat) {
    var all := ents + Spawned(pending);
    && WorldOk(store, ents)
    && WorldOk(store, Spawned(pending))
    && UniqueIds(all)
    && IdsAtMost(all, count)
    && OnePlayer(all)
    && forall k :: 0 <= k < |pending| && pending[k].Remove? ==> pending[k].target < |ents|
  }

  /** Fresh entities for a counter at `count`: valid, not the player, with
      the ids count+1, count+2, ... in order. */
  predicate FreshRun(store: Store, es: seq<Entity>, count: nat) {
    forall k :: 0 <= k < |es| ==> ElemOk(store, es[k]) && IdOf(es[k]) == count + 1 + k && !IsPlayer(es[k])
  }

  /** Passes that change entities in place without changing their
      identities keep the table well formed. */
  lemma IdentitiesKeepTable(store: Store, ents: seq<Entity>, ents': seq<Entity>, pending: seq<LazyOp>, count: nat)
    requires TableOk(store, ents, pending, count)
    requires SameIdentities(ents, ents') && EntsOk(store, ents')
    ensures TableOk(store, ents', pending, count)
  {
    var all := ents + Spawned(pending);
    var all' := ents' + Spawned(pending);
    assert |all'| == |all|;
    assert forall j :: 0 <= j < |all| ==> IdOf(all'[j]) == IdOf(all[j]) && (IsPlayer(all'[j]) <==> IsPlayer(all[j])) by {
      forall j | 0 <= j < |all| ensures IdOf(all'[j]) == IdOf(all[j]) && (IsPlayer(all'[j]) <==> IsPlayer(all[j])) {
        if j < |ents| {
          assert SameIdentity(ents[j], ents'[j]);
        } else {
          assert all'[j] == all[j];
        }
      }
    }
  }
  /** Appending entities with fresh consecutive ids keeps ids unique and
      bounded by the advanced counter. */
  lemma AppendFreshIds(all: seq<Entity>, es: seq<Entity>, count: nat)
    requires UniqueIds(all) && IdsAtMost(all, count)
    requires forall k :: 0 <= k < |es| ==> IdOf(es[k]) == count + 1 + k
    ensures UniqueIds(all + es) && IdsAtMost(all + es, count + |es|)
  {
    var all' := all + es;
    forall j | 0 <= j < |all'| ensures IdOf(all'[j]) <= count + |es| && (j >= |all| ==> IdOf(all'[j]) == count + 1 + (j - |all|)) {
      if j < |all| {
        assert all'[j] == all[j];
      } else {
        assert all'[j] == es[j - |all|];
      }
    }
    forall j, k | 0 <= j < k < |all'| && IdOf(all'[j]) != 0 ensures IdOf(all'[j]) != IdOf(all'[k]) {
      if k < |all| {
        assert all'[j] == all[j] && all'[k] == all[k];
      } else if j < |all| {
        assert all'[j] == all[j];
      }
    }
  }

  /** Appending entities none of which is the player keeps at most one
      player. */
  lemma AppendNoPlayer(all: seq<Entity>, es: seq<Entity>)
    requires OnePlayer(all)
    requires forall k :: 0 <= k < |es| ==> !IsPlayer(es[k])
    ensures OnePlayer(all + es)
  {
    var all' := all + es;
    forall j | |all| <= j < |all'| ensures !IsPlayer(all'[j]) {
      assert all'[j] == es[j - |all|];
    }
    assert forall j :: 0 <= j < |all| ==> all'[j] == all[j];
  }

  lemma AppendValid(store: Store, a: seq<Entity>, b: seq<Entity>)
    requires WorldOk(store, a) && WorldOk(store, b)
    ensures WorldOk(store, a + b)
  {
    forall j | 0 <= j < |a + b| ensures ElemOk(store, (a + b)[j]) {
      if j < |a| {
        assert (a + b)[j] == a[j];
      } else {
        assert (a + b)[j] == b[j - |a|];
      }
    }
  }

  lemma QueueValid(store: Store, pending: seq<LazyOp>, count: nat, ops: seq<LazyOp>)
    requires WorldOk(store, Spawned(pending)) && FreshRun(store, Spawned(ops), count)
    ensures WorldOk(store, Spawned(pending + ops))
  {
    SpawnedAppend(pending, ops);
    AppendValid(store, Spawned(pending), Spawned(ops));
  }

  lemma QueueIds(store: Store, ents: seq<Entity>, pending: seq<LazyOp>, count: nat, ops: seq<LazyOp>)
    requires UniqueIds(ents + Spawned(pending)) && IdsAtMost(ents + Spawned(pending), count)
    requires FreshRun(store, Spawned(ops), count)
    ensures UniqueIds(ents + Spawned(pending + ops)) && IdsAtMost(ents + Spawned(pending + ops), count + |Spawned(ops)|)
    ensures OnePlayer(ents + Spawned(pending)) ==> OnePlayer(ents + Spawned(pending + ops))
  {
    SpawnedAppend(pending, ops);
    var all := ents + Spawned(pending);
    assert ents + Spawned(pending + ops) == all + Spawned(ops);
    AppendFreshIds(all, Spawned(ops), count);
    if OnePlayer(all) {
      AppendNoPlayer(all, Spawned(ops));
    }
  }

  /** Queueing removals for existing entities and the creation of fresh
      entities keeps the table well formed. */
  lemma QueueKeepsTable(store: Store, ents: seq<Entity>, pending: seq<LazyOp>, count: nat, ops: seq<LazyOp>)
    requires TableOk(store, ents, pending, count)
    requires FreshRun(store, Spawned(ops), count)
    requires forall k :: 0 <= k < |ops| && ops[k].Remove? ==> ops[k].target < |ents|
    ensures TableOk(store, ents, pending + ops, count + |Spawned(ops)|)
  {
    QueueValid(store, pending, count, ops);
    QueueIds(store, ents, pending, count, ops);
  }

  /** Queueing fresh entities keeps the table well formed. */
  lemma SpawnsKeepTable(store: Store, ents: seq<Entity>, pending: seq<LazyOp>, count: nat, es: seq<Entity>)
    requires TableOk(store, ents, pending, count) && FreshRun(store, es, count)
    ensures TableOk(store, ents, pending + SpawnAll(es), count + |es|)
  {
    SpawnedOfSpawnAll(es);
    QueueKeepsTable(store, ents, pending, count, SpawnAll(es));
  }

  /** The flushed table is well formed with nothing queued. */
  lemma FlushKeepsTable(store: Store, ents: seq<Entity>, pending: seq<LazyOp>, count: nat)
    requires TableOk(store, ents, pending, count)
    ensures TableOk(store, Applied(ents, pending), [], count)
  {
    FlushShape(ents, pending);
    var all := ents + Spawned(pending);
    var out := Applied(ents, pending);
    assert |out| == |all|;
    assert Spawned([]) == [];
    assert out + Spawned([]) == out;
    forall i | 0 <= i < |out|
      ensures IdOf(out[i]) == 0 || IdOf(out[i]) == IdOf(all[i])
      ensures IsPlayer(out[i]) ==> IsPlayer(all[i])
      ensures ElemOk(store, out[i])
    {
      if i >= |ents| {
        assert out[i] == out[|ents|..][i - |ents|] == Spawned(pending)[i - |ents|] == all[i];
      } else {
        assert out[i] == StripAll(ents[i], RemovedKinds(pending, i));
        assert all[i] == ents[i];
      }
    }
    assert WorldOk(store, out);
    assert UniqueIds(out);
    assert IdsAtMost(out, count);
    assert OnePlayer(out);
  }

  // ---------------------------------------------------------------------
  // Read-only queries of the tick

  /** The first entity the sprite-and-position join finds with the player's
      sprite kind. */
  function FirstPlayer(ents: seq<Entity>): (r: Option<nat>)
    ensures r.None? <==> forall i :: 0 <= i < |ents| ==> !IsPlayer(ents[i])
    ensures r.Some? ==> r.value < |ents| && IsPlayer(ents[r.value]) && forall j :: 0 <= j < r.value ==> !IsPlayer(ents[j])
    decreases |ents|
  {
    if |ents| == 0 then None
    else if IsPlayer(ents[0]) then Some(0)
    else
      var r := FirstPlayer(ents[1..]);
      assert forall i :: 1 <= i < |ents| ==> ents[i] == ents[1..][i - 1];
      if r.None? then None else Some(r.value + 1)
  }

  /** The player's position and facing, or the origin facing right when
      there is no player. */
  function PlayerView(ents: seq<Entity>): ((int, int), bool) {
    match FirstPlayer(ents)
    case None => ((0, 0), false)
    case Some(k) => ((ents[k].pos.value.x, ents[k].pos.value.y), ents[k].sprite.value.flip)
  }

  /** The point distances to tools are measured from. */
  function PlayerCenter(at: (int, int)): (int, int) {
    (at.0 + 4, at.1 + 2)
  }

  /** The spot in front of the player that the shovel, can and packets work
      on: 9 columns further left when the player faces left. */
  function CropSpot(center: (int, int), flip: bool): (int, int) {
    (center.0 + (if flip then -9 else 0), center.1)
  }

  /** The player lookup loop with its early exit. */
  method LocatePlayer(ents: seq<Entity>) returns (at: (int, int), flip: bool)
    ensures (at, flip) == PlayerView(ents)
    ensures FirstPlayer(ents).None? ==> at == (0, 0) && !flip
  {
    at, flip := (0, 0), false;
    var i := 0;
    while i < |ents|
      invariant 0 <= i <= |ents|
      invariant forall j :: 0 <= j < i ==> !IsPlayer(ents[j])
      invariant at == (0, 0) && !flip
    {
      if IsPlayer(ents[i]) {
        at, flip := (ents[i].pos.value.x, ents[i].pos.value.y), ents[i].sprite.value.flip;
        assert FirstPlayer(ents) == Some(i);
        return;
      }
      i := i + 1;
    }
  }

  /** The first entity the item-sprite-position join finds whose item type
      is the one held. */
  function FirstHeld(ents: seq<Entity>, holding: ItemType): (r: Option<nat>)
    ensures r.None? <==> forall i :: 0 <= i < |ents| ==> !IsHeld(ents[i], holding)
    ensures r.Some? ==> r.value < |ents| && IsHeld(ents[r.value], holding) && forall j :: 0 <= j < r.value ==> !IsHeld(ents[j], holding)
    decreases |ents|
  {
    if |ents| == 0 then None
    else if IsHeld(ents[0], holding) then Some(0)
    else
      var r := FirstHeld(ents[1..], holding);
      assert forall i :: 1 <= i < |ents| ==> ents[i] == ents[1..][i - 1];
      if r.None? then None else Some(r.value + 1)
  }

  predicate IsHeld(e: Entity, holding: ItemType) {
    HasItemSpritePos(e) && e.item.value.itemType == holding
  }

  /** Whether some crop meets the story check of `stage`: the search loops
      of the narrative with their early exit. */
  method FindCrop(ents: seq<Entity>, stage: nat, flower: nat, read: bool) returns (found: bool)
    ensures found <==> exists i :: 0 <= i < |ents| && CropMatches(ents[i], stage, flower, read)
  {
    found := false;
    var i := 0;
    while i < |ents|
      invariant 0 <= i <= |ents|
      invariant forall j :: 0 <= j < i ==> !CropMatches(ents[j], stage, flower, read)
    {
      if CropMatches(ents[i], stage, flower, read) {
        found := true;
        return;
      }
      i := i + 1;
    }
  }

  // ---------------------------------------------------------------------
  // The per-entity results of the passes

  /** The held-item pass for entity i: visited items before the held one
      have their highlight recomputed, the first held item is pinned to the
      player, and the loop stops there. */
  function PinnedAt(e: Entity, i: nat, held: Option<nat>, player: (int, int), playerFlip: bool,
                    holding: ItemType, input: InputState, tool: Found): (r: Entity)
    ensures SameIdentity(e, r) && r.npc == e.npc
    ensures r.sprite.Some? ==> r.sprite.value.storeIndex == e.sprite.value.storeIndex && r.sprite.value.frame == e.sprite.value.frame
  {
    if !HasItemSpritePos(e) then e
    else if held.Some? && i == held.value then Pin(e, player, playerFlip, holding, input)
    else if held.None? || i < held.value then Highlight(e, holding, tool)
    else e
  }

  /** The held-item pass changes sprites in place and keeps them valid. */
  lemma PinnedKeeps(store: Store, ents: seq<Entity>, es: seq<Entity>, held: Option<nat>, player: (int, int), playerFlip: bool,
                    holding: ItemType, input: InputState, tool: Found)
    requires EntsOk(store, ents) && |es| == |ents|
    requires forall k :: 0 <= k < |es| ==> es[k] == PinnedAt(ents[k], k, held, player, playerFlip, holding, input, tool)
    ensures EntsOk(store, es) && SameIdentities(ents, es)
  {
    forall k | 0 <= k < |es| ensures ElemOk(store, es[k]) && SameIdentity(ents[k], es[k]) {
      assert ElemOk(store, ents[k]);
    }
  }

  /** The held-item pass has handled the entities before i and not yet
      touched the rest. */
  ghost predicate PinnedUpTo(ents: seq<Entity>, es: seq<Entity>, i: nat, held: Option<nat>, player: (int, int),
                             playerFlip: bool, holding: ItemType, input: InputState, tool: Found) {
    && |es| == |ents| && i <= |es|
    && forall k :: 0 <= k < |es| ==>
         es[k] == if k < i then PinnedAt(ents[k], k, held, player, playerFlip, holding, input, tool) else ents[k]
  }

  /** The held item of the held-item pass: it is the first one, it is
      pinned and the pass ends there. */
  lemma {:induction false} PinHeld(ents: seq<Entity>, es: seq<Entity>, i: nat, held: Option<nat>, player: (int, int),
                                   playerFlip: bool, holding: ItemType, input: InputState, tool: Found)
    requires held == FirstHeld(ents, holding) && i < |es| && (held.None? || i <= held.value)
    requires PinnedUpTo(ents, es, i, held, player, playerFlip, holding, input, tool) && IsHeld(es[i], holding)
    ensures PinnedUpTo(ents, es[i := Pin(es[i], player, playerFlip, holding, input)], |es|, held, player, playerFlip, holding, input, tool)
  {
    assert es[i] == ents[i];
    assert held == Some(i);
    var es' := es[i := Pin(ents[i], player, playerFlip, holding, input)];
    forall k | 0 <= k < |es'| ensures es'[k] == PinnedAt(ents[k], k, held, player, playerFlip, holding, input, tool) {
      if k != i { assert es'[k] == es[k]; }
    }
  }

  /** Any other entity of the held-item pass: an item is highlighted, the
      rest is left, and the held item is still ahead. */
  lemma {:induction false} PinPass(ents: seq<Entity>, es: seq<Entity>, i: nat, held: Option<nat>, player: (int, int),
                                   playerFlip: bool, holding: ItemType, input: InputState, tool: Found)
    requires held == FirstHeld(ents, holding) && i < |es| && (held.None? || i <= held.value)
    requires PinnedUpTo(ents, es, i, held, player, playerFlip, holding, input, tool) && !IsHeld(es[i], holding)
    ensures held.None? || i + 1 <= held.value
    ensures HasItemSpritePos(es[i]) ==>
      PinnedUpTo(ents, es[i := Highlight(es[i], holding, tool)], i + 1, held, player, playerFlip, holding, input, tool)
    ensures !HasItemSpritePos(es[i]) ==> PinnedUpTo(ents, es, i + 1, held, player, playerFlip, holding, input, tool)
  {
    var e := ents[i];
    assert es[i] == e;
    assert held.None? || i < held.value;
    var r := if HasItemSpritePos(e) then Highlight(e, holding, tool) else e;
    assert PinnedAt(e, i, held, player, playerFlip, holding, input, tool) == r;
    var es' := es[i := r];
    forall k | 0 <= k < |es'|
      ensures es'[k] == if k < i + 1 then PinnedAt(ents[k], k, held, player, playerFlip, holding, input, tool) else ents[k]
    {
      if k != i { assert es'[k] == es[k]; }
    }
    if !HasItemSpritePos(e) { assert es' == es; }
  }

  /** The finished held-item pass is PinAll. */
  lemma PinnedDone(store: Store, ents: seq<Entity>, es: seq<Entity>, player: (int, int), playerFlip: bool,
                   holding: ItemType, input: InputState, tool: Found)
    requires EntsOk(store, ents)
    requires PinnedUpTo(ents, es, |es|, FirstHeld(ents, holding), player, playerFlip, holding, input, tool)
    ensures es == PinAll(ents, player, playerFlip, holding, input, tool)
    ensures EntsOk(store, es) && SameIdentities(ents, es)
  {
    PinnedKeeps(store, ents, es, FirstHeld(ents, holding), player, playerFlip, holding, input, tool);
  }

  /** The NPC pass changes NPCs in place and keeps them valid. */
  lemma WalkedKeeps(store: Store, ents: seq<Entity>, es: seq<Entity>, holding: ItemType, time: nat, targets: seq<(int, int)>)
    requires EntsOk(store, ents) && |es| == |ents| == |targets|
    requires forall k :: 0 <= k < |es| ==>
      es[k] == if HasNpcPosSprite(ents[k]) then NpcStep(ents[k], holding, time, targets[k]) else ents[k]
    ensures EntsOk(store, es) && SameIdentities(ents, es)
  {
    forall k | 0 <= k < |es| ensures ElemOk(store, es[k]) && SameIdentity(ents[k], es[k]) {
      assert ElemOk(store, ents[k]);
    }
  }

  /** Rewinding overlays keeps every entity valid. */
  lemma RewoundKeeps(store: Store, ents: seq<Entity>, es: seq<Entity>)
    requires EntsOk(store, ents) && |es| == |ents|
    requires forall k :: 0 <= k < |es| ==> es[k] == Rewound(ents[k])
    ensures EntsOk(store, es) && SameIdentities(ents, es)
  {
    forall k | 0 <= k < |es| ensures ElemOk(store, es[k]) && SameIdentity(ents[k], es[k]) {
      assert ElemOk(store, ents[k]);
    }
  }

  /** The animation pass for one entity. */
  function Animated(store: Store, e: Entity, showTransition: bool, time: nat): (r: Entity)
    requires ValidStore(store) && ElemOk(store, e)
    ensures ElemOk(store, r) && SameIdentity(e, r)
    ensures r.pos == e.pos && r.item == e.item && r.npc == e.npc
  {
    if !HasSpritePos(e) then e
    else
      var s := e.sprite.value;
      var frames := store[s.storeIndex].data.frames;
      e.(sprite := Some(Animate(OverlayReset(s, |frames| - 1, showTransition), frames, time)))
  }

  /** The duration of the frame a sprite shows. */
  function FrameWait(store: Store, s: Sprite): nat
    requires SpriteOk(store, s)
  {
    store[s.storeIndex].data.frames[s.frame].duration
  }

  /** The player's sprite and position after its input: movement keys steer
      it, no key lets it come to rest; other keys leave it. */
  function PlayerAfter(s: Sprite, p: Position, input: InputState, frameWait: nat, time: nat, width: int, height: int): (r: (Sprite, Position))
    ensures r.0.storeIndex == s.storeIndex && r.0.spriteType == s.spriteType && r.0.id == s.id
    ensures r.0.frame == s.frame || r.0.frame == 0
  {
    if Moves(input) then Steer(s, p, input, frameWait, time, width, height)
    else if input == NoInput then (Idle(s, time), p)
    else (s, p)
  }

  /** The player entity after the animation pass, which also handles its
      input; the movement clock uses the frame shown before animating. */
  function Controlled(store: Store, e: Entity, showTransition: bool, input: InputState, time: nat, width: int, height: int): (r: Entity)
    requires ValidStore(store) && ElemOk(store, e) && IsPlayer(e)
    ensures ElemOk(store, r) && SameIdentity(e, r) && IsPlayer(r)
  {
    var a := Animated(store, e, showTransition, time);
    var sp := PlayerAfter(a.sprite.value, a.pos.value, input, FrameWait(store, e.sprite.value), time, width, height);
    a.(sprite := Some(sp.0), pos := Some(sp.1))
  }

  /** The animation pass for one entity: the player is also steered by
      the input. */
  function Stepped(store: Store, e: Entity, showTransition: bool, input: InputState, time: nat, width: int, height: int): (r: Entity)
    requires ValidStore(store) && ElemOk(store, e)
    ensures ElemOk(store, r) && SameIdentity(e, r)
  {
    if IsPlayer(e) then Controlled(store, e, showTransition, input, time, width, height) else Animated(store, e, showTransition, time)
  }

  lemma SteppedKeeps(store: Store, ents: seq<Entity>, es: seq<Entity>, showTransition: bool, input: InputState, time: nat, width: int, height: int)
    requires ValidStore(store) && EntsOk(store, ents) && |es| == |ents|
    requires forall k :: 0 <= k < |es| ==> es[k] == Stepped(store, ents[k], showTransition, input, time, width, height)
    ensures EntsOk(store, es) && SameIdentities(ents, es)
  {
    forall k | 0 <= k < |es| ensures ElemOk(store, es[k]) && SameIdentity(ents[k], es[k]) {
      assert ElemOk(store, ents[k]);
    }
  }

  // ---------------------------------------------------------------------
  // The passes on the whole table

  /** The held-item pass over the table. */
  function PinAll(ents: seq<Entity>, player: (int, int), playerFlip: bool,
                  holding: ItemType, input: InputState, tool: Found): seq<Entity> {
    var held := FirstHeld(ents, holding);
    seq(|ents|, k requires 0 <= k < |ents| => PinnedAt(ents[k], k, held, player, playerFlip, holding, input, tool))
  }

  /** The NPC pass over the table: NPC k heads for targets[k] when it picks
      a new target. */
  function WalkAll(ents: seq<Entity>, holding: ItemType, time: nat, targets: seq<(int, int)>): seq<Entity>
    requires |targets| == |ents|
  {
    seq(|ents|, k requires 0 <= k < |ents| =>
      if HasNpcPosSprite(ents[k]) then NpcStep(ents[k], holding, time, targets[k]) else ents[k])
  }

  /** The animation pass over the table, with the player steered. */
  function StepAll(store: Store, ents: seq<Entity>, showTransition: bool, input: InputState, time: nat, width: int, height: int): seq<Entity>
    requires ValidStore(store) && EntsOk(store, ents)
  {
    seq(|ents|, k requires 0 <= k < |ents| => Stepped(store, ents[k], showTransition, input, time, width, height))
  }

  /** The overlay rewind over the table. */
  function RewindAll(ents: seq<Entity>): seq<Entity> {
    seq(|ents|, k requires 0 <= k < |ents| => Rewound(ents[k]))
  }

  /** The in-place part of the action pass over the table. */
  function ActAll(ents: seq<Entity>, act: SpriteAction, read: bool, a: AssetIds): seq<Entity> {
    seq(|ents|, k requires 0 <= k < |ents| => if HasItemSpritePos(ents[k]) then ActOn(ents[k], act, read, a) else ents[k])
  }

  /** n targets for the NPC pass, each in [8, width-8) x [4, height-4). */
  predicate TargetsIn(targets: seq<(int, int)>, n: nat, width: int, height: int) {
    |targets| == n && forall i :: 0 <= i < n ==> 8 <= targets[i].0 < width - 8 && 4 <= targets[i].1 < height - 4
  }

  /** The part of the game state the tick changes. */
  datatype GameView = GameView(
    holding: ItemType, showHelp: bool, showTransition: bool, showTerminal: bool,
    index: nat, read: bool, clearScreen: bool)

  function ViewOf(g: Game): GameView
    reads g
  {
    GameView(g.holding, g.showHelp, g.showTransition, g.showTerminal, g.terminalMessageIndex, g.terminalRead, g.clearScreen)
  }

  /** How the player's input changes the game state: movement closes the
      terminal, pickup toggles what is held, the action key opens or closes
      the terminal (closing marks the message read), ? toggles the help line,
      the clear command sets the clear flag and a tick without a key clears
      it. */
  function ControlGame(v: GameView, input: InputState, tool: Found, crop: Found): (r: GameView)
    ensures r.showTransition == v.showTransition && r.index == v.index
    ensures r.clearScreen == if input == Clear then true else if input == NoInput then false else v.clearScreen
    ensures Moves(input) ==> !r.showTerminal
    ensures r.showTerminal != v.showTerminal ==> Moves(input) || input == Action
    ensures r.read != v.read ==> r.read && input == Action
    ensures r.holding == if input == Pickup then PickupResult(v.holding, tool) else v.holding
    ensures r.showHelp == if input == ToggleHelp then !v.showHelp else v.showHelp
  {
    if Moves(input) then v.(showTerminal := false)
    else
      match input
      case Pickup => v.(holding := PickupResult(v.holding, tool))
      case Action => TerminalAfter(v, ActionPlan(v.holding, tool, crop, v.showTerminal).terminal)
      case ToggleHelp => v.(showHelp := !v.showHelp)
      case Clear => v.(clearScreen := true)
      case NoInput => v.(clearScreen := false)
      case _ => v
  }

  /** The terminal after the action key's decision: closing it marks the
      message read. */
  function TerminalAfter(v: GameView, move: TerminalMove): (r: GameView)
    ensures r.holding == v.holding && r.showHelp == v.showHelp && r.showTransition == v.showTransition
    ensures r.index == v.index && r.clearScreen == v.clearScreen
  {
    match move
    case CloseTerminal => v.(showTerminal := false, read := true)
    case OpenTerminal => v.(showTerminal := true)
    case KeepTerminal => v
  }

  /** The entities the action key creates, in creation order, ids from
      firstId on: the particle over the work, then the new empty crop (with
      facing cropFlip) when the shovel found no crop to dig up. */
  function ActionSpawns(plan: Plan, firstId: nat, store: Store, a: AssetIds, cropPos: (int, int), center: (int, int), cropFlip: bool): (es: seq<Entity>)
    requires AssetsFit(store, a) && firstId != 0
    ensures forall k :: 0 <= k < |es| ==> ElemOk(store, es[k]) && IdOf(es[k]) == firstId + k && !IsPlayer(es[k])
  {
    var particle :=
      match plan.particle
      case None => []
      case Some(kind) => [ParticleEntity(kind, firstId, store, a, if kind == HeartParticle then (center.0, center.1 - 2) else cropPos)];
    var crop := if plan.plantsCrop then [EmptyCropEntity(firstId + |particle|, store, a, cropPos, cropFlip)] else [];
    particle + crop
  }

  /** The entities the player's input creates. */
  function PlayerSpawns(input: InputState, v: GameView, tool: Found, crop: Found, firstId: nat, store: Store, a: AssetIds,
                        cropPos: (int, int), center: (int, int), cropFlip: bool): (es: seq<Entity>)
    requires AssetsFit(store, a) && firstId != 0
    ensures forall k :: 0 <= k < |es| ==> ElemOk(store, es[k]) && IdOf(es[k]) == firstId + k && !IsPlayer(es[k])
  {
    if input == Action then ActionSpawns(ActionPlan(v.holding, tool, crop, v.showTerminal), firstId, store, a, cropPos, center, cropFlip)
    else []
  }

  /** Overlay tiles rewound to their first frame for the transition. */
  function Rewound(e: Entity): (r: Entity)
    ensures SameIdentity(e, r) && r.pos == e.pos && r.item == e.item && r.npc == e.npc
  {
    if HasSpritePos(e) && e.sprite.value.spriteType == Overlay then e.(sprite := Some(e.sprite.value.(frame := 0))) else e
  }

  /** The entity the story creates on leaving message `stage`. */
  function StorySpawns(stage: nat, met: bool, id: nat, store: Store, a: AssetIds, width: int, height: int, time: nat): (es: seq<Entity>)
    requires AssetsFit(store, a) && id != 0
    ensures forall k :: 0 <= k < |es| ==> ElemOk(store, es[k]) && IdOf(es[k]) == id + k && !IsPlayer(es[k])
    ensures |es| == (if met && stage in {2, 7} then 1 else 0)
  {
    if met && stage == 2 then [Packet2Entity(id, store, a, width, height)]
    else if met && stage == 7 then [VisitorEntity(id, store, a, width, height, time)]
    else []
  }

  // ---------------------------------------------------------------------
  // The world

  lemma SameIdentitiesTrans(a: seq<Entity>, b: seq<Entity>, c: seq<Entity>)
    requires SameIdentities(a, b) && SameIdentities(b, c)
    ensures SameIdentities(a, c)
  {
    assert forall i :: 0 <= i < |a| ==> SameIdentity(a[i], b[i]) && SameIdentity(b[i], c[i]);
  }

  /** Passes that keep identities find the same player. */
  lemma SameIdentitiesSamePlayer(a: seq<Entity>, b: seq<Entity>)
    requires SameIdentities(a, b)
    ensures FirstPlayer(a) == FirstPlayer(b)
  {
    assert forall i :: 0 <= i < |a| ==> (IsPlayer(a[i]) <==> IsPlayer(b[i])) by {
      forall i | 0 <= i < |a| ensures IsPlayer(a[i]) <==> IsPlayer(b[i]) {
        assert SameIdentity(a[i], b[i]);
      }
    }
  }

  /** A watering command names only sprites of the crop kind. */
  predicate WateredIsCrop(ents: seq<Entity>, act: SpriteAction) {
    act.command == Water ==>
      forall i :: 0 <= i < |ents| && HasItemSpritePos(ents[i]) && ents[i].sprite.value.id == act.id ==>
        ents[i].sprite.value.spriteType == SpriteType.Crop
  }

  /** Passes that keep identities keep the watering target a crop. */
  lemma WateredKeeps(ents: seq<Entity>, ents': seq<Entity>, act: SpriteAction)
    requires SameIdentities(ents, ents') && WateredIsCrop(ents, act)
    ensures WateredIsCrop(ents', act)
  {
    assert forall i :: 0 <= i < |ents| ==> SameIdentity(ents[i], ents'[i]);
  }

  /** A command for the nearest crop, found at the start of the tick closer
      than the crop distance, names the only interactive sprite with that id
      later in the tick, and it is still of the crop kind. */
  lemma WaterTargetIsCrop(store: Store, ents0: seq<Entity>, ents: seq<Entity>, from: (int, int), crop: Found, act: SpriteAction)
    requires WorldOk(store, ents0) && crop == NearestOf(from, SpriteType.Crop, store, ents0)
    requires UniqueIds(ents0) && SameIdentities(ents0, ents)
    requires act.command == Water ==> act.id == crop.id && crop.dist < CROP_DISTANCE
    ensures WateredIsCrop(ents, act)
  {
    NearestIsFirstMinimum(from, SpriteType.Crop, store, ents0);
    var k := NearestIndex(from, SpriteType.Crop, store, ents0);
    if act.command == Water {
      assert 0 <= k < |ents0|;
      assert SameIdentity(ents0[k], ents[k]);
      assert ElemOk(store, ents0[k]);
      forall i | 0 <= i < |ents| && HasItemSpritePos(ents[i]) && ents[i].sprite.value.id == act.id
        ensures ents[i].sprite.value.spriteType == SpriteType.Crop
      {
        assert SameIdentity(ents0[i], ents[i]);
        assert IdOf(ents0[i]) == IdOf(ents0[k]) && IdOf(ents0[i]) != 0;
        assert i == k;
      }
    }
  }

  /** What the player's input does to the game state in the first half of
      the tick, when there is a player: the story stage and the transition
      flag stay, pickup changes what is held, ? toggles the help line, sleep
      needs empty hands next to the pod, and watering goes to the nearest
      crop closer than the crop distance. */
  predicate ControlFacts(v0: GameView, v: GameView, input: InputState, hasPlayer: bool, tool: Found, crop: Found, act: SpriteAction) {
    && v.index == v0.index && v.showTransition == v0.showTransition
    && v.holding == (if input == Pickup && hasPlayer then PickupResult(v0.holding, tool) else v0.holding)
    && v.showHelp == (if input == ToggleHelp && hasPlayer then !v0.showHelp else v0.showHelp)
    && (act.command == Grow ==> input == Action && v0.holding == NoItem && tool.itemType == Pod)
    && (act.command == Water ==> act.id == crop.id && crop.dist < CROP_DISTANCE)
  }

  /** The input handling of the animation loop has those effects. */
  lemma ControlFactsHold(v0: GameView, input: InputState, hasPlayer: bool, tool: Found, crop: Found)
    ensures ControlFacts(v0, if hasPlayer then ControlGame(v0, input, tool, crop) else v0, input, hasPlayer, tool, crop,
                         if hasPlayer && input == Action then ActionPlan(v0.holding, tool, crop, v0.showTerminal).action else NO_ACTION)
  {
    ActionPlanProperties(v0.holding, tool, crop, v0.showTerminal);
  }

  /** The facts about the table alone that the tick's passes need. */
  lemma TablePrefix(store: Store, ents: seq<Entity>, pending: seq<LazyOp>, count: nat)
    requires TableOk(store, ents, pending, count)
    ensures WorldOk(store, ents) && UniqueIds(ents) && OnePlayer(ents)
  {
    var all := ents + Spawned(pending);
    assert forall k :: 0 <= k < |ents| ==> all[k] == ents[k];
  }

  /** The cleanup loop over the table. */
  method CleanupScan(store: Store, ents: seq<Entity>) returns (ops: seq<LazyOp>)
    requires WorldOk(store, ents)
    ensures ops == CleanupOps(store, ents)
  {
    ops := [];
    var i := 0;
    while i < |ents|
      invariant 0 <= i <= |ents|
      invariant WorldOk(store, ents[..i])
      invariant ops == CleanupOps(store, ents[..i])
    {
      assert ents[..i + 1][..i] == ents[..i];
      assert WorldOk(store, ents[..i + 1]);
      if Finished(store, ents[i]) {
        ops := ops + [Remove(i, SpriteC), Remove(i, PositionC)];
      }
      i := i + 1;
    }
    assert ents[..i] == ents;
  }

  /** Queued removals create nothing. */
  lemma {:induction false} SpawnedOfRemovals(ops: seq<LazyOp>)
    requires forall op :: op in ops ==> op.Remove?
    ensures Spawned(ops) == []
    decreases |ops|
  {
    if |ops| > 0 {
      assert ops[0] in ops;
      assert forall op :: op in ops[1..] ==> op in ops;
      SpawnedOfRemovals(ops[1..]);
    }
  }

  /** The story check for message `stage`, with the crop searches of stages
      1, 3, 4 and 6. */
  method StageCheck(ents: seq<Entity>, stage: nat, flower: nat, read: bool) returns (met: bool)
    ensures met == StageMet(stage, read, ents, flower)
  {
    met := false;
    if stage in {0, 2, 5, 7, 8} {
      met := read;
    } else if stage in {1, 3, 4, 6} {
      met := FindCrop(ents, stage, flower, read);
    }
  }

  lemma SpawnedRemove(ops: seq<LazyOp>, i: nat, k: ComponentKind)
    ensures Spawned(ops + [Remove(i, k)]) == Spawned(ops)
  {
    SpawnedAppend(ops, [Remove(i, k)]);
    assert Spawned([Remove(i, k)]) == [];
  }

  lemma SpawnedSpawn(ops: seq<LazyOp>, e: Entity)
    ensures Spawned(ops + [Spawn(e)]) == Spawned(ops) + [e]
  {
    SpawnedAppend(ops, [Spawn(e)]);
    assert Spawned([Spawn(e)]) == [e];
  }

  /** `pending` extends `before` by removals for the first n entities and by
      fresh entities whose ids take the counter from c0 to c. */
  predicate Queued(store: Store, n: nat, before: seq<LazyOp>, pending: seq<LazyOp>, c0: nat, c: nat) {
    && before <= pending
    && var added := pending[|before|..];
       && FreshRun(store, Spawned(added), c0)
       && c == c0 + |Spawned(added)|
       && forall k :: 0 <= k < |added| && added[k].Remove? ==> added[k].target < n
  }

  lemma QueuedNothing(store: Store, n: nat, q: seq<LazyOp>, c: nat)
    ensures Queued(store, n, q, q, c, c)
  {
    assert q[|q|..] == [];
  }

  /** `after` is `before` with the creation of es queued, and the counter
      has advanced by |es|. */
  predicate Enqueued(before: seq<LazyOp>, after: seq<LazyOp>, c0: nat, c: nat, es: seq<Entity>) {
    after == before + SpawnAll(es) && c == c0 + |es|
  }

  /** Queueing fresh entities. */
  lemma QueuedSpawns(store: Store, n: nat, q: seq<LazyOp>, p: seq<LazyOp>, c: nat, c': nat, es: seq<Entity>)
    requires FreshRun(store, es, c) && Enqueued(q, p, c, c', es)
    ensures Queued(store, n, q, p, c, c')
  {
    assert (q + SpawnAll(es))[|q|..] == SpawnAll(es);
    SpawnedOfSpawnAll(es);
  }

  lemma QueuedTrans(store: Store, n: nat, a: seq<LazyOp>, b: seq<LazyOp>, c: seq<LazyOp>, c0: nat, c1: nat, c2: nat)
    requires Queued(store, n, a, b, c0, c1) && Queued(store, n, b, c, c1, c2)
    ensures Queued(store, n, a, c, c0, c2)
  {
    var ab := b[|a|..];
    var bc := c[|b|..];
    assert c[|a|..] == ab + bc;
    SpawnedAppend(ab, bc);
    var s1 := Spawned(ab);
    var s2 := Spawned(bc);
    forall k | 0 <= k < |s1 + s2| ensures ElemOk(store, (s1 + s2)[k]) && IdOf((s1 + s2)[k]) == c0 + 1 + k && !IsPlayer((s1 + s2)[k]) {
      if k < |s1| {
        assert (s1 + s2)[k] == s1[k];
      } else {
        assert (s1 + s2)[k] == s2[k - |s1|];
      }
    }
    forall k | 0 <= k < |ab + bc| && (ab + bc)[k].Remove? ensures (ab + bc)[k].target < n {
      if k < |ab| {
        assert (ab + bc)[k] == ab[k];
      } else {
        assert (ab + bc)[k] == bc[k - |ab|];
      }
    }
  }

  /** What the action pass queues: the three components of every withered
      crop and every dug-up sprite, and for each withered crop the grass
      that replaces it; nothing else. */
  predicate ActionOpsOk(ents: seq<Entity>, act: SpriteAction, ops: seq<LazyOp>) {
    && (forall i, k :: (0 <= i < |ents| && HasItemSpritePos(ents[i]) && (Withers(ents[i], act) || Deleted(ents[i], act)) &&
          k in {SpriteC, PositionC, InteractibleC}) ==> Remove(i, k) in ops)
    && (forall op :: op in ops && op.Remove? ==>
          op.target < |ents| && HasItemSpritePos(ents[op.target]) && (Withers(ents[op.target], act) || Deleted(ents[op.target], act)))
    && (forall op :: op in ops && op.Spawn? ==> GrassFor(ents, act, op.entity))
  }

  /** A crop the night's sleep replaces by grass. */
  predicate WithersAt(e: Entity, act: SpriteAction) {
    HasItemSpritePos(e) && Withers(e, act)
  }

  /** The number of crops on the table the night's sleep replaces. */
  function Withered(ents: seq<Entity>, act: SpriteAction): nat
    decreases |ents|
  {
    if |ents| == 0 then 0
    else Withered(ents[..|ents| - 1], act) + (if WithersAt(ents[|ents| - 1], act) then 1 else 0)
  }

  /** The random facings and starting frames of the grass, one per entity,
      each frame one of the grass sheet's. */
  predicate GrassDraws(store: Store, a: AssetIds, n: nat, flips: seq<bool>, frames: seq<nat>)
    requires AssetsFit(store, a)
  {
    |flips| == n && |frames| == n && forall k :: 0 <= k < n ==> frames[k] < GrassFrameBound(store, a)
  }

  /** The changes the action loop queues for entity i: a withered crop and
      a dug-up sprite lose their sprite, position and interactible, and a
      withered crop is replaced by grass at its x and y, with id `id`,
      facing `flip` and starting on `frame`. */
  function OpsAt(store: Store, a: AssetIds, e: Entity, i: nat, act: SpriteAction, id: nat, flip: bool, frame: nat): seq<LazyOp>
    requires AssetsFit(store, a) && id != 0 && frame < GrassFrameBound(store, a)
  {
    if !HasItemSpritePos(e) then []
    else if Withers(e, act) then
      [Remove(i, SpriteC), Remove(i, PositionC), Remove(i, InteractibleC),
       Spawn(GrassEntity(id, store, a, (e.pos.value.x, e.pos.value.y), flip, frame))]
    else if Deleted(e, act) then [Remove(i, SpriteC), Remove(i, PositionC), Remove(i, InteractibleC)]
    else []
  }

  /** The changes the action loop queues over the table, in entity order;
      the grass replacing the k-th withered crop takes the id c + k + 1. */
  function ActionOps(store: Store, a: AssetIds, ents: seq<Entity>, act: SpriteAction, c: nat,
                     flips: seq<bool>, frames: seq<nat>): seq<LazyOp>
    requires AssetsFit(store, a) && GrassDraws(store, a, |ents|, flips, frames)
    decreases |ents|
  {
    if |ents| == 0 then []
    else
      var n := |ents| - 1;
      ActionOps(store, a, ents[..n], act, c, flips[..n], frames[..n]) +
      OpsAt(store, a, ents[n], n, act, c + 1 + Withered(ents[..n], act), flips[n], frames[n])
  }

  /** The changes queued for one entity meet the action pass's description. */
  lemma OpsAtOk(store: Store, a: AssetIds, e: Entity, i: nat, act: SpriteAction, id: nat, flip: bool, frame: nat)
    requires AssetsFit(store, a) && id != 0 && frame < GrassFrameBound(store, a)
    ensures OpsForOk(e, i, act, OpsAt(store, a, e, i, act, id, flip, frame))
    ensures Spawned(OpsAt(store, a, e, i, act, id, flip, frame)) ==
      if WithersAt(e, act) then [GrassEntity(id, store, a, (e.pos.value.x, e.pos.value.y), flip, frame)] else []
  {
    var ops := OpsAt(store, a, e, i, act, id, flip, frame);
    if WithersAt(e, act) {
      var g := GrassEntity(id, store, a, (e.pos.value.x, e.pos.value.y), flip, frame);
      SpawnedOfRemovals(ops[..3]);
      SpawnedSpawn(ops[..3], g);
      assert ops[..3] + [Spawn(g)] == ops;
    } else {
      SpawnedOfRemovals(ops);
    }
  }

  /** The action loop's queue removes the sprite, position and interactible
      of exactly the withered crops and the dug-up sprite, and creates only
      grass standing on a withered crop's spot. */
  lemma {:induction false} ActionOpsMeet(store: Store, a: AssetIds, ents: seq<Entity>, act: SpriteAction, c: nat,
                                          flips: seq<bool>, frames: seq<nat>)
    requires AssetsFit(store, a) && GrassDraws(store, a, |ents|, flips, frames)
    ensures ActionOpsOk(ents, act, ActionOps(store, a, ents, act, c, flips, frames))
    decreases |ents|
  {
    if |ents| == 0 {
      assert ents[..0] == ents;
    } else {
      var n := |ents| - 1;
      var pre := ActionOps(store, a, ents[..n], act, c, flips[..n], frames[..n]);
      var id := c + 1 + Withered(ents[..n], act);
      var at := OpsAt(store, a, ents[n], n, act, id, flips[n], frames[n]);
      assert ActionOps(store, a, ents, act, c, flips, frames) == pre + at;
      ActionOpsMeet(store, a, ents[..n], act, c, flips[..n], frames[..n]);
      OpsAtOk(store, a, ents[n], n, act, id, flips[n], frames[n]);
      ActionOpsAppend(ents, n, act, pre, at);
    }
  }

  /** The action loop creates one grass per withered crop, and the created
      entities take the next fresh ids in order. */
  lemma {:induction false} ActionOpsFresh(store: Store, a: AssetIds, ents: seq<Entity>, act: SpriteAction, c: nat,
                                           flips: seq<bool>, frames: seq<nat>)
    requires AssetsFit(store, a) && GrassDraws(store, a, |ents|, flips, frames)
    ensures FreshRun(store, Spawned(ActionOps(store, a, ents, act, c, flips, frames)), c)
    ensures |Spawned(ActionOps(store, a, ents, act, c, flips, frames))| == Withered(ents, act)
    decreases |ents|
  {
    if |ents| > 0 {
      var n := |ents| - 1;
      var pre := ActionOps(store, a, ents[..n], act, c, flips[..n], frames[..n]);
      var id := c + 1 + Withered(ents[..n], act);
      var at := OpsAt(store, a, ents[n], n, act, id, flips[n], frames[n]);
      assert ActionOps(store, a, ents, act, c, flips, frames) == pre + at;
      assert Withered(ents, act) == Withered(ents[..n], act) + (if WithersAt(ents[n], act) then 1 else 0);
      ActionOpsFresh(store, a, ents[..n], act, c, flips[..n], frames[..n]);
      OpsAtOk(store, a, ents[n], n, act, id, flips[n], frames[n]);
      SpawnedAppend(pre, at);
      FreshRunAppend(store, Spawned(pre), Spawned(at), c);
    }
  }

  /** ops removes the sprite, position and interactible of entity i and
      creates g. */
  predicate ReplacedIn(ops: seq<LazyOp>, i: nat, g: Entity) {
    Remove(i, SpriteC) in ops && Remove(i, PositionC) in ops && Remove(i, InteractibleC) in ops && Spawn(g) in ops
  }

  lemma ReplacedAppend(pre: seq<LazyOp>, at: seq<LazyOp>, i: nat, g: Entity)
    requires ReplacedIn(pre, i, g) || ReplacedIn(at, i, g)
    ensures ReplacedIn(pre + at, i, g)
  {
    InAppend(Spawn(g), pre, at);
    InAppend(Remove(i, SpriteC), pre, at);
    InAppend(Remove(i, PositionC), pre, at);
    InAppend(Remove(i, InteractibleC), pre, at);
  }

  /** The grass that replaces withered crop i: the id after those of the
      withered crops before it, on i's spot, with i's drawn facing and
      frame. */
  function GrassOf(store: Store, a: AssetIds, ents: seq<Entity>, act: SpriteAction, c: nat,
                   flips: seq<bool>, frames: seq<nat>, i: nat): Entity
    requires AssetsFit(store, a) && GrassDraws(store, a, |ents|, flips, frames)
    requires i < |ents| && WithersAt(ents[i], act)
  {
    GrassEntity(c + 1 + Withered(ents[..i], act), store, a, (ents[i].pos.value.x, ents[i].pos.value.y), flips[i], frames[i])
  }

  /** Every withered crop i is queued for removal and gets its grass. */
  lemma {:induction false} ActionOpsReplace(store: Store, a: AssetIds, ents: seq<Entity>, act: SpriteAction, c: nat,
                                             flips: seq<bool>, frames: seq<nat>, i: nat)
    requires AssetsFit(store, a) && GrassDraws(store, a, |ents|, flips, frames)
    requires i < |ents| && WithersAt(ents[i], act)
    ensures ReplacedIn(ActionOps(store, a, ents, act, c, flips, frames), i, GrassOf(store, a, ents, act, c, flips, frames, i))
    decreases |ents|
  {
    var n := |ents| - 1;
    var pre := ActionOps(store, a, ents[..n], act, c, flips[..n], frames[..n]);
    var at := OpsAt(store, a, ents[n], n, act, c + 1 + Withered(ents[..n], act), flips[n], frames[n]);
    assert ActionOps(store, a, ents, act, c, flips, frames) == pre + at;
    if i < n {
      ActionOpsReplace(store, a, ents[..n], act, c, flips[..n], frames[..n], i);
      PrefixGrass(store, a, ents, act, c, flips, frames, i, n);
      ReplacedAppend(pre, at, i, GrassOf(store, a, ents, act, c, flips, frames, i));
    } else {
      assert ents[..i] == ents[..n];
      ReplacedAppend(pre, at, i, GrassOf(store, a, ents, act, c, flips, frames, i));
    }
  }

  /** The grass of crop i is the same whether found in the table or in a
      prefix of it holding i. */
  lemma PrefixGrass(store: Store, a: AssetIds, ents: seq<Entity>, act: SpriteAction, c: nat,
                    flips: seq<bool>, frames: seq<nat>, i: nat, n: nat)
    requires AssetsFit(store, a) && GrassDraws(store, a, |ents|, flips, frames)
    requires i < n <= |ents| && WithersAt(ents[i], act)
    ensures GrassOf(store, a, ents[..n], act, c, flips[..n], frames[..n], i) == GrassOf(store, a, ents, act, c, flips, frames, i)
  {
    assert ents[..n][..i] == ents[..i];
  }

  /** One step of the action loop: the changes for entity i extend those
      for the entities before it, and one more grass is created when i
      withers. */
  lemma {:induction false} ActionOpsStep(store: Store, a: AssetIds, ents: seq<Entity>, act: SpriteAction, c: nat,
                      flips: seq<bool>, frames: seq<nat>, i: nat, id: nat, more: seq<LazyOp>, flip: bool, frame: nat)
    requires AssetsFit(store, a) && i < |ents| && GrassDraws(store, a, i, flips, frames)
    requires frame < GrassFrameBound(store, a) && id == c + 1 + Withered(ents[..i], act)
    requires more == OpsAt(store, a, ents[i], i, act, id, flip, frame)
    ensures GrassDraws(store, a, i + 1, flips + [flip], frames + [frame])
    ensures ActionOps(store, a, ents[..i + 1], act, c, flips + [flip], frames + [frame]) ==
            ActionOps(store, a, ents[..i], act, c, flips, frames) + more
    ensures Withered(ents[..i + 1], act) == Withered(ents[..i], act) + (if WithersAt(ents[i], act) then 1 else 0)
  {
    var e1, f1, r1 := ents[..i + 1], flips + [flip], frames + [frame];
    GrassDrawsSnoc(store, a, i, flips, frames, flip, frame);
    assert e1[..i] == ents[..i] && e1[i] == ents[i];
    assert f1[..i] == flips && r1[..i] == frames && f1[i] == flip && r1[i] == frame;
    ActionOpsUnfold(store, a, e1, act, c, f1, r1);
  }

  lemma GrassDrawsSnoc(store: Store, a: AssetIds, n: nat, flips: seq<bool>, frames: seq<nat>, flip: bool, frame: nat)
    requires AssetsFit(store, a) && GrassDraws(store, a, n, flips, frames) && frame < GrassFrameBound(store, a)
    ensures GrassDraws(store, a, n + 1, flips + [flip], frames + [frame])
  {
    assert forall k :: 0 <= k < n ==> (frames + [frame])[k] == frames[k];
  }

  /** ActionOps on a non-empty table, one step unfolded. */
  lemma {:induction false} ActionOpsUnfold(store: Store, a: AssetIds, ents: seq<Entity>, act: SpriteAction, c: nat,
                        flips: seq<bool>, frames: seq<nat>)
    requires AssetsFit(store, a) && GrassDraws(store, a, |ents|, flips, frames) && |ents| > 0
    ensures var n := |ents| - 1;
      ActionOps(store, a, ents, act, c, flips, frames) ==
      ActionOps(store, a, ents[..n], act, c, flips[..n], frames[..n]) +
      OpsAt(store, a, ents[n], n, act, c + 1 + Withered(ents[..n], act), flips[n], frames[n])
  {
  }

  lemma InAppend(x: LazyOp, s: seq<LazyOp>, t: seq<LazyOp>)
    ensures (x in s || x in t) ==> x in s + t
  {
  }

  /** Without a night's sleep or a dig, the action loop queues nothing. */
  lemma {:induction false} ActionOpsIdle(store: Store, a: AssetIds, ents: seq<Entity>, act: SpriteAction, c: nat,
                                          flips: seq<bool>, frames: seq<nat>)
    requires AssetsFit(store, a) && GrassDraws(store, a, |ents|, flips, frames)
    requires act.command != Grow && act.command != Delete
    ensures ActionOps(store, a, ents, act, c, flips, frames) == [] && Withered(ents, act) == 0
    decreases |ents|
  {
    if |ents| > 0 {
      var n := |ents| - 1;
      ActionOpsIdle(store, a, ents[..n], act, c, flips[..n], frames[..n]);
    }
  }

  /** g is grass standing where a withered crop stood. */
  predicate GrassFor(ents: seq<Entity>, act: SpriteAction, g: Entity) {
    && HasItemSpritePos(g) && g.item.value.itemType == Grass
    && exists i :: 0 <= i < |ents| && HasItemSpritePos(ents[i]) && Withers(ents[i], act) &&
         g.pos.value.x == ents[i].pos.value.x && g.pos.value.y == ents[i].pos.value.y
  }

  lemma PrefixPlayer(ents: seq<Entity>, more: seq<Entity>)
    requires OnePlayer(ents + more)
    ensures OnePlayer(ents)
  {
    assert forall k :: 0 <= k < |ents| ==> (ents + more)[k] == ents[k];
  }

  /** Passes that keep identities keep at most one player. */
  lemma SameIdentitiesOnePlayer(a: seq<Entity>, b: seq<Entity>)
    requires SameIdentities(a, b) && OnePlayer(a)
    ensures OnePlayer(b)
  {
    assert forall i :: 0 <= i < |a| ==> (IsPlayer(a[i]) <==> IsPlayer(b[i])) by {
      forall i | 0 <= i < |a| ensures IsPlayer(a[i]) <==> IsPlayer(b[i]) {
        assert SameIdentity(a[i], b[i]);
      }
    }
  }

  lemma QueuedCleanup(store: Store, q: seq<LazyOp>, c: nat, ents: seq<Entity>)
    requires WorldOk(store, ents)
    ensures Queued(store, |ents|, q, q + CleanupOps(store, ents), c, c)
  {
    var ops := CleanupOps(store, ents);
    CleanupTargets(store, ents);
    SpawnedOfRemovals(ops);
    assert (q + ops)[|q|..] == ops;
    forall k | 0 <= k < |ops| && ops[k].Remove? ensures ops[k].target < |ents| {
      assert ops[k] in ops;
    }
  }

  lemma QueuedActions(store: Store, q: seq<LazyOp>, pending: seq<LazyOp>, c: nat, c': nat, ents: seq<Entity>, act: SpriteAction)
    requires q <= pending && ActionOpsOk(ents, act, pending[|q|..])
    requires FreshRun(store, Spawned(pending[|q|..]), c) && c' == c + |Spawned(pending[|q|..])|
    ensures Queued(store, |ents|, q, pending, c, c')
  {
    var ops := pending[|q|..];
    forall k | 0 <= k < |ops| && ops[k].Remove? ensures ops[k].target < |ents| {
      assert ops[k] in ops;
    }
  }

  /** The tick's in-place passes and its queued changes keep the table well
      formed. */
  lemma TickKeepsTable(store: Store, ents0: seq<Entity>, ents: seq<Entity>, q: seq<LazyOp>, pending: seq<LazyOp>, c: nat, c': nat)
    requires TableOk(store, ents0, q, c) && SameIdentities(ents0, ents) && EntsOk(store, ents)
    requires Queued(store, |ents0|, q, pending, c, c')
    ensures TableOk(store, ents, pending, c')
  {
    IdentitiesKeepTable(store, ents0, ents, q, c);
    var ops := pending[|q|..];
    assert pending == q + ops;
    QueueKeepsTable(store, ents, q, c, ops);
  }

  /** The animation loop over the table, and where it met the player. */
  method AnimateAll(store: Store, ents: seq<Entity>, showTransition: bool, input: InputState, time: nat, width: int, height: int)
    returns (es: seq<Entity>, player: Option<nat>)
    requires ValidStore(store) && EntsOk(store, ents) && OnePlayer(ents)
    ensures es == StepAll(store, ents, showTransition, input, time, width, height)
    ensures player == FirstPlayer(ents)
  {
    es := ents;
    player := None;
    var i := 0;
    while i < |es|
      invariant 0 <= i <= |es| == |ents|
      invariant forall k :: 0 <= k < |es| ==>
        es[k] == if k < i then Stepped(store, ents[k], showTransition, input, time, width, height) else ents[k]
      invariant player.None? ==> forall j :: 0 <= j < i ==> !IsPlayer(ents[j])
      invariant player.Some? ==> player.value < i && IsPlayer(ents[player.value])
    {
      assert ElemOk(store, es[i]);
      var a, isPlayer := StepOne(store, es[i], showTransition, input, time, width, height);
      if isPlayer {
        player := Some(i);
      }
      es := es[i := a];
      i := i + 1;
    }
  }

  /** The body of the animation loop for one entity: a sprite with a
      position is animated, and the player's also moves. */
  method StepOne(store: Store, e: Entity, showTransition: bool, input: InputState, time: nat, width: int, height: int)
    returns (a: Entity, isPlayer: bool)
    requires ValidStore(store) && ElemOk(store, e)
    ensures a == Stepped(store, e, showTransition, input, time, width, height)
    ensures isPlayer == IsPlayer(e)
  {
    a, isPlayer := e, false;
    if HasSpritePos(e) {
      a := Animated(store, e, showTransition, time);
      if e.sprite.value.spriteType == Player {
        isPlayer := true;
        var moved := PlayerAfter(a.sprite.value, a.pos.value, input, FrameWait(store, e.sprite.value), time, width, height);
        a := a.(sprite := Some(moved.0), pos := Some(moved.1));
      }
    }
  }

  /** The in-place part of the action loop. */
  method ActOnAll(ents: seq<Entity>, act: SpriteAction, read: bool, a: AssetIds) returns (es: seq<Entity>)
    ensures es == ActAll(ents, act, read, a)
  {
    es := ents;
    var i := 0;
    while i < |es|
      invariant 0 <= i <= |es| == |ents|
      invariant forall k :: 0 <= k < |es| ==>
        es[k] == if k < i && HasItemSpritePos(ents[k]) then ActOn(ents[k], act, read, a) else ents[k]
    {
      if HasItemSpritePos(es[i]) {
        es := es[i := ActOn(es[i], act, read, a)];
      }
      i := i + 1;
    }
  }

  /** The action pass keeps every entity valid, provided a water command is
      for crop-kind sprites only. */
  lemma ActedKeeps(store: Store, ents: seq<Entity>, es: seq<Entity>, act: SpriteAction, read: bool, a: AssetIds)
    requires AssetsFit(store, a) && EntsOk(store, ents) && |es| == |ents|
    requires WateredIsCrop(ents, act)
    requires es == ActAll(ents, act, read, a)
    ensures EntsOk(store, es) && SameIdentities(ents, es)
  {
    forall k | 0 <= k < |es| ensures ElemOk(store, es[k]) && SameIdentity(ents[k], es[k]) {
      assert ElemOk(store, ents[k]);
      if HasItemSpritePos(ents[k]) {
        ActOnKeepsValid(ents[k], act, read, store, a);
      }
    }
  }

  /** The changes the action loop queues for entity i. */
  predicate OpsForOk(e: Entity, i: nat, act: SpriteAction, more: seq<LazyOp>) {
    && (HasItemSpritePos(e) && (Withers(e, act) || Deleted(e, act)) ==>
          Remove(i, SpriteC) in more && Remove(i, PositionC) in more && Remove(i, InteractibleC) in more)
    && (forall op :: op in more && op.Remove? ==>
          op.target == i && HasItemSpritePos(e) && (Withers(e, act) || Deleted(e, act)))
    && (forall op :: op in more && op.Spawn? ==>
          && HasItemSpritePos(e) && Withers(e, act)
          && HasItemSpritePos(op.entity) && op.entity.item.value.itemType == Grass
          && op.entity.pos.value.x == e.pos.value.x && op.entity.pos.value.y == e.pos.value.y)
  }

  lemma ActionOpsAppend(ents: seq<Entity>, i: nat, act: SpriteAction, ops: seq<LazyOp>, more: seq<LazyOp>)
    requires i + 1 == |ents| && ActionOpsOk(ents[..i], act, ops) && OpsForOk(ents[i], i, act, more)
    ensures ActionOpsOk(ents, act, ops + more)
  {
    var pre, pre' := ents[..i], ents;
    assert forall k :: 0 <= k < i ==> pre'[k] == pre[k];
    assert pre'[i] == ents[i];
    forall op | op in ops + more && op.Spawn? ensures GrassFor(pre', act, op.entity) {
      if op in ops {
        var j :| 0 <= j < |pre| && HasItemSpritePos(pre[j]) && Withers(pre[j], act) &&
          op.entity.pos.value.x == pre[j].pos.value.x && op.entity.pos.value.y == pre[j].pos.value.y;
        assert pre'[j] == pre[j];
      } else {
        assert pre'[i] == ents[i];
      }
    }
  }

  /** Two fresh runs in a row are one. */
  lemma FreshRunAppend(store: Store, a: seq<Entity>, b: seq<Entity>, c: nat)
    requires FreshRun(store, a, c) && FreshRun(store, b, c + |a|)
    ensures FreshRun(store, a + b, c)
  {
    forall k | 0 <= k < |a + b| ensures ElemOk(store, (a + b)[k]) && IdOf((a + b)[k]) == c + 1 + k && !IsPlayer((a + b)[k]) {
      if k < |a| {
        assert (a + b)[k] == a[k];
      } else {
        assert (a + b)[k] == b[k - |a|];
      }
    }
  }

  // ---------------------------------------------------------------------
  // One tick as a function of the state it starts from

  /** The held-item and NPC passes keep every entity's identity and
      validity. */
  lemma PrepareKeeps(store: Store, ents0: seq<Entity>, player: (int, int), playerFlip: bool, holding: ItemType,
                     input: InputState, tool: Found, time: nat, targets: seq<(int, int)>)
    requires EntsOk(store, ents0) && |targets| == |ents0|
    ensures var walked := WalkAll(PinAll(ents0, player, playerFlip, holding, input, tool), holding, time, targets);
      EntsOk(store, walked) && SameIdentities(ents0, walked)
  {
    var pinned := PinAll(ents0, player, playerFlip, holding, input, tool);
    PinnedKeeps(store, ents0, pinned, FirstHeld(ents0, holding), player, playerFlip, holding, input, tool);
    var walked := WalkAll(pinned, holding, time, targets);
    WalkedKeeps(store, pinned, walked, holding, time, targets);
    SameIdentitiesTrans(ents0, pinned, walked);
  }

  /** What the first half of the tick leaves: the table after the held-item,
      NPC and animation passes, the game state after the player's input, the
      action command, the entities the input creates, and the searches made
      on the table as it was at the start. */
  datatype Control = Control(ents: seq<Entity>, view: GameView, act: SpriteAction, spawned: seq<Entity>,
                             tool: Found, crop: Found, cropFrom: (int, int))

  /** The first half of the tick from table ents0 and game state v0, with
      the NPC targets and the new plot's facing as drawn. */
  function ControlSpec(store: Store, a: AssetIds, ents0: seq<Entity>, v0: GameView, input: InputState,
                       time: nat, width: int, height: int, c0: nat, targets: seq<(int, int)>, cropFlip: bool): Control
    requires AssetsFit(store, a) && WorldOk(store, ents0) && |targets| == |ents0|
  {
    var view := PlayerView(ents0);
    var center := PlayerCenter(view.0);
    var cropPos := CropSpot(center, view.1);
    var tool := NearestOf(center, Tool, store, ents0);
    var cropFrom := (cropPos.0 + 4, cropPos.1 + 2);
    var crop := NearestOf(cropFrom, SpriteType.Crop, store, ents0);
    var walked := WalkAll(PinAll(ents0, view.0, view.1, v0.holding, input, tool), v0.holding, time, targets);
    ControlFrom(store, a, walked, v0, input, time, width, height, c0, tool, crop, center, cropPos, cropFlip,
                FirstPlayer(ents0).Some?)
  }

  /** The animation pass over table walked and the player's input, when
      there is a player, after the searches found tool and crop. */
  function ControlFrom(store: Store, a: AssetIds, walked: seq<Entity>, v0: GameView, input: InputState,
                       time: nat, width: int, height: int, c0: nat, tool: Found, crop: Found,
                       center: (int, int), cropPos: (int, int), cropFlip: bool, hasPlayer: bool): Control
    requires AssetsFit(store, a)
  {
    // The guard always holds (PrepareKeeps).
    Control(if EntsOk(store, walked) then StepAll(store, walked, v0.showTransition, input, time, width, height) else walked,
            if hasPlayer then ControlGame(v0, input, tool, crop) else v0,
            if hasPlayer && input == Action then ActionPlan(v0.holding, tool, crop, v0.showTerminal).action else NO_ACTION,
            if hasPlayer then PlayerSpawns(input, v0, tool, crop, c0 + 1, store, a, cropPos, center, cropFlip) else [],
            tool, crop, (cropPos.0 + 4, cropPos.1 + 2))
  }

  /** The first half keeps every entity's identity and validity, and the
      entities it creates are fresh. */
  lemma {:induction false} ControlSpecOk(store: Store, a: AssetIds, ents0: seq<Entity>, v0: GameView, input: InputState,
                      time: nat, width: int, height: int, c0: nat, targets: seq<(int, int)>, cropFlip: bool)
    requires AssetsFit(store, a) && WorldOk(store, ents0) && |targets| == |ents0|
    ensures var ctl := ControlSpec(store, a, ents0, v0, input, time, width, height, c0, targets, cropFlip);
      EntsOk(store, ctl.ents) && SameIdentities(ents0, ctl.ents) && FreshRun(store, ctl.spawned, c0)
  {
    var view := PlayerView(ents0);
    var tool := NearestOf(PlayerCenter(view.0), Tool, store, ents0);
    var walked := WalkAll(PinAll(ents0, view.0, view.1, v0.holding, input, tool), v0.holding, time, targets);
    PrepareKeeps(store, ents0, view.0, view.1, v0.holding, input, tool, time, targets);
    var ctl := ControlSpec(store, a, ents0, v0, input, time, width, height, c0, targets, cropFlip);
    SteppedKeeps(store, walked, ctl.ents, v0.showTransition, input, time, width, height);
    SameIdentitiesTrans(ents0, walked, ctl.ents);
  }

  /** The first half's result, with its searches and passes written out. */
  lemma ControlSpecIs(store: Store, a: AssetIds, ents0: seq<Entity>, v0: GameView, input: InputState,
                      time: nat, width: int, height: int, c0: nat, targets: seq<(int, int)>, cropFlip: bool)
    requires AssetsFit(store, a) && WorldOk(store, ents0) && |targets| == |ents0|
    ensures var center := PlayerCenter(PlayerView(ents0).0);
      var cropPos := CropSpot(center, PlayerView(ents0).1);
      var tool := NearestOf(center, Tool, store, ents0);
      var crop := NearestOf((cropPos.0 + 4, cropPos.1 + 2), SpriteType.Crop, store, ents0);
      var walked := WalkAll(PinAll(ents0, PlayerView(ents0).0, PlayerView(ents0).1, v0.holding, input, tool), v0.holding, time, targets);
      var hasPlayer := FirstPlayer(ents0).Some?;
      var ctl := ControlSpec(store, a, ents0, v0, input, time, width, height, c0, targets, cropFlip);
      && EntsOk(store, walked) && ctl.ents == StepAll(store, walked, v0.showTransition, input, time, width, height)
      && (hasPlayer ==> ctl.view == ControlGame(v0, input, tool, crop))
      && (hasPlayer ==> ctl.act == (if input == Action then ActionPlan(v0.holding, tool, crop, v0.showTerminal).action else NO_ACTION))
      && (hasPlayer ==> ctl.spawned == PlayerSpawns(input, v0, tool, crop, c0 + 1, store, a, cropPos, center, cropFlip))
      && (!hasPlayer ==> ctl.view == v0 && ctl.act == NO_ACTION && ctl.spawned == [])
  {
    var center := PlayerCenter(PlayerView(ents0).0);
    var tool := NearestOf(center, Tool, store, ents0);
    PrepareKeeps(store, ents0, PlayerView(ents0).0, PlayerView(ents0).1, v0.holding, input, tool, time, targets);
  }

  /** What the start of the second half leaves: the table, the game state
      and the entity the story creates. */
  datatype Sleep = Sleep(ents: seq<Entity>, view: GameView, spawned: seq<Entity>)

  /** The transition reset and a night's sleep: on Grow the overlays
      rewind, the transition is requested and the story moves on when the
      stage's condition holds on the rewound table. */
  function SleepSpec(store: Store, a: AssetIds, ents: seq<Entity>, v: GameView, act: SpriteAction, c: nat,
                     time: nat, width: int, height: int): Sleep
    requires AssetsFit(store, a)
  {
    if act.command == Grow then
      var rewound := RewindAll(ents);
      var met := StageMet(v.index, v.read, rewound, a.cropFlower);
      Sleep(rewound,
            v.(showTransition := true, index := v.index + (if met then 1 else 0), read := if met then false else v.read),
            StorySpawns(v.index, met, c + 1, store, a, width, height, time))
    else Sleep(ents, v.(showTransition := false), [])
  }

  /** The sleep keeps every entity's identity and validity, and the entity
      it creates is fresh. */
  lemma SleepSpecOk(store: Store, a: AssetIds, ents: seq<Entity>, v: GameView, act: SpriteAction, c: nat,
                    time: nat, width: int, height: int)
    requires AssetsFit(store, a) && EntsOk(store, ents)
    ensures var sl := SleepSpec(store, a, ents, v, act, c, time, width, height);
      EntsOk(store, sl.ents) && SameIdentities(ents, sl.ents) && FreshRun(store, sl.spawned, c)
  {
    if act.command == Grow {
      RewoundKeeps(store, ents, RewindAll(ents));
    }
  }

  /** The random choices of one tick fit the table of n entities: the
      targets the NPCs pick (one per entity) lie inside the terminal, and
      there is a facing and a starting frame of the grass that may replace
      each withered crop. The facing of a new crop plot, cropFlip, is any
      boolean. */
  predicate DrawsFit(store: Store, a: AssetIds, n: nat, width: int, height: int,
                     targets: seq<(int, int)>, flips: seq<bool>, frames: seq<nat>)
    requires AssetsFit(store, a)
  {
    TargetsIn(targets, n, width, height) && GrassDraws(store, a, n, flips, frames)
  }

  /** The id counter after the first half, from c0 before it. */
  function Counted(c0: nat, ctl: Control): nat
  {
    c0 + |ctl.spawned|
  }

  /** The result of one tick: the table, the game state, the action command,
      the queued changes and the id counter. */
  datatype TickOut = TickOut(ents: seq<Entity>, view: GameView, act: SpriteAction, ops: seq<LazyOp>, count: nat)

  /** The second half of the tick after the sleep: the particle cleanup and
      the action pass both read the table the sleep left. */
  function ResolveSpec(store: Store, a: AssetIds, ctl: Control, sl: Sleep, c0: nat, flips: seq<bool>, frames: seq<nat>): TickOut
    requires AssetsFit(store, a) && GrassDraws(store, a, |sl.ents|, flips, frames)
  {
    var c2 := c0 + |ctl.spawned| + |sl.spawned|;
    TickOut(ActAll(sl.ents, ctl.act, sl.view.read, a), sl.view, ctl.act,
            SpawnAll(ctl.spawned) + SpawnAll(sl.spawned) + CleanupOps(store, sl.ents) +
            ActionOps(store, a, sl.ents, ctl.act, c2, flips, frames),
            c2 + Withered(sl.ents, ctl.act))
  }

  /** One tick from table ents0, game state v0 and counter c0: the first
      half, the sleep, then the particle cleanup and the action pass. The
      queue gets the input's creations, the story's, the cleanup's removals
      and the action pass's changes, in that order. */
  function TickSpec(store: Store, a: AssetIds, ents0: seq<Entity>, v0: GameView, input: InputState,
                    time: nat, width: int, height: int, c0: nat, targets: seq<(int, int)>, cropFlip: bool, flips: seq<bool>, frames: seq<nat>): TickOut
    requires AssetsFit(store, a) && WorldOk(store, ents0) && DrawsFit(store, a, |ents0|, width, height, targets, flips, frames)
  {
    TickAfter(store, a, ents0, ControlSpec(store, a, ents0, v0, input, time, width, height, c0, targets, cropFlip),
              time, width, height, c0, flips, frames)
  }

  /** The second half of the tick from table ents0 after the first half
      left ctl. */
  function TickAfter(store: Store, a: AssetIds, ents0: seq<Entity>, ctl: Control, time: nat, width: int, height: int,
                     c0: nat, flips: seq<bool>, frames: seq<nat>): TickOut
    requires AssetsFit(store, a) && GrassDraws(store, a, |ents0|, flips, frames)
  {
    var sl := SleepSpec(store, a, ctl.ents, ctl.view, ctl.act, Counted(c0, ctl), time, width, height);
    // The guard always holds (ControlSpecOk and SleepSpecOk).
    if |sl.ents| == |ents0| then ResolveSpec(store, a, ctl, sl, c0, flips, frames)
    else TickOut(sl.ents, sl.view, ctl.act, [], c0)
  }

  /** The first half's game state and command have the effects ControlFacts
      names, and the nearest crop is the one searched from cropFrom. */
  lemma ControlSpecFacts(store: Store, a: AssetIds, ents0: seq<Entity>, v0: GameView, input: InputState,
                         time: nat, width: int, height: int, c0: nat, targets: seq<(int, int)>, cropFlip: bool)
    requires AssetsFit(store, a) && WorldOk(store, ents0) && |targets| == |ents0|
    ensures var ctl := ControlSpec(store, a, ents0, v0, input, time, width, height, c0, targets, cropFlip);
      && ctl.tool == NearestOf(PlayerCenter(PlayerView(ents0).0), Tool, store, ents0)
      && ctl.crop == NearestOf(ctl.cropFrom, SpriteType.Crop, store, ents0)
      && ControlFacts(v0, ctl.view, input, FirstPlayer(ents0).Some?, ctl.tool, ctl.crop, ctl.act)
  {
    var ctl := ControlSpec(store, a, ents0, v0, input, time, width, height, c0, targets, cropFlip);
    ControlFactsHold(v0, input, FirstPlayer(ents0).Some?, ctl.tool, ctl.crop);
  }

  lemma AppendFour(q: seq<LazyOp>, s1: seq<LazyOp>, s2: seq<LazyOp>, s3: seq<LazyOp>, s4: seq<LazyOp>)
    ensures q + (s1 + s2 + s3 + s4) == q + s1 + s2 + s3 + s4
  {
  }

  /** The second half's result, given the state after the sleep (table e1,
      queue p1, counter c1, read flag r1), the queue p2 after the cleanup and
      the state after the action pass. */
  lemma ResolveSpecIs(store: Store, a: AssetIds, ctl: Control, sl: Sleep, c0: nat, flips: seq<bool>, frames: seq<nat>,
                      q0: seq<LazyOp>, e1: seq<Entity>, p1: seq<LazyOp>, p2: seq<LazyOp>, c1: nat, r1: bool,
                      ents: seq<Entity>, view: GameView, pending: seq<LazyOp>, count: nat)
    requires AssetsFit(store, a) && GrassDraws(store, a, |e1|, flips, frames)
    requires e1 == sl.ents && r1 == sl.view.read && view == sl.view
    requires p1 == q0 + SpawnAll(ctl.spawned) + SpawnAll(sl.spawned) && c1 == c0 + |ctl.spawned| + |sl.spawned|
    requires p2 == p1 + CleanupOps(store, e1)
    requires ents == ActAll(e1, ctl.act, r1, a)
    requires pending == p2 + ActionOps(store, a, e1, ctl.act, c1, flips, frames) && count == c1 + Withered(e1, ctl.act)
    ensures var out := ResolveSpec(store, a, ctl, sl, c0, flips, frames);
      ents == out.ents && view == out.view && pending == q0 + out.ops && count == out.count
  {
    AppendFour(q0, SpawnAll(ctl.spawned), SpawnAll(sl.spawned), CleanupOps(store, sl.ents),
               ActionOps(store, a, sl.ents, ctl.act, c1, flips, frames));
  }

  /** The queue of one tick, as four runs: the input's creations, the
      story's, the cleanup's removals and the action pass's changes. */
  lemma QueuedFour(store: Store, q: seq<LazyOp>, s1: seq<Entity>, s2: seq<Entity>, ents: seq<Entity>,
                   g: seq<LazyOp>, act: SpriteAction, c0: nat, c3: nat)
    requires FreshRun(store, s1, c0) && FreshRun(store, s2, c0 + |s1|) && WorldOk(store, ents)
    requires ActionOpsOk(ents, act, g) && FreshRun(store, Spawned(g), c0 + |s1| + |s2|)
    requires c3 == c0 + |s1| + |s2| + |Spawned(g)|
    ensures Queued(store, |ents|, q, q + (SpawnAll(s1) + SpawnAll(s2) + CleanupOps(store, ents) + g), c0, c3)
  {
    AppendFour(q, SpawnAll(s1), SpawnAll(s2), CleanupOps(store, ents), g);
    var n := |ents|;
    var c1 := c0 + |s1|;
    var c2 := c1 + |s2|;
    var q1 := q + SpawnAll(s1);
    var q2 := q1 + SpawnAll(s2);
    var q3 := q2 + CleanupOps(store, ents);
    QueuedSpawns(store, n, q, q1, c0, c1, s1);
    QueuedSpawns(store, n, q1, q2, c1, c2, s2);
    QueuedTrans(store, n, q, q1, q2, c0, c1, c2);
    QueuedCleanup(store, q2, c2, ents);
    QueuedTrans(store, n, q, q2, q3, c0, c2, c2);
    assert (q3 + g)[|q3|..] == g;
    QueuedActions(store, q3, q3 + g, c2, c3, ents, act);
    QueuedTrans(store, n, q, q3, q3 + g, c0, c2, c3);
  }

  /** The queue of one tick leaves the table well formed: the creations of
      the input and of the story are fresh, the cleanup and the action pass
      remove components of existing entities and create fresh grass, and
      the action pass keeps every entity valid. */
  lemma ResolveKeepsTable(store: Store, a: AssetIds, ents0: seq<Entity>, q: seq<LazyOp>, c0: nat,
                          ctl: Control, sl: Sleep, flips: seq<bool>, frames: seq<nat>)
    requires AssetsFit(store, a) && TableOk(store, ents0, q, c0)
    requires EntsOk(store, sl.ents) && SameIdentities(ents0, sl.ents) && WateredIsCrop(sl.ents, ctl.act)
    requires FreshRun(store, ctl.spawned, c0) && FreshRun(store, sl.spawned, c0 + |ctl.spawned|)
    requires GrassDraws(store, a, |sl.ents|, flips, frames)
    ensures var out := ResolveSpec(store, a, ctl, sl, c0, flips, frames);
      SameIdentities(ents0, out.ents) && TableOk(store, out.ents, q + out.ops, out.count)
  {
    ResolveFacts(store, a, ents0, q, c0, ctl, sl, flips, frames);
    var out := ResolveSpec(store, a, ctl, sl, c0, flips, frames);
    TickKeepsTable(store, ents0, out.ents, q, q + out.ops, c0, out.count);
  }

  /** The second half keeps every entity's identity and validity and queues
      only fresh creations and removals of existing entities. */
  lemma {:induction false} ResolveFacts(store: Store, a: AssetIds, ents0: seq<Entity>, q: seq<LazyOp>, c0: nat,
                     ctl: Control, sl: Sleep, flips: seq<bool>, frames: seq<nat>)
    requires AssetsFit(store, a) && ValidStore(store)
    requires EntsOk(store, sl.ents) && SameIdentities(ents0, sl.ents) && WateredIsCrop(sl.ents, ctl.act)
    requires FreshRun(store, ctl.spawned, c0) && FreshRun(store, sl.spawned, c0 + |ctl.spawned|)
    requires GrassDraws(store, a, |sl.ents|, flips, frames)
    ensures var out := ResolveSpec(store, a, ctl, sl, c0, flips, frames);
      EntsOk(store, out.ents) && SameIdentities(ents0, out.ents) && Queued(store, |ents0|, q, q + out.ops, c0, out.count)
  {
    ResolveSpecShape(store, a, ctl, sl, c0, flips, frames);
    var out := ResolveSpec(store, a, ctl, sl, c0, flips, frames);
    ActedKeeps(store, sl.ents, out.ents, ctl.act, sl.view.read, a);
    SameIdentitiesTrans(ents0, sl.ents, out.ents);
    ResolveQueued(store, a, q, c0, ctl.spawned, sl.spawned, sl.ents, ctl.act, flips, frames,
                  |ents0|, out.ops, out.count);
  }

  /** The second half's result, written out. */
  lemma {:induction false} ResolveSpecShape(store: Store, a: AssetIds, ctl: Control, sl: Sleep, c0: nat, flips: seq<bool>, frames: seq<nat>)
    requires AssetsFit(store, a) && GrassDraws(store, a, |sl.ents|, flips, frames)
    ensures ResolveSpec(store, a, ctl, sl, c0, flips, frames) ==
      TickOut(ActAll(sl.ents, ctl.act, sl.view.read, a), sl.view, ctl.act,
              SpawnAll(ctl.spawned) + SpawnAll(sl.spawned) + CleanupOps(store, sl.ents)
              + ActionOps(store, a, sl.ents, ctl.act, c0 + |ctl.spawned| + |sl.spawned|, flips, frames),
              c0 + |ctl.spawned| + |sl.spawned| + Withered(sl.ents, ctl.act))
  {
  }

  /** The second half's game state is the sleep's and its command the
      first half's. */
  lemma ResolveSpecAct(store: Store, a: AssetIds, ctl: Control, sl: Sleep, c0: nat, flips: seq<bool>, frames: seq<nat>)
    requires AssetsFit(store, a) && GrassDraws(store, a, |sl.ents|, flips, frames)
    ensures ResolveSpec(store, a, ctl, sl, c0, flips, frames).act == ctl.act
    ensures ResolveSpec(store, a, ctl, sl, c0, flips, frames).view == sl.view
  {
  }

  /** The queue of one tick's second half, given as ops: n entities and
      counter c0 before it, count after it. */
  lemma {:induction false} ResolveQueued(store: Store, a: AssetIds, q: seq<LazyOp>, c0: nat, s1: seq<Entity>, s2: seq<Entity>,
                      ents: seq<Entity>, act: SpriteAction, flips: seq<bool>, frames: seq<nat>,
                      n: nat, ops: seq<LazyOp>, count: nat)
    requires AssetsFit(store, a) && WorldOk(store, ents)
    requires FreshRun(store, s1, c0) && FreshRun(store, s2, c0 + |s1|)
    requires GrassDraws(store, a, |ents|, flips, frames)
    requires n == |ents|
    requires ops == SpawnAll(s1) + SpawnAll(s2) + CleanupOps(store, ents) + ActionOps(store, a, ents, act, c0 + |s1| + |s2|, flips, frames)
    requires count == c0 + |s1| + |s2| + Withered(ents, act)
    ensures Queued(store, n, q, q + ops, c0, count)
  {
    var c2 := c0 + |s1| + |s2|;
    var g := ActionOps(store, a, ents, act, c2, flips, frames);
    ActionOpsMeet(store, a, ents, act, c2, flips, frames);
    ActionOpsFresh(store, a, ents, act, c2, flips, frames);
    assert |Spawned(g)| == Withered(ents, act);
    QueuedFour(store, q, s1, s2, ents, g, act, c0, count);
  }

  lemma ControlSpecLength(store: Store, a: AssetIds, ents0: seq<Entity>, v0: GameView, input: InputState,
                          time: nat, width: int, height: int, c0: nat, targets: seq<(int, int)>, cropFlip: bool)
    requires AssetsFit(store, a) && WorldOk(store, ents0) && |targets| == |ents0|
    ensures |ControlSpec(store, a, ents0, v0, input, time, width, height, c0, targets, cropFlip).ents| == |ents0|
  {
  }

  lemma SleepSpecLength(store: Store, a: AssetIds, ents: seq<Entity>, v: GameView, act: SpriteAction, c: nat,
                        time: nat, width: int, height: int)
    requires AssetsFit(store, a)
    ensures |SleepSpec(store, a, ents, v, act, c, time, width, height).ents| == |ents|
  {
  }

  lemma TickAfterIs(store: Store, a: AssetIds, ents0: seq<Entity>, ctl: Control, time: nat, width: int, height: int,
                    c0: nat, flips: seq<bool>, frames: seq<nat>)
    requires AssetsFit(store, a) && GrassDraws(store, a, |ents0|, flips, frames) && |ctl.ents| == |ents0|
    ensures var sl := SleepSpec(store, a, ctl.ents, ctl.view, ctl.act, Counted(c0, ctl), time, width, height);
      TickAfter(store, a, ents0, ctl, time, width, height, c0, flips, frames) == ResolveSpec(store, a, ctl, sl, c0, flips, frames)
  {
    SleepSpecLength(store, a, ctl.ents, ctl.view, ctl.act, Counted(c0, ctl), time, width, height);
  }

  /** The tick's two halves keep the number of entities, so the tick is
      the second half's result. */
  lemma TickSpecUnfold(store: Store, a: AssetIds, ents0: seq<Entity>, v0: GameView, input: InputState,
                       time: nat, width: int, height: int, c0: nat, targets: seq<(int, int)>, cropFlip: bool, flips: seq<bool>, frames: seq<nat>)
    requires AssetsFit(store, a) && WorldOk(store, ents0) && DrawsFit(store, a, |ents0|, width, height, targets, flips, frames)
    ensures var ctl := ControlSpec(store, a, ents0, v0, input, time, width, height, c0, targets, cropFlip);
      var sl := SleepSpec(store, a, ctl.ents, ctl.view, ctl.act, Counted(c0, ctl), time, width, height);
      TickSpec(store, a, ents0, v0, input, time, width, height, c0, targets, cropFlip, flips, frames) == ResolveSpec(store, a, ctl, sl, c0, flips, frames)
  {
    var ctl := ControlSpec(store, a, ents0, v0, input, time, width, height, c0, targets, cropFlip);
    ControlSpecLength(store, a, ents0, v0, input, time, width, height, c0, targets, cropFlip);
    TickAfterIs(store, a, ents0, ctl, time, width, height, c0, flips, frames);
  }

  /** A tick keeps the table well formed: every pass keeps each entity's
      identity and validity, the watering target is still a crop when the
      action pass runs, and everything queued is a removal for an existing
      entity or a fresh entity with the next id. */
  lemma TickSpecKeepsTable(store: Store, a: AssetIds, ents0: seq<Entity>, v0: GameView, input: InputState,
                           time: nat, width: int, height: int, q: seq<LazyOp>, c0: nat, targets: seq<(int, int)>, cropFlip: bool, flips: seq<bool>, frames: seq<nat>)
    requires AssetsFit(store, a) && TableOk(store, ents0, q, c0) && DrawsFit(store, a, |ents0|, width, height, targets, flips, frames)
    ensures var out := TickSpec(store, a, ents0, v0, input, time, width, height, c0, targets, cropFlip, flips, frames);
      SameIdentities(ents0, out.ents) && TableOk(store, out.ents, q + out.ops, out.count)
  {
    TablePrefix(store, ents0, q, c0);
    var ctl := ControlSpec(store, a, ents0, v0, input, time, width, height, c0, targets, cropFlip);
    var sl := SleepSpec(store, a, ctl.ents, ctl.view, ctl.act, Counted(c0, ctl), time, width, height);
    ControlSpecOk(store, a, ents0, v0, input, time, width, height, c0, targets, cropFlip);
    SleepSpecOk(store, a, ctl.ents, ctl.view, ctl.act, Counted(c0, ctl), time, width, height);
    TickSpecUnfold(store, a, ents0, v0, input, time, width, height, c0, targets, cropFlip, flips, frames);
    ControlSpecFacts(store, a, ents0, v0, input, time, width, height, c0, targets, cropFlip);
    SameIdentitiesTrans(ents0, ctl.ents, sl.ents);
    WaterTargetIsCrop(store, ents0, sl.ents, ctl.cropFrom, ctl.crop, ctl.act);
    ResolveKeepsTable(store, a, ents0, q, c0, ctl, sl, flips, frames);
  }

  /** After the first half the table is valid and the watering target is
      still a crop, as the second half needs. */
  lemma ControlHalfOk(store: Store, a: AssetIds, ents0: seq<Entity>, v0: GameView, input: InputState,
                      time: nat, width: int, height: int, q: seq<LazyOp>, c0: nat, targets: seq<(int, int)>,
                      cropFlip: bool)
    requires AssetsFit(store, a) && TableOk(store, ents0, q, c0) && TargetsIn(targets, |ents0|, width, height)
    ensures var ctl := ControlSpec(store, a, ents0, v0, input, time, width, height, c0, targets, cropFlip);
      EntsOk(store, ctl.ents) && WateredIsCrop(ctl.ents, ctl.act)
  {
    var ctl := ControlSpec(store, a, ents0, v0, input, time, width, height, c0, targets, cropFlip);
    TablePrefix(store, ents0, q, c0);
    ControlSpecOk(store, a, ents0, v0, input, time, width, height, c0, targets, cropFlip);
    ControlSpecFacts(store, a, ents0, v0, input, time, width, height, c0, targets, cropFlip);
    WaterTargetIsCrop(store, ents0, ctl.ents, ctl.cropFrom, ctl.crop, ctl.act);
  }

  /** The state after both halves (table ents, game state view, queue
      pending, counter count) is the tick's result. */
  lemma TickIs(store: Store, a: AssetIds, ents0: seq<Entity>, v0: GameView, input: InputState,
               time: nat, width: int, height: int, q: seq<LazyOp>, c0: nat,
               targets: seq<(int, int)>, cropFlip: bool, flips: seq<bool>, frames: seq<nat>,
               ents: seq<Entity>, view: GameView, act: SpriteAction, pending: seq<LazyOp>, count: nat)
    requires AssetsFit(store, a) && WorldOk(store, ents0) && v0.index <= 9
    requires TargetsIn(targets, |ents0|, width, height)
    requires var ctl := ControlSpec(store, a, ents0, v0, input, time, width, height, c0, targets, cropFlip);
      GrassDraws(store, a, |ctl.ents|, flips, frames)
    requires var ctl := ControlSpec(store, a, ents0, v0, input, time, width, height, c0, targets, cropFlip);
      var sl := SleepSpec(store, a, ctl.ents, ctl.view, ctl.act, Counted(c0, ctl), time, width, height);
      var out := ResolveSpec(store, a, ctl, sl, c0, flips, frames);
      act == ctl.act && ents == out.ents && view == out.view && pending == q + out.ops && count == out.count
    ensures DrawsFit(store, a, |ents0|, width, height, targets, flips, frames)
    ensures var out := TickSpec(store, a, ents0, v0, input, time, width, height, c0, targets, cropFlip, flips, frames);
      && ents == out.ents && view == out.view && act == out.act
      && pending == q + out.ops && count == out.count
    ensures view.index <= 9
  {
    ControlSpecLength(store, a, ents0, v0, input, time, width, height, c0, targets, cropFlip);
    TickSpecUnfold(store, a, ents0, v0, input, time, width, height, c0, targets, cropFlip, flips, frames);
    ResolveSpecAct(store, a, ControlSpec(store, a, ents0, v0, input, time, width, height, c0, targets, cropFlip),
                   SleepSpec(store, a, ControlSpec(store, a, ents0, v0, input, time, width, height, c0, targets, cropFlip).ents,
                             ControlSpec(store, a, ents0, v0, input, time, width, height, c0, targets, cropFlip).view,
                             ControlSpec(store, a, ents0, v0, input, time, width, height, c0, targets, cropFlip).act,
                             Counted(c0, ControlSpec(store, a, ents0, v0, input, time, width, height, c0, targets, cropFlip)),
                             time, width, height),
                   c0, flips, frames);
    TickStory(store, a, ents0, v0, input, time, width, height, c0, targets, cropFlip, flips, frames);
  }

  /** The table after a tick (ents, queue pending, counter count) is still
      well formed. */
  lemma TickTable(store: Store, a: AssetIds, ents0: seq<Entity>, v0: GameView, input: InputState,
                  time: nat, width: int, height: int, q: seq<LazyOp>, c0: nat, targets: seq<(int, int)>, cropFlip: bool, flips: seq<bool>, frames: seq<nat>,
                  ents: seq<Entity>, pending: seq<LazyOp>, count: nat)
    requires AssetsFit(store, a) && TableOk(store, ents0, q, c0) && DrawsFit(store, a, |ents0|, width, height, targets, flips, frames)
    requires var out := TickSpec(store, a, ents0, v0, input, time, width, height, c0, targets, cropFlip, flips, frames);
      ents == out.ents && pending == q + out.ops && count == out.count
    ensures TableOk(store, ents, pending, count)
  {
    TickSpecKeepsTable(store, a, ents0, v0, input, time, width, height, q, c0, targets, cropFlip, flips, frames);
  }

  /** What one tick does to the story and the transition: the message
      index stays at most 9 and rises by at most one, only on a night's
      sleep, which is exactly when the transition is requested. */
  lemma TickStory(store: Store, a: AssetIds, ents0: seq<Entity>, v0: GameView, input: InputState,
                  time: nat, width: int, height: int, c0: nat, targets: seq<(int, int)>, cropFlip: bool, flips: seq<bool>, frames: seq<nat>)
    requires AssetsFit(store, a) && WorldOk(store, ents0) && DrawsFit(store, a, |ents0|, width, height, targets, flips, frames)
    requires v0.index <= 9
    ensures var out := TickSpec(store, a, ents0, v0, input, time, width, height, c0, targets, cropFlip, flips, frames);
      && out.view.index <= 9
      && (out.view.index == v0.index || out.view.index == v0.index + 1)
      && (out.view.index != v0.index ==> out.act.command == Grow)
      && (out.view.showTransition <==> out.act.command == Grow)
  {
    var ctl := ControlSpec(store, a, ents0, v0, input, time, width, height, c0, targets, cropFlip);
    var sl := SleepSpec(store, a, ctl.ents, ctl.view, ctl.act, Counted(c0, ctl), time, width, height);
    TickSpecUnfold(store, a, ents0, v0, input, time, width, height, c0, targets, cropFlip, flips, frames);
    ControlSpecLength(store, a, ents0, v0, input, time, width, height, c0, targets, cropFlip);
    ResolveSpecShape(store, a, ctl, sl, c0, flips, frames);
    ControlSpecFacts(store, a, ents0, v0, input, time, width, height, c0, targets, cropFlip);
    SleepViewFacts(store, a, ctl.ents, v0, ctl.view, input, FirstPlayer(ents0).Some?, ctl.tool, ctl.crop, ctl.act,
                   Counted(c0, ctl), time, width, height);
  }

  /** What one tick does to what the player holds and to the help line:
      pickup and ? act only when there is a player, and sleeping needs
      empty hands next to the pod. */
  lemma {:induction false} TickHands(store: Store, a: AssetIds, ents0: seq<Entity>, v0: GameView, input: InputState,
                  time: nat, width: int, height: int, c0: nat, targets: seq<(int, int)>, cropFlip: bool, flips: seq<bool>, frames: seq<nat>)
    requires AssetsFit(store, a) && WorldOk(store, ents0) && DrawsFit(store, a, |ents0|, width, height, targets, flips, frames)
    ensures var out := TickSpec(store, a, ents0, v0, input, time, width, height, c0, targets, cropFlip, flips, frames);
      var tool := NearestOf(PlayerCenter(PlayerView(ents0).0), Tool, store, ents0);
      && out.view.holding == (if input == Pickup && FirstPlayer(ents0).Some? then PickupResult(v0.holding, tool) else v0.holding)
      && out.view.showHelp == (if input == ToggleHelp && FirstPlayer(ents0).Some? then !v0.showHelp else v0.showHelp)
      && (out.act.command == Grow ==> input == Action && v0.holding == NoItem && tool.itemType == Pod)
  {
    var ctl := ControlSpec(store, a, ents0, v0, input, time, width, height, c0, targets, cropFlip);
    var sl := SleepSpec(store, a, ctl.ents, ctl.view, ctl.act, Counted(c0, ctl), time, width, height);
    TickSpecUnfold(store, a, ents0, v0, input, time, width, height, c0, targets, cropFlip, flips, frames);
    ControlSpecLength(store, a, ents0, v0, input, time, width, height, c0, targets, cropFlip);
    ResolveSpecShape(store, a, ctl, sl, c0, flips, frames);
    ControlSpecFacts(store, a, ents0, v0, input, time, width, height, c0, targets, cropFlip);
    assert sl.view.holding == ctl.view.holding && sl.view.showHelp == ctl.view.showHelp;
  }

  /** The sleep after the input handling: the message index stays at most 9
      and rises by at most one, only on a night's sleep, which is exactly
      when the transition is requested. */
  lemma SleepViewFacts(store: Store, a: AssetIds, ents: seq<Entity>, v0: GameView, v: GameView, input: InputState,
                       hasPlayer: bool, tool: Found, crop: Found, act: SpriteAction, c: nat,
                       time: nat, width: int, height: int)
    requires AssetsFit(store, a) && v0.index <= 9 && ControlFacts(v0, v, input, hasPlayer, tool, crop, act)
    ensures var w := SleepSpec(store, a, ents, v, act, c, time, width, height).view;
      && w.index <= 9
      && (w.index == v0.index || w.index == v0.index + 1)
      && (w.index != v0.index ==> act.command == Grow)
      && (w.showTransition <==> act.command == Grow)
      && w.holding == v.holding && w.showHelp == v.showHelp
  {
    if act.command == Grow && v0.index > 8 {
      StoryEnds(v.index, v.read, RewindAll(ents), a.cropFlower);
    }
  }

  /** A tick without the action key creates nothing and leaves the story
      where it is: the command is none, the transition flag is reset, and
      the only queued changes are the removals of finished particles. */
  lemma {:induction false} QuietTick(store: Store, a: AssetIds, ents0: seq<Entity>, v0: GameView, input: InputState,
                  time: nat, width: int, height: int, c0: nat, targets: seq<(int, int)>, cropFlip: bool, flips: seq<bool>, frames: seq<nat>)
    requires AssetsFit(store, a) && WorldOk(store, ents0) && DrawsFit(store, a, |ents0|, width, height, targets, flips, frames)
    requires input != Action
    ensures var out := TickSpec(store, a, ents0, v0, input, time, width, height, c0, targets, cropFlip, flips, frames);
      && out.act == NO_ACTION && out.count == c0
      && out.view.index == v0.index && !out.view.showTransition
      && out.ops == CleanupOps(store, ControlSpec(store, a, ents0, v0, input, time, width, height, c0, targets, cropFlip).ents)
  {
    var ctl := ControlSpec(store, a, ents0, v0, input, time, width, height, c0, targets, cropFlip);
    TickSpecUnfold(store, a, ents0, v0, input, time, width, height, c0, targets, cropFlip, flips, frames);
    ControlSpecLength(store, a, ents0, v0, input, time, width, height, c0, targets, cropFlip);
    assert ctl.act == NO_ACTION && ctl.spawned == [];
    var sl := SleepSpec(store, a, ctl.ents, ctl.view, ctl.act, c0, time, width, height);
    assert sl.ents == ctl.ents && sl.spawned == [] && !sl.view.showTransition && sl.view.index == ctl.view.index;
    ResolveSpecShape(store, a, ctl, sl, c0, flips, frames);
    ActionOpsIdle(store, a, ctl.ents, ctl.act, c0, flips, frames);
    assert SpawnAll(ctl.spawned) == [] && SpawnAll(sl.spawned) == [];
    OnlyMiddle(CleanupOps(store, ctl.ents));
  }

  lemma OnlyMiddle(x: seq<LazyOp>)
    ensures [] + [] + x + [] == x
  {
  }

  /** The state one tick reads and writes: the entity table, the queue of
      deferred changes, the asset store, the game state, the id counter and
      the random source. */
  class World {
    var ents: seq<Entity>
    var pending: seq<LazyOp>
    const store: Store
    const assets: AssetIds
    const game: Game
    const indexer: SpriteIndexer
    const rng: Rng

    ghost predicate Valid()
      reads this, game, indexer
    {
      && AssetsOk(store, assets)
      && |game.terminalMessages| == 10
      && game.terminalMessageIndex <= 9
      && TableOk(store, ents, pending, indexer.count)
    }

    constructor (ents: seq<Entity>, store: Store, assets: AssetIds, game: Game, indexer: SpriteIndexer, rng: Rng)
      ensures this.ents == ents && this.pending == [] && this.store == store && this.assets == assets
      ensures this.game == game && this.indexer == indexer && this.rng == rng
    {
      this.ents := ents;
      this.pending := [];
      this.store := store;
      this.assets := assets;
      this.game := game;
      this.indexer := indexer;
      this.rng := rng;
    }

    /** The held-item loop: reset and recompute highlights until the first
        held item, which is pinned to the player. */
    method PinItems(player: (int, int), playerFlip: bool, input: InputState, tool: Found)
      requires EntsOk(store, ents)
      modifies this`ents
      ensures ents == PinAll(old(ents), player, playerFlip, game.holding, input, tool)
      ensures EntsOk(store, ents) && SameIdentities(old(ents), ents)
    {
      var holding := game.holding;
      var es := ents;
      ghost var ents0 := es;
      ghost var held := FirstHeld(ents0, holding);
      var i := 0;
      while i < |es|
        invariant i <= |es|
        invariant held.None? || i <= held.value
        invariant PinnedUpTo(ents0, es, i, held, player, playerFlip, holding, input, tool)
      {
        var e := es[i];
        if HasItemSpritePos(e) {
          if holding == e.item.value.itemType {
            PinHeld(ents0, es, i, held, player, playerFlip, holding, input, tool);
            es := es[i := Pin(e, player, playerFlip, holding, input)];
            break;
          }
          PinPass(ents0, es, i, held, player, playerFlip, holding, input, tool);
          es := es[i := Highlight(e, holding, tool)];
        } else {
          PinPass(ents0, es, i, held, player, playerFlip, holding, input, tool);
        }
        i := i + 1;
      }
      PinnedDone(store, ents0, es, player, playerFlip, holding, input, tool);
      ents := es;
    }

    /** The NPC loop. The targets drawn by the NPCs that pick a new one lie
        in [8, width-8) x [4, height-4); the ghost `targets` records them. */
    method WalkNpcs(time: nat, width: int, height: int) returns (ghost targets: seq<(int, int)>)
      requires EntsOk(store, ents)
      requires width > 16 && height > 8
      modifies this`ents, rng
      ensures TargetsIn(targets, |old(ents)|, width, height)
      ensures ents == WalkAll(old(ents), game.holding, time, targets)
      ensures EntsOk(store, ents) && SameIdentities(old(ents), ents)
    {
      ghost var ents0 := ents;
      var holding := game.holding;
      var es := ents;
      targets := [];
      var i := 0;
      while i < |es|
        invariant 0 <= i <= |es| == |ents0| && |targets| == i && ents == ents0
        invariant forall k :: 0 <= k < i ==> 8 <= targets[k].0 < width - 8 && 4 <= targets[k].1 < height - 4
        invariant forall k :: 0 <= k < |es| ==>
          es[k] == if k < i && HasNpcPosSprite(ents0[k]) then NpcStep(ents0[k], holding, time, targets[k]) else ents0[k]
      {
        var e := es[i];
        var next := (8, 4);
        if HasNpcPosSprite(e) {
          if NpcRetargets(e, holding, time) {
            var x := rng.GenRange(8, width - 8);
            var y := rng.GenRange(4, height - 4);
            next := (x, y);
          }
          es := es[i := NpcStep(e, holding, time, next)];
        }
        targets := targets + [next];
        i := i + 1;
      }
      WalkedKeeps(store, ents, es, holding, time, targets);
      ents := es;
    }

    /** The searches on the table as it is at the start of the tick, then
        the held-item and NPC loops, which keep every entity's identity. */
    method Prepare(input: InputState, time: nat, width: int, height: int)
      returns (center: (int, int), tool: Found, cropPos: (int, int), crop: Found, ghost targets: seq<(int, int)>)
      requires WorldOk(store, ents) && width > 16 && height > 8
      modifies this`ents, rng
      ensures center == PlayerCenter(PlayerView(old(ents)).0) && cropPos == CropSpot(center, PlayerView(old(ents)).1)
      ensures tool == NearestOf(center, Tool, store, old(ents))
      ensures crop == NearestOf((cropPos.0 + 4, cropPos.1 + 2), SpriteType.Crop, store, old(ents))
      ensures TargetsIn(targets, |old(ents)|, width, height)
      ensures ents == WalkAll(PinAll(old(ents), PlayerView(old(ents)).0, PlayerView(old(ents)).1, game.holding, input, tool),
                              game.holding, time, targets)
      ensures EntsOk(store, ents) && SameIdentities(old(ents), ents)
    {
      var playerAt, playerFlip;
      playerAt, playerFlip, center, tool, cropPos, crop := Survey();
      ghost var pinned := ents;
      PinItems(playerAt, playerFlip, input, tool);
      ghost var walked := ents;
      targets := WalkNpcs(time, width, height);
      SameIdentitiesTrans(old(ents), walked, ents);
    }

    /** The entities the action key creates, with ids drawn in creation
        order and the empty crop's facing drawn from the random source. */
    method SpawnForPlan(plan: Plan, center: (int, int), cropPos: (int, int)) returns (spawned: seq<Entity>, ghost cropFlip: bool)
      requires AssetsFit(store, assets)
      modifies indexer, rng
      ensures spawned == ActionSpawns(plan, old(indexer.count) + 1, store, assets, cropPos, center, cropFlip)
      ensures indexer.count == old(indexer.count) + |spawned|
    {
      ghost var c0 := indexer.count;
      cropFlip := false;
      spawned := [];
      if plan.particle.Some? {
        var kind := plan.particle.value;
        var id := indexer.NewIndex();
        var at := if kind == HeartParticle then (center.0, center.1 - 2) else cropPos;
        spawned := [ParticleEntity(kind, id, store, assets, at)];
      }
      if plan.plantsCrop {
        var id := indexer.NewIndex();
        var coin := rng.GenRange(0, 2);
        var facing := coin == 0;
        cropFlip := facing;
        spawned := spawned + [EmptyCropEntity(id, store, assets, cropPos, facing)];
      }
    }

    /** The terminal's response to the action key. */
    method MoveTerminal(move: TerminalMove)
      modifies game`showTerminal, game`terminalRead
      ensures ViewOf(game) == TerminalAfter(old(ViewOf(game)), move)
    {
      match move {
        case CloseTerminal =>
          game.showTerminal := false;
          game.terminalRead := true;
        case OpenTerminal =>
          game.showTerminal := true;
        case KeepTerminal =>
      }
    }

    /** The action key: the command and terminal move the plan decides, and
        the entities it creates. */
    method PerformAction(tool: Found, crop: Found, center: (int, int), cropPos: (int, int))
      returns (act: SpriteAction, ghost cropFlip: bool)
      requires AssetsFit(store, assets)
      modifies game`showTerminal, game`terminalRead, indexer, rng, this`pending
      ensures var plan := ActionPlan(old(game.holding), tool, crop, old(game.showTerminal));
        && act == plan.action
        && ViewOf(game) == TerminalAfter(old(ViewOf(game)), plan.terminal)
        && var es := ActionSpawns(plan, old(indexer.count) + 1, store, assets, cropPos, center, cropFlip);
           Enqueued(old(pending), pending, old(indexer.count), indexer.count, es)
    {
      var plan := ActionPlan(game.holding, tool, crop, game.showTerminal);
      act := plan.action;
      MoveTerminal(plan.terminal);
      var spawned;
      spawned, cropFlip := SpawnForPlan(plan, center, cropPos);
      pending := pending + SpawnAll(spawned);
    }

    /** The player's keys other than the action key, on the game state. */
    method ApplyKey(input: InputState, tool: Found, crop: Found)
      requires input != Action
      modifies game`showTerminal, game`holding, game`showHelp, game`clearScreen
      ensures ViewOf(game) == ControlGame(old(ViewOf(game)), input, tool, crop)
    {
      if Moves(input) {
        if game.showTerminal {
          game.showTerminal := false;
        }
      } else if input == Pickup {
        game.holding := PickupResult(game.holding, tool);
      } else if input == ToggleHelp {
        game.showHelp := !game.showHelp;
      } else if input == Clear {
        game.clearScreen := true;
      } else if input == NoInput {
        game.clearScreen := false;
      }
    }

    /** The player's handling of its input, on the game state: the
        game-state changes, the action command and the entities created.
        (Its effect on the player's sprite is Controlled.) */
    method HandleInput(input: InputState, tool: Found, crop: Found, center: (int, int), cropPos: (int, int),
                       ghost v0: GameView, ghost c0: nat)
      returns (act: SpriteAction, ghost cropFlip: bool, ghost spawned: seq<Entity>)
      requires AssetsFit(store, assets) && v0 == ViewOf(game) && c0 == indexer.count
      modifies game, indexer, rng, this`pending
      ensures act == if input == Action then ActionPlan(v0.holding, tool, crop, v0.showTerminal).action else NO_ACTION
      ensures ViewOf(game) == ControlGame(v0, input, tool, crop)
      ensures game.terminalMessages == old(game.terminalMessages)
      ensures spawned == PlayerSpawns(input, v0, tool, crop, c0 + 1, store, assets, cropPos, center, cropFlip)
      ensures FreshRun(store, spawned, c0)
      ensures Enqueued(old(pending), pending, c0, indexer.count, spawned)
    {
      act, cropFlip := NO_ACTION, false;
      spawned := PlayerSpawns(input, v0, tool, crop, c0 + 1, store, assets, cropPos, center, cropFlip);
      if input == Action {
        act, cropFlip := PerformAction(tool, crop, center, cropPos);
        spawned := PlayerSpawns(input, v0, tool, crop, c0 + 1, store, assets, cropPos, center, cropFlip);
      } else {
        ApplyKey(input, tool, crop);
        assert pending + SpawnAll([]) == pending;
      }
    }

    /** The animation loop: every sprite with a position is animated; the
        player (there is at most one) also handles its input. */
    method AnimateAndControl(input: InputState, time: nat, width: int, height: int, tool: Found, crop: Found,
                             center: (int, int), cropPos: (int, int),
                             ghost walked: seq<Entity>, ghost v0: GameView, ghost q0: seq<LazyOp>, ghost c0: nat, ghost hasPlayer: bool)
      returns (act: SpriteAction, ghost cropFlip: bool, ghost spawned: seq<Entity>)
      requires AssetsFit(store, assets) && EntsOk(store, ents) && OnePlayer(ents)
      requires walked == ents && v0 == ViewOf(game) && q0 == pending && c0 == indexer.count
      requires hasPlayer == FirstPlayer(ents).Some?
      modifies this`ents, this`pending, game, indexer, rng
      ensures game.terminalMessages == old(game.terminalMessages)
      ensures ents == StepAll(store, walked, v0.showTransition, input, time, width, height)
      ensures hasPlayer ==> ViewOf(game) == ControlGame(v0, input, tool, crop)
      ensures hasPlayer ==> act == (if input == Action then ActionPlan(v0.holding, tool, crop, v0.showTerminal).action else NO_ACTION)
      ensures hasPlayer ==> spawned == PlayerSpawns(input, v0, tool, crop, c0 + 1, store, assets, cropPos, center, cropFlip)
      ensures !hasPlayer ==> ViewOf(game) == v0 && act == NO_ACTION && spawned == []
      ensures pending == q0 + SpawnAll(spawned) && indexer.count == c0 + |spawned|
    {
      var es, player := AnimateAll(store, ents, game.showTransition, input, time, width, height);
      ents := es;
      assert player.Some? == hasPlayer;
      act, cropFlip, spawned := ControlInput(player.Some?, input, tool, crop, center, cropPos, v0, q0, c0);
    }

    /** The player's input, handled only when there is a player. */
    method ControlInput(hasPlayer: bool, input: InputState, tool: Found, crop: Found, center: (int, int), cropPos: (int, int),
                        ghost v0: GameView, ghost q0: seq<LazyOp>, ghost c0: nat)
      returns (act: SpriteAction, ghost cropFlip: bool, ghost spawned: seq<Entity>)
      requires AssetsFit(store, assets) && v0 == ViewOf(game) && q0 == pending && c0 == indexer.count
      modifies game, indexer, rng, this`pending
      ensures game.terminalMessages == old(game.terminalMessages)
      ensures hasPlayer ==> ViewOf(game) == ControlGame(v0, input, tool, crop)
      ensures hasPlayer ==> act == (if input == Action then ActionPlan(v0.holding, tool, crop, v0.showTerminal).action else NO_ACTION)
      ensures hasPlayer ==> spawned == PlayerSpawns(input, v0, tool, crop, c0 + 1, store, assets, cropPos, center, cropFlip)
      ensures !hasPlayer ==> ViewOf(game) == v0 && act == NO_ACTION && spawned == []
      ensures pending == q0 + SpawnAll(spawned) && indexer.count == c0 + |spawned|
    {
      act, cropFlip, spawned := NO_ACTION, false, [];
      if hasPlayer {
        act, cropFlip, spawned := HandleInput(input, tool, crop, center, cropPos, v0, c0);
      } else {
        assert pending == old(pending) + SpawnAll([]);
      }
    }

    /** Overlay tiles go back to their first frame. */
    method RewindOverlays()
      requires EntsOk(store, ents)
      modifies this`ents
      ensures ents == RewindAll(old(ents))
      ensures EntsOk(store, ents) && SameIdentities(old(ents), ents)
    {
      var es := ents;
      var i := 0;
      while i < |es|
        invariant 0 <= i <= |es| == |ents|
        invariant forall k :: 0 <= k < |es| ==> es[k] == if k < i then Rewound(ents[k]) else ents[k]
      {
        es := es[i := Rewound(es[i])];
        i := i + 1;
      }
      RewoundKeeps(store, ents, es);
      ents := es;
    }

    /** A night's sleep: the transition restarts (overlay tiles rewind to
        frame 0, the transition is requested) and the story moves to the next
        message when the current stage's condition holds, creating the
        packet after message 2 and the visitor after message 7. */
    method AdvanceStory(time: nat, width: int, height: int)
      requires AssetsFit(store, assets) && EntsOk(store, ents)
      modifies this`ents, this`pending, game, indexer
      ensures ents == RewindAll(old(ents))
      ensures EntsOk(store, ents) && SameIdentities(old(ents), ents)
      ensures game.terminalMessages == old(game.terminalMessages)
      ensures var met := StageMet(old(game.terminalMessageIndex), old(game.terminalRead), ents, assets.cropFlower);
        && ViewOf(game) == old(ViewOf(game)).(showTransition := true,
                                              index := old(game.terminalMessageIndex) + (if met then 1 else 0),
                                              read := if met then false else old(game.terminalRead))
        && var es := StorySpawns(old(game.terminalMessageIndex), met, old(indexer.count) + 1, store, assets, width, height, time);
           Enqueued(old(pending), pending, old(indexer.count), indexer.count, es)
    {
      game.showTransition := true;
      RewindOverlays();
      var stage := game.terminalMessageIndex;
      var met := StageCheck(ents, stage, assets.cropFlower, game.terminalRead);
      var es: seq<Entity> := [];
      if met {
        game.AdvanceTerminal();
        if stage == 2 || stage == 7 {
          var id := indexer.NewIndex();
          es := [if stage == 2 then Packet2Entity(id, store, assets, width, height)
                 else VisitorEntity(id, store, assets, width, height, time)];
        }
      }
      pending := pending + SpawnAll(es);
    }

    /** The particle cleanup: queue the removal of the sprite and the
        position of every particle showing its last frame. */
    method CleanupParticles()
      requires WorldOk(store, ents)
      modifies this`pending
      ensures pending == old(pending) + CleanupOps(store, ents)
    {
      var ops := CleanupScan(store, ents);
      pending := pending + ops;
    }

    /** The action loop over items with a sprite and a position: the
        terminal shows whether its message is unread, crops grow or are
        replaced by grass on a night's sleep, and the sprite the command is
        for is watered, sown or queued for deletion. */
    method ApplyActions(act: SpriteAction) returns (ghost flips: seq<bool>, ghost frames: seq<nat>)
      requires AssetsFit(store, assets) && EntsOk(store, ents)
      requires WateredIsCrop(ents, act)
      modifies this`ents, this`pending, indexer, rng
      ensures EntsOk(store, ents) && SameIdentities(old(ents), ents)
      ensures ents == ActAll(old(ents), act, game.terminalRead, assets)
      ensures GrassDraws(store, assets, |old(ents)|, flips, frames)
      ensures pending == old(pending) + ActionOps(store, assets, old(ents), act, old(indexer.count), flips, frames)
      ensures indexer.count == old(indexer.count) + Withered(old(ents), act)
    {
      var ops;
      ops, flips, frames := QueueActionOps(act);
      var es := ActOnAll(ents, act, game.terminalRead, assets);
      ActedKeeps(store, ents, es, act, game.terminalRead, assets);
      ents := es;
      pending := pending + ops;
    }

    /** The structural part of the action loop: the withered crops and the
        dug-up sprites lose their sprite, position and interactible, and a
        withered crop is replaced by grass with a random facing and frame. */
    method QueueActionOps(act: SpriteAction) returns (ops: seq<LazyOp>, ghost flips: seq<bool>, ghost frames: seq<nat>)
      requires AssetsFit(store, assets) && EntsOk(store, ents)
      modifies indexer, rng
      ensures GrassDraws(store, assets, |ents|, flips, frames)
      ensures ops == ActionOps(store, assets, ents, act, old(indexer.count), flips, frames)
      ensures indexer.count == old(indexer.count) + Withered(ents, act)
    {
      ghost var c0 := indexer.count;
      ops, flips, frames := [], [], [];
      var i := 0;
      while i < |ents|
        invariant 0 <= i <= |ents|
        invariant GrassDraws(store, assets, i, flips, frames)
        invariant ops == ActionOps(store, assets, ents[..i], act, c0, flips, frames)
        invariant indexer.count == c0 + Withered(ents[..i], act)
      {
        ghost var fl, fr, id := flips, frames, indexer.count + 1;
        var more, flip, frame := OpsFor(ents[i], i, act);
        ActionOpsStep(store, assets, ents, act, c0, fl, fr, i, id, more, flip, frame);
        flips, frames := fl + [flip], fr + [frame];
        ops := ops + more;
        i := i + 1;
      }
      assert ents[..i] == ents;
    }

    /** The queued changes for entity i of the action loop, with the grass's
        facing and starting frame drawn from the random source. */
    method OpsFor(e: Entity, i: nat, act: SpriteAction) returns (more: seq<LazyOp>, ghost flip: bool, ghost frame: nat)
      requires AssetsFit(store, assets) && ElemOk(store, e)
      modifies indexer, rng
      ensures frame < GrassFrameBound(store, assets)
      ensures more == OpsAt(store, assets, e, i, act, old(indexer.count) + 1, flip, frame)
      ensures indexer.count == old(indexer.count) + (if WithersAt(e, act) then 1 else 0)
    {
      more, flip, frame := [], false, 0;
      if HasItemSpritePos(e) {
        if Withers(e, act) || Deleted(e, act) {
          more := [Remove(i, SpriteC), Remove(i, PositionC), Remove(i, InteractibleC)];
        }
        if Withers(e, act) {
          var id := indexer.NewIndex();
          var coin := rng.GenRange(0, 2);
          var f := rng.GenRange(0, GrassFrameBound(store, assets));
          flip, frame := coin == 0, f;
          more := more + [Spawn(GrassEntity(id, store, assets, (e.pos.value.x, e.pos.value.y), coin == 0, f))];
        }
      }
    }

    /** The table before the tick's passes, and the searches made on it. */
    method Survey() returns (playerAt: (int, int), playerFlip: bool, center: (int, int), tool: Found, cropPos: (int, int), crop: Found)
      requires WorldOk(store, ents)
      ensures (playerAt, playerFlip) == PlayerView(ents)
      ensures center == PlayerCenter(playerAt) && cropPos == CropSpot(center, playerFlip)
      ensures tool == NearestOf(center, Tool, store, ents)
      ensures crop == NearestOf((cropPos.0 + 4, cropPos.1 + 2), SpriteType.Crop, store, ents)
    {
      playerAt, playerFlip := LocatePlayer(ents);
      center := PlayerCenter(playerAt);
      tool := NearestOfType(center, Tool, store, ents);
      cropPos := CropSpot(center, playerFlip);
      crop := NearestOfType((cropPos.0 + 4, cropPos.1 + 2), SpriteType.Crop, store, ents);
    }

    /** The first half of the tick: the searches on the table as it was at
        the start, the held-item, NPC and animation passes. */
    method ControlPhase(input: InputState, time: nat, width: int, height: int)
      returns (act: SpriteAction, ghost targets: seq<(int, int)>, ghost cropFlip: bool)
      requires AssetsFit(store, assets) && WorldOk(store, ents) && OnePlayer(ents)
      requires 16 < width && 8 < height
      modifies this`ents, this`pending, game, indexer, rng
      ensures game.terminalMessages == old(game.terminalMessages)
      ensures TargetsIn(targets, |old(ents)|, width, height)
      ensures var ctl := ControlSpec(store, assets, old(ents), old(ViewOf(game)), input, time, width, height,
                                     old(indexer.count), targets, cropFlip);
        && ents == ctl.ents && ViewOf(game) == ctl.view && act == ctl.act
        && pending == old(pending) + SpawnAll(ctl.spawned) && indexer.count == Counted(old(indexer.count), ctl)
    {
      ghost var ents0, v0, q0, c0 := ents, ViewOf(game), pending, indexer.count;
      var center, tool, cropPos, crop;
      center, tool, cropPos, crop, targets := Prepare(input, time, width, height);
      ghost var walked := ents;
      SameIdentitiesSamePlayer(ents0, walked);
      SameIdentitiesOnePlayer(ents0, walked);
      ghost var spawned;
      assert ViewOf(game) == v0 && indexer.count == c0 && pending == q0;
      assert FirstPlayer(walked) == FirstPlayer(ents0);
      act, cropFlip, spawned := AnimateAndControl(input, time, width, height, tool, crop, center, cropPos,
                                                  walked, v0, q0, c0, FirstPlayer(ents0).Some?);
      ControlSpecIs(store, assets, ents0, v0, input, time, width, height, c0, targets, cropFlip);
      assert spawned == ControlSpec(store, assets, ents0, v0, input, time, width, height, c0, targets, cropFlip).spawned;
    }

    /** The start of the second half of the tick: the transition flag is
        reset and a night's sleep advances the story. */
    method SleepPhase(act: SpriteAction, time: nat, width: int, height: int)
      requires AssetsFit(store, assets) && EntsOk(store, ents)
      modifies this`ents, this`pending, game, indexer
      ensures game.terminalMessages == old(game.terminalMessages)
      ensures var sl := SleepSpec(store, assets, old(ents), old(ViewOf(game)), act, old(indexer.count), time, width, height);
        && ents == sl.ents && ViewOf(game) == sl.view
        && pending == old(pending) + SpawnAll(sl.spawned) && indexer.count == old(indexer.count) + |sl.spawned|
    {
      if game.showTransition {
        game.showTransition := false;
      }
      if act.command == Grow {
        AdvanceStory(time, width, height);
      } else {
        assert pending == old(pending) + SpawnAll([]);
      }
    }

    /** The second half of the tick, after the first half left ctl (with
        the queue at q0 and the counter at c0 before it): the transition
        flag is reset, a night's sleep advances the story, finished
        particles are queued for removal and the action pass runs. */
    method ResolvePhase(act: SpriteAction, time: nat, width: int, height: int, ghost ctl: Control,
                        ghost q0: seq<LazyOp>, ghost c0: nat)
      returns (ghost flips: seq<bool>, ghost frames: seq<nat>)
      requires AssetsFit(store, assets) && EntsOk(store, ents)
      requires WateredIsCrop(ents, act)
      requires ents == ctl.ents && ViewOf(game) == ctl.view && act == ctl.act
      requires pending == q0 + SpawnAll(ctl.spawned) && indexer.count == Counted(c0, ctl)
      modifies this`ents, this`pending, game, indexer, rng
      ensures game.terminalMessages == old(game.terminalMessages)
      ensures GrassDraws(store, assets, |ctl.ents|, flips, frames)
      ensures var sl := SleepSpec(store, assets, ctl.ents, ctl.view, ctl.act, Counted(c0, ctl), time, width, height);
        var out := ResolveSpec(store, assets, ctl, sl, c0, flips, frames);
        && ents == out.ents && ViewOf(game) == out.view
        && pending == q0 + out.ops && indexer.count == out.count
    {
      ghost var sl := SleepSpec(store, assets, ctl.ents, ctl.view, ctl.act, Counted(c0, ctl), time, width, height);
      SleepPhase(act, time, width, height);
      ghost var e1, p1, c1, r1 := ents, pending, indexer.count, game.terminalRead;
      SleepSpecOk(store, assets, ctl.ents, ctl.view, act, Counted(c0, ctl), time, width, height);
      WateredKeeps(ctl.ents, ents, act);
      CleanupParticles();
      ghost var p2 := pending;
      flips, frames := ApplyActions(act);
      ResolveSpecIs(store, assets, ctl, sl, c0, flips, frames, q0, e1, p1, p2, c1, r1, ents, ViewOf(game), pending, indexer.count);
    }

    /** The tick's passes in the order the game runs them. The nearest tool
        and crop are found on the table as it was at the start of the tick.
        The new table, game state, command, queue and counter are those of
        TickSpec for the random draws the tick makes. */
    method Tick(input: InputState, time: nat, width: int, height: int) returns (act: SpriteAction, ghost targets: seq<(int, int)>, ghost cropFlip: bool,
                                                                           ghost flips: seq<bool>, ghost frames: seq<nat>)
      requires Valid()
      requires 16 < width <= 65535 && 8 < height <= 65535
      modifies this`ents, this`pending, game, indexer, rng
      ensures Valid()
      ensures DrawsFit(store, assets, |old(ents)|, width, height, targets, flips, frames)
      ensures var out := TickSpec(store, assets, old(ents), old(ViewOf(game)), input, time, width, height, old(indexer.count), targets, cropFlip, flips, frames);
        && ents == out.ents && ViewOf(game) == out.view && act == out.act
        && pending == old(pending) + out.ops && indexer.count == out.count
      ensures game.terminalMessages == old(game.terminalMessages)
    {
      TablePrefix(store, ents, pending, indexer.count);
      act, targets, cropFlip := ControlPhase(input, time, width, height);
      ControlHalfOk(store, assets, old(ents), old(ViewOf(game)), input, time, width, height, old(pending), old(indexer.count),
                    targets, cropFlip);
      flips, frames := ResolvePhase(act, time, width, height,
                                    ControlSpec(store, assets, old(ents), old(ViewOf(game)), input, time, width, height,
                                                old(indexer.count), targets, cropFlip),
                                    old(pending), old(indexer.count));
      TickIs(store, assets, old(ents), old(ViewOf(game)), input, time, width, height, old(pending), old(indexer.count),
             targets, cropFlip, flips, frames, ents, ViewOf(game), act, pending, indexer.count);
      TickTable(store, assets, old(ents), old(ViewOf(game)), input, time, width, height, old(pending), old(indexer.count),
                targets, cropFlip, flips, frames, ents, pending, indexer.count);
    }

    /** The structural flush after the tick: every queued change is applied
        in queue order and the queue is emptied. */
    method Flush()
      requires TableOk(store, ents, pending, indexer.count)
      modifies this`ents, this`pending
      ensures ents == Applied(old(ents), old(pending)) && pending == []
      ensures TableOk(store, ents, pending, indexer.count)
    {
      FlushKeepsTable(store, ents, pending, indexer.count);
      ghost var target := Applied(ents, pending);
      var i := 0;
      var ops := pending;
      while i < |ops|
        invariant 0 <= i <= |ops|
        invariant Applied(ents, ops[i..]) == target
      {
        assert ops[i..][1..] == ops[i + 1..];
        ents := ApplyOp(ents, ops[i]);
        i := i + 1;
      }
      pending := [];
    }
  }
}
