# qffp in Dafny

qffp is a small farming game that runs in a terminal. A player wakes next
to a cryopod. They pick up a shovel, a watering can or a seed packet and
dig, water and sow plots on a field of dirt and grass. Sleeping in the pod
makes the watered crops grow. A terminal tells a nine-step story that moves
on as the player reads messages and grows flowers, and the story ends with
a visitor who walks around the field. The game is an entity-component
program. Entities carry a position, a sprite, an interactible item and
possibly an NPC walker. One "update game state" system runs every tick, a
render system draws every sprite as coloured half-block characters, and
creations and removals are deferred to a flush after both systems.

This project models that core in Dafny and proves properties of it.

- `wrappers.dfy` (module `Wrappers`) holds `Option` and `Result`.
- `sprites.dfy` (`Sprites`) is the sprite store of `src/app/sprite.rs`:
  - the name a sheet gets from its image file;
  - the conversion of decoded rows;
  - the store built from the loaded sheets;
  - the lookups by index and by name.
- `components.dfy` (`Components`) holds the components and resources of `src/app/state.rs`:
  - the entity record, with optional components;
  - the `Game` resource as a class;
  - the id counter `SpriteIndexer` as a class;
  - the random source `Rng`, a class over an injected draw function.

  It also defines the table invariants: valid sprites, unique ids and one player.
- `nearest.dfy` (`Nearest`) is `nearest_of_type`. It is an imperative scan, proved against a recursive specification whose result is characterised as the first minimum.
- `rules.dfy` (`Rules`) holds the per-entity rules of the tick as pure functions:
  - pinning a held item, highlighting, the NPC walker and the animation clock;
  - the movement clamp, pickup and the action key's decision chain;
  - the entities the tick creates, the story checks, the particle cleanup and the crop actions.
- `world.dfy` (`World`) is the tick itself. The class `World` holds the entity table, the deferred-change queue, the store, the game, the counter and the random source. Each pass of `UpdateGameState::run` is a method with its loop. `Flush` applies the queue, as the flush after the systems does.
- `render.dfy` (`Render`) is `src/app/render.rs`. It has:
  - the screen as a class over a 2-D array of cells;
  - the half-block compositor and the u16 screen arithmetic;
  - the text writer and the stable sort by depth;
  - the frame renderer `Run`, with lemmas on what the finished frame shows.
- `app.dfy` (`App`) is `src/app/mod.rs`. It has:
  - the key classification;
  - the start-up layout of the field and the fixed entities, as nested loops with their invariants;
  - the class `App`, with input processing and the update that runs the tick, draws the frame, flushes the queue and resets the input.

`InputState` has a `Clear` variant. The tick handles it (`src/app/state.rs:628`),
but the enum in `src/app/mod.rs:34-48` lacks it, and no key produces it
(`App.CommandKeys`).

Where the design and the code disagree, the model follows the code. The
update runs the game-state system and then the render system, and flushes
the deferred creations and removals only after both (`src/app/mod.rs:485-486`).
The frame that is drawn is therefore the table before the flush. `App.App.Update`
states this: the screen shows the ticked table `out.ents`, and the flushed table
is `Applied(out.ents, out.ops)`.

## Model

| member | source | states |
|---|---|---|
| Sprites.ImageStem | src/app/sprite.rs:117 | None exactly when the image name has no '.'; otherwise the prefix before the last '.', which is followed by a '.' and an extension without '.' |
| Sprites.StemOfJoin | src/app/sprite.rs:117 | the name derived from stem + "." + ext, where ext has no '.', is the stem itself |
| Sprites.ConvertRows | src/app/sprite.rs:101-115 | the converted image has the same row count and row lengths, and every pixel's r, g, b, a are copied in order |
| Sprites.LoadSprite | src/app/sprite.rs:78-125 | the loaded sheet is named by the image stem, carries the given index and the decoded sheet data, and holds the converted rows |
| Sprites.NewStore | src/app/sprite.rs:131-138 | the store is built exactly when every load succeeds, and otherwise fails with the first failing load's error; entry k has index k, the stem name, the data and the converted image of sheet k |
| Sprites.ByIndex | src/app/sprite.rs:141-146 | error exactly when the index is at least the store's length (including the empty store); otherwise the entry at that index |
| Sprites.ByName | src/app/sprite.rs:149-156 | error exactly when no entry has the name; otherwise the first entry with that name |
| Sprites.IndexByName | src/app/sprite.rs:158-165 | error exactly when no entry has the name; otherwise the index recorded in the first entry with that name |
| Sprites.LookupsAgree | src/app/sprite.rs:131-165 | in a store whose entries sit at their own index, the two name lookups succeed together, and the index found by name leads through by_index to the sheet by_name finds |
| Components.Game.constructor | src/app/state.rs:152-163 | a new game holds nothing, shows help and the transition, keeps the messages, starts at message 0 unread, and does not clear the screen |
| Components.Game.AdvanceTerminal | src/app/state.rs:165-168 | the message index goes up by exactly one and the new message is unread; nothing else changes |
| Components.SpriteIndexer.NewIndex | src/app/state.rs:26-29 | the counter goes up by exactly one and the new value is returned, so ids are increasing and never 0 |
| Components.Rng.GenRange | src/app/state.rs:402 | a value in [lo, hi), namely the value the source's next draw stands for; each call makes one draw |
| Components.IdentitiesKeepInvariants | src/app/state.rs:305-427 | passes that update components in place keep the ids unique and at most the counter, and keep at most one player |
| Nearest.ISqrtUnique | src/app/state.rs:211-212 | the integer square root is the only r with r*r <= n < (r+1)*(r+1), which is the truncated f64 root of an integer |
| Nearest.ISqrtBelow | src/app/state.rs:211-213 | comparing a truncated distance with k is comparing the squared distance with k*k |
| Nearest.NearestIsFirstMinimum | src/app/state.rs:194-221 | the search reports (id, distance, item type) of the first candidate of the searched sprite kind whose distance to (x + w/2, y + h/4) is strictly smallest and below 100, or (0, 100, None) when none is below 100 |
| Nearest.NearestOfType | src/app/state.rs:171-222 | the loop with its running best computes the search's specification |
| Rules.NamesIsLookup | src/app/sprite.rs:158-165 | an asset index the tick uses is exactly the result of the store's name lookup |
| Rules.Pin | src/app/state.rs:309-335 | the held item faces the player's way and loses its highlight; x = max(0, player x + flip offset + wide offset); y = max(-2, player y + small, action and wide offsets); depth and other components unchanged |
| Rules.PinIsIdempotent | src/app/state.rs:309-335 | pinning an already pinned item leaves it where it is |
| Rules.Highlight | src/app/state.rs:305-344 | a sprite is highlighted exactly when nothing is held, it is the nearest tool and that tool is closer than 4; nothing else of the sprite changes |
| Rules.HoldingClearsHighlight | src/app/state.rs:338-344 | while something is held, no sprite is highlighted |
| Rules.NpcStep | src/app/state.rs:367-407 | an NPC step keeps the NPC's components, identity, depth and sheet, and shows its old frame or frame 0 or 1 |
| Rules.NpcHeld | src/app/state.rs:368-372 | a held NPC shows frame 1, stops animating and does not move |
| Rules.NpcWaits | src/app/state.rs:374 | before its wait is over an unheld NPC is unchanged |
| Rules.NpcApproaches | src/app/state.rs:373-397 | once its wait is over, each axis not yet at the target moves exactly one step toward it and never overshoots; the NPC faces its horizontal direction; on the target it shows frame 0 and stops animating |
| Rules.NpcTargetUse | src/app/state.rs:395-404 | the drawn target becomes the NPC's target exactly when it stands on its target past its stop time; otherwise the draw does not matter |
| Rules.OverlayReset | src/app/state.rs:412-419 | an overlay tile starts animating while a transition is requested and stops on its last frame otherwise; only the animating flag of an overlay changes |
| Rules.Animate | src/app/state.rs:421-427 | when animating and the frame's duration has passed, the frame becomes (frame+1) mod frame count and the clock restarts; otherwise nothing changes; the frame stays below the frame count |
| Rules.AnimationScenario | src/app/state.rs:421-427 | two frames of 100 and 150 ms: frame 1 at 120 ms and back to frame 0 at 320 ms |
| Rules.OverlaySettles | src/app/state.rs:412-427 | without a transition request an overlay on its last frame stays there and stops animating |
| Rules.ShiftDoubles | src/app/state.rs:437-461 | each Shift direction moves twice as far as the plain one |
| Rules.SteerBounds | src/app/state.rs:641-672 | a move turns the player toward a horizontal impulse and starts animating; the position changes only once half the frame's duration has passed since the last move, lands in [0, w-10] x [-2, h-5], and is the exact step when that stays inside |
| Rules.Idle | src/app/state.rs:631-636 | with no key, the player stops animating on frame 0 once 400 ms have passed since the last move, and is unchanged before |
| Rules.PickupResult | src/app/state.rs:462-471 | with empty hands the nearest tool is taken when closer than 4; with something in hand it is dropped |
| Rules.PickupTwiceDrops | src/app/state.rs:462-471 | two pickups in the same place leave the hands empty |
| Rules.ActionPlanProperties | src/app/state.rs:472-623 | sleep exactly with empty hands next to the pod; each crop command exactly with its tool and a crop closer than 2, aimed at that crop; a new plot exactly with the shovel and no crop close; the terminal is touched only with empty hands, and opened only when closed and within 4 |
| Rules.ParticleEntity | src/app/state.rs:488-510 | a particle is a valid sprite of the particle kind with the fresh id, no item and not the player |
| Rules.EmptyCropEntity | src/app/state.rs:521-551 | the new plot is a valid crop item on the crop-empty sheet with the fresh id |
| Rules.Packet2Entity | src/app/state.rs:708-735 | the second packet is a valid hold-to-use Packet2 tool with the fresh id |
| Rules.VisitorEntity | src/app/state.rs:790-826 | the visitor is a valid NPC item with the fresh id, heading for the centre with wait 200 and stop 2000 from the current time |
| Rules.GrassEntity | src/app/state.rs:879-912 | the grass replacing a withered crop is a valid Grass crop with the fresh id, on a frame of the grass sheet |
| Rules.GrassFrameBound | src/app/state.rs:883 | the corrected draw bound is the grass sheet's own frame count (at least 8) |
| Rules.GrassFrameOutOfRange | src/app/state.rs:883-892 | with a 12-frame flower sheet and an 8-frame grass sheet, the bound as written allows frame 11, which the grass sheet does not have |
| Rules.StoryEnds | src/app/state.rs:688-836 | after the last message the story never moves on |
| Rules.StoryNeedsReading | src/app/state.rs:688-836 | every stage but 1 needs the current message read to move on |
| Rules.CleanupTargets | src/app/state.rs:839-848 | the cleanup queues only removals of the sprite and the position of finished particles, and queues both for each one |
| Rules.ActOn | src/app/state.rs:850-949 | the action pass keeps the entity's identity, position, item and walker |
| Rules.GrowBands | src/app/state.rs:866-878 | on a night's sleep a crop below frame 4 keeps its frame, frames 4 to 6 become frame - 3, and frame 7 is left for replacement |
| Rules.WaterRule | src/app/state.rs:917-922 | watering adds 4 to the target's frame exactly when it is below 4 and touches no other sprite |
| Rules.ActOnKeepsValid | src/app/state.rs:850-949 | the action pass keeps the sprite valid in the store |
| World.FlushShape | src/app/mod.rs:486 | the flushed table keeps every entity, minus exactly the components queued for removal from it, followed by the queued creations in queue order |
| World.FlushAt | src/app/mod.rs:486 | an existing entity loses exactly the components queued for removal from it |
| World.FlushSuffix | src/app/mod.rs:486 | the queued creations end up after the existing entities, in queue order |
| World.FlushKeepsTable | src/app/mod.rs:486 | the flushed table is well formed with nothing queued |
| World.QueueKeepsTable | src/app/state.rs:489-551 | queueing removals of existing entities and fresh creations keeps the table well formed |
| World.SpawnsKeepTable | src/app/state.rs:708-735 | queueing fresh entities keeps the table well formed |
| World.TickKeepsTable | src/app/state.rs:242-950 | the tick's in-place passes and its queued changes keep the table well formed |
| World.FirstPlayer | src/app/state.rs:265-276 | the first entity that is the player, or None exactly when there is no player |
| World.LocatePlayer | src/app/state.rs:265-276 | the player lookup loop gives the first player's position and facing, or (0, 0) and no flip without a player |
| World.FirstHeld | src/app/state.rs:305-336 | the first item of the held type, or None exactly when there is none |
| World.FindCrop | src/app/state.rs:695-783 | the crop searches of the story report exactly whether some crop meets the stage's condition |
| World.StageCheck | src/app/state.rs:688-836 | the story check of a stage is its specification StageMet |
| World.CleanupScan | src/app/state.rs:839-848 | the cleanup loop computes the cleanup's removal list |
| World.AnimateAll | src/app/state.rs:410-433 | the animation loop steps every entity by its rule and finds the first player |
| World.ActOnAll | src/app/state.rs:850-949 | the in-place part of the action loop applies the action rule to each item with a sprite and a position and leaves the rest alone |
| World.ControlGame | src/app/state.rs:462-645 | the player's key on the game state: pickup sets the held item by the pickup rule, ? toggles help, only the action key changes the read flag, only movement and the action key move the terminal, movement closes it; Clear sets the clear flag and a tick without a key clears it |
| World.TerminalAfter | src/app/state.rs:478-486 | the terminal move changes only the terminal and read flags |
| World.SameIdentitiesSamePlayer | src/app/state.rs:265-276 | passes that keep identities find the same player |
| World.WaterTargetIsCrop | src/app/state.rs:576-581 | the crop a water command names is still of the crop kind when the action pass runs |
| World.ControlSpecOk | src/app/state.rs:265-673 | the first half of the tick keeps every entity's identity and validity, and the entities it creates take fresh consecutive ids |
| World.ControlSpecIs | src/app/state.rs:265-673 | the first half is the animation pass over the pinned and walked table; the game changes by `ControlGame`, and the command and creations are the action key's, only when there is a player |
| World.SleepSpecOk | src/app/state.rs:681-836 | the sleep keeps every entity's identity and validity, and the entity the story creates takes the next id |
| World.OpsAtOk | src/app/state.rs:866-913 | the changes queued for one entity remove only a withered or deleted item's components, and create exactly one grass at a withered crop's x and y and nothing otherwise |
| World.ActionOpsMeet | src/app/state.rs:850-949 | the action pass removes the sprite, position and interactible of exactly the withered crops and the deleted sprite, and creates only grass standing where a withered crop stood |
| World.ActionOpsFresh | src/app/state.rs:879-912 | the action pass creates exactly one grass per withered crop, with the next fresh ids in order |
| World.ActionOpsReplace | src/app/state.rs:866-913 | every withered crop is queued for removal together with its grass, on its x and y, with its drawn facing and frame |
| World.ActionOpsIdle | src/app/state.rs:850-949 | without a sleep or a dig the action pass queues nothing |
| World.TickSpecKeepsTable | src/app/state.rs:242-950 | a tick keeps every entity's identity, and the table with its queue stays well formed |
| World.TickStory | src/app/state.rs:675-836 | the message index stays at most 9 and rises by at most one per tick, only on a sleep; the transition is requested exactly on a sleep |
| World.TickHands | src/app/state.rs:462-681 | the held item follows the pickup rule and help toggles on ?, both only with a player; a sleep needs the action key with empty hands and the pod as the nearest tool |
| World.QuietTick | src/app/state.rs:242-950 | a tick without the action key gives no command, creates nothing, keeps the story index, clears the transition and queues only the removal of finished particles |
| World.World.constructor | src/app/state.rs:228-262 | the world holds the given table, store, assets, game, counter and random source, with nothing queued |
| World.World.PinItems | src/app/state.rs:305-345 | every entity is reset and re-highlighted up to the first held item, which is pinned; identities are kept |
| World.World.WalkNpcs | src/app/state.rs:367-407 | every NPC takes one step with a drawn target in [8, w-8) x [4, h-4), and other entities are unchanged |
| World.World.Prepare | src/app/state.rs:265-407 | the player's centre and crop spot and the nearest tool and crop, all on the table at the start of the tick; the table afterwards is the held-item pass (`PinAll`) followed by the NPC pass (`WalkAll`), with the targets drawn in [8, w-8) x [4, h-4) |
| World.World.SpawnForPlan | src/app/state.rs:487-621 | the entities the action key creates, with consecutive fresh ids |
| World.World.MoveTerminal | src/app/state.rs:478-486 | the game after the terminal move |
| World.World.PerformAction | src/app/state.rs:472-623 | the command of the decision chain, the terminal move, and the queued creations with fresh ids |
| World.World.ApplyKey | src/app/state.rs:462-645 | the keys other than the action key change the game as ControlGame states |
| World.World.HandleInput | src/app/state.rs:462-645 | the command, the new game state, and the queued creations of the player's key |
| World.World.AnimateAndControl | src/app/state.rs:410-673 | every sprite animated by its rule and the player steered (`StepAll`); when there is a player, the game changes as `ControlGame`, and the command and the queued creations are those of the action key; without a player nothing but the animation happens |
| World.World.RewindOverlays | src/app/state.rs:683-687 | overlay tiles go back to frame 0 |
| World.World.AdvanceStory | src/app/state.rs:681-836 | on a sleep the transition is requested, the story moves on by one exactly when the stage's condition holds (making the new message unread), and the stage's entity is queued |
| World.World.CleanupParticles | src/app/state.rs:839-848 | the cleanup's removals are appended to the queue |
| World.World.ApplyActions | src/app/state.rs:850-949 | every item with a sprite and a position is acted on in place (`ActAll`); exactly the changes `ActionOps` lists are queued; the counter rises by the number of withered crops |
| World.World.QueueActionOps | src/app/state.rs:866-949 | the queued changes are exactly `ActionOps` of the table, in entity order, with the facing and frame of each replacing grass drawn in range; the counter rises by one per withered crop |
| World.World.OpsFor | src/app/state.rs:866-949 | exactly `OpsAt`: a withered crop loses its sprite, position and interactible and is replaced by grass at its x and y with the next id and a drawn facing and frame; a deleted sprite loses the three components; anything else queues nothing |
| World.World.Survey | src/app/state.rs:265-303 | the player's position and facing, centre and crop spot, and the nearest tool and crop |
| World.World.ControlPhase | src/app/state.rs:265-673 | the table, game state, command, queued creations and counter are exactly `ControlSpec`: the searches on the starting table, the held-item, NPC and animation passes, and the player's input |
| World.World.SleepPhase | src/app/state.rs:675-836 | the table, game state and queued creations are exactly `SleepSpec`: without a sleep only the transition flag is cleared; on a sleep the overlays rewind, the transition is requested, the story moves on by one exactly when `StageMet` holds (the new message unread), and the stage's entity is queued |
| World.World.ResolvePhase | src/app/state.rs:675-949 | exactly `ResolveSpec` after `SleepSpec`: the acted-on table, the game state, and the queue extended with the story's creations, the particle cleanup's removals and the action pass's changes |
| World.World.Tick | src/app/state.rs:242-950 | the new table, the whole game state the tick touches (held item, help, transition, terminal, index, read and clear flags), the command, the queued changes and the counter are exactly `TickSpec` for the random draws the tick makes, and those draws lie in their ranges; the world stays valid |
| World.World.Flush | src/app/mod.rs:486 | the queue is applied in order and emptied, and the table stays well formed |
| Render.HighlightOnlyOutlines | src/app/render.rs:99-106 | the highlight changes exactly the opaque pure-black pixels |
| Render.CompositeIsOver | src/app/render.rs:109-164 | over a blank cell or a half block, each half of the cell is the pixel when opaque and the recovered colour below it otherwise |
| Render.CompositeOverText | src/app/render.rs:123-126 | over any other glyph, a transparent half shows the sprite's own unhighlighted colour |
| Render.CompositeWrites | src/app/render.rs:134-164 | a pixel pair with both alphas 0 leaves the cell as it was; otherwise the cell becomes an upper or lower half block |
| Render.ColInverse | src/app/render.rs:82-89 | the column mapping is injective: every drawn sprite column is recovered from its screen column |
| Render.RowInverse | src/app/render.rs:72-79 | every drawn even pixel row is recovered from its screen row |
| Render.ColLandsExactly | src/app/render.rs:82-89 | away from the u16 limit, a sprite column is drawn exactly when pos.x + x is on the screen, and there |
| Render.RowLandsExactly | src/app/render.rs:72-79 | away from the u16 limit, a pixel row is drawn exactly when pos.y + y/2 is a screen row, and there |
| Render.FlipMirrors | src/app/render.rs:53-69 | the flipped frame is the frame mirrored left to right; the unflipped frame is the image's box |
| Render.ExtractFrame | src/app/render.rs:53-69 | the copied rows are the frame's rows, each read right to left when flipped |
| Render.Screen.constructor | src/app/mod.rs:158 | a blank screen of the terminal's size |
| Render.Screen.Erase | src/app/render.rs:214-219 | every cell becomes blank |
| Render.Screen.Put | src/app/render.rs:145-149 | the one cell addressed gets the glyph, and every other cell is unchanged; off-screen writes are ignored |
| Render.RenderSpriteAtPos | src/app/render.rs:36-167 | every cell of the screen becomes the composite of the sprite pixels that land on it over what it held |
| Render.RenderTextAtPos | src/app/render.rs:169-198 | every cell becomes the text placement that lands on it, white on dark blue, or keeps what it held |
| Render.OneLine | src/app/render.rs:184-197 | text without a newline is written on one row from the start and cut off at the right edge |
| Render.PlacementsBounded | src/app/render.rs:184-197 | every written character is a non-newline on the screen's columns, at or right of the line start |
| Render.TextCovers | src/app/render.rs:184-197 | a cell the text writes shows the text colours whatever was below; a cell it does not write keeps what it held |
| Render.LineShows | src/app/render.rs:195-196 | the k-th character of a line lands in column x + k |
| Render.Drawables | src/app/render.rs:235 | the entities with a position and a sprite, each once, in entity order |
| Render.Insert | src/app/render.rs:236-240 | inserting into a depth-sorted order adds exactly the new entry |
| Render.SortByDepth | src/app/render.rs:235-240 | the sorted order is a permutation of the drawable entities |
| Render.DrawOrderSorted | src/app/render.rs:235-244 | sprites are drawn in ascending depth, equal depths in entity order (a stable sort), each drawable entity exactly once |
| Render.ShownMessage | src/app/render.rs:261-269 | a message is shown exactly when the terminal is open: "No new messages." once read, and the current message otherwise |
| Render.Run | src/app/render.rs:208-283 | every cell of the frame is the sprites drawn in depth order over a blank screen, then the open terminal's message from (1, 0), then the help line on the bottom row |
| Render.HiddenBelow | src/app/render.rs:242-245 | a sprite whose two pixels at a cell are opaque hides everything drawn before it there |
| Render.HelpIsOneLine | src/app/render.rs:272 | the help line has no newline |
| Render.HelpLine | src/app/render.rs:271-274 | with help shown, the bottom row shows the help line from column 0, cut at the right edge, whatever lies below |
| Render.MessageOnTop | src/app/render.rs:261-269 | where the open terminal writes its message (and help does not), the cell shows the message's character in the text colours |
| Render.SpritesShowThrough | src/app/render.rs:208-274 | where no text is written, the cell shows the sprites drawn in depth order over a blank screen |
| App.QuitKeys | src/app/mod.rs:82-86 | quit is q with any modifiers, or c with exactly Control |
| App.MoveKeys | src/app/mod.rs:88-124 | a key moves exactly when it is an arrow or h/j/k/l in either case, and takes the Shift variant exactly when the modifiers are exactly Shift |
| App.CommandKeys | src/app/mod.rs:126-134 | u is the action key, space pickup and ? the help toggle, exactly; no key gives Clear |
| App.OnlyPressesCount | src/app/mod.rs:69-79 | only a key press yields a command, the one its key and modifiers give; no event, other events and key releases give None |
| App.WrappingSubIsModular | src/app/mod.rs:260 | the grass bounds w - 8 and h - 4 are u16 subtractions modulo 2^16 |
| App.FixedEntities | src/app/mod.rs:286-434 | the cryopod, terminal, player and three tools get the next six ids in creation order |
| App.FixedOk | src/app/mod.rs:286-434 | the fixed entities are valid and only the third is the player |
| App.Tile | src/app/mod.rs:224-283 | the tiles of one grid point: dirt on a drawn frame and facing, the overlay at coarse points, and grass with the next id only inside w-8, h-4 |
| App.TileEntitiesOk | src/app/mod.rs:224-283 | the tiles of a grid point are valid field tiles with consecutive ids |
| App.FieldRow | src/app/mod.rs:222-284 | the inner loop adds the tiles of one row, left to right |
| App.Field | src/app/mod.rs:221-285 | the outer loop adds the tiles of every row, top to bottom |
| App.Layout | src/app/mod.rs:215-434 | the field followed by the fixed entities, with ids counted from 1 |
| App.GridMembers | src/app/mod.rs:221-222 | the grid is every point with x a multiple of 8 below w and y a multiple of 4 below h |
| App.LaidOutCovers | src/app/mod.rs:221-256 | a dirt tile lies at exactly the points with x % 8 == 0 and y % 4 == 0 inside the screen, and an overlay at exactly those with x % 16 == 0 and y % 8 == 0 |
| App.IdsCounted | src/app/mod.rs:261-416 | ids handed out 1, 2, ..., n in creation order are unique and at most n |
| App.LayoutTable | src/app/mod.rs:215-438 | the starting table is well formed, with unique ids, exactly one player and nothing queued |
| App.LayoutAssets | src/app/mod.rs:219-220 | the sheet indices of the layout's name lookups fit the store |
| App.GrassShared | src/app/mod.rs:220 | the layout and the tick find the same grass sheet |
| App.App.constructor | src/app/mod.rs:150-176 | the app starts at time 0 with no input over the given world and screen |
| App.App.ProcessInput | src/app/mod.rs:68-143 | the polled event's command becomes this frame's input and is returned |
| App.App.Update | src/app/mod.rs:477-490 | the game state and counter are `TickSpec` of this frame's command at time `now`; every screen cell is the frame of the ticked table `out.ents` with its message and help line; the world then holds that table with the queue applied (`Applied`); the input is None afterwards; the world stays valid |
| App.App.TickAndDraw | src/app/mod.rs:485 | the table, queue, game state and counter are `TickSpec` of this frame's command, and the screen shows the frame of that table |
| App.Populate | src/app/mod.rs:215-434 | the field and the fixed entities, with a fresh counter and random source |
| App.Start | src/app/mod.rs:146-438 | the new app: a new game over the 10 messages, the laid-out table, nothing queued, time 0, no input |
| App.NewApp | src/app/mod.rs:146-438 | a load error or a failed name lookup becomes the app's error; otherwise the app starts as Start states |

## Left out

- Terminal I/O is not modelled. This covers raw mode, the alternate screen, sending the buffer to the terminal, clearing it on the clear flag, and `exit` (`src/app/mod.rs:441-448`, `src/app/render.rs:214-216`, `src/app/render.rs:282`).
- The main loop's timing and polling are not modelled (`src/app/main.rs` is not part of this model). The polled event is a parameter of `App.App.ProcessInput`.
- Clocks, terminal size and randomness enter as parameters:
  - the elapsed time is the parameter `now` of `App.App.Update`;
  - `terminal::size()` is the parameters `width` and `height`;
  - `rand::thread_rng` is an injected draw function, each draw taken into the requested range.
- Loading sheet files is left out: file existence checks, JSON decoding and image decoding (`src/app/sprite.rs:78-99`). The decoded sheet and its pixels are inputs, and a failed load is the error the caller passes in.
- Sprites.NewStore: the model does not check that loaded sheets are well formed (`Sprites.ValidStore`). `App.NewApp` requires it, because the model does not read the sheet files.
- Missing assets during the tick are not modelled. The tick's `expect` lookups of sheet names would end the program when a sheet is missing. The model requires them to succeed (`Rules.AssetsOk` in `World.World.Valid`).
- Floating point is not modelled. The f64 distance is the integer floor square root of an integer, and the f64 impulses are integers.
- Render.SortByDepth: the sort is a function on the sequence of entity indices. The in-place sort of the collected vector is not modelled.
- The debug-build frame numbers and the unused checkerboard background (`src/app/render.rs:10-34`, `src/app/render.rs:226-258`, `src/app/render.rs:275-279`) are left out.
- The ECS storages, joins, dispatcher and `maintain` are replaced by a sequence of entity records and an explicit queue. An entity is its position in the sequence. Removals only remove components, and creations append.
- World.World.Tick: it requires a terminal of more than 16 columns and 8 rows. The NPC target draw `gen_range(8..w-8)` needs a non-empty range.
- App.NewApp: it requires a screen of at least 1 x 1.
- Sprites.LoadSprite: it requires the image name to contain a '.'. The game's `unwrap` at `src/app/sprite.rs:117` panics on a name without one.
- Sprites.NewStore: it requires the same of every sheet it loads, for the same panic.
- Rules.AssetsFit: it requires at least 8 frames for the crop and grass sheets and at least 2 for the visitor's sheet. The tick sets crop frames up to 7 and a held visitor's frame to 1, and the game indexes the current frame (`src/app/state.rs:423`, `src/app/render.rs:49`), so it panics on smaller sheets.
- Sprites.SheetOk: it requires every frame to have an even height. The renderer steps through the copied rows two at a time and reads row y + 1 (`src/app/render.rs:72-95`). For an odd height that read is out of bounds on the last row, and the game panics when that row is on screen.
- Render.RenderSpriteAtPos: the u16 screen arithmetic (`Render.ScreenCol`, `Render.ScreenRow`) wraps as in a release build. A debug build panics on the overflow instead.
- World.World.OpsFor: it draws the grass's starting frame below the grass sheet's frame count. This is the corrected bound of the Findings row; the game draws below the replaced crop sheet's count.
- World.World.Tick (u16 casts): the model computes the screen-size subtractions in unbounded integers. Below the size requirement they cannot wrap.

## Findings

| source | as written | input that shows it | evidently intended | confidence | as-written member | corrected member |
|---|---|---|---|---|---|---|
| src/app/state.rs:883 | the grass that replaces a withered crop draws its starting frame from [0, frame count of the crop's sheet) | a 12-frame crop-flower sheet and an 8-frame grass sheet: frame 11 can be drawn, and the grass sheet has no frame 11 (the renderer and the animation index it) | draw from [0, frame count of the grass sheet) | not executed | Rules.GrassFrameBoundAsWritten (see Rules.GrassFrameOutOfRange) | Rules.GrassFrameBound (used by Rules.GrassEntity and World.World.OpsFor) |
