# Layer graphics and message common events

This project models two RPG Maker plugins.

- **Galv's Layer Graphics** (`GALV_LayerGraphics.js`):
  - The `LAYER` and `LAYER_S` plugin commands. They write tiling and static layer records into `$gameMap.layerSettings`, a table of layer records per map.
  - The map-note bootstrap that `Game_Map.setup` runs.
  - `layerConfig`.
  - The battle-layer table `$gameSystem._bLayers` written by `Galv.LG.bLayer`.
  - The depth search that places battle layer sprites among the battle field's children.
  - The per-frame update of the tiling sprite (scroll accumulators, origin) and of the static sprite (fixed or following a character, the direction-to-rotation table).
- **Triacontane's MessageCommon** (`MessageCommon.js`):
  - The `\CE[n]` escape code, which starts common event `n` as a parallel interpreter.
  - The per-frame stepping and pruning of those interpreters.
  - The ordering inside `Window_Message.update`: the queue is advanced before the window handles the frame's escape codes.

Modules:

- `Wrappers`: `Option`.
- `JsNumber`: JavaScript numbers as `Val(real) | NaN`, where `undefined` also reads as NaN. Also `Number(text)` for decimal text with an optional sign and fraction, and decimal printing.
- `JsString`: `indexOf`, `replace` of the first occurrence, `split`, `join`, and `match(/[^\r\n]+/g)`.
- `LayerCommands`: layer records and the two commands, as functions from the old registry to the new one.
- `LayerRegistry`: the note bootstrap as functions, and the class `GameMapLayers` that owns `layerSettings`.
- `BattleLayers`: the battle table (class `BattleLayerTable`), the placement index (method `InsertionIndex`, proved against `PlacementIndex`), and the class `BattleSpriteset`.
- `LayerSprites`: the classes `TilingLayerSprite` and `StaticLayerSprite`, whose `Update` methods change the registry in place.
- `MessageCommon`: interpreters as step counters, and the classes `MessageCommonQueue` (`$gameSystem._messageCommonEvents`) and `MessageWindow`.

A command that throws a `TypeError` in the plugin is modelled as the outcome `Crashed`. The state it leaves is the state at the throw; for example, the key reservation of `LAYER` has already happened. The plugin throws when a required token is missing, and when `REMOVE` with a layer id names a map that has no table. So a malformed command can throw, and removing a layer from a map that has no table throws rather than doing nothing.

## Model

| member | source | states |
|---|---|---|
| JsNumber.ToNumberOfIntToString | www/js/plugins/GALV_LayerGraphics.js:544 | The map id written in front of a note line is read back by `Number` as the same map id. |
| JsNumber.ToNumberOfDecimal | www/js/plugins/GALV_LayerGraphics.js:143-145 | Text `<a>.<b>`, such as the anchor `0.5`, reads as `a + b / 10^len(b)`, and `-<a>.<b>` as its negation. |
| JsNumber.ParseUnsignedOfDecimal | www/js/plugins/GALV_LayerGraphics.js:366 | Unsigned text with a fraction reads as its decimal value. |
| JsNumber.ToNumber | www/js/plugins/GALV_LayerGraphics.js:366 | `Number(text)`: a number is read only from text made of digits, an optional leading sign and a decimal point, and digit-only text reads as its decimal value. |
| JsString.IndexFrom | www/js/plugins/GALV_LayerGraphics.js:543 | The first position at or after the start where the pattern occurs; before it there is no occurrence. |
| JsString.RemoveFirst | www/js/plugins/GALV_LayerGraphics.js:544 | `replace(verb, "")` removes only the first occurrence: the text is the result with the pattern put back at that position, and text without the pattern is unchanged. |
| JsString.Split | www/js/plugins/GALV_LayerGraphics.js:544 | `split(" ")` gives at least one piece, and no piece contains the separator. |
| JsString.JoinSplit | www/js/plugins/GALV_LayerGraphics.js:544 | Joining the pieces of a split with the separator gives back the original line. |
| JsString.SplitJoin | www/js/plugins/GALV_LayerGraphics.js:544 | Splitting a join of separator-free tokens gives back the tokens. |
| JsString.Lines | www/js/plugins/GALV_LayerGraphics.js:539-540 | The note's lines are non-empty and contain no line break. |
| JsString.LinesOfTwoParts | www/js/plugins/GALV_LayerGraphics.js:539 | A line, a line break (`\r` or `\n`) and the rest of the note give that line followed by the lines of the rest. |
| JsString.CrLfLines | www/js/plugins/GALV_LayerGraphics.js:539 | A Windows line end `\r\n` after a line gives just that line, followed by the lines of the rest. |
| LayerCommands.ResolveVariableToken | www/js/plugins/GALV_LayerGraphics.js:361-364 | A token `v<k>` stands for the current value of game variable `k`, or 0 when it is unset. |
| LayerCommands.ResolveLiteralToken | www/js/plugins/GALV_LayerGraphics.js:365-367 | The decimal text of any integer stands for that integer, whatever the variables hold. |
| LayerCommands.ResolveDecimalToken | www/js/plugins/GALV_LayerGraphics.js:365-367 | A token with a fraction, such as the anchor `0.5`, stands for its decimal value, whatever the variables hold. |
| LayerCommands.Resolve | www/js/plugins/GALV_LayerGraphics.js:361-368 | `Galv.LG.num`: a `v` token always resolves to a number, read from the variables when the command runs. |
| LayerCommands.Reserve | www/js/plugins/GALV_LayerGraphics.js:287-288 | Map and layer entries are created only when missing (an existing record, `{}` included, stays); nothing else changes. |
| LayerCommands.Layer.IsEmpty | www/js/plugins/GALV_LayerGraphics.js:370-372 | `Galv.LG.isEmpty`: an empty record has no graphic, and every numeric property reads as NaN. |
| LayerCommands.UpsertTiling | www/js/plugins/GALV_LayerGraphics.js:284-305 | The command succeeds exactly when all ten tokens are present. Then only the one key changes, and the new tiling record holds every setting from the tokens. It keeps the scroll offsets of a tiling record it replaces (NaN becomes 0) and starts them at 0 otherwise. With fewer tokens it throws after its reservation. |
| LayerCommands.RemoveLayer | www/js/plugins/GALV_LayerGraphics.js:272-281 | A truthy layer id tombstones that one record with `{}`, or throws when the map has no table. Id 0 or NaN empties the map's whole table. Other maps are untouched. |
| LayerCommands.LayerCommand | www/js/plugins/GALV_LayerGraphics.js:266-306 | `REFRESH` is recognised exactly by its first token and changes nothing; a `REMOVE` that throws changes nothing. |
| LayerCommands.UpsertStatic | www/js/plugins/GALV_LayerGraphics.js:310-331 | `LAYER_S` succeeds exactly when eight tokens are present. Then only the one key changes, and the static record holds the tokens' values, with missing or empty anchor, character and rotate tokens as 0. |
| LayerCommands.StaticUpsertForgetsPrevious | www/js/plugins/GALV_LayerGraphics.js:319-331 | The record `LAYER_S` writes depends only on its tokens, never on the record it replaces. |
| LayerCommands.ReissueKeepsScroll | www/js/plugins/GALV_LayerGraphics.js:290-305 | Re-issuing `LAYER` for a tiling layer that has scrolled keeps its reached scroll position and takes the new graphic, so re-tuning does not make it jump. |
| LayerRegistry.NoteConfig | www/js/plugins/GALV_LayerGraphics.js:544 | The command a note line stands for has a first token starting with the map id's digits (or its sign), never `REMOVE` or `REFRESH`. |
| LayerRegistry.NoteConfigOfCommandLine | www/js/plugins/GALV_LayerGraphics.js:544 | The note line `<verb> <tokens>` becomes the command `[mapId] + tokens`. |
| LayerRegistry.LayerLineShape | www/js/plugins/GALV_LayerGraphics.js:539-546 | A note that is a single `LAYER` line is one line, passes the `LAYER ` test, and is read as `[mapId] + tokens`. |
| LayerRegistry.UnderscoreFreeLineNotStatic | www/js/plugins/GALV_LayerGraphics.js:552 | A `LAYER` line with no `_` in any token fails the `LAYER_S ` test. |
| LayerRegistry.LayerNoteShape | www/js/plugins/GALV_LayerGraphics.js:539-552 | A note that is a single `LAYER` line with no `_` is one line, passes the `LAYER ` test, fails the `LAYER_S ` test, and is read as `[mapId] + tokens`. |
| LayerRegistry.VariableTokenNotANumber | www/js/plugins/GALV_LayerGraphics.js:547 | `Number("v<k>")` is NaN, unlike `num("v<k>")`. |
| LayerRegistry.NoteCheckByNumberMissesVariableIds | www/js/plugins/GALV_LayerGraphics.js:544-549 | As written, a note line whose layer id is a variable token overwrites the existing layer on every setup, because the existence test looks up `Number("v<k>")`. With the test at the resolved key, that layer stays exactly as it was. |
| LayerRegistry.LayerMissing | www/js/plugins/GALV_LayerGraphics.js:547-555 | The existence test throws exactly when the test as written is used on a map without a table. |
| LayerRegistry.NoteCommand | www/js/plugins/GALV_LayerGraphics.js:544-549 | A command whose layer exists is skipped and the loop goes on. A test that throws stops the loop with the registry unchanged. A command whose layer is missing is run, and the loop goes on exactly when it does not throw. |
| LayerRegistry.NoteLine | www/js/plugins/GALV_LayerGraphics.js:543-558 | A line holding neither `LAYER ` nor `LAYER_S ` changes nothing. A line whose layer is missing runs its command (`NoteCommand`). `SetupCreatesMissingLayer` and `SetupCreatesMissingStaticLayer` give the whole record such a line creates. |
| LayerRegistry.NoteLines | www/js/plugins/GALV_LayerGraphics.js:542-559 | A note none of whose lines holds a command changes nothing. The lines run in order, and the first throw ends the note. `SetupCreatesMissingLayer` and `SetupCreatesMissingStaticLayer` give the record a one-line note creates. |
| LayerRegistry.NoteChecksAgree | www/js/plugins/GALV_LayerGraphics.js:544-549 | For a command that starts with the map id and a layer id that is not a variable token, on a map with a table, the test as written and the test at the resolved key give the same answer. |
| LayerRegistry.NoteCommandChecksAgree | www/js/plugins/GALV_LayerGraphics.js:544-549 | Such a command has the same effect under both tests, and the map keeps its table. |
| LayerRegistry.NoteLineChecksAgree | www/js/plugins/GALV_LayerGraphics.js:543-558 | A note line whose commands are all of that kind has the same effect under both tests. |
| LayerRegistry.NoteLinesChecksAgree | www/js/plugins/GALV_LayerGraphics.js:542-559 | A whole note of such lines has the same effect under both tests. |
| LayerRegistry.LiteralLayerLineIsPlain | www/js/plugins/GALV_LayerGraphics.js:539-549 | A note that is one `LAYER` line with a literal layer id, and no `LAYER_S ` in it, is of that kind, so as written setup leaves an existing layer at that id alone. |
| LayerRegistry.NoteLinesKeep | www/js/plugins/GALV_LayerGraphics.js:542-559 | The line loop never drops a map's table. With the corrected existence test it never changes a record that existed. With the test as written the same holds when the map has a table and every command of the note starts with the map id and a layer id that is not a variable token. |
| LayerRegistry.EnsureTable | www/js/plugins/GALV_LayerGraphics.js:526 | The map's table is created empty when missing and kept otherwise; other maps are untouched. |
| LayerRegistry.SetupLayers | www/js/plugins/GALV_LayerGraphics.js:524-559 | A note without commands only reserves the map's table. `SetupCreatesMissingLayer` and `SetupCreatesMissingStaticLayer` give every field of the record a one-line note creates when its layer is missing. |
| LayerRegistry.SetupKeeps | www/js/plugins/GALV_LayerGraphics.js:524-559 | After setup the map has a table and no map's table is lost. Every existing record, with its scroll accumulators, and every tombstone survives re-entering the map: with the corrected test for every note, and with the test as written for every note whose layer ids are not variable tokens. |
| LayerRegistry.SetupCreatesMissingLayer | www/js/plugins/GALV_LayerGraphics.js:524-559 | A note that is the one line `LAYER <k> <graphic> <xspeed> <yspeed> <opacity> <z> <xshift> <yshift> <blend>`, with no `LAYER_S ` in it and no layer at `k`, succeeds under either existence test. It creates exactly the tiling record holding those settings with both scroll offsets at 0, and keeps every record that existed. |
| LayerRegistry.SetupCreatesMissingStaticLayer | www/js/plugins/GALV_LayerGraphics.js:524-559 | A note that is the one line `LAYER_S <k> <graphic> <x> <y> <opacity> <z> <blend> ...`, with no `LAYER ` in it and no layer at `k`, succeeds under either existence test. It creates exactly the static record holding that graphic, position, opacity, z and blend, and the optional x anchor, y anchor, followed character and rotate flag (0 when absent). It keeps every record that existed. |
| LayerRegistry.UpsertCreatesTiling | www/js/plugins/GALV_LayerGraphics.js:284-305 | `LAYER` at a key that is missing creates a tiling record with every setting from the tokens and both scroll offsets at 0, and keeps every record that existed. |
| LayerRegistry.UpsertCreatesStatic | www/js/plugins/GALV_LayerGraphics.js:310-331 | `LAYER_S` at a key that is missing creates exactly the static record holding every setting from the tokens, the optional anchors, character and rotate flag reading 0 when absent. It keeps every record that existed. |
| LayerRegistry.NumericCommandUpserts | www/js/plugins/GALV_LayerGraphics.js:266-306 | A `LAYER` command whose first token is a number, as every note command is, is the tiling upsert, never `REMOVE` or `REFRESH`. |
| LayerRegistry.SetupOfMissingLine | www/js/plugins/GALV_LayerGraphics.js:524-559 | Setup on a one-line note holding one command whose layer is missing runs that command on the map's table, under either existence test, and reports whether it threw. |
| LayerRegistry.GameMapLayers.constructor | www/js/plugins/GALV_LayerGraphics.js:518-521 | A new game map starts with an empty registry. |
| LayerRegistry.GameMapLayers.CreateLayer | www/js/plugins/GALV_LayerGraphics.js:266-306 | The in-place `LAYER` command gives the outcome and registry of `LayerCommand`: `REFRESH` changes nothing, `REMOVE` is `RemoveLayer`, anything else is `UpsertTiling`. |
| LayerRegistry.GameMapLayers.CreateLayerS | www/js/plugins/GALV_LayerGraphics.js:310-332 | The in-place `LAYER_S` command gives the outcome and registry of `UpsertStatic`. |
| LayerRegistry.GameMapLayers.LayerConfig | www/js/plugins/GALV_LayerGraphics.js:562-570 | Returns the current map's table, creating it empty when missing and changing nothing else. |
| LayerRegistry.GameMapLayers.Setup | www/js/plugins/GALV_LayerGraphics.js:524-535 | Makes the map current and leaves the registry that `SetupLayers` gives, for the existence test passed in: `ByNumber`, the test as written, or `ByResolvedKey`, the corrected one. |
| LayerRegistry.GameMapLayers.CreateNoteLayers | www/js/plugins/GALV_LayerGraphics.js:537-560 | The in-place loop over the note's lines equals `NoteLines` with the same existence test, stopping at the first line that throws. |
| LayerRegistry.GameMapLayers.ApplyNoteLine | www/js/plugins/GALV_LayerGraphics.js:543-558 | One line applies its `LAYER ` part, then its `LAYER_S ` part, each only when the given existence test finds its layer missing; it equals `NoteLine`. |
| BattleLayers.BLayerSpec | www/js/plugins/GALV_LayerGraphics.js:337-356 | No graphic: the entry is gone (whether or not it was there). Otherwise the entry is a fresh tiling record with the arguments (0 when missing or falsy), zero shifts and zero scroll offsets. Every other entry is unchanged, and the table stays well formed. |
| BattleLayers.BattleLayerTable.constructor | www/js/plugins/GALV_LayerGraphics.js:378-381 | A new game system has no battle layers. |
| BattleLayers.BattleLayerTable.BLayer | www/js/plugins/GALV_LayerGraphics.js:337-356 | The in-place `bLayer` leaves the table `BLayerSpec` describes. |
| BattleLayers.TilingPositionsMeaning | www/js/plugins/GALV_LayerGraphics.js:451-452 | The scanned positions are exactly the `TilingSprite` children, in increasing order. |
| BattleLayers.PlacementIndex | www/js/plugins/GALV_LayerGraphics.js:463-464 | The insertion index is never past the end of the children. |
| BattleLayers.PlacementIndexMeaning | www/js/plugins/GALV_LayerGraphics.js:432-464 | Depth 0 inserts first. Depth 1 inserts just after the first `TilingSprite`. Depth 2 inserts just after the second, or after the only one. Without a `TilingSprite` the depth itself is used, clamped. Any other depth inserts at the end. |
| BattleLayers.InsertionIndex | www/js/plugins/GALV_LayerGraphics.js:432-464 | The scanning loop with its skip counter, `break` and final clamp computes `PlacementIndex`. |
| BattleLayers.InsertAt | www/js/plugins/GALV_LayerGraphics.js:466 | `addChildAt` puts the sprite at the index and keeps the children before and after it. |
| BattleLayers.Placed | www/js/plugins/GALV_LayerGraphics.js:404-467 | Placing the layers of `order` adds exactly one child per entry. |
| BattleLayers.InsertLayerKeepsOthers | www/js/plugins/GALV_LayerGraphics.js:466 | Inserting a layer sprite leaves the other children, in their order, unchanged. |
| BattleLayers.InsertLayerAddsId | www/js/plugins/GALV_LayerGraphics.js:466 | Inserting a layer sprite adds exactly its id to the layer sprites among the children. |
| BattleLayers.PlacedKeepsOthers | www/js/plugins/GALV_LayerGraphics.js:404-467 | Placing all battle layers keeps the non-layer children in order and adds exactly one sprite per placed id. |
| BattleLayers.BattleSpriteset.constructor | www/js/plugins/GALV_LayerGraphics.js:394 | A new battle spriteset has made no layer sprite. |
| BattleLayers.BattleSpriteset.CreateLayerGraphics | www/js/plugins/GALV_LayerGraphics.js:400-469 | The loop over the table's ids leaves the children `Placed` describes, and records a sprite for each visited id. |
| LayerSprites.ReloadedShowsGraphic | www/js/plugins/GALV_LayerGraphics.js:605-629 | If the bitmap matched the graphic name before the frame, it matches the record's name after it, so a sprite whose record names a graphic always shows that graphic. |
| LayerSprites.NoReloadWithoutChange | www/js/plugins/GALV_LayerGraphics.js:626-629 | A frame whose record has the graphic already shown keeps the loaded bitmap. |
| LayerSprites.Advance | www/js/plugins/GALV_LayerGraphics.js:650-651 | One frame adds the speeds to the scroll offsets and changes no other property of the record. A tombstone gains NaN offsets and stops being empty. A well-formed battle record stays well formed. |
| LayerSprites.AdvanceTimesAccumulates | www/js/plugins/GALV_LayerGraphics.js:650-651 | After `n` frames the scroll offset is the starting offset plus `n` times the speed (a layer of speed 1 has scrolled by 10 after ten frames). |
| LayerSprites.AdvanceTimes | www/js/plugins/GALV_LayerGraphics.js:650-651 | Any number of frames keeps the graphic, the kind and every field except the scroll offsets; after at least one frame the record is not empty. |
| LayerSprites.AdvanceTimesKeepsNaN | www/js/plugins/GALV_LayerGraphics.js:650-651 | A NaN offset stays NaN for every later frame. |
| LayerSprites.Origin | www/js/plugins/GALV_LayerGraphics.js:640-649 | The origin is a number exactly when the offset and the shift are numbers. Then it is the display position times the tile size plus the shift, plus the scroll offset. |
| LayerSprites.OriginAtFrame | www/js/plugins/GALV_LayerGraphics.js:640-651 | On frame `n` the origin is the display term plus the starting offset plus `n` times the speed. |
| LayerSprites.TilingLayerSprite.constructor | www/js/plugins/GALV_LayerGraphics.js:581-592 | The fields a new tiling sprite has before its first frame: origin, depth, opacity and blend at 0, and a placeholder empty graphic name. The constructor's own `createBitmap` and first `update` are the first call to `Update`. |
| LayerSprites.TilingLayerSprite.Update | www/js/plugins/GALV_LayerGraphics.js:623-652 | A frame throws when the record is missing, after `layerConfig` has reserved the map's table. Otherwise the bitmap follows `Reloaded`, and depth, opacity and blend are copied (0 when falsy). The origin comes from the offsets before they advance (display 0 in battle). The record is replaced by `Advance` of it in its own table, the other table is untouched, and a valid battle table stays valid. |
| LayerSprites.RotationFor | www/js/plugins/GALV_LayerGraphics.js:742-767 | The eight listed headings have rotations that are multiples of 45 degrees in [0, 360); other headings are not in the table. |
| LayerSprites.RotationFollowsCompass | www/js/plugins/GALV_LayerGraphics.js:742-767 | Going round the compass from facing down, each heading turns the graphic one more eighth of a turn. |
| LayerSprites.OppositeHeadingsHalfTurn | www/js/plugins/GALV_LayerGraphics.js:742-767 | Opposite headings are half a turn apart. |
| LayerSprites.NextRotationValid | www/js/plugins/GALV_LayerGraphics.js:741-770 | Follow mode turns the sprite only by whole eighths of a turn, so a rotation in the table stays in the table. The rotation changes only when rotation is off or the heading is one of the eight listed. |
| LayerSprites.FollowPosition | www/js/plugins/GALV_LayerGraphics.js:733-738 | A following sprite sits at the centre of the character's tile, relative to the display. |
| LayerSprites.FollowPositionShift | www/js/plugins/GALV_LayerGraphics.js:733-738 | A character and a display that move by the same amount leave the sprite where it is on screen. |
| LayerSprites.StaticLayerSprite.constructor | www/js/plugins/GALV_LayerGraphics.js:678-692 | A new static sprite is unrotated at the top left, with a placeholder empty graphic name, before its first frame. The constructor's own `createBitmap` and first `update` are the first call to `Update`. |
| LayerSprites.StaticLayerSprite.UpdatePosition | www/js/plugins/GALV_LayerGraphics.js:709-779 | Depth, opacity and blend are copied. A fixed sprite sits at its position minus the display and is upright. A following sprite sits at the followed character's tile centre and turns by `NextRotation`; an event the map lacks throws and leaves position, rotation and anchors as they were. A valid rotation stays valid. |
| LayerSprites.StaticLayerSprite.Update | www/js/plugins/GALV_LayerGraphics.js:709-779 | A frame throws when the record or the followed event is missing. Otherwise the sprite copies depth, opacity and blend. A fixed sprite sits at the record's position minus the display and is upright. A following sprite sits at the character's tile centre and turns by `NextRotation`. The anchors are the record's. The registry changes only by `layerConfig`'s reservation. |
| MessageCommon.StepAll | www/js/plugins/MessageCommon.js:58-60 | Every interpreter in the list takes one step, and the list keeps its length and order. |
| MessageCommon.StepEach | www/js/plugins/MessageCommon.js:58-60 | The in-place `forEach` loop steps every interpreter once, giving `StepAll`. |
| MessageCommon.Prune | www/js/plugins/MessageCommon.js:61-63 | The filtered list is no longer than the list and holds only running interpreters. |
| MessageCommon.KeepRunning | www/js/plugins/MessageCommon.js:61-63 | The `filter` loop builds exactly `Prune` of the list. |
| MessageCommon.PruneMembers | www/js/plugins/MessageCommon.js:61-63 | An interpreter is kept exactly when it was in the list and is running. |
| MessageCommon.PruneRunning | www/js/plugins/MessageCommon.js:61-63 | A list of running interpreters passes the filter unchanged. |
| MessageCommon.PruneIdempotent | www/js/plugins/MessageCommon.js:61-63 | Filtering twice is filtering once. |
| MessageCommon.PruneConcat | www/js/plugins/MessageCommon.js:61-63 | The filter keeps the running interpreters in their relative order. |
| MessageCommon.StepAllConcat | www/js/plugins/MessageCommon.js:58-60 | Stepping a list is stepping each part. |
| MessageCommon.Tick | www/js/plugins/MessageCommon.js:55-64 | One update leaves a list no longer than before, of running interpreters only. |
| MessageCommon.TickKeeps | www/js/plugins/MessageCommon.js:55-64 | An update keeps an interpreter, one step further on, exactly when it had more than one step left; one that finishes on this frame is already gone. |
| MessageCommon.TickConcat | www/js/plugins/MessageCommon.js:55-64 | With interpreters modelled as step counters, interpreters do not affect each other: one update of a list is the updates of its parts, concatenated. |
| MessageCommon.TicksConcat | www/js/plugins/MessageCommon.js:55-64 | The same holds for any number of frames. |
| MessageCommon.Ticks | www/js/plugins/MessageCommon.js:55-64 | After any number of updates the list is no longer than before; after at least one, every interpreter in it is running. |
| MessageCommon.Lifetime | www/js/plugins/MessageCommon.js:55-64 | An interpreter with `k` steps ahead is still in the list with `k - n` steps after `n < k` frames, and gone after `k` frames. |
| MessageCommon.AllFinish | www/js/plugins/MessageCommon.js:55-64 | A list whose interpreters all need at most `n` steps is empty after `n` frames. |
| MessageCommon.Delegated | www/js/plugins/MessageCommon.js:72-78 | No `CE` code is passed on to the window's own handler. |
| MessageCommon.DelegatedConcat | www/js/plugins/MessageCommon.js:72-78 | Passing codes on acts on each part of the frame separately. |
| MessageCommon.DelegatedInOrder | www/js/plugins/MessageCommon.js:72-78 | Every code other than `CE` is passed on unchanged, right after the codes passed on before it. |
| MessageCommon.DelegatedFromCodes | www/js/plugins/MessageCommon.js:72-78 | Everything passed on is the code of a non-`CE` escape code, at the position its predecessors give it. |
| MessageCommon.Calls | www/js/plugins/MessageCommon.js:72-82 | Each escape code of the frame either starts an interpreter or is passed on, never both. Every interpreter started is a fresh, running one for a common event that exists. |
| MessageCommon.CallsInOrder | www/js/plugins/MessageCommon.js:72-82 | The `CE` code at position `j` starts its own common event, placed right after the calls of the codes before it. |
| MessageCommon.CallsFromCodes | www/js/plugins/MessageCommon.js:72-82 | Every call comes from a `CE` code: the `k`-th call belongs to the `CE` code that has `k` calls before it. |
| MessageCommon.InvalidCall | www/js/plugins/MessageCommon.js:73-75 | A `CE` code naming no common event makes the frame throw. |
| MessageCommon.MessageCommonQueue.constructor | www/js/plugins/MessageCommon.js:47 | There is no interpreter list until the first call. |
| MessageCommon.MessageCommonQueue.AddMessageCommonEvents | www/js/plugins/MessageCommon.js:46-53 | The list exists afterwards. The call succeeds exactly when the id names a common event, and then appends one interpreter for it at the end; otherwise it throws and appends nothing. |
| MessageCommon.MessageCommonQueue.UpdateMessageCommonEvents | www/js/plugins/MessageCommon.js:55-64 | A missing or empty list is left as it is. Otherwise every interpreter steps once and the finished ones are dropped, in order. |
| MessageCommon.MessageWindow.ProcessEscapeCharacter | www/js/plugins/MessageCommon.js:72-82 | `CE` is handled here and starts its common event, or throws when the event does not exist. Every other code is passed on and leaves the list unchanged. |
| MessageCommon.MessageWindow.ProcessCodes | www/js/plugins/MessageCommon.js:72-82 | A frame's codes in order: the frame succeeds exactly when every `CE` names a common event. Then the other codes are passed on in order and the calls are appended in order. |
| MessageCommon.MessageWindow.Update | www/js/plugins/MessageCommon.js:84-88 | The queue advances before the frame's codes are handled. An event started by this frame's `CE` therefore takes its first step on the next frame, and the list becomes `Tick(old) + Calls(codes)`. |

## Left out

- `REFRESH` (`GALV_LayerGraphics.js:268-271`) is modelled only as the outcome `Refreshed`. The spriteset rebuild it asks for is outside this model.
- `Spriteset_Map.createLayerGraphics` (which attaches and detaches map layer sprites on the tilemap) and `Spriteset_Map.createLowerLayer` are not part of this model. Sprites are modelled one at a time by their `Update`.
- The empty-record branch of `Spriteset_Battle.createLayerGraphics` (lines 423-430) cannot be reached. `bLayer` writes only tiling records with a graphic, and the sprites keep those records well formed (`WellFormedTable`, preserved by `BLayerSpec` and `Advance`), so `CreateLayerGraphics` requires a valid table.
- BattleLayers.BattleSpriteset.CreateLayerGraphics: models the call made when `createLowerLayer` builds the battle spriteset, when no layer sprite is attached yet. A later call, made by `LAYER REFRESH` during battle, would make PIXI's `addChildAt` move already attached sprites; that case is not modelled.
- The `z` assignments to the battle field's children and battlebacks (lines 390-396) are not modelled. Placement looks only at which children are `TilingSprite`s.
- The order in which `for ... in` visits the battle table's ids is a parameter (`order`).
- Bitmap loading, PIXI's texture cache fix (lines 595-602), `move`, and the engine's own `TilingSprite`/`Sprite` updates are left out. A bitmap is modelled as the name it was loaded from.
- Floating point is modelled as exact reals. Rotations are whole degrees; the source's radian constants are their five-digit approximations.
- NoteLine: the creation lemmas cover a line holding one verb. A `LAYER` line with `LAYER_S ` inside a token runs both commands, and this case has no lemma of its own.
- NoteLines: what a note creates is stated for a note of one line. A note of several lines runs its lines in order, but no lemma gives the records it creates.
- SetupLayers: what setup creates is stated for a note of one line holding one verb, for the reasons in the two lines above.
- `Number(text)` is modelled for decimal text (an optional sign, digits, an optional fraction) and the empty string. Any other text (exponents, hexadecimal, surrounding whitespace, `Infinity`) reads as NaN.
- The tile size plugin parameter, `$gameMap.displayX/Y`, the player, the map's events, `$gameVariables` and `$dataCommonEvents` are parameters.
- SetupKeeps: with the existence test as written (`ByNumber`), records are shown to survive only for notes whose commands start with the map id and a layer id that is not a variable token. A variable layer id is the finding below. Lines where the verb is not at the start of the line are not covered.
- The reset loop in `Game_Map.setup` (lines 531-534) assigns to properties of the key strings. It changes no record, so the model has nothing for it.
- The `createBitmap` and the first `update` that the sprite constructors run are folded into a separate first call to `Update`.
- The YEP depth comparator (lines 781-793) needs the YEP Battle Engine plugin, which is not part of this model.
- `Game_Interpreter` is modelled as the number of `update` calls a common event runs for. The commands it executes, waiting, and nested calls are not modelled.
- `obtainEscapeParam` is modelled as the code's optional numeric parameter. The drawing of the message and everything else `Window_Message.update` does is reduced to the list of escape codes of the frame.
- `QW_LeftRight.js` is not part of this model.

## Findings

| source | as written | input that shows it | evidently intended | confidence | as-written member | corrected member |
|---|---|---|---|---|---|---|
| www/js/plugins/GALV_LayerGraphics.js:547 | The note bootstrap looks for an existing layer at `Number(config[1])`, but the command writes at `num(config[1])`. | A map note line `LAYER v5 fog 1 0 128 2 0 0 0` after the layer named by variable 5 has been re-tuned, moved or removed: `Number("v5")` is NaN, so every entry into the map runs the line again and overwrites that layer. | The layer is created only when no record exists at the key the command writes (`num(config[0])`, `num(config[1])`). | not executed | LayerRegistry.NoteCheckByNumberMissesVariableIds | LayerRegistry.SetupKeeps |
