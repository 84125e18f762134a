# A verified model of the darknetos adventure engine

The engine runs a German text adventure in a browser terminal. A line of input is parsed
into an action descriptor: a verb, an object, a target and a direction. The action goes
to the command layer. That layer moves the player through rooms, takes items, inspects
and uses objects, combines items and runs the turn-based fight. Rooms, objects and items
carry event scripts (`message`, `flag_set`, `flag_if`, `add_item`, `lock_exit`,
`transition`, `trigger_fight`, ...). These scripts change the player state.

Two neighbours of the engine are modelled as well:

- the adventure configuration, meaning the paths under which an adventure's data lives,
  read from its `game.json` manifest;
- the dialog editing functions of the world builder, which create, normalise, rename,
  remove and validate the nodes of an NPC dialog.

Modules:

- `Base`: JavaScript's string helpers (`trim`, `toLowerCase`, `split(/\s+/)`, `join`,
  `includes`, `startsWith`) and `||` on optional strings.
- `Parser`, `ParserFacts`: `parseInput` with its verb table and direction aliases. The
  `combine` pattern is modelled as the backtracking regular-expression search it is.
- `Model`: the documents (world, room, item, object, enemy), the effect scripts, and the
  player state. The state exists as a value (`State`) and as the object the engine
  updates in place (`Session`).
- `Events`: `runEvents` and `handleEvent`, and `showRoom`, which runs a room's entry
  script.
- `Combat`: `startCombat` and `handleCombatAction`.
- `Core`, `CoreFacts`: `performMove`, `performTake`, `performInspect`, `performUse`,
  `performCombine`, `describeInventory`, `handleAction`, `start` and `handleInput`.
- `Config`: `normalizePath`, `getAdventureConfig` and `setActiveAdventure`.
- `Dialogs`: `createEmptyDialog`, `ensureDialogForNpc`, `normalizeDialog`, `renameNode`,
  `removeNode`, `validateDialog`, `normalizeChoice` and `normalizeGate`.

Each operation that changes state is a method on a `Session`, `Dialog`, `Project` or
`ConfigStore` object. Its postcondition ties the new state and the result to a function
of the old state. The properties the engine promises are lemmas about those functions.

A script can start another script, through `transition`, `flag_if` or `trigger_fight`.
To make such operations terminate, they take a `fuel` bound on the depth of nested
scripts. Running out of fuel is the fault `TooDeep`.

## Model

| member | source | states |
|---|---|---|
| Parser.NormalizeVerb | games/adventure/engine/parser.js:3-39 | The verb is the canonical verb of the first table row, in table order, that has a form equal to the input or followed by a space in front of it. The result is null exactly when no row has such a form. |
| Parser.ParseDirection | games/adventure/engine/parser.js:19-43 | An alias is known exactly when it is a key of the alias table. Its direction is then one of nord, sued, ost, west. |
| Parser.FirstDirection | games/adventure/engine/parser.js:79-80 | The direction is that of the first token that is an alias. It is missing exactly when no token is an alias. |
| Parser.TailAtFinds | games/adventure/engine/parser.js:70 | The second half of the combine pattern is found at a position exactly when it can be placed there at all. |
| Parser.FitsMeans | games/adventure/engine/parser.js:70 | A candidate match of the whole combine pattern is a keyword, white space, a non-empty first group, and any placement of the second half. |
| Parser.SearchGapFirst | games/adventure/engine/parser.js:70 | At a given start, no fitting candidate comes before the one the search picks in backtracking order. |
| Parser.FirstHit | games/adventure/engine/parser.js:70 | The combine match is missing exactly when no candidate fits. A match fits, and it comes first in backtracking order: leftmost start, longest white space, shortest lazy group. |
| Parser.FirstHitFirst | games/adventure/engine/parser.js:70 | Every fitting candidate is the chosen match or comes after it. |
| Parser.NonEmpty | games/adventure/engine/parser.js:88 | The object is present exactly when it is non-empty, and is then unchanged; an empty one becomes null. |
| Parser.Tokens | games/adventure/engine/parser.js:52-53 | Splitting the trimmed, lower-cased line always gives at least one token. |
| Parser.ParseLower | games/adventure/engine/parser.js:53-88 | On the normalised line: raw is kept, an object is never empty, a target appears only for combine, and a direction only for go and only as a canonical one. |
| Parser.ParseInput | games/adventure/engine/parser.js:50-89 | The same guarantees for the action descriptor of any line. |
| ParserFacts.DecidedByNormalized | games/adventure/engine/parser.js:51-53 | Two lines with the same trimmed, lower-cased form give the same action, except for raw. |
| ParserFacts.LeadingSpaceIgnored | games/adventure/engine/parser.js:52 | White space in front of the line changes nothing but raw. |
| ParserFacts.TrailingSpaceIgnored | games/adventure/engine/parser.js:52 | White space after the line changes nothing but raw. |
| ParserFacts.CaseIgnored | games/adventure/engine/parser.js:52 | Upper-case and lower-case input parse alike. |
| ParserFacts.AliasIsGoForm | games/adventure/engine/parser.js:3-28 | Every direction alias is a single word and a form of go in the first table row. |
| ParserFacts.VerbRule | games/adventure/engine/parser.js:55-63 | The verb is the table's canonical verb, otherwise the first token, and the direction shortcut agrees with this. |
| ParserFacts.AliasMoves | games/adventure/engine/parser.js:55-61 | A lone direction alias is `go` in its canonical direction, with no object and no target. |
| ParserFacts.GoRule | games/adventure/engine/parser.js:77-84 | For go: the direction comes from the first alias token. With no alias, the object is the second token, if there is one. There is never a target. |
| ParserFacts.CombineRule | games/adventure/engine/parser.js:68-77 | For combine: a match gives the trimmed object and target. Otherwise the object is the remaining words and there is no target. |
| ParserFacts.CombineExample | games/adventure/engine/parser.js:63-77 | `kombiniere schluessel mit tor` parses to the combine action with object `schluessel` and target `tor`, no direction, and the line as raw. The verb table and the lazy first group of the pattern are both used. |
| ParserFacts.OtherVerbRule | games/adventure/engine/parser.js:84-86 | Every other verb takes the remaining words, joined by single spaces, as its object. |
| Model.Read | games/adventure/engine/events.js:26 | An unset flag reads as undefined. A set flag reads as its value. |
| Model.LockKey | games/adventure/engine/events.js:49-58 | The lock key is the room id, a colon, and the direction. |
| Model.LoadRoom | games/adventure/engine/core.js:58-63 | A cached room is returned unchanged. Otherwise the room document is loaded and cached. A missing document changes nothing. |
| Model.FindContaining | games/adventure/engine/core.js:196 | `find` with a lower-cased `includes`: the first id that contains the phrase, or none exactly when no id does. |
| Model.Session.constructor | games/adventure/engine/core.js:10-29 | The initial state record: default stats 12/2/1, nothing carried, visited, locked or cached. |
| Events.IndexOf | games/adventure/engine/events.js:41 | `indexOf`: the first position of the id, or the length when the id is absent. |
| Events.RemoveAt | games/adventure/engine/events.js:43 | `splice(k, 1)` removes exactly position k and keeps the order. |
| Events.RoomLines | games/adventure/engine/core.js:140-151 | The room's lines start with its title and description. |
| Events.Script | games/adventure/engine/core.js:153 | On a first visit the first-visit script runs when the room has one. Otherwise the entry script runs. |
| Events.RunSequential | games/adventure/engine/events.js:6-11 | A script runs as its first part and then the rest. A fault in the first part skips the rest. |
| Events.FlagSetSetsOne | games/adventure/engine/events.js:21-24 | `flag_set` sets exactly one flag and saves. |
| Events.FlagIfChooses | games/adventure/engine/events.js:25-32 | `flag_if` runs `then` exactly when the flag is strictly equal to `equals`, otherwise `else`. A missing branch does nothing. |
| Events.AddItemOnce | games/adventure/engine/events.js:33-39 | `add_item` adds the id once, announces it only when it is new, saves in either case, and never creates a duplicate. Nothing else in the state changes. |
| Events.RemoveItemFirst | games/adventure/engine/events.js:40-48 | `remove_item` removes the first occurrence only (the multiset loses exactly that one id), prints "<id> entfernt." when the id was there, and saves in either case. Nothing else in the state changes. |
| Events.LockSetsKey | games/adventure/engine/events.js:49-62 | `lock_exit` and `unlock_exit` set the `room:direction` key, announce the change and save. Nothing else in the state changes. |
| Events.TransitionShows | games/adventure/engine/events.js:63-67 | `transition` moves, saves, and shows the new room as a first visit. |
| Events.UnknownOnlyPrints | games/adventure/engine/events.js:71-72 | An unknown tag only prints a line. A missing tag is named "unbenannt". |
| Events.ShownMarksVisited | games/adventure/engine/core.js:132-151 | Showing a room marks it visited, then prints its art (only when `ascii` is a non-empty file name) and its lines, and changes nothing else. |
| Events.ShowRunsScript | games/adventure/engine/core.js:153-156 | The entry script runs after the room has been marked and printed. An empty script runs nothing. |
| Events.RunGrows | games/adventure/engine/events.js:6-11 | No script unmarks a room or gives the inventory a duplicate. |
| Events.HandleGrows | games/adventure/engine/events.js:13-74 | No single effect unmarks a room or gives the inventory a duplicate. |
| Events.ApplyGrows | games/adventure/engine/events.js:15-62 | The same holds for the effects that do not run a script. |
| Events.ShowGrows | games/adventure/engine/core.js:132-157 | The same holds for showing a room. |
| Events.RunEvents | games/adventure/engine/events.js:6-11 | The loop over the effects leaves the session in the state of `Run`, and reports its fault. |
| Events.HandleEvent | games/adventure/engine/events.js:13-74 | Each event type updates the session as `Handle` does. |
| Events.ApplyEffect | games/adventure/engine/events.js:15-62 | The effects that do not run a script update the session in place as `Apply` does. |
| Events.AddToInventory | games/adventure/engine/events.js:34-37 | The inventory push under its `includes` guard. |
| Events.RemoveFromInventory | games/adventure/engine/events.js:41-45 | The `indexOf`/`splice` on the inventory. |
| Events.SetExitLock | games/adventure/engine/events.js:50-59 | The lockedExits update and its message. |
| Events.ShowRoom | games/adventure/engine/core.js:132-157 | `showRoom` on the session matches `Show`, including the fault for a missing room. The art is printed only when the room's `ascii` is a non-empty file name. |
| Events.LoadRoomInto | games/adventure/engine/core.js:58-63 | `loadRoom` on the session's room cache. |
| Events.DisplayRoom | games/adventure/engine/core.js:134-151 | Marks the room visited and prints it: its art only when `ascii` is a non-empty file name, then its lines. |
| Combat.Max | games/adventure/engine/combat.js:31-52 | `Math.max`: at least both arguments, and equal to one of them. |
| Combat.PlayerDamage | games/adventure/engine/combat.js:31 | The player deals at least 1 damage: `(attack or 1) - defense` when that is larger. |
| Combat.EnemyDamage | games/adventure/engine/combat.js:50 | The enemy deals at least 0 damage: `(attack or 1) - defense` when that is larger. |
| Combat.Begin | games/adventure/engine/combat.js:4-18 | A missing enemy document is a fault that changes nothing. Otherwise the fight starts against a copy of the enemy and the state is saved once. The output grows by the enemy's art, only when its `ascii` is a non-empty file name, and then by the three lines announcing its name, description and hp, in that order. |
| Combat.GainAdds | games/adventure/engine/combat.js:39-43 | One drop is appended unless it is already carried. |
| Combat.LootAdds | games/adventure/engine/combat.js:38-44 | Looting appends to the inventory the drops not yet carried, each once, in drop order, with one "Du erhältst" line each. It keeps the old inventory in front, adds every drop and nothing else, never creates a duplicate, and touches only the inventory and the output. |
| Combat.LootInOrder | games/adventure/engine/combat.js:38-44 | The `forEach` over the drops appends exactly the fresh drops, in drop order, prints one line for each, and changes nothing else. |
| Combat.FreshCovers | games/adventure/engine/combat.js:39-43 | Every drop ends up carried, whether it was carried before or received. |
| Combat.FreshDistinct | games/adventure/engine/combat.js:39-43 | The `includes` guard keeps the inventory free of duplicates. |
| Combat.NotInFight | games/adventure/engine/combat.js:21-23 | Outside a fight, or without an enemy, the action is not handled and nothing changes. |
| Combat.OtherActionInFight | games/adventure/engine/combat.js:26-29 | Any other verb in a fight prints the hint and is handled. |
| Combat.Victory | games/adventure/engine/combat.js:31-48 | A blow that brings the enemy to zero hp ends the fight. The enemy is gone. Its drops not yet carried are appended in drop order, without duplicates. The printed lines are the hit with "0 HP übrig", then "<name> wurde besiegt!", then one "Du erhältst <drop>." per new drop. The player's stats and every other field are untouched, and the state is saved once. |
| Combat.KillingBlow | games/adventure/engine/combat.js:31-33 | A blow that leaves the enemy at zero hp or below takes the player's damage off the enemy and reports it with "0 HP übrig", since the printed hp is clamped at zero. |
| Combat.Exchange | games/adventure/engine/combat.js:31-61 | Otherwise the enemy strikes back. The player loses exactly the enemy's damage. The fight goes on unless the player falls, and then it ends without loot. Only the player's stats, the fight, the enemy, the output and the save count change. |
| Combat.FightMatchesEnemy | games/adventure/engine/combat.js:35-58 | After an attack, the fight is on exactly when there is an enemy. |
| Combat.BlowCostsHp | games/adventure/engine/combat.js:31-32 | Every blow costs the enemy at least one hp. Attack 3 against defense 1 costs two. |
| Combat.StartCombat | games/adventure/engine/combat.js:4-18 | `startCombat` on the session matches `Begin`: art only for a non-empty `ascii`, then the three announcement lines. It reports success exactly when the enemy exists. |
| Combat.TakeDrops | games/adventure/engine/combat.js:38-44 | The `forEach` over the drops matches `Loot`. |
| Combat.StrikeEnemy | games/adventure/engine/combat.js:31-33 | The player's blow on the session. |
| Combat.EndFight | games/adventure/engine/combat.js:35-47 | The victory branch on the session. |
| Combat.SufferBlow | games/adventure/engine/combat.js:50-58 | The counter-attack on the session. |
| Combat.HandleCombatAction | games/adventure/engine/combat.js:20-62 | `handleCombatAction` on the session matches `Attack`, including whether the action was handled. |
| Core.OrEmpty | games/adventure/engine/core.js:195-249 | A missing list reads as the empty list, a present one as itself. |
| Core.ExitTo | games/adventure/engine/core.js:171 | The destination of the named exit. It is missing exactly when no exit has that name. |
| Core.MoveKey | games/adventure/engine/core.js:170 | The key is the direction, else the object, else "null". |
| Core.InventoryLines | games/adventure/engine/core.js:122-130 | An empty inventory prints one line. Otherwise a header is followed by one `- id` line per item, in order. |
| Core.PerformMove | games/adventure/engine/core.js:168-186 | `performMove` on the session matches `Move`. |
| Core.PerformTake | games/adventure/engine/core.js:188-212 | `performTake` on the session matches `Take`. |
| Core.PickUpItem | games/adventure/engine/core.js:206-211 | The item leaves the cached room and enters the inventory once, and the state is saved. |
| Core.DescribeMatch | games/adventure/engine/core.js:229-239 | An object is described and its inspect script runs. An item is only described. |
| Core.PerformInspect | games/adventure/engine/core.js:214-240 | `performInspect` on the session matches the corrected `Inspect`. |
| Core.PerformUse | games/adventure/engine/core.js:242-266 | `performUse` on the session matches `Use`. |
| Core.PerformCombine | games/adventure/engine/core.js:268-283 | `performCombine` on the session matches `Combine`. An empty id found by an empty object is falsy, so it counts as no match. |
| Core.DescribeInventory | games/adventure/engine/core.js:122-130 | Appends exactly the inventory lines and changes nothing else. |
| Core.HandleAction | games/adventure/engine/core.js:285-332 | `handleAction` on the session matches `Dispatch`. Inspect goes to the corrected `Inspect` of the finding at core.js:231, not to the code as written. |
| Core.StartAdventure | games/adventure/engine/core.js:346-360 | `start` on the session matches `Start`. |
| Core.ResetState | games/adventure/engine/core.js:349-356 | The state fields reset by `start`. |
| Core.HandleInput | games/adventure/engine/core.js:379-385 | `handleInput` parses the line and dispatches the action through `Dispatch`, so inspect uses the corrected `Inspect` of the finding at core.js:231. |
| CoreFacts.MoveFailureStays | games/adventure/engine/core.js:168-181 | A move with no exit of that name, or through a locked exit, prints one line and changes nothing else. The room may enter the cache. |
| CoreFacts.MoveEnters | games/adventure/engine/core.js:183-185 | An open exit moves the player, saves, and shows the destination. It counts as a first visit exactly when the room was not visited before. |
| CoreFacts.ShowMarks | games/adventure/engine/core.js:132-134 | Entering a room marks it visited, whatever its script does, and never unmarks another room. |
| CoreFacts.MoveMarksDestination | games/adventure/engine/core.js:183-185 | After a move the destination room is marked visited. |
| CoreFacts.TakeMovesItem | games/adventure/engine/core.js:188-212 | A pickable item leaves the cached room entirely while the other items stay. Its id is carried once, nothing carried is lost, one line is printed, and the state is saved once. |
| CoreFacts.PickUpMoves | games/adventure/engine/core.js:206-211 | The matched id leaves the cached room entirely while the other items stay. The item is carried once, nothing carried is lost, one line is printed, and the state is saved once. |
| CoreFacts.TakeRefuses | games/adventure/engine/core.js:190-205 | No object, no matching room item, or an item that cannot be picked up: one line each, and nothing else changes. |
| CoreFacts.UsePrefersObjects | games/adventure/engine/core.js:249-265 | A matching room object runs its locked-use or use script, without consulting the inventory. When nothing matches, the unknown-command message is printed. |
| CoreFacts.CombineCases | games/adventure/engine/core.js:268-283 | The first carried item whose lower-cased name contains the underscored object is the source, and there is none exactly when no carried item matches. With no source, or with an empty id (found only by an empty object), "Dir fehlt ein benötigtes Item." is printed. A source without a document is a fault. A source with no entry for the underscored target prints "Das lässt sich nicht kombinieren.". Otherwise its combine script runs. |
| CoreFacts.FightCapturesActions | games/adventure/engine/core.js:291-297 | During a fight every action goes to the combat handler. An action it does not handle prints "Kampf läuft bereits.". The player does not move and no room is loaded. |
| CoreFacts.StartResets | games/adventure/engine/core.js:346-360 | `start` resets the player state, saves, prints "Starte Adventure...", and shows the start room as a first visit. |
| CoreFacts.StartEntersStartRoom | games/adventure/engine/core.js:346-360 | The start room of the reset state is marked visited. With no first-visit script the outcome is exactly the shown room. Otherwise that script runs on the shown room, and its outcome is the outcome of `start`. |
| CoreFacts.DirectionInputMoves | games/adventure/engine/core.js:379-385 | Outside a fight, a lone direction word moves in that direction. |
| CoreFacts.RunNoThrow | games/adventure/engine/events.js:6-11 | No script of the model throws a TypeError. The model has no malformed documents. |
| CoreFacts.HandleNoThrow | games/adventure/engine/events.js:13-74 | No effect of the model throws a TypeError. The model has no malformed documents. |
| CoreFacts.ShowNoThrow | games/adventure/engine/core.js:132-157 | Showing a room in the model never throws a TypeError. |
| CoreFacts.InspectAsWrittenThrows | games/adventure/engine/core.js:224-231 | As written, inspecting a room item in a room without an objects list throws. |
| CoreFacts.InspectDescribesItem | games/adventure/engine/core.js:214-240 | Corrected, inspect never throws. A matching room item is described by its name and description. |
| Config.DropTrailingSlash | games/adventure/engine/config.js:15-18 | Removes exactly one trailing slash, if there is one. |
| Config.DropDotSlash | games/adventure/engine/config.js:18 | Removes exactly one leading `./`, if there is one. |
| Config.NormalizePath | games/adventure/engine/config.js:12-20 | An empty path gives the base. An absolute path or URL is kept, without one trailing slash. A relative path is joined to the base by one slash, without a leading `./` and a trailing slash. |
| Config.NormalizeJoins | games/adventure/engine/config.js:17-19 | A plain relative name is joined to a base without a trailing slash by a single slash. |
| Config.BasePath | games/adventure/engine/config.js:24-43 | The folder of an adventure is `./js/games/` followed by its id. |
| Config.DefaultConfig | games/adventure/engine/config.js:24-31 | The default id, title and world file, and the default data folder under the base path. |
| Config.FromManifest | games/adventure/engine/config.js:51-57 | Each field comes from the manifest when it is present and non-empty, else from its default. The data path is normalised against the base path. |
| Config.EmptyManifestIsDefault | games/adventure/engine/config.js:24-57 | For the default adventure, an empty manifest gives the default configuration. |
| Config.Current | games/adventure/engine/config.js:22-33 | The current configuration, else the default one. |
| Config.Activate | games/adventure/engine/config.js:41-60 | The manifest loads exactly when it is available. It then becomes the current configuration. Otherwise the error names the manifest URL, and the current configuration stays as it was, or becomes the default when it was read to find the id. |
| Config.ConfigStore.GetAdventureConfig | games/adventure/engine/config.js:22-33 | Returns the current configuration, set to the default on first use. Once set, it never changes. |
| Config.ConfigStore.SetActiveAdventure | games/adventure/engine/config.js:41-60 | `setActiveAdventure` on the module state matches `Activate`. |
| Dialogs.NormalizeGate | js/builder/dialogs.js:92-98 | A missing gate becomes no items and no flag. A list of items is kept. A flag is kept exactly when it has a non-empty key, and its `equals` becomes true unless it is false. |
| Dialogs.NormalizeChoice | js/builder/dialogs.js:81-90 | Empty text, next or status fall back to "", "" and "active". Missing events become empty. Both gates are normalised. Unknown fields are kept. |
| Dialogs.NormalGateSettles | js/builder/dialogs.js:92-98 | A normal gate is unchanged by normalisation. |
| Dialogs.NormalChoiceSettles | js/builder/dialogs.js:81-90 | A normal choice is unchanged by normalisation. |
| Dialogs.NormalizeNode | js/builder/dialogs.js:34-35 | A missing choice list becomes empty. Otherwise each choice is normalised in place. The text is kept. |
| Dialogs.NormalizeDialog | js/builder/dialogs.js:31-38 | Every node is normalised. The keys, their order and the start are kept. |
| Dialogs.NormalizedIsNormal | js/builder/dialogs.js:31-38 | After normalisation every node is normal and has a choice list. |
| Dialogs.NormalNodeSettles | js/builder/dialogs.js:33-36 | A normal node is unchanged by normalisation. |
| Dialogs.NormalizeTwice | js/builder/dialogs.js:31-38 | Normalising twice is the same as normalising once. |
| Dialogs.CreateEmptyDialog | js/builder/dialogs.js:21-29 | One empty "start" node, with start set to "start". |
| Dialogs.EnsureStart | js/builder/dialogs.js:12-16 | Afterwards the start key names a node. A dialog whose start node exists is unchanged. Otherwise an empty node is put under the start, or under "start" when the start is missing or empty, and start falls back to "start". |
| Dialogs.EnsureStartReplaces | js/builder/dialogs.js:13-15 | With a missing or empty start, an existing "start" node is replaced by an empty one. |
| Dialogs.Retarget | js/builder/dialogs.js:51-62 | A choice that points to the old id is redirected. Any other choice is unchanged. |
| Dialogs.RetargetAll | js/builder/dialogs.js:50-52 | Each choice of a list is redirected in place. |
| Dialogs.Retargeted | js/builder/dialogs.js:50-52 | A node keeps its text and the number of its choices. |
| Dialogs.RetargetList | js/builder/dialogs.js:50-52 | The loop over one node's choices matches `RetargetAll`. |
| Dialogs.RetargetNodesDone | js/builder/dialogs.js:49-53 | When every node has a choice list, every node is redirected and nothing throws. |
| Dialogs.RetargetNodesThrows | js/builder/dialogs.js:49-53 | A node without a choice list makes the loop throw a TypeError. |
| Dialogs.Rename | js/builder/dialogs.js:44-55 | The rename is refused, with the dialog unchanged, exactly when the old id is missing or the new id is taken. |
| Dialogs.Remove | js/builder/dialogs.js:57-66 | The removal is refused, with the dialog unchanged, exactly when the node is the start node. |
| Dialogs.RenameKeepsWellFormed | js/builder/dialogs.js:44-55 | The key order stays free of duplicates and in step with the nodes. |
| Dialogs.RenameMoves | js/builder/dialogs.js:45-54 | The node moves to the new id. The count is kept, and the start follows. Every node is the old one, redirected. |
| Dialogs.RenameAppends | js/builder/dialogs.js:44-55 | A rename that goes ahead, returning or throwing, puts the new id last in the key order. The other ids keep their order. |
| Dialogs.RenameLeavesNoOldReference | js/builder/dialogs.js:49-53 | After a rename no choice points to the old id. |
| Dialogs.RenameThrows | js/builder/dialogs.js:49-53 | A node without a choice list makes a rename throw. |
| Dialogs.RetargetClears | js/builder/dialogs.js:50-52 | A redirected node has no choice left that points to the old id. |
| Dialogs.RemoveKeepsWellFormed | js/builder/dialogs.js:57-66 | The key order stays free of duplicates and in step with the nodes. |
| Dialogs.RemoveDeletes | js/builder/dialogs.js:58-65 | The node is gone and every other node is kept, with its choices redirected to "". |
| Dialogs.RemoveLeavesNoReference | js/builder/dialogs.js:60-64 | After a removal no choice points to the removed id. |
| Dialogs.Warning | js/builder/dialogs.js:75 | The warning text for a choice without a target. |
| Dialogs.Validate | js/builder/dialogs.js:68-79 | A broken start produces "Start-Node fehlt" as the first warning. |
| Dialogs.ChoiceWarningsCount | js/builder/dialogs.js:74-76 | One warning per choice without a target. |
| Dialogs.ChoiceWarningsComplete | js/builder/dialogs.js:74-76 | Every choice without a target is reported, with its 1-based number. |
| Dialogs.ChoiceWarningsSound | js/builder/dialogs.js:74-76 | Every warning names a choice without a target. |
| Dialogs.NodeWarningsComplete | js/builder/dialogs.js:73-77 | The warnings of every node with choices are collected. |
| Dialogs.NodeWarningsSound | js/builder/dialogs.js:73-77 | Every collected warning belongs to a node with choices. |
| Dialogs.ValidateReportsChoices | js/builder/dialogs.js:68-79 | Every choice without a target in the dialog is reported. |
| Dialogs.ValidateOnlyReports | js/builder/dialogs.js:68-79 | Every warning other than the start warning names such a choice. |
| Dialogs.ValidateStart | js/builder/dialogs.js:70-72 | The start warning appears exactly when the start is empty or names no node. |
| Dialogs.EmptyDialogValid | js/builder/dialogs.js:21-79 | A newly created dialog has no warnings. |
| Dialogs.CheckChoices | js/builder/dialogs.js:74-76 | The loop over one node's choices matches `ChoiceWarnings`. |
| Dialogs.Dialog.constructor | js/builder/dialogs.js:21-29 | A dialog object holding the given well-formed data. |
| Dialogs.Dialog.RetargetChoices | js/builder/dialogs.js:49-53 | The in-place loop over the nodes matches `RetargetNodes`, and keeps npc, start and key order. |
| Dialogs.Dialog.RenameNode | js/builder/dialogs.js:44-55 | `renameNode` in place matches `Rename`, and keeps the dialog well formed. |
| Dialogs.Dialog.RemoveNode | js/builder/dialogs.js:57-66 | `removeNode` in place matches `Remove`, and keeps the dialog well formed. |
| Dialogs.Dialog.Normalize | js/builder/dialogs.js:31-38 | `normalizeDialog` in place matches `NormalizeDialog`. |
| Dialogs.Dialog.EnsureStartNode | js/builder/dialogs.js:12-16 | The start-node repair in place matches `EnsureStart`. |
| Dialogs.Dialog.ValidateDialog | js/builder/dialogs.js:68-79 | `validateDialog` returns exactly `Validate` of the dialog. |
| Dialogs.Project.EnsureDialogForNpc | js/builder/dialogs.js:6-19 | An existing dialog is returned as the same object. Otherwise a new empty dialog is stored under the NPC. The result has its start node and is normalised. |
| Dialogs.EnsuredDialogReady | js/builder/dialogs.js:6-19 | The dialog `ensureDialogForNpc` returns has a start node, a choice list on every node, and is stable under normalisation. |

## Left out

- Loading data: `loader.js` fetches JSON and ASCII files. Here the loadable documents are a fixed `Content` value, and a missing document is the fault `Missing(path)`. Malformed JSON is not modelled.
- `ensureWorldLoaded`: the world document is part of `Content` and counts as loaded.
- The item, object and enemy caches are read through: a document is the same on every load. Only the room cache is state, because `performTake` changes cached rooms.
- ASCII art: `loadAscii` output is recorded as an `Art(file)` entry in the output log, not as the art's text.
- Output: `printLines` appends lines to the output log. Styling and the terminal are not modelled, and neither are `terminal.js`, `main.js` or `commands/adventure.js`.
- Saving: `saveState` is counted in `saves`, not serialised. `continue`, `reset`, `loadStateFromSave`, `clearSave` and `getSaveKey` are not modelled. They only read and write browser storage.
- Asynchrony: every `await` is taken to finish before the next statement, so the operations run one at a time.
- Script depth: scripts that start scripts take a `fuel` bound. A nesting deeper than the fuel ends with `TooDeep`, where the engine would recurse without bound.
- Strict equality in `flag_if` compares flag values structurally. JSON objects and arrays as flag values, compared by identity in JavaScript, are not modelled.
- Object key order: room exits are an ordered list of pairs, and dialog nodes keep their key order next to the map. JavaScript's ordering of integer-like keys first is not modelled.
- JSON values of the wrong type, such as a number as a choice's `next`, a non-string start, or a `null` dialog start, are not modelled. A missing field is `None`.
- `ensureDialogState` and the `data.dialogs` table: `Project.dialogs` is the table, and starts empty when there is none. `nodeIds` is the `order` sequence.
- `Dialogs.Project.EnsureDialogForNpc`: requires the stored dialog to be well formed, since a dialog object here always carries its key order. A dialog with no `nodes` field is not modelled.
- `Config.ConfigStore.SetActiveAdventure`: the fetch is a map from manifest URL to manifest. A URL not in the map is a failed fetch. The configuration is a value, so sharing the object returned by `getAdventureConfig` is not modelled.
- ASCII art references: a room's or enemy's `ascii` is `Some(f)` for the `{file: f}` record `loadAscii` takes, and `None` or the empty string shows no art. The builder writes `ascii` as a plain string (js/builder/main.js:617). `loadAscii` would then destructure `file` as undefined and fetch `data/undefined` (games/adventure/engine/loader.js:24). That case is not modelled.
- Base.Lower: lower-cases A to Z and the Latin-1 capitals only, not the full Unicode `toLowerCase` mapping. Other scripts' capitals stay as they are, and `İ` does not expand to two characters.
- `adventureActive`: `start` and `continue` set it (games/adventure/engine/core.js:349, 364). Only `isActive` reads it and only `exit` clears it (games/adventure/engine/core.js:31-38, 390-394). Both serve the terminal, which is outside this model, so the flag, `isActive` and `exit` are not modelled.
- TypeErrors from malformed documents: an enemy without `stats`, a room without `items`, and the like cannot be written as model values. `CoreFacts.RunNoThrow`, `CoreFacts.HandleNoThrow` and `CoreFacts.ShowNoThrow` are therefore facts about the model, not promises of the engine.
- Inherited object keys: the engine looks names up in plain JavaScript objects, which also answer for keys such as `constructor` that every object inherits. The model's maps and tables have only their own keys. So the model differs on a lower-cased input that names such a key:
  - `constructor` alone counts as a direction in the engine (games/adventure/engine/parser.js:41-43), and the move then fails with the cannot-go line, where the model prints the unknown-command line (games/adventure/engine/core.js:330).
  - As a combine target, `constructor` finds a function (games/adventure/engine/core.js:277), and running it as a script throws. The model prints "Das lässt sich nicht kombinieren.".
  - `renameNode` refuses `constructor` as a new id (js/builder/dialogs.js:45), where the model renames.
  - A dialog start of `constructor` counts as present in `ensureDialogForNpc` and `validateDialog` (js/builder/dialogs.js:13, 70), where the model repairs it and warns.
- Numbers: player and enemy stats and numeric flag values are integers. JSON numbers with a fraction, such as `attack: 2.5` or a flag value `0.5`, are not modelled, and neither is the damage arithmetic on them.
- The start command resets the player state but not the room cache, as the engine does. The model keeps this.

## Findings

| source | as written | input that shows it | evidently intended | confidence | as-written member | corrected member |
|---|---|---|---|---|---|---|
| games/adventure/engine/core.js:231 | `performInspect` calls `includes` on `room.objects` directly, although it built the candidates with an empty list standing in for a missing `objects` | a room document with items but no `objects` list, and `untersuche <item>` naming one of its items | the same empty-list fallback in the membership test, so that the item is described | not executed | Core.InspectAsWritten, CoreFacts.InspectAsWrittenThrows | Core.Inspect, CoreFacts.InspectDescribesItem |
