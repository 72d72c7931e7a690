# Restroom game: level setup and visitor spawning

A model of two systems of a small arcade game, written in Java on an entity-component-system
framework. The player runs a public restroom.

`LevelSetupSystem` keeps a catalogue of six stages. Each stage is a `Level` record built by
fluent setters over defaults. The system selects the active stage from the requested stage
number, clamped into the catalogue. It then assembles the facility of each level entity once.
It walks the level's module types (entrance, tips, toilet, poster, urinal, sink, supply
closet) left to right along an x-cursor. Each module is spawned at the cursor, and the cursor
then moves past it by that module type's width. The active stage's parameters are passed on
to the spawned modules: spawn delays and counts to the main door, patience to the tip bowl,
and the dirty start to toilets, urinals and sinks.

`EntranceSystem` runs once per tick for every entrance. It first rescales the entrance's time
between spawns. The interval is interpolated linearly from the stage's easiest value to its
hardest over the first 540 minutes of the in-game day. Once the tutorial is over, the entrance
counts down. When the countdown expires it restarts and queues a batch of minCount to maxCount
visitors. A system-wide trickle timer then lets the queued visitors in one at a time at the
door, 0.2 to 0.3 seconds apart.

Files:
- `levels.dfy` (module `Levels`): the `Level` class and its setters, the six stages, stage selection.
- `level_setup.dfy` (module `LevelSetup`): the layout cursor, the module widths, `getBackground`,
  the spawn methods, and `process` with its module loop, proved against the `LaidOut` layout
  relation. Module k sits at the cursor's start plus the widths of modules 0..k-1 (`LaidOutAt`).
- `entrances.dfy` (module `Entrances`): the spawn interval, the one-tick transition relation
  `Step`, its invariants over whole runs, and the `Entrance` and `EntranceSystem` classes proved
  against `Step`.

Timers and the interpolation use `real`. Every random draw of the source is a nondeterministic
choice (`:|`) within the draw's range. Entity creation hands out the next value of an id counter.

## Model

| member | source | states |
|---|---|---|
| Levels.Level.constructor | core/src/net/mostlyoriginal/game/system/LevelSetupSystem.java:23-39 | a new level has the given name and module types and the defaults: loss count 5, spawn delays 12 (easiest) and 2 (hardest), spawn counts 1 to 1, clock speed 10, no extra poops, no tutorial, clean start |
| Levels.Level.LossCount | core/src/net/mostlyoriginal/game/system/LevelSetupSystem.java:41-44 | sets only the loss count and returns the same level |
| Levels.Level.SpawnDelay | core/src/net/mostlyoriginal/game/system/LevelSetupSystem.java:46-51 | sets only the easiest and hardest spawn delays and returns the same level |
| Levels.Level.SpawnCount | core/src/net/mostlyoriginal/game/system/LevelSetupSystem.java:53-58 | sets only the minimum and maximum spawn counts and returns the same level |
| Levels.Level.ExtraPoops | core/src/net/mostlyoriginal/game/system/LevelSetupSystem.java:60-64 | turns on only the extra-poops flag and returns the same level |
| Levels.Level.ClockSpeed | core/src/net/mostlyoriginal/game/system/LevelSetupSystem.java:66-69 | stores the integer speed, as a float, in the clock speed only, and returns the same level |
| Levels.Level.SetTutorial | core/src/net/mostlyoriginal/game/system/LevelSetupSystem.java:71-74 | sets only the tutorial flag and returns the same level |
| Levels.Level.StartDirty | core/src/net/mostlyoriginal/game/system/LevelSetupSystem.java:76-79 | sets only the dirty-start flag and returns the same level |
| Levels.BuildIntroduction | core/src/net/mostlyoriginal/game/system/LevelSetupSystem.java:82-95 | the setter chain yields a fresh stage 1: five modules, loss count 3, clock 35, delays 8 and 8, dirty start, tutorial |
| Levels.BuildSinkOrSwim | core/src/net/mostlyoriginal/game/system/LevelSetupSystem.java:97-112 | the setter chain yields a fresh stage 2: loss count 3, clock 10, delays 8 and 4, other fields default |
| Levels.BuildProcrastinationHurts | core/src/net/mostlyoriginal/game/system/LevelSetupSystem.java:114-133 | the setter chain yields a fresh stage 3: loss count 4, clock 15, counts 2 to 3, dirty start, delays 10 and 6 |
| Levels.BuildZeroTolerance | core/src/net/mostlyoriginal/game/system/LevelSetupSystem.java:135-152 | the setter chain yields a fresh stage 4: loss count 1, counts 3 to 4, clock 10, delays 14 and 10 |
| Levels.BuildChili | core/src/net/mostlyoriginal/game/system/LevelSetupSystem.java:154-171 | the setter chain yields a fresh stage 5: extra poops, clock 10, counts 2 to 3, delays 10 and 6 |
| Levels.BuildPanic | core/src/net/mostlyoriginal/game/system/LevelSetupSystem.java:173-189 | the setter chain yields a fresh stage 6: clock 1, counts 1 to 4, delays 4 and 1 |
| Levels.LoadCatalogue | core/src/net/mostlyoriginal/game/system/LevelSetupSystem.java:192-194 | the level list holds six fresh levels, whose fields are those of the catalogue in stage order |
| Levels.SelectedIndex | core/src/net/mostlyoriginal/game/system/LevelSetupSystem.java:205 | the stage number minus one, computed as a Java int, clamped into the list: the index is always within the list; a stage number from the least int + 1 up to 1 selects the first level, one at or past the list's length the last, any other stage n level n-1; the least int wraps round and selects the last level |
| Levels.SelectedStageNames | core/src/net/mostlyoriginal/game/system/LevelSetupSystem.java:192-205 | any stage number of 1 or less (except the least int) loads "Stage 1: First Day"; any of 6 or more, and the least int, load the stage 6 panic level |
| Levels.CatalogueSpawnParameters | core/src/net/mostlyoriginal/game/system/LevelSetupSystem.java:82-194 | every stage has 1 <= minCount <= maxCount, has a positive hardest delay no longer than its easiest, and a loss count of at least 1 |
| Levels.CatalogueFacilityShape | core/src/net/mostlyoriginal/game/system/LevelSetupSystem.java:82-194 | every stage has at least five modules, opens with the entrance then the tips, ends with the supply closet, and has no second entrance |
| LevelSetup.Advance | core/src/net/mostlyoriginal/game/system/LevelSetupSystem.java:248-277 | with positive sprite widths every module type moves the cursor forward (toilets and posters by the urinal width, urinals by the toilet width) |
| LevelSetup.TotalWidth | core/src/net/mostlyoriginal/game/system/LevelSetupSystem.java:244-281 | with positive widths the cursor moves at least one unit per module laid out |
| LevelSetup.SlotStep | core/src/net/mostlyoriginal/game/system/LevelSetupSystem.java:244-281 | module k's slot starts exactly where module k-1's slot ends |
| LevelSetup.SlotsIncrease | core/src/net/mostlyoriginal/game/system/LevelSetupSystem.java:244-281 | with positive widths later modules start strictly further right, so no two modules share a slot |
| LevelSetup.TotalWidthConcat | core/src/net/mostlyoriginal/game/system/LevelSetupSystem.java:228-281 | laying out two module lists in turn moves the shared cursor by the sum of their widths |
| LevelSetup.Background | core/src/net/mostlyoriginal/game/system/LevelSetupSystem.java:378-382 | the west wall tile exactly when the init counter is 2; the east tile exactly when it is not 2 and is two below the level length; the plain tile exactly otherwise |
| LevelSetup.LaidOutAt | core/src/net/mostlyoriginal/game/system/LevelSetupSystem.java:234-281 | in a laid-out run, module k sits at the start cursor plus the widths of modules 0..k-1 (a prefix sum), at init index start+k, with the state its type requires |
| LevelSetup.LaidOutSnoc | core/src/net/mostlyoriginal/game/system/LevelSetupSystem.java:236-281 | spawning the next module at the cursor where a laid-out run ends extends the run |
| LevelSetup.BathroomLevel.constructor | core/src/net/mostlyoriginal/game/system/LevelSetupSystem.java:210-212 | a level entity carries the level's name and module types, is not initialised, and has no module ids |
| LevelSetup.LevelSetupSystem.constructor | core/src/net/mostlyoriginal/game/system/LevelSetupSystem.java:192-194 | the system starts with the six catalogue levels, no active level, the cursor and init counter at 0, and nothing spawned |
| LevelSetup.LevelSetupSystem.Initialize | core/src/net/mostlyoriginal/game/system/LevelSetupSystem.java:200-226 | the active level is the catalogue level at the clamped index; a fresh level entity carries its name and module types; a title label and, for a tutorial level only, the tutorial entity are created as well |
| LevelSetup.LevelSetupSystem.Process | core/src/net/mostlyoriginal/game/system/LevelSetupSystem.java:230-240 | the entity ends initialised; an entity already initialised, or one without module types, changes nothing else; otherwise one module per type is spawned in order, laid out from the old cursor, with fresh increasing ids appended to the entity's id list in order, and the cursor and init counter advance by the total width and the number of modules |
| LevelSetup.LevelSetupSystem.InitModules | core/src/net/mostlyoriginal/game/system/LevelSetupSystem.java:234-238 | the module loop: after it, the modules spawned form a laid-out run of the types with fresh increasing ids, recorded in the entity's list in order |
| LevelSetup.LevelSetupSystem.InitNext | core/src/net/mostlyoriginal/game/system/LevelSetupSystem.java:236-237 | one loop pass spawns the next type at the cursor, appends its id, and keeps the run laid out with fresh increasing ids |
| LevelSetup.LevelSetupSystem.InitModule | core/src/net/mostlyoriginal/game/system/LevelSetupSystem.java:244-281 | spawns the module for the type at the current cursor and init counter, then moves the cursor by that type's width and the counter by exactly one |
| LevelSetup.LevelSetupSystem.SpawnCloset | core/src/net/mostlyoriginal/game/system/LevelSetupSystem.java:283-306 | three entities are created and the first, the closet at the slot, is returned |
| LevelSetup.LevelSetupSystem.SpawnToilet | core/src/net/mostlyoriginal/game/system/LevelSetupSystem.java:308-338 | three entities are created; the stall door at (x+4, y+37) is returned, dirty and clogged exactly when the level starts dirty |
| LevelSetup.LevelSetupSystem.SpawnUrinal | core/src/net/mostlyoriginal/game/system/LevelSetupSystem.java:340-359 | two entities are created; the urinal at (x, y+78) is returned, dirty exactly when the level starts dirty |
| LevelSetup.LevelSetupSystem.SpawnPoster | core/src/net/mostlyoriginal/game/system/LevelSetupSystem.java:362-376 | two entities are created; the poster at (x+3, y+92) is returned |
| LevelSetup.LevelSetupSystem.SpawnSink | core/src/net/mostlyoriginal/game/system/LevelSetupSystem.java:384-403 | two entities are created; the sink at (x, y+80) is returned, with a dirt level in [0, 2] when the level starts dirty and none otherwise |
| LevelSetup.LevelSetupSystem.SpawnEntrance | core/src/net/mostlyoriginal/game/system/LevelSetupSystem.java:405-437 | two or three entities are created (the poster is optional); the main door at (x+36, y+34) is returned, carrying the level's easiest and hardest delays and its spawn counts |
| LevelSetup.LevelSetupSystem.SpawnTips | core/src/net/mostlyoriginal/game/system/LevelSetupSystem.java:440-462 | three entities are created; the tips module at the slot is returned, with a maximum anger equal to the level's loss count |
| Entrances.Clamp | core/src/net/mostlyoriginal/game/system/EntranceSystem.java:62 | the clamped value lies in the range; a value below it gives the lower end, a value above it the upper end, and a value already in it is left as is |
| Entrances.LerpWithin | core/src/net/mostlyoriginal/game/system/EntranceSystem.java:59-62 | interpolating at a fraction in [0, 1] gives a value between the two ends |
| Entrances.LerpMonotone | core/src/net/mostlyoriginal/game/system/EntranceSystem.java:59-62 | a larger fraction moves the interpolation further from its start towards its end |
| Entrances.SpawnInterval | core/src/net/mostlyoriginal/game/system/EntranceSystem.java:58-65 | the interval lies between easiest and hardest; it is the easiest at 0 minutes or fewer and the hardest from 540 minutes on; in between it is easiest + (hardest - easiest) * minutes / 540 |
| Entrances.SpawnIntervalMonotone | core/src/net/mostlyoriginal/game/system/EntranceSystem.java:58-65 | as the clock advances, the interval only moves towards the hardest value, in both orderings of easiest and hardest |
| Entrances.CatalogueDifficultyRises | core/src/net/mostlyoriginal/game/system/EntranceSystem.java:58-65 | for every catalogue stage the interval never grows as the day goes on |
| Entrances.TruncateToInt | core/src/net/mostlyoriginal/game/system/EntranceSystem.java:53 | the float-to-int cast truncates toward zero |
| Entrances.TruncateWhole | core/src/net/mostlyoriginal/game/system/EntranceSystem.java:53 | casting a whole number gives it back |
| Entrances.DoorSpawnPoint | core/src/net/mostlyoriginal/game/system/LevelSetupSystem.java:422-424 | a main door spawned at slot x lets visitors in at (x+52, 43), its position moved by its bounds' corner (16, 16) |
| Entrances.CatalogueFacilityDoor | core/src/net/mostlyoriginal/game/system/LevelSetupSystem.java:405-437 | in every laid-out catalogue facility the first module is the main door with the stage's spawn parameters, and visitors appear 52 right of the layout's start |
| Entrances.StepProperties | core/src/net/mostlyoriginal/game/system/EntranceSystem.java:39-56 | a tick lets in at most one visitor and keeps the earlier ones; with non-negative counts the queue stays non-negative; visitors let in plus visitors queued changes by exactly the batch queued |
| Entrances.RunProperties | core/src/net/mostlyoriginal/game/system/EntranceSystem.java:39-56 | over any run of ticks: at most one visitor per tick, no visitor taken back, a queue that never goes negative for non-negative counts, and every visitor ever queued either let in or still queued |
| Entrances.Entrance.FromDoor | core/src/net/mostlyoriginal/game/system/LevelSetupSystem.java:422-432 | the entrance of a spawned main door has the door's position, bounds corner (16, 16), delays and counts |
| Entrances.EntranceSystem.constructor | core/src/net/mostlyoriginal/game/system/EntranceSystem.java:30-31 | nothing queued, the trickle timer at 0, and no visitors |
| Entrances.EntranceSystem.Process | core/src/net/mostlyoriginal/game/system/EntranceSystem.java:33-37 | the interval is rescaled to the clock before spawning is considered, so a countdown reset uses this tick's interval; the tick then follows `Step`, and nothing else changes while the tutorial runs |
| Entrances.EntranceSystem.ScaleDifficultyWithTime | core/src/net/mostlyoriginal/game/system/EntranceSystem.java:58-65 | the entrance's time between spawns becomes the clock's spawn interval |
| Entrances.EntranceSystem.ConsiderSpawningVisitor | core/src/net/mostlyoriginal/game/system/EntranceSystem.java:39-56 | with the tutorial running nothing changes. Otherwise the countdown drops by delta; when it reaches 0 or below it restarts from the interval and a batch of minCount to maxCount is queued. The trickle timer drops by delta. A visitor is let in exactly when some are queued and the timer has expired: the queue loses one, the timer restarts in [0.2, 0.3), and the visitor appears at the door's spawn point |
| Entrances.EntranceSystem.SpawnVisitor | core/src/net/mostlyoriginal/game/system/EntranceSystem.java:67-74 | one visitor is added at the given point |

## Left out

- Rendering: sprites, animations, layers, labels, tints and fonts are left out. So are the random poster pictures, the random handicap stall door and the initial door animation. They have no game state beyond a name.
- The entity world. Entity creation is a counter of fresh ids. Of each module, only the returned entity is recorded (`Placed`). For the module types with a back wall (toilet, urinal, poster, sink), the tile `getBackground` picks for the wall is recorded as the `background` of the returned module's fixture. The other entities (the back walls themselves, bowls, mop and bucket, plunger, player, tip bowl, entrance frame, poster, title label) otherwise only use up ids.
- Sprite widths belong to the asset system, which is not part of this model. They are the `Widths` parameter, assumed positive. The cursor advances are written as coded: toilets and posters advance by the urinal width, urinals by the toilet width.
- The requested stage number is not a field of core/src/net/mostlyoriginal/game/GameRules.java as given. `Initialize` takes it as a parameter, within the range of a Java int.
- Entrances.RunProperties: a run follows one entrance. In the source the queue and the trickle timer are shared by every entrance the system processes; every catalogue facility has exactly one entrance (`Levels.CatalogueFacilityShape`), so one entrance is all a catalogue level ever builds.
- Random draws are nondeterministic choices within the draw's range. The trickle reset is drawn from [0.2, 0.3), the toolkit's half-open float range.
- Float rounding: timers, the clock and the interpolation use exact reals.
- The tutorial service, the clock system and the frame time are inputs to `EntranceSystem.Process`: a flag for "tutorial step is DONE", the minutes passed, and delta.
- The Entrance component's own defaults. Its class is not part of this model, so `Entrance.FromDoor` takes the initial countdown and interval as parameters.
- The visitor's desire (POOP or PEE), bounds and animation. A visitor is recorded only by where it appears.
- The framework calls `process` once per matching entity. `Process` handles one entity per call.
- LevelSetup.LevelSetupSystem.Process: it requires an active level. In the game, `initialize` always sets one before the first `process`.
- Entrances.EntranceSystem.Process: it requires minCount <= maxCount on the ticks where a batch is drawn, because the toolkit's integer draw throws otherwise.
- Levels.Level.ClockSpeed: the int-to-float conversion is exact here. Every speed in the catalogue is small enough for that to hold in Java too.
