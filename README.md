# Yonku counter: race console, settings store and roster editor

A model of the race-timing core of a desktop lap counter for model-car ("yonku")
races, as written in its three React modules:

- **Race console** (`renderer/pages/home.tsx`), module `RaceConsole`: a stopwatch
  (`isRunning`, `startTime`, `elapsedTime`) shared by four lanes. Each lane has a lap
  counter bounded by its lap target. `Console` is a class with the methods `Toggle`,
  `Reset`, `IncrementLap`, `DecrementLap` and `Tick`. Only `Toggle` and `Tick` read the
  clock, and they take the reading `now` as a parameter. The new lane lists are built by
  the pure functions `Incremented`, `Decremented`, `LapsCleared` and `Timed`. `Valid()` is
  the invariant that every lap counter stays in `0..totalLaps` and that a running stopwatch
  has a start instant. Every method keeps it, and `Tick` relies on the start instant.
- **Time format** (`formatTime` in the same file), module `TimeFormat`: `mm:ss.cc` built
  with JavaScript's integer semantics. These are floor division, a `%` whose remainder
  takes the sign of the dividend (`JsRem`), `toString` and `padStart(2, '0')`, which never
  truncates. `ParseTime` is a reader written as a partner. The lemmas prove that the
  format loses nothing but the sub-centisecond part.
- **Settings store** (`renderer/utils/settings.ts`), module `SettingsStore`: the
  `AppSettings` aggregate (records in module `Types`, from `renderer/utils/types.ts`) and
  the persistent slot. The slot is `stored: Option<Slot>`, where a `Slot` is either
  settings that parse or text that does not. Every update merges into the in-memory
  settings and writes the result to the slot. `ResetSettings` empties the slot.
- **Settings page** (`renderer/pages/settings.tsx`), module `SettingsPage`: the page's
  roster (players, each with an optional vehicle) and its lane assignments. It also holds
  the editing state of its form. Cascades keep the lanes consistent with the roster:
  `Consistent` says every named player exists and every named vehicle is that player's
  current vehicle. Every roster operation is proved to preserve it.

`Seqs` holds `Map` and `Filter`, the `Array.prototype.map` and `filter` behind the
element-wise list updates, with their element-wise contracts. Appends (`addPlayer`,
`saveRaceResult`) are sequence concatenation, and `updateCourseAssignment` replaces one
lane by index. `Wrappers` holds `Option`, which stands for `null` and for optional fields.

Behaviour of the code worth knowing:

- `AppSettings` has no race-number field.
- `incrementLap` compares `currentLap < totalLaps`, so a target of 0 allows no lap at all.
- `removePlayer` in the store keeps the course's `id`. The page's `deletePlayer` writes a
  record with no `id` at all.
- `updateSettings` merges into the in-memory settings. It does not re-read storage first.
- Choosing a different player for a lane (`updateCourseAssignment` on `playerId`) leaves
  the lane's `vehicleId` as it was, so a lane's `vehicleId` can name a vehicle that its new
  player does not own. `ReassignKeepsStaleVehicle` exhibits a lane that agrees with the
  roster before such a choice and disagrees after it.
- The page offers the new-vehicle input only for a player without a vehicle
  (renderer/pages/settings.tsx:534). So the repointing branch of `setVehicleToPlayer`
  (renderer/pages/settings.tsx:296-310) never runs from the form. The repointing case of
  `CoursesAfterNewVehicle` is reached only when the handler is called directly.
- Lap history, best laps, finish times, result sorting and rankings are not in these
  modules.

The page's `settings` literal names its lane fields `player` and `machine`. Every handler
reads and writes `playerId` and `vehicleId`, so the model uses the handlers' names. The
page has its own `Course` type without an `id` (`CourseAssignment`, with `id:
Option<int>`). Its `Player` is the shared `Types.Player` with no team name.

## Model

| member | source | states |
|---|---|---|
| `RaceConsole.InitialLanes` | renderer/pages/home.tsx:35-40 | four lanes with ids 1 to 4, target 5 laps, time 0, every counter within its target |
| `RaceConsole.Incremented` | renderer/pages/home.tsx:98-106 | only lanes with the id change, and only their lap count; the count rises by one below the target and stays put at it (target 0 included); the 0..target invariant is kept |
| `RaceConsole.Decremented` | renderer/pages/home.tsx:109-117 | only lanes with the id change, and only their lap count; the count falls by one above 0 and stays at 0; the 0..target invariant is kept |
| `RaceConsole.LapsCleared` | renderer/pages/home.tsx:88-94 | every lane is at lap 0 with time 0; id, name, vehicle, colour, target and best lap are kept |
| `RaceConsole.Timed` | renderer/pages/home.tsx:54-59 | every lane shows the same elapsed time; lap counts and all other fields are unchanged |
| `RaceConsole.IncrementThenDecrement` | renderer/pages/home.tsx:98-117 | below the target, a lap added then removed restores the lane list exactly |
| `RaceConsole.DecrementThenIncrement` | renderer/pages/home.tsx:98-117 | above 0 and within the target, a lap removed then added restores the lane list exactly |
| `RaceConsole.Console.constructor` | renderer/pages/home.tsx:30-40 | stopped, no start instant, elapsed 0, the initial lanes; invariant holds |
| `RaceConsole.Console.Toggle` | renderer/pages/home.tsx:73-82 | starting sets the start instant to `now - elapsedTime` and runs; pausing only stops; elapsed time and lanes are untouched |
| `RaceConsole.Console.Reset` | renderer/pages/home.tsx:85-95 | stopped, elapsed 0, lanes cleared; the start instant is untouched (frame) |
| `RaceConsole.Console.IncrementLap` | renderer/pages/home.tsx:98-106 | the lanes become `Incremented` of the old lanes; nothing else changes; invariant kept |
| `RaceConsole.Console.DecrementLap` | renderer/pages/home.tsx:109-117 | the lanes become `Decremented` of the old lanes; nothing else changes; invariant kept |
| `RaceConsole.Console.Tick` | renderer/pages/home.tsx:48-60 | elapsed time is `now` minus the start instant and every lane shows it; lap counts unchanged |
| `RaceConsole.ResumeThenTick` | renderer/pages/home.tsx:48-82 | after a pause, a start at `now` and a tick at `later` show the paused time plus `later - now` on the stopwatch and every lane |
| `TimeFormat.JsRem` | renderer/pages/home.tsx:123-124 | JavaScript `%` for a positive divisor: magnitude below the divisor, the Euclidean remainder for a non-negative dividend, and for a negative one a remainder in `(-b, 0]` that leaves a multiple of b |
| `TimeFormat.Digits` | renderer/pages/home.tsx:126 | `toString` of a natural: one or more digits, one digit exactly below 10, two exactly from 10 to 99, and no leading zero |
| `TimeFormat.NumberTextValue` | renderer/pages/home.tsx:126 | `toString` of a natural is a non-empty numeral reading back as n; a negative n gives '-' before the text of -n |
| `TimeFormat.PadStart2Pads` | renderer/pages/home.tsx:126 | `padStart(2, '0')` keeps text of length two or more and otherwise puts '0's before it up to length two |
| `TimeFormat.Pad2Field` | renderer/pages/home.tsx:126 | a padded field of n is at least two digits, exactly two below 100, and reads back as n |
| `TimeFormat.FormatTime` | renderer/pages/home.tsx:120-127 | for t >= 0 the text is `pad2(t/60000):pad2(t/1000 mod 60).pad2((t mod 1000)/10)`, seconds within 0..59, centiseconds within 0..99 |
| `TimeFormat.ParseFields` | renderer/pages/home.tsx:126 | the reader finds the minute, second and centisecond fields of `m:ss.cc` text for minutes of two or more digits, every minutes field `formatTime` emits |
| `TimeFormat.ParsePadded` | renderer/pages/home.tsx:126 | padded minutes, seconds and centiseconds read back to the milliseconds they stand for |
| `TimeFormat.FieldsCover` | renderer/pages/home.tsx:121-124 | the three fields account for every millisecond except the sub-centisecond remainder |
| `TimeFormat.ParseFormat` | renderer/pages/home.tsx:120-127 | round trip: reading `formatTime(t)` gives t rounded down to a whole centisecond |
| `TimeFormat.FormatSameBucket` | renderer/pages/home.tsx:120-127 | two non-negative times format identically if and only if they fall in the same 10 ms bucket |
| `TimeFormat.BucketFields` | renderer/pages/home.tsx:121-124 | minutes, seconds and centiseconds each depend on a time only through its 10 ms bucket |
| `TimeFormat.DigitsRoundTrip` | renderer/pages/home.tsx:126 | the digits of n read back as n |
| `TimeFormat.LeadingZero` | renderer/pages/home.tsx:126 | a leading '0' from padding does not change the value read |
| `SettingsStore.Defaults` | renderer/utils/settings.ts:5-16 | lanes 1 to 4 with no player or vehicle, no players, 5 laps, sound off, no races |
| `SettingsStore.Merge` | renderer/utils/settings.ts:48-49 | exactly the fields present in the patch are replaced; every other field is kept |
| `SettingsStore.MergeNothingIdempotent` | renderer/utils/settings.ts:48-49 | an empty patch changes nothing; a patch applied twice equals it applied once |
| `SettingsStore.MergeTwice` | renderer/utils/settings.ts:48-49 | two successive merges equal one merge of the combined patch, later fields winning |
| `SettingsStore.CoursesUpdated` | renderer/utils/settings.ts:62-65 | same length and order; only courses with the id take the patch's fields, the rest of each such course is kept; an unknown id changes nothing |
| `SettingsStore.PlayersUpdated` | renderer/utils/settings.ts:77-80 | same length and order; only players with the id take the patch's fields; an unknown id changes nothing |
| `SettingsStore.WithoutPlayer` | renderer/utils/settings.ts:87 | no player with the id is left, every other player is, and an absent id changes nothing |
| `SettingsStore.WithoutPlayerAppend` | renderer/utils/settings.ts:87 | the removal works segment by segment, so the remaining players keep their order |
| `SettingsStore.Unassigned` | renderer/utils/settings.ts:90-92 | each course of the player keeps its id and loses player and vehicle; the others are unchanged |
| `SettingsStore.PlayerRemoved` | renderer/utils/settings.ts:86-98 | the players are `WithoutPlayer` of the old ones (the player gone, every other kept in order); each of the player's lanes becomes a record with its own id and no player or vehicle; other lanes, lap count, sound and races are kept |
| `SettingsStore.RemovePlayerCascade` | renderer/utils/settings.ts:86-98 | lanes that all named rostered players before the removal still do after it |
| `SettingsStore.Store.constructor` | renderer/utils/settings.ts:24-26 | the defaults in memory, loading, the slot as found |
| `SettingsStore.Store.Load` | renderer/utils/settings.ts:29-45 | stored settings that parse replace the in-memory ones; an empty or unparseable slot keeps them; loading ends |
| `SettingsStore.Startup` | renderer/utils/settings.ts:24-45 | after start-up and load the settings are the stored ones if parseable, otherwise the defaults |
| `SettingsStore.Store.UpdateSettings` | renderer/utils/settings.ts:48-59 | returns the merge, keeps it in memory and writes it to the slot |
| `SettingsStore.Store.UpdateCourse` | renderer/utils/settings.ts:62-68 | only the course list changes, to `CoursesUpdated`; the result is persisted |
| `SettingsStore.Store.AddPlayer` | renderer/utils/settings.ts:71-74 | the player is appended after the existing ones; nothing else changes; persisted |
| `SettingsStore.Store.UpdatePlayer` | renderer/utils/settings.ts:77-83 | only the player list changes, to `PlayersUpdated`; persisted |
| `SettingsStore.Store.RemovePlayer` | renderer/utils/settings.ts:86-98 | players and courses change as `WithoutPlayer` and `Unassigned`; persisted |
| `SettingsStore.Store.SaveRaceResult` | renderer/utils/settings.ts:101-104 | the race is appended as the last one; nothing else changes; persisted |
| `SettingsStore.Store.ResetSettings` | renderer/utils/settings.ts:107-111 | back to the defaults, returned, with the slot emptied |
| `SettingsPage.TrimEmptyIffBlank` | renderer/pages/settings.tsx:167 | `trim()` yields '' exactly for text made only of whitespace |
| `SettingsPage.FindPlayer` | renderer/pages/settings.tsx:242 | nothing exactly when no player has the id; otherwise the first player with it |
| `SettingsPage.VehicleForPlayer` | renderer/pages/settings.tsx:360-364 | nothing for a null or empty id or an unknown player; otherwise the vehicle of the first player with that id, as `find` returns it |
| `SettingsPage.Assigned` | renderer/pages/settings.tsx:152-157 | only the chosen field changes, '' becoming null; the record keeps its id |
| `SettingsPage.PlayerLanesCleared` | renderer/pages/settings.tsx:191-196 | each lane of the player becomes a record with no id, player or vehicle; the others are unchanged |
| `SettingsPage.Renamed` | renderer/pages/settings.tsx:221-227 | players with the id take the new name and nothing else; the others are unchanged |
| `SettingsPage.VehicleRenamed` | renderer/pages/settings.tsx:258-264 | the vehicle of a player with the id takes the new name and keeps its id; the others are unchanged |
| `SettingsPage.VehicleGiven` | renderer/pages/settings.tsx:286-292 | players with the id get the new vehicle; the others are unchanged |
| `SettingsPage.VehicleRepointed` | renderer/pages/settings.tsx:299-304 | only lanes of that player on the old vehicle move to the new vehicle id |
| `SettingsPage.CoursesAfterNewVehicle` | renderer/pages/settings.tsx:295-310 | lanes of the player riding its vehicle from before the update move to the new vehicle id; every other lane, and every lane when the player has no vehicle, is unchanged |
| `SettingsPage.VehicleTaken` | renderer/pages/settings.tsx:330-336 | players with the id lose their vehicle; the others are unchanged |
| `SettingsPage.VehicleDetached` | renderer/pages/settings.tsx:339-344 | every lane naming the vehicle loses it and keeps its player; the others are unchanged |
| `SettingsPage.FindAfterMap` | renderer/pages/settings.tsx:242 | after an id-preserving update of every player, the lookup finds the updated form of what it found before |
| `SettingsPage.FindAfterRemove` | renderer/pages/settings.tsx:188 | removing one player does not change the lookup of any other id |
| `SettingsPage.FindAfterAppend` | renderer/pages/settings.tsx:175 | appending a player does not change the lookup of an id already present |
| `SettingsPage.AddKeepsConsistent` | renderer/pages/settings.tsx:166-176 | adding a player keeps every lane in agreement with the roster |
| `SettingsPage.DeleteKeepsConsistent` | renderer/pages/settings.tsx:187-201 | after a delete no lane names the player and every lane agrees with the roster |
| `SettingsPage.RenameKeepsConsistent` | renderer/pages/settings.tsx:218-230 | a rename keeps every lane in agreement |
| `SettingsPage.VehicleRenameKeepsConsistent` | renderer/pages/settings.tsx:250-267 | a vehicle rename keeps every lane in agreement |
| `SettingsPage.NewVehicleLaneAgrees` | renderer/pages/settings.tsx:295-304 | one lane, repointed or not, agrees with the roster after the new vehicle is given |
| `SettingsPage.NewVehicleKeepsConsistent` | renderer/pages/settings.tsx:278-310 | giving a player a new vehicle and repointing its lanes keeps every lane in agreement |
| `SettingsPage.RemoveVehicleLaneAgrees` | renderer/pages/settings.tsx:339-344 | one lane, detached or not, agrees with the roster after the vehicle is removed |
| `SettingsPage.RemoveVehicleKeepsConsistent` | renderer/pages/settings.tsx:323-349 | removing a vehicle and clearing it from lanes keeps every lane in agreement |
| `SettingsPage.AssignVehicleKeepsConsistent` | renderer/pages/settings.tsx:598-611 | choosing a lane's vehicle among what the selector offers keeps every lane in agreement |
| `SettingsPage.ReassignKeepsStaleVehicle` | renderer/pages/settings.tsx:152-163 | choosing another player for a lane keeps its vehicle id, so an agreeing lane can stop agreeing |
| `SettingsPage.InitialSettings` | renderer/pages/settings.tsx:53-63 | four lanes with ids 1 to 4 and nobody assigned, 10 laps, sound on |
| `SettingsPage.InitialPlayers` | renderer/pages/settings.tsx:88-109 | four players with distinct ids, each with a vehicle |
| `SettingsPage.Page.constructor` | renderer/pages/settings.tsx:51-115 | the initial settings and roster, empty inputs, nothing being edited; lanes agree |
| `SettingsPage.Page.HandleSubmit` | renderer/pages/settings.tsx:118-141 | the current settings are written under the storage key |
| `SettingsPage.Page.UpdateSettings` | renderer/pages/settings.tsx:144-149 | only the named setting changes |
| `SettingsPage.Page.UpdateCourseAssignment` | renderer/pages/settings.tsx:152-163 | only the chosen field of the chosen lane changes; an offered vehicle keeps the lanes in agreement |
| `SettingsPage.Page.AddPlayer` | renderer/pages/settings.tsx:166-184 | a blank name changes nothing; otherwise one player with the typed name and no vehicle is appended and the input cleared; lanes keep agreeing |
| `SettingsPage.Page.DeletePlayer` | renderer/pages/settings.tsx:187-209 | the player is removed, its lanes cleared, no lane names it; lanes keep agreeing |
| `SettingsPage.Page.StartEditingPlayer` | renderer/pages/settings.tsx:212-215 | the player's id and name become the editing state |
| `SettingsPage.Page.SavePlayerEdit` | renderer/pages/settings.tsx:218-238 | no player being edited or a blank name changes nothing; otherwise only that player is renamed and editing ends; lanes keep agreeing |
| `SettingsPage.Page.StartEditingVehicle` | renderer/pages/settings.tsx:241-247 | only a known player with a vehicle starts a vehicle edit, with the vehicle's name |
| `SettingsPage.Page.SaveVehicleEdit` | renderer/pages/settings.tsx:250-275 | a blank name, no edit or a player without a vehicle changes nothing; otherwise that vehicle is renamed with its id kept and editing ends; lanes keep agreeing |
| `SettingsPage.Page.SetVehicleToPlayer` | renderer/pages/settings.tsx:278-320 | a blank name changes nothing; otherwise the player gets the new vehicle, its lanes on the old vehicle are repointed, and the input is cleared; lanes keep agreeing |
| `SettingsPage.Page.RemoveVehicle` | renderer/pages/settings.tsx:323-357 | an unknown player or one without a vehicle changes nothing; otherwise the player loses it and every lane naming it loses it too; lanes keep agreeing |

## Left out

- The clock (`Date.now()`) and generated ids (`p${Date.now()}`, `v${Date.now()}`) are method parameters.
- The `setInterval`/`clearInterval` lifecycle: `Tick` is callable only while the stopwatch runs, as the interval exists only then.
- React's asynchronous state batching and stale closures: every handler runs to completion before the next one starts.
- Rendering, JSX, toasts, theming and routing.
- `calculateProgress` (renderer/pages/home.tsx:130) is not modelled. It is a floating-point division whose result for a target of 0 is NaN or Infinity.
- JavaScript numbers are modelled as unbounded integers. Floating-point rounding and NaN from a number input are not modelled.
- `JSON.stringify`/`JSON.parse` are not modelled: the slot holds either the settings themselves or text that does not parse. Stored text of another shape (JSON `null`, a partial object) is not modelled.
- A failing `localStorage.setItem` is not modelled: the logged error in the store and the error toast on the page are left out, and every write succeeds.
- The page's own load effect (renderer/pages/settings.tsx:67-85) is not modelled: a `Page` is created with its storage slot as found.
- Text typed into the page's inputs (`setNewPlayerName` and the other setters) is not an operation: callers assign the page's public fields directly.
- `TimeFormat.FormatTime` is defined for every integer, negative times included. Its properties are proved for non-negative times only.
- The serial-port link, the 3D viewer, the ranking page and the React context wiring are not part of this model.
