# Improved Tears of Guthix interface — a Dafny model

This project models the core of the Improved Tears Interface plugin for the
RuneLite client: the per-tick state machine that works out, from three
varbits (ticks left, tears collected, collecting) and the player's position,
where a Tears of Guthix game stands — not started, counting down from Juna's
tail, running, or over — and what to show in the three slots of the minigame
interface. It also models the small helpers the state machine calls:

- the cave geofence, with its interior variant;
- the adjacent-vein classifier;
- the evicting queue of recent changes in the tears count;
- the choice of text and colour for each widget.

Modules:

- `Options`: the optional value that stands for the host's nulls.
- `Geofence`: `InTearsArea` over an optional world point; `InExterior` and `InInterior`.
- `VeinScan`: the collecting state from the collecting varbit and the objects on the three scanned tiles.
- `EvictingQueues`: a bounded FIFO class and the functions that specify it.
- `Presenter`: colours, text tags, time-left bands, status precedence, count colour.
- `Session`: the plugin's fields as a `State` value, one tick as the function `Tick`, and the lemmas about ticks and runs of ticks.
- `Plugin`: the class `ImprovedTearsInterfacePlugin`. Its fields are updated in place by `StartUp`, `ShutDown`, `Reset`, `OnGameStateChanged` and `OnGameTick`. Each method is proved to leave the fields equal to the matching `Session` function and to keep `Session.Inv`.

The host's queries become inputs of a tick (`Session.TickInput`):

- the game state and the three varbits;
- the player's location, as an `Option`;
- the decorative-object id on each tile, as a function;
- which widgets exist;
- the tick count, the flashing-text option and the clock.

Widget writes become a `Session.Widgets` value, one `Option` per slot.

## Model

| member | source | states |
|---|---|---|
| Geofence.InTearsArea | src/main/java/com/improvedtearsinterface/ImprovedTearsInterfacePlugin.java:392-404 | the area test with or without the threshold column: true only for an existing location on plane 2; without the threshold, x is above 3251 |
| Geofence.InExterior | src/main/java/com/improvedtearsinterface/ImprovedTearsInterfacePlugin.java:387-390 | the default area test, threshold included; true only for an existing location |
| Geofence.InInterior | src/main/java/com/improvedtearsinterface/ImprovedTearsInterfacePlugin.java:398-401 | the interior test; it implies the area test and excludes x = 3251 |
| Geofence.ExteriorBounds | src/main/java/com/improvedtearsinterface/ImprovedTearsInterfacePlugin.java:392-404 | the area test holds iff the location exists, its plane is 2, 3251 <= x <= 3260 and 9515 <= y <= 9519 |
| Geofence.InteriorBounds | src/main/java/com/improvedtearsinterface/ImprovedTearsInterfacePlugin.java:398-401 | the interior is the area with x >= 3252 (only the minimum-x edge narrows), so interior implies area |
| Geofence.MissingLocationIsOutside | src/main/java/com/improvedtearsinterface/ImprovedTearsInterfacePlugin.java:394-403 | a missing player or location is in neither the area nor the interior |
| VeinScan.ScanOffsets | src/main/java/com/improvedtearsinterface/ImprovedTearsInterfacePlugin.java:420-424 | exactly three tiles on the player's plane, each one step away: east first, then north, then south; never west |
| VeinScan.ClassifyId | src/main/java/com/improvedtearsinterface/ImprovedTearsInterfacePlugin.java:435-447 | an id is recognised iff it is in the empty, blue or green set; an empty-set id gives an empty vein, else a blue-set id a blue vein, else a green-set id a green vein; never "not collecting" |
| VeinScan.FirstVein | src/main/java/com/improvedtearsinterface/ImprovedTearsInterfacePlugin.java:427-453 | the scan over the tiles always yields a vein state, never "not collecting" |
| VeinScan.FirstVeinPicksFirstMatch | src/main/java/com/improvedtearsinterface/ImprovedTearsInterfacePlugin.java:427-450 | the first tile whose object id is in the empty, blue or green set decides; earlier empty tiles and unknown ids are skipped |
| VeinScan.FirstVeinWithoutMatch | src/main/java/com/improvedtearsinterface/ImprovedTearsInterfacePlugin.java:427-453 | with no recognised object on any scanned tile the result is an empty vein |
| VeinScan.CurrentCollectingState | src/main/java/com/improvedtearsinterface/ImprovedTearsInterfacePlugin.java:406-454 | the result is "not collecting" exactly when the collecting varbit is 0 |
| VeinScan.CollectingFromFirstRecognised | src/main/java/com/improvedtearsinterface/ImprovedTearsInterfacePlugin.java:414-450 | while collecting, the first recognised object among the tiles east, north and south of the player gives the state |
| VeinScan.CollectingWithoutVein | src/main/java/com/improvedtearsinterface/ImprovedTearsInterfacePlugin.java:414-453 | while collecting, a missing player or no recognised object on the scanned tiles gives an empty vein |
| VeinScan.OnlyScannedTilesMatter | src/main/java/com/improvedtearsinterface/ImprovedTearsInterfacePlugin.java:420-432 | two scenes that agree on the three scanned tiles give the same state |
| EvictingQueues.Added | src/main/java/com/improvedtearsinterface/ImprovedTearsInterfacePlugin.java:135 | adding keeps a queue within its capacity and puts the new element last |
| EvictingQueues.AddedIsMostRecent | src/main/java/com/improvedtearsinterface/ImprovedTearsInterfacePlugin.java:135 | one addition leaves the last `capacity` elements of the old contents plus the new one |
| EvictingQueues.AddedAllKeepsMostRecent | src/main/java/com/improvedtearsinterface/ImprovedTearsInterfacePlugin.java:135 | after any run of additions the queue holds exactly the most recent `capacity` elements, in insertion order |
| EvictingQueues.EvictingQueue.Create | src/main/java/com/improvedtearsinterface/ImprovedTearsInterfacePlugin.java:135 | a new queue is empty with the given capacity |
| EvictingQueues.EvictingQueue.Add | src/main/java/com/improvedtearsinterface/ImprovedTearsInterfacePlugin.java:356 | the contents become `Added(old contents, e, capacity)`: the oldest element is evicted when full |
| EvictingQueues.EvictingQueue.Clear | src/main/java/com/improvedtearsinterface/ImprovedTearsInterfacePlugin.java:197 | the queue becomes empty |
| Presenter.Flashing | src/main/java/com/improvedtearsinterface/ImprovedTearsInterfacePlugin.java:275 | flashing needs the option on, and happens on every odd tick when it is on |
| Presenter.FlashingAlternates | src/main/java/com/improvedtearsinterface/ImprovedTearsInterfacePlugin.java:275 | with the option on, flashing flips from each tick to the next; with it off, flashing never happens |
| Presenter.TimeLeftColor | src/main/java/com/improvedtearsinterface/ImprovedTearsInterfacePlugin.java:278-301 | no ticks displayed or no maximum gives red |
| Presenter.TimeLeftColorFollowsRatio | src/main/java/com/improvedtearsinterface/ImprovedTearsInterfacePlugin.java:280-296 | for positive values the colour is the band of the exact ratio displayed/max: < 0.15 red (orange when flashing), < 0.3 light orange, < 0.6 yellow, else green; ties fall in the upper band |
| Presenter.TimeLeftColorMonotone | src/main/java/com/improvedtearsinterface/ImprovedTearsInterfacePlugin.java:280-296 | more ticks left never shows a more urgent colour (a non-positive count is red, the most urgent) |
| Presenter.StatusSlot | src/main/java/com/improvedtearsinterface/ImprovedTearsInterfacePlugin.java:303-352 | the countdown comes first ("Get Ready!" from 6, the singular form at 1, the plural below 6; green, dark green when flashing), then "Time Up!" (red, orange when flashing), then the collecting state: blue, green and empty veins and "Not Collecting" each show exactly for their state, in light blue/blue, green/dark green, orange/light orange and steady yellow |
| Presenter.StatusColorFlashes | src/main/java/com/improvedtearsinterface/ImprovedTearsInterfacePlugin.java:324-349 | with flashing on, every status except "Not Collecting" changes colour on consecutive ticks and keeps its text |
| Presenter.CountColor | src/main/java/com/improvedtearsinterface/ImprovedTearsInterfacePlugin.java:357-372 | green iff the count rose, red iff it fell, yellow iff unchanged |
| Session.StartedUp | src/main/java/com/improvedtearsinterface/ImprovedTearsInterfacePlugin.java:146-155 | after start-up every field is as after reset, and the rejoin flag is set iff the player is in the area with a positive ticks-left varbit |
| Session.GameStateChanged | src/main/java/com/improvedtearsinterface/ImprovedTearsInterfacePlugin.java:200-207 | the login screen gives the reset state; any other game state leaves the fields unchanged |
| Session.ShutDownWidgets | src/main/java/com/improvedtearsinterface/ImprovedTearsInterfacePlugin.java:160-180 | each widget is written iff a game was shown and the widget exists; the texts are the interface's own "Time Left" and "Water Collected", every colour yellow |
| Session.Advance | src/main/java/com/improvedtearsinterface/ImprovedTearsInterfacePlugin.java:229-265 | the end-of-game flag is raised only when stored ticks meet a zero signal or the player outside the area, and is never lowered; the plugin is in the game from the first positive signal in the area; the queue and the stored count are untouched |
| Session.Slots | src/main/java/com/improvedtearsinterface/ImprovedTearsInterfacePlugin.java:273-373 | the time-left text is always written with displayed and max; the water text and count colour are written iff their widgets exist; the count is green iff the reading rose |
| Session.Finish | src/main/java/com/improvedtearsinterface/ImprovedTearsInterfacePlugin.java:267-383 | outside a game nothing changes and nothing is written; anything is written iff the game is on and the time-left widget exists; the tick ends reset or with the new readings stored |
| Session.Tick | src/main/java/com/improvedtearsinterface/ImprovedTearsInterfacePlugin.java:209-385 | not logged in changes nothing; any write needs the time-left widget, and the water text and count writes their own widgets; the rejoin flag is cleared only by leaving the interior |
| Session.InitialIsConsistent | src/main/java/com/improvedtearsinterface/ImprovedTearsInterfacePlugin.java:146-155 | the reset state and every start-up state satisfy the plugin invariant |
| Session.TickPreservesInv | src/main/java/com/improvedtearsinterface/ImprovedTearsInterfacePlugin.java:209-385 | a tick keeps the displayed ticks non-negative, the countdown within 0..9 and the queue within 10. A flagged rejoin or an idle plugin stays in the reset state |
| Session.RunPreservesInv | src/main/java/com/improvedtearsinterface/ImprovedTearsInterfacePlugin.java:209-385 | the invariant holds after any sequence of ticks |
| Session.TickGuards | src/main/java/com/improvedtearsinterface/ImprovedTearsInterfacePlugin.java:212-227 | when not logged in, or when a rejoined player is in the interior, a tick changes nothing and writes nothing |
| Session.RejoinReleaseActsFresh | src/main/java/com/improvedtearsinterface/ImprovedTearsInterfacePlugin.java:217-222 | the first tick outside the interior after a rejoin behaves exactly as a tick of a freshly reset plugin |
| Session.ThresholdReleases | src/main/java/com/improvedtearsinterface/ImprovedTearsInterfacePlugin.java:217-222 | a player on the threshold column is in the area but not the interior, and a tick there already clears the rejoin flag |
| Session.RunWhileRejoined | src/main/java/com/improvedtearsinterface/ImprovedTearsInterfacePlugin.java:217-227 | a rejoined game stays frozen, with nothing written, for any run of ticks in the interior |
| Session.FreshStart | src/main/java/com/improvedtearsinterface/ImprovedTearsInterfacePlugin.java:234-240 | a positive signal in the area with no stored ticks sets max and displayed to the signal and the countdown to 9 |
| Session.CountdownStep | src/main/java/com/improvedtearsinterface/ImprovedTearsInterfacePlugin.java:241-247 | during the countdown it drops by exactly 1 on interior ticks and not at all on threshold ticks; displayed and max stay |
| Session.CountdownRuns | src/main/java/com/improvedtearsinterface/ImprovedTearsInterfacePlugin.java:241-247 | a countdown of k reaches 0 after exactly k logged-in interior ticks with a positive signal, whichever widgets exist |
| Session.Smoothing | src/main/java/com/improvedtearsinterface/ImprovedTearsInterfacePlugin.java:248-258 | after the countdown an unchanged signal lowers the displayed ticks by 1, floored at 0; a changed signal resyncs them to the signal |
| Session.DisplayedWithinMax | src/main/java/com/improvedtearsinterface/ImprovedTearsInterfacePlugin.java:248-258 | displayed <= max is kept as long as the signal does not rise above the stored max |
| Session.DisplayedCanExceedMax | src/main/java/com/improvedtearsinterface/ImprovedTearsInterfacePlugin.java:255-258 | a concrete tick where a rising signal lifts the displayed ticks above the max; the code does not clamp |
| Session.GameEnds | src/main/java/com/improvedtearsinterface/ImprovedTearsInterfacePlugin.java:260-265 | stored ticks with a zero signal or the player outside the area end the game: outside the interior a reset follows, inside it the game is over with both tick fields 0 |
| Session.EndOfGameResets | src/main/java/com/improvedtearsinterface/ImprovedTearsInterfacePlugin.java:375-378 | a tick ending with the game over and the player outside the interior leaves the reset state |
| Session.EndingClearedOnlyByReset | src/main/java/com/improvedtearsinterface/ImprovedTearsInterfacePlugin.java:186-198 | a tick that clears the end-of-game flag leaves the reset state |
| Session.DeltaEventAndCounters | src/main/java/com/improvedtearsinterface/ImprovedTearsInterfacePlugin.java:267-383 | in a game, one event with the count change is pushed iff the time-left widget exists; the stored ticks and count take the new readings unless the tick resets |
| Session.RunPushesDeltas | src/main/java/com/improvedtearsinterface/ImprovedTearsInterfacePlugin.java:355-356 | over a run of logged-in interior ticks with a positive signal and the time-left widget present, the queue receives each successive count change, in order (threshold ticks and widget-less ticks are covered one at a time by `Session.DeltaEventAndCounters`) |
| Session.RunKeepsLastTenDeltas | src/main/java/com/improvedtearsinterface/ImprovedTearsInterfacePlugin.java:135 | over such a run of interior ticks with the time-left widget present, the queue holds exactly the last ten count changes, oldest first |
| Plugin.ImprovedTearsInterfacePlugin.constructor | src/main/java/com/improvedtearsinterface/ImprovedTearsInterfacePlugin.java:120-138 | a new plugin has every field zeroed, both flags off and an empty queue of capacity 10 |
| Plugin.ImprovedTearsInterfacePlugin.Reset | src/main/java/com/improvedtearsinterface/ImprovedTearsInterfacePlugin.java:186-198 | every field zeroed, the flags cleared, the queue emptied |
| Plugin.ImprovedTearsInterfacePlugin.StartUp | src/main/java/com/improvedtearsinterface/ImprovedTearsInterfacePlugin.java:146-155 | reset, with the rejoin flag set iff the player is in the area and the ticks-left varbit is positive |
| Plugin.ImprovedTearsInterfacePlugin.ShutDown | src/main/java/com/improvedtearsinterface/ImprovedTearsInterfacePlugin.java:157-184 | when a game was shown, each existing widget gets back its own text in yellow; then the plugin is reset |
| Plugin.ImprovedTearsInterfacePlugin.OnGameStateChanged | src/main/java/com/improvedtearsinterface/ImprovedTearsInterfacePlugin.java:200-207 | the login screen resets; any other state changes nothing |
| Plugin.ImprovedTearsInterfacePlugin.OnGameTick | src/main/java/com/improvedtearsinterface/ImprovedTearsInterfacePlugin.java:209-385 | the new fields and the widget writes are those of `Session.Tick`, and the invariant is kept |
| Plugin.ImprovedTearsInterfacePlugin.UpdatePhase | src/main/java/com/improvedtearsinterface/ImprovedTearsInterfacePlugin.java:229-265 | the fields become `Session.Advance` of the old fields: fresh start, countdown, smoothing or end of game |
| Plugin.ImprovedTearsInterfacePlugin.UpdateInterface | src/main/java/com/improvedtearsinterface/ImprovedTearsInterfacePlugin.java:267-383 | the fields and writes become `Session.Finish` of the old fields: classify, write, push, then reset or store the readings |

## Behaviour of the code worth knowing

- The rejoin release and the end-of-game reset both fire as soon as the player is outside the interior. A player on the threshold column (x = 3251) is still in the area, yet is already released and reset.
- The displayed ticks are not clamped to the maximum: a signal that rises mid-game lifts them above it. `Session.DisplayedCanExceedMax` shows a tick that breaks the bound. `Session.DisplayedWithinMax` states the condition under which the bound holds.
- The count change is pushed only on ticks where the time-left widget exists; a game tick without that widget pushes nothing.
- The collecting state is recomputed on every tick of a game, the countdown and the end of the game included.
- The end-of-game flag is cleared only by a reset. A positive signal that returns while the player is still in the interior starts a new countdown with the flag still set. The countdown text takes precedence over "Time Up!".

## Left out

- `TearsPlusMinusOverlay.java` (the floating +N/-N text) is not part of this model. It is Graphics2D drawing driven by the wall clock and floating-point offsets.
- Timestamps are an abstract integer (`TickInput.now`). `Instant.now()` is not modelled.
- Host client access (`getVarbitValue`, `getLocalPlayer`, `getScene().getTiles()`, `LocalPoint.fromWorld`, `getWidget`) becomes `TickInput` fields. The object lookup is a function from world points to optional ids. It yields None for a tile with no decorative object or outside the scene. Scene-array indexing is not modelled.
- VeinScan.CurrentCollectingState: a present player without a world location would throw in the code (line 418). The model has one `None` for both a missing player and a missing location, which gives an empty vein.
- The decorative-object ids of the vein kinds come from the host's `ObjectID` class, which is not part of this model. They are the `VeinIds` parameter, held by the plugin as a constant.
- Varbit readings are `nat`, because varbits are unsigned bit fields. Java's 32-bit `int` overflow is not modelled: the values involved are small.
- Presenter.TimeLeftColor: the code compares a `double` ratio with 0.15, 0.3 and 0.6. The model uses exact cross-multiplication, and `Presenter.TimeLeftColorFollowsRatio` proves it equal to the exact ratio bands. Double rounding is not modelled. It changes nothing for tick counts of realistic size.
- Texts are `Presenter.Text` tags. The colour markup (`ColorUtil`) and `String.format` are not modelled.
- The config wiring (`@Provides`), `OverlayManager` add/remove and the Lombok getters are plumbing and are left out.
