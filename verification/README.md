# Portfolio scene and character, modelled in Dafny

This project models the per-frame state machine of the interactive 2D
portfolio scene in `character.js`. There are two cooperating objects:

- **SceneManager** owns the camera. The camera is a horizontal position clamped to
  [-1200, 1800]. The position selects one of three sections: "About Me" to the
  left of 0, "Home" up to 1200, and "Games" from 1200 on. A section-enter
  notification fires only when the section actually changes. The games section
  also lays out a grid of game cards, which become click regions.
- **Character** owns the avatar. Keyboard events write a key map. Once per frame,
  `update` turns the held keys into camera moves (left first, then right), a
  jump guarded by `velocity == 0`, gravity of 0.6 per frame, a snap to the
  ground line 250 above the bottom of the canvas, a two-frame walk cycle that
  toggles every 8 walking frames, and a wave counter. A click inside the
  character's closed 50 × 120 box makes it jump (when at rest), wave and speak
  one of six phrases.

Files:

- `geometry.dfy` (module `Geometry`): closed axis-aligned boxes.
- `scene.dfy` (module `Scene`):
  - the sections table, `Clamp` and `SectionOf`;
  - `CameraAfter` and `EventsAfter`, which replay a run of `moveCamera` calls;
  - the `SceneManager` class, whose invariant keeps the camera in range and
    the recorded section equal to the camera's classification;
  - the game-card grid.
- `character.dfy` (module `Characters`):
  - the key-map predicates;
  - the pure step functions `VerticalStep` and `WalkStep`, with lemmas about
    jumps and walking;
  - the `Character` class. Its `Update` runs the three blocks of the
    source's `update` in order (`Steer` for the direction keys, `Fall` for
    the jump and gravity, `Animate` for the walk cycle) and is proved against those step
    functions and against the scene's replay functions.

The `y` position and the velocity are `real`. The camera position is an `int`,
because the only deltas the source sends are ±6. The section-enter notifications
and the camera calls are recorded in ghost sequences (`sectionEvents`,
`cameraCalls`).

Three facts about the code that are easy to misread:

- When both direction keys are held, the camera gets -6 and then +6, with a
  clamp after each call. The two moves cancel, except against the left wall.
  There the clamped first move is smaller than 6, so the net shift is up to +6
  (`Characters.OpposingKeysShift`). The facing and walking flags follow the
  right-hand branch, because it runs last.
- With both direction keys held just right of a section boundary (camera in
  [0, 6) or [1200, 1206)), the left move crosses the boundary and the right
  move crosses back. So every such frame fires two section-enter
  notifications, About Me then Home, or Home then Games, not one per
  transition (`Characters.OpposingKeysAtBoundaryAnnounceTwice`).
- The jump guard tests for velocity exactly 0, not for ground contact. In real
  arithmetic the velocity at the top of the arc (frame 25) is exactly 0, so the
  model re-jumps there if an ascend key is still held (`Characters.JumpLands`).

## Model

| member | source | states |
|---|---|---|
| Scene.Clamp | character.js:25-26 | the result is within [-1200, 1800]; an in-range value is unchanged (so clamping is idempotent); values below or above are pinned to the nearest bound |
| Scene.SectionOfMatchesTable | character.js:15-45 | a camera position in [-1200, 1800] lies in a section's span in the sections table exactly when `moveCamera`'s classification picks that section: the spans cover the range without overlap |
| Scene.Emitted | character.js:30-45 | one `moveCamera` fires at most one notification: none exactly when the new section equals the recorded one, otherwise one naming the new section |
| Scene.CameraAfterInRange | character.js:24-26 | after any non-empty run of `moveCamera` calls the camera is within [-1200, 1800] |
| Scene.OneMove | character.js:24-45 | replaying a single `moveCamera` call clamps the camera, records the new position's section, and fires that call's notification |
| Scene.TwoMoves | character.js:24-45 | replaying two calls is the first call followed by the second, starting from the section the first one recorded |
| Scene.EventsAreTransitions | character.js:30-45 | over any run of calls: at most one notification per call, the first differs from the starting section, no two consecutive notifications name the same section, and the recorded section is the last one announced |
| Scene.StandingStillIsSilent | character.js:24-45 | any number of `moveCamera(0)` calls from a consistent state leave the camera unchanged and fire nothing |
| Scene.StayingLeftIsSilent | character.js:30-34 | leftward (or zero) moves while in the about-me section fire nothing |
| Scene.LeavingHomeLeftwardAnnouncesOnce | character.js:21-34 | from the initial state (camera 0, Home), any run of leftward moves announces About Me exactly once |
| Scene.SceneManager.constructor | character.js:2-22 | the camera starts at 0 in Home, it is day, and no call or notification has happened |
| Scene.SceneManager.MoveCamera | character.js:24-46 | the camera becomes the clamp of old position plus delta; the section becomes its classification; the notification log grows by exactly that call's notification; the call log grows by the delta; day or night is untouched; the range and classification invariant is kept |
| Scene.SceneManager.OnSectionEnter | character.js:48-56 | the notification sink records the section entered |
| Scene.SceneManager.ToggleNight | character.js:11-13 | one firing of the day/night timer flips `isNightTime` |
| Scene.CardOrigin | character.js:358-394 | the first card sits 50 in from a centred panel at most 900 wide and 100 narrower than the canvas, and 200 from the top |
| Scene.CardBox | character.js:390-402 | each card is 240 × 180; the first card of every row (index a multiple of 3) starts at the grid origin's left edge, every card's left edge is 0, 270 or 540 right of it; the first three cards form the top row at the origin's height, and no card lies above it; with the two lemmas below this fixes card i at column i % 3, row i / 3 |
| Scene.CardRightNeighbour | character.js:399-401 | within a row the cards run left to right: the next card, unless this one ends its row, is one column (240 + 30) to the right at the same height |
| Scene.CardRowDown | character.js:399-402 | the card three places on is in the same column, one row (180 + 30) further down |
| Scene.CardsApart | character.js:399-402 | any two different cards are separated by a positive gap |
| Scene.LayoutGameCards | character.js:396-443 | one card per game, in order, card `i` at grid slot `i` with the game's name; all published regions are pairwise apart |
| Scene.GameCards | character.js:357-443 | the games section publishes exactly its five games, in order, card i at grid slot i from the panel's card origin for the canvas width, all pairwise apart |
| Geometry.ApartShareNoPoint | character.js:436-442 | separated click regions share no point, so a click selects at most one game |
| Characters.CameraDeltas | character.js:549-563 | the camera deltas of one frame: none when no direction key is held, -6 for left, +6 for right, and -6 then +6 when both are held |
| Characters.OpposingKeysShift | character.js:549-563 | with both direction keys held the camera is unchanged away from the left wall, and ends at -1194 against it |
| Characters.OpposingKeysAtBoundaryAnnounceTwice | character.js:549-563 | with both direction keys held and the camera in [0, 6) in Home, one frame announces About Me and then Home; in [1200, 1206) in Games it announces Home and then Games |
| Characters.StridesReplay | character.js:549-563 | the two direction branches of one frame, each clamping and notifying in turn, are exactly the replay of that frame's camera deltas |
| Characters.Launch | character.js:565-567 | the velocity changes (to -15) exactly when an ascend key is held and the velocity is exactly 0 |
| Characters.VerticalStep | character.js:565-576 | after a frame the character is never below the ground; on the ground its velocity is 0; if the integrated position reached the ground it snaps there at rest, otherwise it moved by the velocity increased by exactly 0.6 |
| Characters.MidAirAscendIgnored | character.js:565-567 | with a non-zero velocity, holding an ascend key changes nothing |
| Characters.RestingIsStable | character.js:569-576 | standing on the ground with no key held stays on the ground at rest |
| Characters.JumpArc | character.js:565-576 | the closed form of the jump: after frame k (1..48) the height above ground is 0.3·k·(49−k) > 0 and the velocity is −15 + 0.6·k |
| Characters.JumpLands | character.js:569-576 | a jump from rest lands exactly on the ground line at velocity 0 on its 49th frame; the velocity is exactly 0 at frame 25 |
| Characters.WalkStep | character.js:578-585 | while walking the count goes up by one and the cycle frame toggles exactly when the new count is a multiple of 8; when not walking the count resets to 0 and the frame is kept; the frame stays in {0, 1} |
| Characters.WalkToggles | character.js:578-585 | after n walking frames from a standstill the count is n and the cycle frame has been toggled exactly n / 8 times |
| Characters.FlipParity | character.js:580-582 | an even number of toggles of the two-frame cycle leaves the frame, an odd number swaps it |
| Characters.WalkCycle | character.js:578-585 | after n walking frames from a standstill the count is n and the cycle frame has toggled n / 8 times (so twice after 16 frames, at 8 and 16) |
| Characters.Character.constructor | character.js:449-479 | the character stands on the ground at the canvas centre, facing right, at rest, waving, with no key held |
| Characters.Character.KeyDown | character.js:484-490 | the key is recorded as held and waving stops |
| Characters.Character.KeyUp | character.js:492-494 | the key is recorded as released |
| Characters.Character.Bounds | character.js:507-510 | the hit box contains the feet and the top of the head |
| Characters.Character.IsPointInCharacter | character.js:507-510 | a point hits exactly when it lies in the closed box 50 wide centred on x and 120 tall ending at the feet |
| Characters.HitTestEdges | character.js:507-510 | the centre and all four corners hit; a point one unit beyond any edge misses |
| Characters.Character.OnCharacterClick | character.js:512-527 | the velocity becomes -15 only if it was exactly 0, otherwise it is untouched; waving starts; the phrase is the one the random value selects |
| Characters.Character.Click | character.js:496-504 | the click reaction happens exactly on a hit; then a phrase from the list is spoken; a miss changes nothing |
| Characters.Character.ExpireWave | character.js:476-478 | one firing of a wave timer stops waving |
| Characters.Character.Stride | character.js:548-562 | one direction branch: when its key is held the character walks, faces that way and the scene gets exactly one move of ±6 with its clamp and notification; otherwise neither the character's flags nor the scene change |
| Characters.Character.Steer | character.js:547-563 | walking exactly when a direction key is held; facing right if the right key is held, left if only the left one, unchanged otherwise; the scene receives exactly this frame's deltas in order, and its camera and notifications are those of the left stride followed by the right one |
| Characters.Character.Fall | character.js:565-576 | the position and velocity after the jump check, gravity, integration and ground snap are those `VerticalStep` gives |
| Characters.Character.Animate | character.js:578-585 | the walk counter and cycle frame advance as `WalkStep` says |
| Characters.Character.Update | character.js:546-590 | the frame's horizontal moves go to the scene when one is present; the position and velocity follow `VerticalStep`; the walk cycle follows `WalkStep`; the wave counter goes up by one exactly while waving; keys and waving are untouched; the character stays on or above the ground with its frame in {0, 1} |
| Characters.PhraseIndex | character.js:519 | `floor(random · 6)` for a random value in [0, 1) is a valid phrase index, the one whose unit interval contains random · 6 |
| Characters.EveryPhraseReachable | character.js:465-472 | every one of the six phrases is selected by some random value |

## Left out

- Drawing is not modelled: the background, the sections' panels, the cards'
  pictures and the character sprite are canvas calls with no behaviour beyond
  pixels.
- The ambient `time += 0.01` counter and the `Math.sin` flicker and wave angles
  are left out. They are floating-point trigonometry that feeds only drawing.
- Timer scheduling (`setInterval`, `setTimeout`) is not modelled. Each timer's
  effect is one explicit method: `ToggleNight` for the 30 s day/night flip, and
  `ExpireWave` for the 3 s and 2 s wave expiries. The 2.5 s speech-bubble expiry
  is left out with the speech bubble.
- DOM effects are left out, because they belong to the browser:
  - the section indicator's text and classes (only the section entered is
    recorded; `DisplayName` gives the indicator's text);
  - the speech bubble and its position;
  - the `window.gameCards` global (`LayoutGameCards` returns the regions
    instead);
  - `preventDefault` and event-listener registration;
  - the `console.log` of the section entered in `onSectionEnter`.
- The calls to `achievementSystem.unlock` and `audioManager.play` are left out,
  because they go to code outside this file.
- `Math.random` is not modelled. Its value is a parameter of `OnCharacterClick`
  and `Click`, required to lie in [0, 1), as `Math.random` guarantees.
- The scaling from client to canvas coordinates in the click handler is left out,
  because it is browser geometry. `Click` takes canvas coordinates.
- Characters.VerticalStep: uses real arithmetic, not IEEE-754 doubles, and
  the two disagree on jumps:
  - In doubles, adding 0.6 to -15 twenty-five times gives about -6e-15, not 0.
  - After 49 frames the feet are still about 3e-13 above the ground line, so
    the program lands on frame 50, not 49.
  - So the program never re-jumps at the apex. In the model, holding an
    ascend key re-jumps at every apex, and the character climbs 180 per arc.
  - These double-precision figures come from working the arithmetic out by
    hand, not from the program. `JumpArc` and `JumpLands` state the
    real-number behaviour only.
- Characters.Character.Update: the canvas size is fixed when the character is
  built. A later resize of the canvas, which would move the ground line, is not
  modelled.
- Scene.SceneManager.MoveCamera: the camera position is an integer. Fractional
  deltas, which the source never sends, are not modelled.
- The visibility guard on the card grid is not modelled. The source publishes
  the card regions only while the games section is on screen, and otherwise
  leaves the last published regions in place. `GameCards` gives the regions
  a drawing publishes; when the drawing happens is not modelled.
- The first phrase's wave emoji is written in the source file as the
  mis-encoded text "ðŸ‘‹" (the emoji's UTF-8 bytes read as Windows-1252 and
  encoded again). The model reads that text as the intended emoji, U+1F44B.
- The unused `worldWidth` field, the `ctx` handles, and the cards' icon and
  colour fields are left out.
