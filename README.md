# obstacleGame level layout and run timer, in Dafny

This project models the two pieces of logic in the obstacle-course game (a React / three.js
scene with Rapier physics):

- **Level assembly** (`src/Level.jsx`).
  - `Level` draws `count` hazard blocks from `types` (Spinner, Axe, Limbo) by
    `Math.floor(Math.random() * types.length)`.
  - It places Start at the origin, hazard `i` at z = -(i + 1) * 4 and End at
    z = -(count + 1) * 4.
  - It sizes `Bounds` with `length = count + 2`. `Bounds` builds the two side walls, the
    back wall and the floor collider of one fixed rigid body.
  - Each hazard block moves its kinematic body to a target pose every frame:
    - the spinner turns at a speed it drew once;
    - the limbo bar moves up and down on a sine;
    - the axe swings sideways on a sine shifted by a per-instance offset.
- **The elapsed-time display** (`src/Interface.jsx`). On every frame, the callback
  registered with `addEffect` does these steps:
  - picks the elapsed milliseconds for the run's phase: running time while playing, the
    final time once ended, 0 otherwise;
  - divides them by 1000;
  - writes them with `toFixed(2)`.

The modules are:

- `Geometry` (geometry.dfy): points, intervals and axis-aligned boxes.
- `Level` (level.dfy):
  - the block catalog;
  - the draw loop `BuildBlocks`, a method proved against `DrawnBlocks`;
  - the placement `Layout`;
  - `Bounds`;
  - the enclosure theorem `BoundsEncloseLayout`: the walls and floor collider exactly
    enclose every tile, from Start's near edge at z = 2 to End's far edge at
    z = -4 * length + 2.
- `Kinematics` (kinematics.dfy): the per-frame pose formulas of the three hazards.
- `NumberFormat` (number_format.dfy):
  - `toFixed(2)` on an exact number of thousandths;
  - a reader `Parse`, which is the round-trip partner of the rendering.
- `Interface` (interface.dfy): the frame callback as an imperative method with the same
  branches, and its properties. These include the display freezing once the run has ended.

Random draws, the current time and `Math.sin` are inputs:

- A `Math.random()` draw is a real in [0, 1).
- `Date.now()` is an integer number of milliseconds.
- The render clock's elapsed time is a non-negative real.
- A sine is any `real -> real` function whose values stay in [-1, 1].

Where the code and its description differ, the model follows the code:

- `BlockLimbo` draws a `timeOffset` (src/Level.jsx:119) but its frame callback never uses
  it (src/Level.jsx:126). So all limbo bars move in step (`LimboIgnoresTimeOffset`).
- The hazards animate from the render clock (`state.clock.getElapsedTime()`), not from the
  run's start and end times. So they keep moving in every phase, including after the run
  has ended.
- `Level`'s `seed` prop appears only in the memo's dependency list (src/Level.jsx:283) and
  never reaches the random source. So the layout is a function of `count`, `types` and the
  draws, and `seed` is not an input.

## Model

| member | source | states |
|---|---|---|
| Level.FloorMesh | src/Level.jsx:14-50 | every block's floor is a 4 x 4 tile centred on its group; its top is at y = 0, except End's at y = 0.1 |
| Level.PickIndex | src/Level.jsx:278 | `floor(r * n)` of a draw r in [0, 1) is a valid index below n, and it is the k with k <= r * n < k + 1 |
| Level.PickIndexInterval | src/Level.jsx:278 | type k of n is chosen exactly when the draw lies in [k/n, (k+1)/n), so every type has an interval of draws of the same width |
| Level.DrawnBlocks | src/Level.jsx:272-283 | the drawn list has exactly `count` entries and every entry is an element of `types` |
| Level.DrawnBlocksExtend | src/Level.jsx:276-280 | one more iteration appends exactly the block of the next draw and leaves the earlier blocks unchanged |
| Level.BuildBlocks | src/Level.jsx:272-283 | the memo's push loop returns exactly the drawn list (loop invariant: after i iterations, the first i drawn blocks) |
| Level.Layout | src/Level.jsx:285-295 | `count + 2` blocks: Start first, End last, hazard i at list position i + 1, and every block in slot k at z = -4k |
| Level.ConsecutiveTilesAbut | src/Level.jsx:288-295 | consecutive blocks are exactly 4 units apart with strictly decreasing z, and their floor tiles abut |
| Level.Bounds | src/Level.jsx:212-263 | the side walls and floor collider span z in [-4 * length + 2, 2], and the back wall stands at the far end of that span; the walls are mirror images with inner faces at x = +-2; the floor collider spans x in [-2, 2] with its top at y = 0; floor friction is 1 and wall friction 0; both restitutions are 0.2 |
| Level.BoundsEncloseLayout | src/Level.jsx:285-297 | `Bounds(count + 2)` encloses every tile of a level with `count` hazards; Start's near edge is the walls' near end, and End's far edge is their far end, where the back wall stands |
| Level.SlottedTilesEnclosed | src/Level.jsx:224-253 | any `length` tiles in slots 0 .. length - 1 are enclosed by `Bounds(length)` |
| Level.TilesInsideBounds | src/Level.jsx:224-253 | every slotted tile lies within the side walls' z-span and between their inner faces |
| Level.EndsAtBounds | src/Level.jsx:224-253 | the first tile ends at the walls' near end, and the last tile ends at their far end and at the back wall |
| Level.BackWallAtFarEnd | src/Level.jsx:224-243 | the back wall's z is the side walls' far end, -4 * length + 2 |
| Level.FirstTileAtNearEnd | src/Level.jsx:286 | the Start tile's near edge is at z = 2 |
| Level.LastTileAtFarEnd | src/Level.jsx:295 | the tile in the last slot ends at z = -4 * length + 2 |
| Level.TileSpans | src/Level.jsx:288-295 | a block in slot k covers x in [-2, 2] and z in [-4k - 2, -4k + 2] |
| Level.Level | src/Level.jsx:266-299 | the level is the layout of the drawn blocks with `Bounds(count + 2)`, and those bounds enclose it |
| Level.DrawnLevelShape | src/Level.jsx:272-295 | a drawn level has `count + 2` blocks: Start first, End last, and only hazards from `types` between them |
| Level.DefaultLevel | src/Level.jsx:266-297 | with the default props (count 5, types Spinner, Axe, Limbo) the level has seven blocks, End at z = -24, and walls spanning z in [-26, 2] |
| Level.EmptyLevel | src/Level.jsx:285-297 | with no hazards, End sits at z = -4, directly adjacent to Start, and the walls span z in [-6, 2] |
| Kinematics.ObstacleMesh | src/Level.jsx:101-205 | every obstacle mesh is 0.3 deep in z and centred on its body; the spinner and limbo bars span x in [-1.75, 1.75] and y in [-0.15, 0.15], and the axe blade spans x and y in [-0.75, 0.75] |
| Kinematics.SpinnerSpeed | src/Level.jsx:70 | the drawn speed has magnitude in [0.2, 1.2), is never zero, and is negative exactly when the direction draw is below 0.5 |
| Kinematics.SpinnerYaw | src/Level.jsx:75-78 | after t seconds the bar has turned by between 0.2 t and 1.2 t radians, in the direction of the speed's sign |
| Kinematics.SpinnerTurnsSteadily | src/Level.jsx:75-78 | the yaw advances by the same angle over every interval of the same length |
| Kinematics.SpinnerBarStaysInsideTile | src/Level.jsx:78-107 | whatever its yaw, every point of the spinning bar stays strictly inside the tile's x and z range (-2, 2) |
| Kinematics.LimboTarget | src/Level.jsx:121-128 | the limbo target keeps the block's x and z, and its y stays within [block y + 0.15, block y + 2.15] |
| Kinematics.LimboIgnoresTimeOffset | src/Level.jsx:119-128 | the limbo target is the same for every time offset |
| Kinematics.LimboBarAboveFloor | src/Level.jsx:126-157 | the limbo bar's underside never goes below the top of its tile's floor |
| Kinematics.AxeTarget | src/Level.jsx:170-176 | the axe target stays within 1.25 of the block's x, with y at block y + 0.75 and z at the block's z |
| Kinematics.AxeStaysBetweenWalls | src/Level.jsx:175-205 | a blade on the track swings at most up to the side walls' inner faces |
| Kinematics.FramePose | src/Level.jsx:73-178 | a spinner gets a rotation whose yaw after t seconds is between 0.2 t and 1.2 t in the speed's direction; a limbo bar gets a translation that keeps the block's x and z with y in [block y + 0.15, block y + 2.15]; an axe gets a translation within 1.25 of the block's x, at block y + 0.75 and the block's z |
| NumberFormat.Round2 | src/Interface.jsx:34-35 | the sign is kept, and the magnitude is rounded to the nearest hundredth: 10 * hundredths lies in (abs - 5, abs + 5] |
| NumberFormat.NatDigits | src/Interface.jsx:35 | the integer part is written with at least one digit, no leading zero, and reads back as its value |
| NumberFormat.Render | src/Interface.jsx:35 | the text ends in '.' followed by exactly two digits |
| NumberFormat.MagnitudeText | src/Interface.jsx:35 | the magnitude's text starts with a digit and ends in '.' and two digits |
| NumberFormat.ParseRender | src/Interface.jsx:35 | reading the rendered text gives back exactly the sign and hundredths that were rendered |
| NumberFormat.MagnitudeReads | src/Interface.jsx:35 | the magnitude's text reads back as the count of hundredths it was written from |
| NumberFormat.ToFixed2 | src/Interface.jsx:34-35 | `(t / 1000).toFixed(2)` reads back as t / 1000 rounded to hundredths, with the sign of t |
| NumberFormat.ZeroRendering | src/Interface.jsx:27-35 | an elapsed time of 0 is shown as "0.00" |
| Interface.ElapsedMillis | src/Interface.jsx:27-32 | while playing, the elapsed time runs from the start time to now; once ended, from the start time to the end time; in any other phase it is 0 |
| Interface.DisplayText | src/Interface.jsx:27-35 | the displayed text reads back as the phase's elapsed milliseconds in seconds, rounded to hundredths, with their sign |
| Interface.ElapsedTimeText | src/Interface.jsx:24-37 | the callback's text is the display of the phase's elapsed milliseconds, and it reads back as them in seconds, rounded to hundredths |
| Interface.ReadyShowsZero | src/Interface.jsx:27-35 | outside the playing and ended phases the display reads "0.00", whatever the clock and timestamps |
| Interface.EndedDisplayFrozen | src/Interface.jsx:31-32 | once the run has ended, the display does not depend on the current time |
| Interface.EndedShowsFinalRunningTime | src/Interface.jsx:29-32 | the frozen display is what a playing frame would have shown at the end time |
| Interface.PlayingDisplayNeverDecreases | src/Interface.jsx:29-35 | while playing, the displayed time never goes backwards as the clock advances |

## Left out

- Rendering: the shared geometry and materials, mesh and shadow flags, and the hamburger
  model of `BlockEnd` with its hull collider (src/Level.jsx:7-12, 33-39, 53-61). These are
  presentation, or colliders derived from an asset this model does not have.
- The physics engine: `RigidBody`, `CuboidCollider` and the kinematic commands are calls into
  Rapier. Only the computed target pose is modelled, not the body's start position or the
  simulation.
- The obstacle bodies' restitution (0.2) and friction (0) (src/Level.jsx:98-99, 148-149,
  196-197) are physics-material settings with no effect on any pose this model computes.
- Quaternion and Euler conversion (src/Level.jsx:77-78): the spinner's pose is its yaw
  angle. The rotated bar is modelled by the cosine and sine of that angle as values in
  [-1, 1].
- Floating point: draws, clock times and poses are exact reals. `Math.PI * 2 * random` is
  any real offset, and `Math.sin` is any function bounded by [-1, 1].
- Level.Level: requires a non-empty `types`. With an empty list and `count > 0`, the
  source pushes `undefined` onto the block list (src/Level.jsx:278-279), and rendering that
  element then fails, so no level is drawn.
- Level.Level: `count` is a natural number. A negative or fractional prop is not modelled.
- NumberFormat.ToFixed2: models `toFixed(2)` on the exact value t / 1000. The source
  divides binary doubles, so a tie such as 1005 ms may print "1.00". Values of 1e21
  seconds or more (exponential notation) and a missing start time (NaN) are not modelled.
- The DOM write of the text into the `time` ref, its null guard, and the unsubscribe on
  unmount (src/Interface.jsx:37-42). `ElapsedTimeText` returns the text instead.
- The game and audio stores (phase transitions, `restart`, the seed update) are not part of
  this model. The phase and the timestamps are inputs.
- The keyboard highlighting, audio toggle and restart button of `Interface`,
  `src/managers/SoundManager.jsx`, `src/Player.jsx` and `src/Experience.jsx` are UI,
  audio playback and static composition.
