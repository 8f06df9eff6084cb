# RoseDay bouquet and particle backdrop — a Dafny model

This project models the two algorithmic parts of the RoseDay animated greeting:

- **The particle backdrop** (`ParticleSystem`): a canvas pool of particles that either
  drift and twinkle as fireflies or fall and sway as rose petals. Each animation callback
  passes a 30-frames-per-second gate, then advances every particle in place: it moves,
  applies its kind's physics (clamped velocity and alpha jitter for fireflies; spin and
  sideways sway for petals), wraps at the side edges (fireflies also at the top and bottom) with a 50-pixel margin, and a
  petal that falls off the bottom respawns at the top.
- **The bouquet layout** (`BouquetCreator`'s `roses`): 80 stems on narrow viewports or 800
  otherwise, placed on a dome by a golden-angle spiral. Each stem is a three-point curve
  from a shared base point (0, −4, 0) to a lifted point above its dome sample, through a
  midpoint pushed outward in x and z. Each stem also gets a random growth delay, a
  height-weighted flower scale and one of two colours.

Numbers are exact reals: there is no rounding, no NaN and no infinity. Every `Math.random()`
value is a caller-supplied `Draw` in [0, 1), collected per particle (`SpawnDraws`,
`TickDraws`) or per stem (`RoseDraws`). `Math.sqrt`, `Math.sin` and `Math.cos` are
caller-supplied functions (`Transcendentals`, or the `sin` parameter). A property that
depends on their values says what it assumes in its requires clause: `Exact` for the
unit-sphere identity, `SineBounded` for the petal sway. The canvas size is an input to
every frame, so a resize between two frames is "the next frame uses the new size".

Files:

- `jsmath.dfy`: modules `Wrappers` (an `Option` standing for JavaScript's absent fields)
  and `JsMath` (`Draw`, `Math.PI`, `Math.min`/`Math.max`, the clamp idiom, JavaScript's
  truncating `%`, the transcendental oracle).
- `particles.dfy`: module `Particles`. It has the pure per-particle rules, the class
  `ParticleSystem` (the particle array and `lastTime`, updated in place), and lemmas over
  any number of frames.
- `bouquet.dfy`: module `Bouquet`. It has the density choice, the dome sample, the stem
  curve, the per-stem attributes, and the loop that builds the list of roses.

Some facts about the code that the model keeps:

- A zero-sized canvas still runs the frame, and so does `Step`.
- The dome height divides by `count − 1` with no guard. `DomeY` requires at least two
  stems, which always holds because the count is 80 or 800.
- The generator attaches no leaves to the stems.
- The stem delay is `3·r` seconds, the unit the growth animation's `delay` takes, in [0, 3).
- Physics counts frames. Velocities and spin are added once per frame that passes the gate,
  and elapsed time does not scale them.

## Model

| member | source | states |
|---|---|---|
| JsMath.Min | app/components/ParticleSystem.tsx:75-76 | `Math.min` returns one of its arguments, and that argument is no larger than the other |
| JsMath.Max | app/components/ParticleSystem.tsx:75-76 | `Math.max` returns one of its arguments, and that argument is no smaller than the other |
| JsMath.Clamp | app/components/ParticleSystem.tsx:75-80 | `Math.max(lo, Math.min(hi, v))` is always in [lo, hi]. It is `v` itself when `v` is inside, `lo` below the range and `hi` above it |
| JsMath.Trunc | app/components/ParticleSystem.tsx:59 | the quotient with its fraction dropped toward zero: within one of the quotient, on the side of zero |
| Particles.Spread | app/components/ParticleSystem.tsx:149-150 | `Math.random() * w` lies in [0, w), or is 0 when w is 0 |
| Particles.CreateParticle | app/components/ParticleSystem.tsx:146-169 | a firefly starts with x in [0, w), y in [0, h], vx and vy in [−0.25, 0.25), size in [1, 3), alpha in [0.3, 0.8) and no hue or rotation. A petal starts with y in [−h, 0], vx in [−0.5, 0.5), vy in [1, 2), size in [5, 15), alpha in [0.7, 1), hue in [330, 360), rotation in [0, 2π) and rotation speed in [−0.025, 0.025) |
| Particles.FrameGate | app/components/ParticleSystem.tsx:50-59 | the frame is skipped exactly when less than 1000/30 ms has passed since `lastTime`. Otherwise the new `lastTime` is a whole number (at least one) of intervals after the old one, not after `time`, and less than one interval before `time` |
| Particles.Wrap | app/components/ParticleSystem.tsx:88-93 | a coordinate ends in [−50, extent + 50]. It is unchanged when already inside, jumps to extent + 50 from below −50, and to −50 from above extent + 50 |
| Particles.Twinkle | app/components/ParticleSystem.tsx:68-80 | whatever the draws, a firefly's vx and vy end in [−0.5, 0.5] and its alpha in [0.2, 0.8]. From inside those ranges each moves by at most 0.025. Position, size and petal fields are untouched |
| Particles.Sway | app/components/ParticleSystem.tsx:82-85 | rotation becomes the old rotation plus the rotation speed, a missing field counting as 0. With sine bounded by 1, x moves by at most 0.5. Nothing else changes |
| Particles.Step | app/components/ParticleSystem.tsx:63-100 | after one frame, x is in [−50, w + 50]. A firefly moves by its pre-jitter velocity, then wraps on both axes. Its new vx, vy and alpha are exactly those of `Twinkle` on the old particle, ending within ±0.5 and in [0.2, 0.8]. A petal keeps vx, vy and alpha, and its rotation advances by its speed. A petal past h + 50 respawns at y = −50 with x = r·w for its respawn draw r, so in [0, w). Otherwise its y is the old y plus vy, with no upward wrap, and its x is the moved and swayed x wrapped horizontally. Away from the side edges it sways by at most 0.5 |
| Particles.StepAll | app/components/ParticleSystem.tsx:63-100 | one frame steps every particle of the pool with its own draws, and leaves each one on screen |
| Particles.Spawn | app/components/ParticleSystem.tsx:44-46 | the pool has exactly one freshly created particle per draw record, in order |
| Particles.ParticleSystem.constructor | app/components/ParticleSystem.tsx:41-50 | the array holds exactly `count` particles, each made by `createParticle`, and `lastTime` starts at 0 |
| Particles.ParticleSystem.Animate | app/components/ParticleSystem.tsx:53-100 | with the gate closed, neither `lastTime` nor any particle changes. With the gate open, `lastTime` becomes the gate's value and every particle takes one step in place, ending on screen. Every particle stays healthy either way |
| Particles.SpawnHealthy | app/components/ParticleSystem.tsx:146-169 | every created particle meets its kind's lasting bounds |
| Particles.StepAllHealthy | app/components/ParticleSystem.tsx:63-100 | one frame keeps every particle of a pool within its kind's lasting bounds |
| Particles.RunHealthy | app/components/ParticleSystem.tsx:53-100 | after any number of frames, with resizes in between, a firefly's velocity stays within ±0.5 and its alpha in [0.2, 0.8]. A petal keeps its fall speed, alpha, hue and spin bounds |
| Particles.RunOnScreen | app/components/ParticleSystem.tsx:87-100 | after one or more frames a particle is on the last frame's screen, whatever its starting position |
| Particles.PetalRunKeeps | app/components/ParticleSystem.tsx:82-85 | over any number of frames a petal's vx, vy, alpha, size, hue and rotation speed never change |
| Particles.TurnsProduct | app/components/ParticleSystem.tsx:83 | adding the rotation speed once per frame for n frames adds n times the speed |
| Particles.PetalRunTurns | app/components/ParticleSystem.tsx:82-85 | frame by frame, a petal's rotation gains one turn of its own speed per frame |
| Particles.PetalRunSpins | app/components/ParticleSystem.tsx:83 | after n frames a petal's rotation has grown by exactly n times its rotation speed |
| Bouquet.DensityFor | app/components/BouquetCreator.tsx:49-51 | a narrow window (below 768) gets 80 stems, spread 4 and flowers 2.5 times larger. A wide window, or no window at all, gets 800 stems, spread 5 and multiplier 1 |
| Bouquet.DensityBreakpoint | app/components/BouquetCreator.tsx:49-51 | 767 pixels gives 80 stems and 768 gives 800. A narrower viewport never has more stems, and strictly fewer across the breakpoint |
| Bouquet.GoldenAngle | app/components/BouquetCreator.tsx:54 | the spiral's angle step π·(3 − √5), with the caller's square root. It has no contract of its own; its range is stated by `GoldenAngleRange` |
| Bouquet.GoldenAngleRange | app/components/BouquetCreator.tsx:54 | with an exact square root, the golden angle lies strictly between 0 and π |
| Bouquet.DomeY | app/components/BouquetCreator.tsx:59-60 | a sample's height is in [0.05, 1]. It is exactly 1 for the first stem and 0.05 for the last |
| Bouquet.DomeYDecreasing | app/components/BouquetCreator.tsx:59-60 | later samples sit strictly lower on the dome |
| Bouquet.Sample | app/components/BouquetCreator.tsx:54-65 | the spiral sample of stem i has the dome height of i, within [0.05, 1] |
| Bouquet.SampleOnSphere | app/components/BouquetCreator.tsx:61-65 | with an exact square root, sine and cosine, x² + y² + z² = 1 for every sample |
| Bouquet.StemCurveFor | app/components/BouquetCreator.tsx:67-86 | the curve starts at (0, −4, 0). It ends at the sample scaled by `spread` and lifted by `height`. Its middle point has y at the start/end midpoint and x, z at 1.6 times the midpoint's |
| Bouquet.MidPointBulge | app/components/BouquetCreator.tsx:83-86 | the middle point is at 0.8 of the end point in x and z, and at (endY − 4)/2 in y |
| Bouquet.StemScale | app/components/BouquetCreator.tsx:105 | the flower scale `(0.025 + r·0.025)·(1 + y·0.2)·k·1.5`. Its bounds are stated by `StemScaleBounds` and its growth with height by `ScaleGrowsWithHeight` |
| Bouquet.StemScaleBounds | app/components/BouquetCreator.tsx:92-105 | for a height in [0.05, 1] and a positive multiplier k, the scale is positive. It lies in [0.025·1.01·k·1.5, 0.05·1.2·k·1.5) |
| Bouquet.ScaleGrowsWithHeight | app/components/BouquetCreator.tsx:105 | for one draw, a flower higher on the dome is never smaller |
| Bouquet.RoseAt | app/components/BouquetCreator.tsx:56-107 | stem i has id i and starts at (0, −4, 0). Its end is between 1 and 3 above its scaled dome height, and its delay is 3·r for its delay draw r, so in [0, 3). Its colour is pink exactly when the colour draw exceeds 0.6, red otherwise. Its curve is `StemCurveFor` of its dome sample, spread and lift (bulged midpoint, scaled end), and its scale is `StemScale` at its dome height |
| Bouquet.RoseScaleBounds | app/components/BouquetCreator.tsx:49-105 | every stem's flower scale is positive and within the bounds set by its density's multiplier (2.5 on a narrow window, 1 otherwise) |
| Bouquet.ScaleDownTheDome | app/components/BouquetCreator.tsx:59-105 | with the same scale draw, a stem further along the spiral never has a larger flower |
| Bouquet.GenerateRoses | app/components/BouquetCreator.tsx:46-111 | the loop produces exactly `count` roses, rose i being stem i with id i, all from the shared start point |

## Left out

- Canvas drawing (`clearRect`, paths, fills, shadows, `globalAlpha`): drawing calls with no effect on particle state.
- `requestAnimationFrame` scheduling, the resize listener and the clean-up on unmount: the host calls `Animate` with a time, and the canvas size is passed to every frame.
- The order of `Math.random()` calls within a frame: each particle gets its own draw record, because only the drawn values affect the result.
- Floating-point rounding, NaN and infinity: numbers are exact reals, so `alpha` jitter and clamps are exact.
- `Math.sqrt`, `Math.sin` and `Math.cos`: supplied by the caller. The unit-sphere identity needs the `Exact` assumption, and the sway bound needs a bounded sine.
- JsMath.Rem: JavaScript's `%` is defined, but its bounds are proved only where it is used, in `FrameGate`, with the fixed 1000/30 divisor.
- The Three.js curve (`CatmullRomCurve3` interpolation), tube geometry and flower orientation: library geometry. A stem is kept as its three control points.
- The camera rig's interpolation, the `setTimeout` step sequence and the JSX overlay: timers, camera plumbing and markup.
- `Rose3D`, `OBJRose`, `HomePage`, the page and the layout: rendering, model loading and view state.
- Particles.Sway: the sway bound of 0.5 is stated only for a sine bounded by 1, since the sine is supplied by the caller.
- Bouquet.StemScaleBounds: the bounds are stated only for heights in [0.05, 1] and a positive multiplier, the only values the generator passes.
