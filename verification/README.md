# stardust particle engine — a Dafny model

This project models the interaction core of *stardust*, a canvas star
field. Five thousand particles drift on the page. Four of them are
"family" members: brighter planets that orbit a remembered base point.
Holding the pointer down attracts a few free particles each frame, and
only free ones. The attracting radius grows over ten seconds. Moving the
pointer while it is held flicks the attracted particles near it. A flicked
particle flies off with drag and edge bounces, then settles back to free.

Each particle follows the state machine `Free → Attracted → Flicked → Free`.
The model keeps the source's shape. Particles are objects (`class
Particle`) whose fields the update, attraction, flick and resize
operations change in place. The pointer record (`mouse`, `prevMouse`,
`isInteracting`, `interactionStartTime`) is a `class Pointer` whose
handler methods update it.

Each imperative operation is proved against a pure specification function
on the value of that state. `Snap` is the value of a particle and
`PointerState` the value of the pointer. The properties the program relies
on are then proved about those functions. These properties are:

- clamps, and the bounds they guarantee;
- the growing interaction radius;
- capped, index-ordered attraction;
- exactly which particles a flick launches, and how fast;
- the flicked step with bounce, drag and per-component settling;
- the velocity-is-zero-unless-flicked invariant;
- the pointer invariant: no interaction means a start time of 0.

Modules:

- `Geometry` (`geometry.dfy`) holds the constants, clamping,
  `constrainToCanvas`, `isPositionInBounds` and
  `getDynamicInteractionRadius`.
- `Particles` (`particles.dfy`) holds the particle object and
  `updateParticle`.
- `Attraction` (`attraction.dfy`) holds `attractParticles`.
- `Flick` (`flick.dfy`) holds `flickParticles`.
- `Interaction` (`interaction.dfy`) holds the pointer object and the
  mouse and touch handlers.
- `Simulation` (`simulation.dfy`) holds particle creation in `init`,
  `resizeCanvas` and one frame of `updateAndRender`.

Several values are inputs instead of being computed:

- `Math.random()` samples (`Draw`, `Seed`, `Spot`);
- the flick's random angle deviation, as its cosine and sine;
- the family orbit offset;
- `Date.now()`;
- the canvas box on the page (`Rect`);
- the visible viewport size and the device pixel ratio. `resizeCanvas`
  computes the canvas size (`Canvas`) from them, and the other operations
  take that canvas as an input.

In these places the model follows the code as written:

- A flicked particle settles when each velocity component is below 0.1
  in absolute value. The code does not compare the squared magnitude.
- Positions are not always inside the edge buffer. Attracted particles
  are not clamped. New and rescattered particles are drawn from `[0, W)`.
- The interaction radius is non-decreasing only on canvases at least 30
  logical pixels in both directions. On smaller canvases it shrinks from
  15 towards half the smaller side (`DynamicRadiusMonotone`).
- Attracted particles stay attracted when the interaction ends.
- During an interaction a touch move always flicks. This includes a
  touch that has just left the tolerance box and ended the interaction;
  the pointer did not move, so the launch velocity is zero
  (`TouchMoveSpec`, `StillFlickReleases`).
- A touch start is tested in physical pixels against the canvas widened
  by `TOUCH_BUFFER - EDGE_BUFFER` = 4 logical pixels, while the touch
  position update allows `TOUCH_BUFFER` = 5 (`TouchStartSpec`).
- Assigning `visibleWidth * dpr` to `canvas.width` truncates it to an
  integer. The logical canvas can therefore be up to `1/dpr` pixels
  smaller than the visible area and the canvas box (`ResizedSpec`).

## Model

| member | source | states |
|---|---|---|
| Geometry.Clamp | stardust.js:397-398 | `max(lo, min(v, hi))` is at least `lo`, at most `hi` when the bounds do not cross, equal to `v` when `v` is in range, and always one of `v`, `lo`, `hi` |
| Geometry.ClampIdempotent | stardust.js:397-398 | clamping twice is the same as clamping once |
| Geometry.ConstrainToCanvasSpec | stardust.js:224-228 | the constrained value is at least EDGE_BUFFER; it is at most `max/dpr - EDGE_BUFFER` when the logical extent is at least 2·EDGE_BUFFER; a value already inside is unchanged; a value below the buffer becomes EDGE_BUFFER |
| Geometry.ConstrainToCanvasIdempotent | stardust.js:224-228 | constraining twice equals constraining once |
| Geometry.PositionInBoundsSpec | stardust.js:214-222 | the bounds test accepts exactly the physical points within 4·dpr outside the canvas on each side |
| Geometry.CanvasPointsInBounds | stardust.js:214-222 | every physical point of the canvas passes the bounds test |
| Geometry.MaxRadius | stardust.js:279 | the maximum radius is non-negative, at most half of each logical dimension, and equal to half of one of them |
| Geometry.Progress | stardust.js:275-276 | progress lies in [0, 1] for non-negative elapsed time and is 1 from 10000 ms on |
| Geometry.LerpBetween | stardust.js:282 | for progress in [0, 1] the interpolated radius lies between the base and the maximum radius |
| Geometry.LerpMonotone | stardust.js:282 | the interpolation moves monotonically from the base value towards the end value as progress grows |
| Geometry.DynamicInteractionRadius | stardust.js:274-283 | the radius is 15 at elapsed 0 and half the smaller logical side from 10 s on; in between it lies between the two and is non-negative |
| Geometry.DynamicRadiusMonotone | stardust.js:274-283 | within one interaction the radius never decreases when half the smaller side is at least 15, and never increases otherwise |
| Geometry.DynamicRadiusScenario | stardust.js:274-283 | an 800×600 canvas held for 10 s has radius 300, whatever the device pixel ratio |
| Particles.Spawned | stardust.js:63-104 | a created particle is free, at rest, at the given position, and a family member is based at that position |
| Particles.Ease | stardust.js:382-390 | the attracted step covers a tenth of the way to the pointer, ends between the old position and the pointer, keeps state, velocity and brightness, and moves a family member's base point with it |
| Particles.EaseShrinksDistance | stardust.js:383-384 | the squared distance to the pointer becomes 0.81 times the old one, so the distance becomes 0.9 times |
| Particles.FlickAxisSpec | stardust.js:393-416 | on one axis the flicked position ends inside the edge buffer; the velocity becomes −0.98 times the old one when the position ends on an edge and 0.98 times otherwise; away from the edges the step is a plain move |
| Particles.FlickedStepSpec | stardust.js:391-422 | the flicked step keeps the position inside the edge buffer; it scales each velocity component by ±0.98, flipping the sign exactly when that coordinate is on an edge; the particle becomes free with velocity exactly zero iff both new components are below 0.1 in absolute value, and otherwise stays flicked; brightness is kept and a family member's base follows the position |
| Particles.FlickedStepUnbounced | stardust.js:393-416 | a flick that neither bounces nor settles advances the position by the velocity and scales the velocity by 0.98 |
| Particles.Drift | stardust.js:447-454 | a free regular star ends inside the edge buffer, moves at most 0.0025 per axis when it started inside, and keeps velocity, state and brightness |
| Particles.Orbit | stardust.js:435-446 | a free family member ends with its whole orbit radius inside the edge buffer and its base point plus offset equal to its position; when the orbit position is already inside, the base point does not move |
| Particles.Twinkle | stardust.js:457-461 | the brightness stays in [0, 1] and is the old brightness plus the random change whenever that is in range |
| Particles.StepKeepsAtRest | stardust.js:378-462 | an update keeps the invariant that a particle that is not flicked has velocity zero |
| Particles.StepTransitions | stardust.js:378-462 | an update keeps attracted particles attracted and free ones free; flicked ones stay flicked or become free |
| Particles.StepBrightness | stardust.js:457-461 | regular stars end with brightness in [0, 1]; family members never change brightness |
| Particles.StepBounds | stardust.js:378-462 | a free or flicked particle ends at least EDGE_BUFFER from the near edges; regular and flicked ones also end inside the far edges |
| Particles.Particle.constructor | stardust.js:62-104 | a new particle object has the given kind and the spawned state |
| Particles.Particle.Fly | stardust.js:391-422 | the flicked branch updates the object to the flicked step of its old state |
| Particles.Particle.Wander | stardust.js:423-455 | the free branch updates the object to the orbit of its old state for a family member, and to the drift for a regular star |
| Particles.Particle.Update | stardust.js:378-462 | `updateParticle` updates the object to the one-particle step of its old state on the logical canvas |
| Attraction.MaxParticlesToAttract | stardust.js:287 | the cap is the floor of count × 0.001 |
| Attraction.AttractionCap | stardust.js:287-291 | the cap is 5 for 5000 particles, and 0 (attract nothing) exactly when fewer than 1000 are configured |
| Attraction.BoxNeverRejects | stardust.js:307-318 | the bounding-box prefilter never rejects a particle the squared-distance test accepts |
| Attraction.AttractAt | stardust.js:302-322 | particle i is attracted iff it is free and in range and fewer than `cap` such particles come before it; only its state changes; every other particle is unchanged |
| Attraction.AttractOnlyFreeToAttracted | stardust.js:305-320 | the scan changes a particle only from free to attracted, and only if its squared distance to the pointer is at most radius² |
| Attraction.AttractChangedCount | stardust.js:302-322 | the scan changes exactly min(cap, number of eligible particles) particles |
| Attraction.AttractPrefix | stardust.js:302 | the scan of a prefix is the prefix of the scan |
| Attraction.AttractIndexOrder | stardust.js:302-321 | an eligible particle left unattracted means the cap was used up at smaller indices |
| Attraction.AttractAllWhenFew | stardust.js:302-321 | when at most `cap` particles are eligible, all of them are attracted |
| Attraction.AttractCapZero | stardust.js:291 | with a cap of zero nothing changes |
| Attraction.AttractKeepsAtRest | stardust.js:319 | attraction keeps the velocity invariant |
| Attraction.AttractScenario | stardust.js:285-323 | with 5000 free particles all in range, exactly 5 change |
| Attraction.TryAttract | stardust.js:303-321 | one loop iteration reports and performs the attraction exactly when the particle is eligible, and otherwise leaves it alone |
| Attraction.AttractParticles | stardust.js:285-323 | `attractParticles` changes the particle objects to the capped, index-ordered scan of their old states, with the dynamic radius for the elapsed time |
| Flick.LaunchGeometry | stardust.js:340-345 | the launch speed is 5 times the pointer speed (squared), and the launch direction deviates from the pointer's direction by exactly the random angle |
| Flick.LaunchStraight | stardust.js:340-345 | without deviation the launch velocity is 5 times the pointer velocity; a pointer that did not move launches with velocity zero |
| Flick.FlickOne | stardust.js:331-348 | a particle ends flicked iff it was flicked or it was attracted within 5 px; position, brightness and base are kept |
| Flick.FlickAllAt | stardust.js:331-348 | exactly the attracted particles within 5 px get the launch velocity with their own deviation and become flicked; every other particle is unchanged |
| Flick.FlickAllIdempotent | stardust.js:331-348 | after a flick no attracted particle is left within 5 px, so flicking again at the same position changes nothing |
| Flick.FlickAllKeepsAtRest | stardust.js:342-346 | the flick keeps the velocity invariant |
| Flick.FlickScenario | stardust.js:326-346 | a 10 px move to the right with no deviation launches the particle at (50, 0) |
| Flick.StillFlickReleases | stardust.js:339-346 | a flick with zero pointer velocity lets the particle settle as free on the next update, where it stands |
| Flick.FlickParticle | stardust.js:331-348 | one iteration sets the object to the one-particle flick of its old state |
| Flick.FlickParticles | stardust.js:325-349 | `flickParticles` changes the objects to the flick of their old states with the pointer velocity `mouse - prevMouse` |
| Interaction.TrackSpec | stardust.js:230-272 | a position update inside the tolerance box moves the pointer inside the edge buffer, exactly to the event position when that is inside, and keeps the interaction; outside the box it keeps the pointer and ends the interaction; prevMouse is untouched and the pointer invariant is kept |
| Interaction.HandlersKeepConsistent | stardust.js:158-212 | every handler keeps the invariant that no interaction means a start time of 0 |
| Interaction.MouseDownSpec | stardust.js:175-183 | mouse down always flicks and records the old position; the interaction has started at `now` iff the press lies on the canvas box; otherwise the pointer stays |
| Interaction.TouchStartSpec | stardust.js:158-174 | touch start flicks iff there is a touch and the first one lies within 4 logical px of the logical canvas; any other touch start changes nothing; a flicking start records the old position and starts an interaction at `now` on the constrained touch position when the touch lies in the tolerance box of the canvas box, and otherwise ends it at once without moving the pointer; the first case always holds on a canvas box at least the logical canvas size |
| Interaction.TouchBoundsTest | stardust.js:164-167 | the physical-pixel bounds test of a touch start accepts exactly the touches within 4 logical px of the logical canvas |
| Interaction.EndSpec | stardust.js:186-191 | mouse up or touch end ends the interaction, resets its start time and keeps the pointer position |
| Interaction.MouseMoveSpec | stardust.js:193-199 | a mouse move records the old position, flicks iff an interaction was on and the mouse is over the canvas, follows the mouse there, and ends the interaction off the canvas |
| Interaction.TouchMoveSpec | stardust.js:201-212 | a touch move flicks iff an interaction is on and there are touches; an empty touch list ends the interaction; with no interaction a move changes nothing; a flick after leaving the tolerance box has pointer velocity zero |
| Interaction.Pointer.constructor | stardust.js:20-23 | the pointer starts idle at the origin |
| Interaction.Pointer.UpdateMousePosition | stardust.js:230-244 | `updateMousePosition` changes the pointer to the mouse position update of its old state |
| Interaction.Pointer.UpdateTouchPosition | stardust.js:246-272 | `updateTouchPosition` changes the pointer to the touch position update of its old state |
| Interaction.Pointer.OnInteractionStart | stardust.js:158-184 | the pointer becomes the start outcome, and the particles are flicked exactly when that outcome flicks |
| Interaction.Pointer.StartTouch | stardust.js:160-174 | the touch branch of the start handler: the same, for touch events |
| Interaction.Pointer.StartMouse | stardust.js:175-183 | the mouse branch of the start handler always flicks |
| Interaction.Pointer.OnInteractionEnd | stardust.js:186-191 | the pointer becomes the end outcome |
| Interaction.Pointer.OnMouseMove | stardust.js:193-199 | the pointer becomes the mouse move outcome, and the particles are flicked exactly when that outcome flicks |
| Interaction.Pointer.OnTouchMove | stardust.js:201-212 | the pointer becomes the touch move outcome, and the particles are flicked exactly when that outcome flicks |
| Interaction.Pointer.DragTouch | stardust.js:202-206 | the branch taken during an interaction with touches: the pointer becomes the touch move outcome, that outcome flicks, and the particles are flicked around the new position |
| Simulation.NewbornSpec | stardust.js:62-105 | a new particle is free, at rest and on the logical canvas; a family member has brightness 1, an orbit radius in [2, 5) and its base at its position; a regular star has a brightness in [0, 1) |
| Simulation.CreateParticles | stardust.js:57-105 | `init` creates 5000 distinct fresh particles: first the 4 family members, also listed in `family`, then the regular stars, each from its own seed |
| Simulation.ResizedSpec | stardust.js:129-130 | the resized canvas is valid; its physical size is the visible size times dpr truncated to an integer, so its logical size lies in (visible − 1/dpr, visible] |
| Simulation.ScatterAllSpec | stardust.js:144-155 | after a resize every particle is free and at rest and keeps its brightness; family members are based at their new position; with unit samples each position lies in [0, W] × [0, H], and below W (H) whenever W (H) is positive |
| Simulation.ResizeCanvas | stardust.js:121-156 | `resizeCanvas` returns the canvas of the truncated physical size and scatters every particle object over the visible area |
| Simulation.TickKeepsAtRest | stardust.js:351-376 | a whole frame keeps the velocity invariant of every particle |
| Simulation.TickStates | stardust.js:351-376 | in a frame attracted particles stay attracted; without an interaction no particle becomes attracted; at most 5 particles change state in the attraction query |
| Simulation.TickBrightness | stardust.js:351-376 | in a frame regular stars keep their brightness in [0, 1] and family members keep theirs |
| Simulation.UpdateStars | stardust.js:355-362 | the first pass updates every regular star and leaves the family members alone |
| Simulation.UpdateFamily | stardust.js:364-368 | the second pass updates every family member and leaves the regular stars alone |
| Simulation.UpdatePasses | stardust.js:355-368 | after both passes every particle has been updated exactly once, with its own draws |
| Simulation.UpdateAndRender | stardust.js:351-376 | `updateAndRender` changes the particle objects to the frame of their old states: every particle updated, then the attraction query while the pointer is held |

## Left out

- Canvas and DOM plumbing is not modelled. This covers `getElementById`, `getContext`, the viewport and device pixel ratio lookup, `setTransform`/`scale`, CSS sizes, listener registration, `preventDefault` and console logging. The visible viewport size, device pixel ratio and canvas box are inputs.
- `drawParticle` and the colour parse it uses are pure rendering and are left out. `updateAndRender` is modelled without drawing or clearing.
- The `requestAnimationFrame` loop is not modelled; `UpdateAndRender` is one frame.
- The family phase arithmetic (`orbitPhase`, `pulsePhase`, `colorPulsePhase` and their speeds) and its trigonometry are left out. The orbit offset is an input of each update, and only the clamp and base reset that follow it are modelled. The pulse and colour phases only feed drawing.
- Flick.Launch: the random deviation `(Math.random() - 0.5)·π/9` is taken as its cosine and sine. They are assumed to form a unit vector; the model does not require that the angle lies within ±π/18.
- `Math.random()`, `Date.now()`, `Math.atan2`, `cos`, `sin` and `sqrt` are not computed: their results are inputs, or are avoided through squared distances and the rotation form of the launch velocity.
- IEEE floating-point rounding is not modelled; all coordinates are exact reals.
- The global `interactionRadius` is left out. It is written at lines 141 and 190 but never read; the query uses the dynamic radius.
- Simulation.CreateParticles: a family member's `name` is modelled by its `Kind` (`Family`), and its orbit radius is modelled. `orbitPhase` and `orbitSpeed` are not: they only feed the orbit offset, which every update takes as an input. The pulse and colour-pulse phases, speeds and amplitudes, the colour and the glow intensity are not modelled; they only affect drawing.
- The particle list is a sequence of objects that is built once by `init`. The array's own identity and later growth play no part, since the source never resizes it after start-up.
