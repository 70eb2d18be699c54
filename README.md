# SFML-Simulation, modelled in Dafny

SFML-Simulation is a one-file real-time demo (`SFML-Simulation/Main.cpp`). A square
character walks along the bottom of an 1800 × 1000 window. It can aim, jump, cast
lightning bolts with Z and shoot flame particles with S. Burning flames spread
by spawning child particles. Almost all of `main()` is window handling, input polling
and drawing. This project models the bookkeeping inside the frame loop, with rendering,
clocks and randomness taken out. It also proves what that bookkeeping guarantees.

The model has one module per part of the frame:

- `Scene` holds the window size, the 2D vector `Vec` (exact real coordinates) and the
  per-frame key snapshot `Keys`.
- `Seqs` is the `std::remove_if` + `erase` cull. `Without` is its specification (a stable
  filter) and `RemoveIf` is the single-pass method.
- `Lightning` is the pool of ten bolt slots.
  - `FirstEmpty`, `SeedSlots`, `GrowBolt` and `Grown` specify seeding and growth.
  - The class `BoltPool` holds the slots as an `array` of point sequences, plus the flags
    `zUp` and `launched`. Its methods `ReadZ`, `Seed`, `Grow` and `Frame` are proved
    against those functions.
- `Player` is the horizontal controller. `NextX` and `NextAngle` specify it. The class
  `Character` holds `x`, the aiming angle and the jump flag. The Left branch computes its
  result from the position captured at the start of the frame. So with both arrows held
  the net move is one step left, and `x` can reach −1.
- `Particles` covers fuel and smoke particles.
  - The per-particle transition is `StepFuel`. The children a pass spawns are `Children`.
    The list after a tick is `NextFuel` (stepped particles, then children, then the cull).
    The smoke list after a tick is `NextSmoke`.
  - The counting loop `NumberOfNeighbors` and its specification `NeighborCount` are here too.
  - The class `Flames` holds the fuel list, the side buffer of spawned children and the
    smoke list. Its methods mirror the source's passes: `Shoot`, `UpdateFuel`,
    `MergeSpawned`, `UpdateSmoke`, `Cull` and `Tick`.
- `Simulation` composes one frame. The class `Game` runs the character step, then the
  lightning part (`Cast`: Z re-arming, seeding, growth), then the flame part (`Burn`:
  shooting, then the particle tick). Main.cpp interleaves these steps differently. It
  re-arms Z in the event loop (Main.cpp:266-274), before the character step
  (Main.cpp:292-335). It shoots (Main.cpp:388-395) after seeding (Main.cpp:352-368) and
  before growth (Main.cpp:399-431). The results are the same because the three parts
  touch separate state:
  - the character step changes only the character;
  - the lightning part changes only the bolt slots and their two flags;
  - the flame part changes only the particle lists.

  The lightning and flame parts both read the character's position from before the step.

Inputs the model takes as parameters:

- the key snapshot;
- whether the event loop handled an event this frame (`polled`);
- whether the landing test of the jump came out true this frame (`landed`);
- the character's vertical position;
- the `rndm()` draws (a subset type `Roll` of 0..20);
- the microsecond shooting gate;
- the directions the trigonometric formulas produce.

## Behaviour worth knowing

- `LightningLaunched` is set by the first Z press and never cleared (Main.cpp:354, 399).
  So from then on every frame grows the live bolts, whether or not Z is still held.
- Each growth coordinate adds `rndm() - 10`, and `rndm()` is uniform over 0..20
  inclusive (Main.cpp:18, 406). So without a bias key a step lies in −10..10 inclusive.
- While Space is held, Left and Right turn the aiming angle instead of moving the
  character (Main.cpp:299, 315).
- A jump starts in every frame where Up is held, Space is not, and no jump is under way
  (Main.cpp:328-335). The test reads whether the key is down, not whether it was just
  pressed.
- The shooting jitter `x`, `y` (Main.cpp:375-387) and the `offset` at Main.cpp:485 are
  computed and never read.
- `ZUp` is set only inside the event loop, when an event is handled while Z is not held
  (Main.cpp:266-274). The model's `polled` input says whether an event was handled this
  frame. Seeding is re-armed when `polled` holds and the key snapshot has Z up.
- Every spread child has a NaN direction component. A shot direction is 5·(cos θ, sin θ)
  (Main.cpp:393), so one of its components has magnitude at least 3.5 and the `acos` or
  `asin` at Main.cpp:486 is outside its domain; NaN then passes on to grandchildren. From
  a child's first burning tick its position is NaN (Main.cpp:489), so the neighbour count
  at Main.cpp:493 fails the distance test even for the particle itself: `n` is −1 there
  and the colour at Main.cpp:494 follows from that, and no one counts a moved child.
- No code creates a smoke particle: `Smoke`'s constructor (Main.cpp:39-48) is never
  called. The smoke list starts empty and stays empty. Its update and cull
  (Main.cpp:503-521) are modelled as written.

## Model

| member | source | states |
|---|---|---|
| `Seqs.Without` | SFML-Simulation/Main.cpp:515-521 | the culled list is no longer than the original and contains no element the predicate marks dead |
| `Seqs.WithoutConcat` | SFML-Simulation/Main.cpp:500-517 | culling a concatenation culls each part, so all survivors of the first part precede those of the second (relative order kept) |
| `Seqs.WithoutCounts` | SFML-Simulation/Main.cpp:515-521 | every value occurs in the result exactly as often as in the input if it is live and not at all if it is dead |
| `Seqs.WithoutMember` | SFML-Simulation/Main.cpp:515-521 | a value is in the result if and only if it was in the input and is not dead |
| `Seqs.WithoutNoneDead` | SFML-Simulation/Main.cpp:515-521 | a list with no dead element is left unchanged |
| `Seqs.RemoveIf` | SFML-Simulation/Main.cpp:515-521 | the one-pass remove-if returns exactly the stable filter of its input |
| `Lightning.FirstEmpty` | SFML-Simulation/Main.cpp:358-367 | returns an index exactly when some slot is empty; that slot is empty and every lower slot is occupied |
| `Lightning.SeedSlots` | SFML-Simulation/Main.cpp:356-367 | only the lowest-index empty slot becomes `[center]`; every other slot is unchanged; a full pool is unchanged |
| `Lightning.AxisStep` | SFML-Simulation/Main.cpp:406-415 | a per-axis step lies in −15..15, and in −10..10 when neither or both bias keys are held |
| `Lightning.Step` | SFML-Simulation/Main.cpp:405-416 | both components of a growth offset lie in −15..15 |
| `Lightning.GrowBolt` | SFML-Simulation/Main.cpp:405-428 | the bolt becomes empty if and only if the new point is outside [0,1800]×[0,1000], and it stays non-empty exactly when the new point lies in that closed rectangle, so a point on the border keeps the bolt alive; otherwise it ends with the new point; a bolt under 70 points gains it; a full bolt loses exactly its oldest point; the 70-point cap is kept |
| `Lightning.Grown` | SFML-Simulation/Main.cpp:399-431 | a growth frame keeps the number of slots and the 70-point cap and never extends an empty slot |
| `Lightning.GrownSlots` | SFML-Simulation/Main.cpp:399-431 | a growth frame keeps every slot within 70 points and never extends an empty slot; each live slot is either cleared (exactly when its new point leaves the window) or ends with its new point |
| `Lightning.SeededThenGrown` | SFML-Simulation/Main.cpp:352-431 | a slot seeded in a frame grows in the same frame: it ends as `[center, center + step]`, or empty if that step left the window |
| `Lightning.FrameSlots` | SFML-Simulation/Main.cpp:352-431 | one frame's lightning keeps the number of slots and the 70-point cap; before the first Z press, with Z not held, nothing changes |
| `Lightning.BoltPool.constructor` | SFML-Simulation/Main.cpp:146-151 | ten empty slots; seeding not armed; growth not launched |
| `Lightning.BoltPool.ReadZ` | SFML-Simulation/Main.cpp:266-274 | seeing Z released arms seeding; seeing it held leaves the flag as it was |
| `Lightning.BoltPool.Seed` | SFML-Simulation/Main.cpp:352-368 | launches growth for good; when armed, the slots become `SeedSlots` of the old slots and seeding is disarmed unless every slot was occupied; when not armed, nothing else changes |
| `Lightning.BoltPool.Grow` | SFML-Simulation/Main.cpp:399-431 | the slots become `Grown` of the old slots, and the 70-point cap still holds |
| `Lightning.BoltPool.Frame` | SFML-Simulation/Main.cpp:352-431 | seeding (when Z is held) precedes growth (once launched), so the slots become `FrameSlots`; the flags are updated accordingly |
| `Player.NextX` | SFML-Simulation/Main.cpp:292-327 | Space freezes x; Right alone moves +1 below 1760; Left alone moves −1 above 0; no arrow keeps x; every result stays in [−1, 1760] when x starts there |
| `Player.SingleKeyStaysInWindow` | SFML-Simulation/Main.cpp:297-322 | with one arrow held and no Space, x stays within [0, 1760] |
| `Player.BothKeysMoveLeft` | SFML-Simulation/Main.cpp:292-321 | with both arrows held and no Space, x in [0, 1760] becomes x − 1, because the Left branch builds from the stale start-of-frame position |
| `Player.BothKeysLeaveWindowAtZero` | SFML-Simulation/Main.cpp:313-321 | with both arrows held, x = 0 goes to −1, and −1 goes back to 0 |
| `Player.NextAngle` | SFML-Simulation/Main.cpp:297-327 | with Space held the angle turns by +0.01 for Right and −0.01 for Left (no net change with both, none with neither); without Space it is unchanged |
| `Player.Character.constructor` | SFML-Simulation/Main.cpp:121-188 | x starts at 900, the angle at 0, and no jump is under way |
| `Player.Character.Step` | SFML-Simulation/Main.cpp:292-345 | x and angle become `NextX` and `NextAngle` of the old state; a jump starts with Up and no Space, and a jump under way ends when the landing test holds; x stays in [−1, 1760] |
| `Particles.Emitted` | SFML-Simulation/Main.cpp:32 | a freshly emitted particle is sound, still igniting and not about to spawn, at the given position and moving in the given direction |
| `Particles.HasNoMaterial` | SFML-Simulation/Main.cpp:50-53 | a culled particle is unsound and would stay culled after another tick; a survivor whose spread is in [0, 1] and ignition ≥ 0 is sound |
| `Particles.RadiusBelowZero` | SFML-Simulation/Main.cpp:56-59 | culled smoke would stay culled after another tick |
| `Particles.Advance` | SFML-Simulation/Main.cpp:469-473 | the direction never changes; a non-negative force with a multiplier in [0, 1] stays non-negative and never grows, and neither does the multiplier |
| `Particles.Child` | SFML-Simulation/Main.cpp:486 | a child is sound, burning, not spawning and not culled in its birth tick; it starts at the parent's position, with the parent's force and multiplier and its own direction |
| `Particles.Volley` | SFML-Simulation/Main.cpp:391-395 | a shot emits three particles, each at the centre offset by its direction, still igniting and sound |
| `Particles.StepFuel` | SFML-Simulation/Main.cpp:464-492 | material never increases and ignition never decreases; igniting adds 0.1 to ignition and keeps material and spread; burning takes 0.01 of material, keeps ignition, and adds 0.03 to spread (or resets it to 0 when spawning, the test of lines 481-482); a particle that spawns in one tick cannot spawn in the next; spread stays in [0, 1]; motion advances |
| `Particles.Stepped` | SFML-Simulation/Main.cpp:462-499 | the pass keeps the list's length; no particle gains material or loses ignition; every sound particle keeps spread in [0, 1] and ignition ≥ 0 and loses at most 0.01 of material |
| `Particles.Children` | SFML-Simulation/Main.cpp:481-487 | a pass spawns one child per spawning particle, so at most one per particle; every child is born with material 0.5, ignition 1.0 and spread 0.0 |
| `Particles.NextFuel` | SFML-Simulation/Main.cpp:462-521 | the list after a tick is no longer than the old list plus its children, and every particle in it has material ≥ 0 |
| `Particles.NextFuelShape` | SFML-Simulation/Main.cpp:462-517 | the list after a tick is the surviving stepped particles in order, followed by every child in spawn order, unstepped and never culled in its birth tick |
| `Particles.NextFuelSound` | SFML-Simulation/Main.cpp:462-517 | a tick keeps every live particle with material ≥ 0, spread in [0, 1] and ignition ≥ 0 |
| `Particles.IgnitionRamp` | SFML-Simulation/Main.cpp:464-471 | a particle that starts at ignition 0 has ignition n/10 after n ≤ 10 ticks, keeps its material, and is igniting for exactly its first ten ticks |
| `Particles.StepSmoke` | SFML-Simulation/Main.cpp:503-508 | a smoke particle shrinks and rises and does not move sideways |
| `Particles.NextSmoke` | SFML-Simulation/Main.cpp:503-521 | the smoke list after a tick is no longer than before, and every survivor has radius ≥ 0 |
| `Particles.NextSmokeKeeps` | SFML-Simulation/Main.cpp:503-521 | a stepped smoke particle survives exactly when its radius is ≥ 0; every survivor is a stepped particle with radius ≥ 0 |
| `Particles.RootBelowTen` | SFML-Simulation/Main.cpp:66 | for the non-negative root of a squared distance, root < 10 if and only if the squared distance < 100, so the model's squared test is the source's test |
| `Particles.NeighborCount` | SFML-Simulation/Main.cpp:61-70 | the neighbour count is between 0 and the list's length |
| `Particles.NeighborCountSelf` | SFML-Simulation/Main.cpp:493 | a particle counts itself, so a count taken at a listed particle's (finite) position is at least 1 |
| `Particles.NumberOfNeighbors` | SFML-Simulation/Main.cpp:61-70 | the counting loop returns exactly the number of particles within distance 10 of the centre, between 0 and the list length |
| `Particles.UpdateParticle` | SFML-Simulation/Main.cpp:464-498 | the in-place field updates equal `StepFuel`; a child, inheriting position, force and multiplier, is produced exactly when the particle spawns |
| `Particles.Flames.constructor` | SFML-Simulation/Main.cpp:166-172 | all three lists start empty |
| `Particles.Flames.Shoot` | SFML-Simulation/Main.cpp:391-395 | the three particles of `Volley` are appended after the existing ones; nothing else changes |
| `Particles.Flames.UpdateFuel` | SFML-Simulation/Main.cpp:462-499 | the fuel list becomes `Stepped` of the old list; the children of the pass are appended to the side buffer in order |
| `Particles.Flames.MergeSpawned` | SFML-Simulation/Main.cpp:500-501 | the side buffer is appended to the fuel list and emptied |
| `Particles.Flames.UpdateSmoke` | SFML-Simulation/Main.cpp:503-512 | every smoke particle is replaced by its stepped value, in place |
| `Particles.Flames.Cull` | SFML-Simulation/Main.cpp:515-521 | fuel loses exactly the particles with material < 0, and smoke exactly those with radius < 0, order kept |
| `Particles.Flames.Tick` | SFML-Simulation/Main.cpp:462-521 | the fuel list becomes `NextFuel` and the smoke list `NextSmoke` of the old lists; every particle stays sound and the side buffer is empty again |
| `Simulation.Fired` | SFML-Simulation/Main.cpp:388-395 | a shot appends exactly three particles after the existing ones, which are left unchanged; without a shot the list is as it was |
| `Simulation.TruncToInt` | SFML-Simulation/Main.cpp:293-294 | float-to-int conversion drops the fractional part towards zero: the result is within 1 of the value, on the side of zero |
| `Simulation.Game.constructor` | SFML-Simulation/Main.cpp:121-172 | the character starts at x = 900 with angle 0 and no jump under way; all ten bolt slots are empty, seeding is not armed and growth is not launched; the fuel list, the side buffer and the smoke list are empty |
| `Simulation.Game.Cast` | SFML-Simulation/Main.cpp:266-431 | re-arming on a polled Z release, then the `FrameSlots` seeding and growth in the same slot array; growth is launched for good once Z is held; afterwards seeding is armed exactly when it was armed or re-armed by a polled release, except when Z is held and a slot was free to seed |
| `Simulation.Game.Burn` | SFML-Simulation/Main.cpp:388-521 | an optional volley, then one particle tick: fuel becomes `NextFuel` of the list with the volley appended |
| `Simulation.Game.Frame` | SFML-Simulation/Main.cpp:266-521 | one frame keeps the same slot array and moves the character as `NextX`/`NextAngle`; a jump starts with Up and no Space and ends when the landing test holds; bolts are seeded at the centre from before the move and grown as `FrameSlots`; the launched and armed flags change as in `Cast`; particles are shot from that centre truncated to whole units, then ticked |

## Left out

- Window, event queue, `isKeyPressed`, textures, transforms, drawing and colours
  (Main.cpp:114-201, 208-291, 433-460, 474-476, 494-497, 505-511, 524-529): foreign
  library I/O. The model takes a key snapshot and a `polled` flag instead.
- `gotoxy` (Main.cpp:75-81): Windows console API, unused.
- `rand()`, `srand`, the `mt19937` reseeding in `rndm()` (Main.cpp:93-102, 110, 386-387,
  445, 450, 485): randomness. The drawn values are parameters restricted to their range.
  The model gives every slot its own pair of draws, whereas the source draws only for
  occupied slots, in slot order. The draws are independent, so this only renames them.
- `sf::Clock` timing (Main.cpp:194-206, 355, 373, 388, 422, 442-451, 529): real time. The
  shooting delay is a boolean input, and `shootingTime` and the bolt size pulse are not
  modelled.
- `jump()` and the vertical position (Main.cpp:83-91, 338-351): floating-point projectile
  formula driven by a clock. The vertical position is an input to each frame. The landing
  test of Main.cpp:343 is also an input (`landed`); its effect, ending the jump, is
  modelled.
- The trigonometric directions (Main.cpp:393, 486): the shooting directions and the
  children's directions are inputs. Real-valued inputs cannot express the NaN components
  every child's direction has in the program. The list bookkeeping never reads positions,
  so this affects only the neighbour count at a child and the colour drawn from it.
- Floating-point rounding: positions, material, ignition, spread, force and the angle are
  exact reals.
- `Particles.IgnitionRamp`: holds for exact arithmetic only. In `double`, ten additions
  of 0.1 give 0.9999999999999999, so the program gives a particle an eleventh igniting
  tick. The real-valued model does not capture that. Lifetime differs the same way: in
  `double`, material 1.0 drops below 0 after 100 subtractions of 0.01 (about −7.5e-16),
  so the program culls a particle after its 100th burning tick, while exact reals reach
  exactly 0.0 there and the model culls it one tick later; children (material 0.5) are
  culled after 50 burning ticks in the program and 51 in the model.
- The neighbour count's use at Main.cpp:493-495 only sets a colour. The count is modelled
  by `NumberOfNeighbors` but its value is not stored. The in-pass aliasing (earlier
  particles already moved, later ones not) is therefore not modelled.
- `FLAME_MAX` reservations (Main.cpp:15, 168-172): capacity hints with no effect on
  behaviour.
- Variables that are set but never read (Main.cpp:112, 119, 153, 174-178, 190, 372,
  375-387, 495).
- Smoke creation: the source has no code path that creates smoke (`Smoke`'s constructor
  at Main.cpp:44-47 is never called), so none is modelled.
