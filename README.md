# Teleport locomotion of a VR character

This project models the teleport locomotion of the VR character `AVRCharacter`
(VRCharacter.cpp) and proves properties of the model in Dafny. It covers four parts:

- **Per-frame recentring.** Every frame the character's body is put back under the
  head-tracked camera. The body moves by the camera's horizontal offset from it.
  `VRRoot`, the component that carries the camera and the motion controllers, moves
  by the opposite amount.
- **Destination search.** A projectile is launched from the right motion controller.
  On a hit, every point of its predicted path is collected, and the hit point is
  projected onto the navigation mesh.
- **Marker and arc drawing.** The destination marker is shown at the projected point
  only when both steps succeed. Otherwise the marker is hidden and an empty arc is
  drawn. The arc is a spline rebuilt from the path, and a pool of spline-mesh
  segments draws it. The pool only grows. Its entries are hidden and reused, never
  destroyed.
- **The teleport sequence.** `BeginTeleport` fades the camera out and arms a timer.
  When that timer fires, `EndTeleport` moves the body to the marker, raised by the
  capsule's half-height, and fades back in.

Files:

- `option.dfy`: module `Optional`, the `Option` type used for query answers.
- `vectors.dfy`: module `Vectors`. `Vec3` stands in for `FVector` and uses exact real
  components.
- `segment_pool.dfy`: module `SegmentPool`, a value-level specification of the
  segment pool.
  - `Drawn` follows the drawing code step by step: hide every entry, then for each
    segment index create the entry if it is missing, show it and bind it.
  - The lemmas state what that amounts to (`DrawnShape`, `DrawnUnique`).
  - `Peak` is the largest segment count in a history of draws.
- `vr_character.dfy`: module `Locomotion`.
  - `Recentre` is the pure form of the per-frame recentring.
  - Class `SplineMesh` is one pooled segment component. Object identity is what
    "reused, not recreated" refers to.
  - Class `VRCharacter` holds the character's state. Its methods correspond to the
    source's member functions.

How the state is represented:

- The scene hierarchy is a set of translations. The actor has a world location.
  `VRRoot` is stored relative to the actor. The camera and the right controller are
  stored relative to `VRRoot`. The destination marker is attached to the actor, as
  in the source.
- Three engine services become inputs to the methods. The projectile prediction is a
  total function from launch parameters to a result. The navigation-mesh query is a
  total function from a point and a tolerance extent to an optional point.
  Tracking is the third: the camera and controller offsets, the controller forward
  vector, the actor's up vector and the presence of a player controller are fields
  that the environment writes.
- A camera fade is recorded by appending a `Fade` event. An armed timer is a
  `PendingTimer` entry in a FIFO queue. `FireTimer` consumes the oldest entry and
  runs `EndTeleport`.

The class invariant `Valid()` says four things:

- entry `i` of the pool is the object created for index `i`, so no entry occurs twice;
- the pool holds exactly as many entries as the longest arc ever drawn needed;
- every entry carries the arc mesh and the arc material;
- a visible entry `i` is bound to spline points `i` and `i + 1`, and both exist.

Where the code and the system's design description disagree, the model follows the code:

- **Relocation without a destination.** The design says there is no relocation
  without a valid destination, and at most one teleport session at a time. The code
  has no guard. `EndTeleport` reads the marker's current location even when the
  marker is hidden. Each `BeginTeleport` arms another timer, and each fired timer
  relocates the body again.
- **A hidden marker moves with the body.** The marker is attached to the actor
  (VRCharacter.cpp:45). While it is hidden, the recentring in `Tick` carries it
  along with the body, and `EndTeleport` then uses that shifted location. `Tick`'s
  contract states this.
- **No arc when projection fails.** The design says that in projectile mode a failed
  navigation-mesh projection still renders the arc. The code draws the empty path
  whenever no destination is found (VRCharacter.cpp:122-128). The design also
  describes a straight-ray targeting mode, which the code does not have.

## Model

| member | source | states |
|---|---|---|
| Locomotion.Recentre | ArchitectureTutorial/Source/ArchitectureTutorial/Private/VRCharacter.cpp:71-74 | The actor's new X and Y are the camera's world X and Y, and its Z is unchanged. `VRRoot` moves relative to the actor by the opposite of the actor's move. The camera's and the right controller's world positions are unchanged. |
| Locomotion.RecentreIdempotent | ArchitectureTutorial/Source/ArchitectureTutorial/Private/VRCharacter.cpp:71-74 | A second recentring with the head not moved changes nothing. |
| SegmentPool.BindFromShape | ArchitectureTutorial/Source/ArchitectureTutorial/Private/VRCharacter.cpp:152-177 | The segment loop run from index `i` to `n` on a pool of at least `i` entries leaves max(size, n) entries. Entries below `i` are unchanged, entries `i..n-1` are visible and bound to points `j` and `j+1`, and entries at or beyond both `i` and `n` are untouched. Proved by induction over the loop. |
| SegmentPool.DrawnShape | ArchitectureTutorial/Source/ArchitectureTutorial/Private/VRCharacter.cpp:147-177 | After drawing `n` segments the pool holds max(old size, n) entries. An entry is visible iff its index is below `n`. Visible entries are bound to their point pair. Hidden entries keep their old binding. |
| SegmentPool.DrawnUnique | ArchitectureTutorial/Source/ArchitectureTutorial/Private/VRCharacter.cpp:147-177 | The converse of DrawnShape: any pool with that size, visibility and binding is exactly the drawn pool. |
| SegmentPool.DrawnShortArc | ArchitectureTutorial/Source/ArchitectureTutorial/Private/VRCharacter.cpp:147-153 | A path with fewer than two points hides every entry and leaves the pool's size unchanged. |
| SegmentPool.DrawnIdempotent | ArchitectureTutorial/Source/ArchitectureTutorial/Private/VRCharacter.cpp:143-177 | Drawing the same arc twice in a row gives the same pool as drawing it once. |
| SegmentPool.DrawnLongerArc | ArchitectureTutorial/Source/ArchitectureTutorial/Private/VRCharacter.cpp:152-169 | Drawing n2 segments after n1 < n2 leaves max(size, n2) entries, and every entry below n2 is visible and bound to its point pair. |
| SegmentPool.PeakAppend | ArchitectureTutorial/Source/ArchitectureTutorial/Private/VRCharacter.cpp:152-166 | The largest segment count of a history extended by one draw is the maximum of the old largest count and the new count. `Valid()` uses this to keep the pool size equal to the largest count ever drawn. |
| SegmentPool.PeakBounds | ArchitectureTutorial/Source/ArchitectureTutorial/Private/VRCharacter.cpp:152-166 | No draw in the history needed more segments than `Peak`, and `Peak` is either 0 or the count of some draw. |
| Locomotion.SplineMesh.constructor | ArchitectureTutorial/Source/ArchitectureTutorial/Private/VRCharacter.cpp:158-163 | A new pool entry is configured once at creation: movable, attached to the spline, given the arc mesh and material, registered, visible and not yet bound. It also records the index it was created for. |
| Locomotion.VRCharacter.constructor | ArchitectureTutorial/Source/ArchitectureTutorial/Private/VRCharacter.cpp:52-56 | After play begins the marker is hidden, the spline and the pool are empty, and no fade or timer has been issued. The invariant holds. |
| Locomotion.VRCharacter.Tick | ArchitectureTutorial/Source/ArchitectureTutorial/Private/VRCharacter.cpp:67-76 | The rig becomes `Recentre` of the old rig, so the camera's world position and the launch parameters are unchanged. The marker and the arc are then updated as in UpdateDestinationMarker. A marker left hidden moves with the body by the body's displacement. |
| Locomotion.VRCharacter.FindTeleportDestination | ArchitectureTutorial/Source/ArchitectureTutorial/Private/VRCharacter.cpp:81-107 | On a projectile miss it returns false and leaves the path buffer unchanged. On a hit it appends every predicted path location in order. It returns true iff there was a hit and the navigation-mesh projection of the hit point succeeded. The location is written only when it returns true, and it is then the projected point. |
| Locomotion.VRCharacter.UpdateDestinationMarker | ArchitectureTutorial/Source/ArchitectureTutorial/Private/VRCharacter.cpp:109-129 | The marker is visible iff a destination was found. It then sits at that destination, and the spline holds the predicted path. Otherwise the marker keeps its offset and the empty path is drawn, even after a hit. The pool becomes `Drawn` of the old pool, and existing entries keep their identity. |
| Locomotion.VRCharacter.DrawTeleportPath | ArchitectureTutorial/Source/ArchitectureTutorial/Private/VRCharacter.cpp:143-178 | The spline holds exactly the path's points. The pool's size is max(old size, points - 1). The old entries are the same objects in the same order, and only fresh entries are appended. The pool's view is `Drawn(old view, points - 1)`. The invariant holds, including "pool size = largest segment count ever drawn". |
| Locomotion.VRCharacter.PoolDrawnEntries | ArchitectureTutorial/Source/ArchitectureTutorial/Private/VRCharacter.cpp:147-174 | Read entry by entry, a drawn pool has entry `i` visible iff `i` is below the segment count. Visible entries are bound to spline points `i` and `i+1`. Hidden old entries keep their binding. |
| Locomotion.VRCharacter.HidePool | ArchitectureTutorial/Source/ArchitectureTutorial/Private/VRCharacter.cpp:147-150 | Every pool entry is hidden and nothing else about the entries changes. |
| Locomotion.VRCharacter.ShowSegment | ArchitectureTutorial/Source/ArchitectureTutorial/Private/VRCharacter.cpp:156-174 | Entry `i` is created only when the pool is too short for it, and only by appending. It is then shown and bound to points `i` and `i+1`. No other entry changes. |
| Locomotion.VRCharacter.UpdateSpline | ArchitectureTutorial/Source/ArchitectureTutorial/Private/VRCharacter.cpp:180-191 | The spline's points are cleared and replaced by the path's points, in order. |
| Locomotion.VRCharacter.BeginTeleport | ArchitectureTutorial/Source/ArchitectureTutorial/Private/VRCharacter.cpp:252-258 | Issues one fade from 0 to 1 when a player controller exists. Appends one pending EndTeleport timer with the fade time. Earlier timers are not cancelled. |
| Locomotion.VRCharacter.FireTimer | ArchitectureTutorial/Source/ArchitectureTutorial/Private/VRCharacter.cpp:256-257 | When a timer is armed, the oldest one is consumed and EndTeleport runs. With no timer armed, nothing changes. |
| Locomotion.VRCharacter.EndTeleport | ArchitectureTutorial/Source/ArchitectureTutorial/Private/VRCharacter.cpp:260-266 | The actor moves to the marker's current world location plus the capsule half-height times the up vector, whether or not the marker is visible. Then one fade from 1 to 0 is issued when a player controller exists. |
| Locomotion.VRCharacter.StartFade | ArchitectureTutorial/Source/ArchitectureTutorial/Private/VRCharacter.cpp:268-275 | Appends one fade with the given alphas and the fade time iff a player controller exists. |

## Left out

- Construction and wiring: the constructor's component creation, the blinker material
  setup in `BeginPlay`, input binding, `MoveForward` and `TurnRight`. These are engine
  set-up and input plumbing. Only the marker being hidden at `BeginPlay` is kept, as
  the initial state.
- `UpdateBlinkers` and `GetBlinkerCenter`: screen-space float projection through the
  player controller. The call to them is commented out in `Tick`.
- Projectile prediction and navigation-mesh projection are oracle inputs, not physics.
  The trace-complex flag, the collision channel and the ignored actor are not modelled.
- Spline geometry is not modelled:
  - path points are stored as given, without the world-to-local transform;
  - spline tangents are not computed;
  - a segment records only the pair of spline point indices its start and end come
    from, not their positions and tangents.
- Rotations are not modelled. All offsets are world-axis translations. The controller's
  forward vector and the actor's up vector are inputs.
- Floating-point rounding: vectors use exact reals.
- The 32-bit width of the segment count: path sizes are unbounded integers.
- Timer-manager internals: timers with equal delays are taken to fire in arming order.
  The engine's treatment of a non-positive delay is not modelled.
- Fade rendering: the fade colour (always black) is not recorded.
- The runtime controller cast is a boolean field.
- `Tick`'s delta time is unused by the modelled code and is not a parameter.
- The uninitialised `Location` in `UpdateDestinationMarker` is modelled as the zero
  vector. It is read only when a destination is found, and it is overwritten then.
- VRCharacter.h is not part of this model: it holds declarations only and is out of
  date relative to the .cpp. ArchitectureTutorial.Target.cs is build configuration.
