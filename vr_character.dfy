/**
 * Teleport locomotion of the VR character (AVRCharacter).
 *
 * The character is a class whose fields are the positions and render
 * state the engine keeps in its components: the actor, the VRRoot scene
 * component, the head-tracked camera and the right motion controller
 * (all as translations; rotations are not modelled), the destination
 * marker, the teleport spline and the pool of spline-mesh segments, the
 * camera fades issued and the teleport timers armed.
 *
 * The engine services the code calls become inputs: the projectile path
 * prediction is a function from launch parameters to a result, the
 * navigation-mesh projection a function from a point and a tolerance
 * extent to an optional projected point.
 */
module Locomotion {
  import opened Optional
  import opened Vectors
  import opened SegmentPool

  /** Identifies an asset (a static mesh or a material). */
  type AssetId = nat

  /** One sample of a predicted projectile path. */
  datatype PathPoint = PathPoint(location: Vec3, velocity: Vec3, time: real)

  /** What the projectile prediction is asked. */
  datatype PredictParams = PredictParams(
    projectileRadius: real, startLocation: Vec3, launchVelocity: Vec3, maxSimTime: real)

  /** What the projectile prediction answers: whether it hit, the sampled
      path, and where it hit. */
  datatype PredictResult = PredictResult(hit: bool, pathData: seq<PathPoint>, hitLocation: Vec3)

  /** The editor-exposed tunables the teleport code reads. */
  datatype TeleportConfig = TeleportConfig(
    projectileRadius: real,
    projectileSpeed: real,
    simTime: real,
    projectionExtent: Vec3,
    fadeTime: real,
    capsuleHalfHeight: real,
    arcMesh: AssetId,
    arcMaterial: AssetId)

  /** A camera fade to black issued to the player camera manager. */
  datatype Fade = Fade(fromAlpha: real, toAlpha: real, duration: real)

  /** A one-shot timer that calls EndTeleport after `delay` seconds. */
  datatype PendingTimer = EndTeleportTimer(delay: real)

  /** The translations of the tracked rig: the actor's world location,
      VRRoot relative to the actor, and the camera and the right controller
      relative to VRRoot. */
  datatype Rig = Rig(actor: Vec3, vrRoot: Vec3, camera: Vec3, rightController: Vec3)

  function CameraWorld(r: Rig): Vec3 {
    Add(Add(r.actor, r.vrRoot), r.camera)
  }

  function ControllerWorld(r: Rig): Vec3 {
    Add(Add(r.actor, r.vrRoot), r.rightController)
  }

  /** The per-frame reconciliation: the actor moves by the horizontal part
      of the camera's offset from it, and VRRoot by the opposite amount. */
  function Recentre(r: Rig): (r': Rig)
    ensures r'.actor == Vec3(CameraWorld(r).x, CameraWorld(r).y, r.actor.z)
    ensures Add(r'.vrRoot, Sub(r'.actor, r.actor)) == r.vrRoot
    ensures CameraWorld(r') == CameraWorld(r)
    ensures ControllerWorld(r') == ControllerWorld(r)
    ensures r'.camera == r.camera && r'.rightController == r.rightController
  {
    var offset := Horizontal(Sub(CameraWorld(r), r.actor));
    Rig(Add(r.actor, offset), Add(r.vrRoot, Neg(offset)), r.camera, r.rightController)
  }

  /** A second reconciliation with the head not moved changes nothing. */
  lemma RecentreIdempotent(r: Rig)
    ensures Recentre(Recentre(r)) == Recentre(r)
  {
  }

  /** The locations of a predicted path, in order. */
  function Locations(points: seq<PathPoint>): seq<Vec3> {
    seq(|points|, i requires 0 <= i < |points| => points[i].location)
  }

  /** The destination a prediction leads to: none on a miss, otherwise
      whatever the navigation mesh makes of the hit location. */
  function Destination(res: PredictResult, navMesh: (Vec3, Vec3) -> Option<Vec3>, extent: Vec3): Option<Vec3> {
    if res.hit then navMesh(res.hitLocation, extent) else None
  }

  /** Where EndTeleport puts the actor: the marker raised by the capsule's
      half-height along the actor's up vector. */
  function TeleportTarget(marker: Vec3, halfHeight: real, up: Vec3): Vec3 {
    Add(marker, Scale(halfHeight, up))
  }

  /** One pooled spline-mesh component drawing a segment of the arc. */
  class SplineMesh {
    /** The pool index the entry was created for. */
    ghost const slot: nat
    var movable: bool
    var attachedToPath: bool
    var staticMesh: AssetId
    var material: AssetId
    var registered: bool
    var visible: bool
    var binding: Binding

    /** The one-time configuration every pool entry receives at creation. */
    ghost predicate Configured(mesh: AssetId, mat: AssetId)
      reads this
    {
      movable && attachedToPath && registered && staticMesh == mesh && material == mat
    }

    ghost function View(): SegmentView
      reads this
    {
      SegmentView(visible, binding)
    }

    /** Creation of a new pool entry: a movable component attached to the
        teleport spline, given the arc mesh and material, and registered. */
    constructor (ghost slot: nat, mesh: AssetId, mat: AssetId)
      ensures this.slot == slot
      ensures Configured(mesh, mat)
      ensures View() == Created
    {
      this.slot := slot;
      movable := true;
      attachedToPath := true;
      staticMesh := mesh;
      material := mat;
      registered := true;
      visible := true;
      binding := Unbound;
    }
  }

  class VRCharacter {
    const config: TeleportConfig

    // Inputs the engine and the tracking hardware provide.
    var hasPlayerController: bool
    var actorUp: Vec3
    var controllerForward: Vec3
    var cameraOffset: Vec3
    var controllerOffset: Vec3

    // Positions the character changes.
    var actorLocation: Vec3
    var vrRootOffset: Vec3

    // The destination marker, attached to the actor.
    var markerVisible: bool
    var markerOffset: Vec3

    // The teleport arc: spline points and the segment pool.
    var splinePoints: seq<Vec3>
    var meshPool: seq<SplineMesh>
    /** The segment count of every arc drawn so far. */
    ghost var segmentHistory: seq<int>

    // Camera fades issued, and EndTeleport timers armed and not yet fired.
    var fades: seq<Fade>
    var pendingTimers: seq<PendingTimer>

    ghost function PoolSet(): set<SplineMesh>
      reads this`meshPool
    {
      set m | m in meshPool
    }

    /** The pool's entries are distinct, the pool holds as many entries as
        the longest arc ever drawn needed, every entry carries the arc mesh
        and material, and a visible entry `i` spans spline points `i` and
        `i + 1`, both present. */
    ghost predicate Valid()
      reads this`meshPool, this`segmentHistory, this`splinePoints, PoolSet()
    {
      && Distinct()
      && |meshPool| == Peak(segmentHistory)
      && AllConfigured()
      && (forall i :: 0 <= i < |meshPool| && meshPool[i].visible ==>
            meshPool[i].binding == Bound(i, i + 1) && i + 1 < |splinePoints|)
    }

    /** Entry `i` is the one created for index `i`; so no entry occurs twice. */
    ghost predicate Distinct()
      reads this`meshPool
    {
      forall i :: 0 <= i < |meshPool| ==> meshPool[i].slot == i
    }

    ghost predicate AllConfigured()
      reads this`meshPool, PoolSet()
    {
      forall i :: 0 <= i < |meshPool| ==> meshPool[i].Configured(config.arcMesh, config.arcMaterial)
    }

    ghost function PoolView(): seq<SegmentView>
      reads this`meshPool, PoolSet()
    {
      var pool := meshPool;
      seq(|pool|, i requires 0 <= i < |pool| reads pool => pool[i].View())
    }

    function Pose(): Rig
      reads this`actorLocation, this`vrRootOffset, this`cameraOffset, this`controllerOffset
    {
      Rig(actorLocation, vrRootOffset, cameraOffset, controllerOffset)
    }

    function MarkerWorld(): Vec3
      reads this`actorLocation, this`markerOffset
    {
      Add(actorLocation, markerOffset)
    }

    /** The projectile launched from the right controller along its
        forward vector at the configured speed. */
    function LaunchParams(): PredictParams
      reads this`actorLocation, this`vrRootOffset, this`cameraOffset, this`controllerOffset
      reads this`controllerForward
    {
      PredictParams(config.projectileRadius, ControllerWorld(Pose()),
                    Scale(config.projectileSpeed, controllerForward), config.simTime)
    }

    /** The fade StartFade issues: one, when a player controller exists. */
    ghost function FadeIssued(fromAlpha: real, toAlpha: real): seq<Fade>
      reads this`hasPlayerController
    {
      if hasPlayerController then [Fade(fromAlpha, toAlpha, config.fadeTime)] else []
    }

    /** The character as it is once play has begun: the marker hidden, no
        arc drawn, nothing faded, no timer armed. */
    constructor (config: TeleportConfig, start: Rig, forward: Vec3, up: Vec3, hasPlayerController: bool)
      ensures Valid()
      ensures this.config == config && Pose() == start
      ensures controllerForward == forward && actorUp == up
      ensures this.hasPlayerController == hasPlayerController
      ensures !markerVisible && splinePoints == [] && meshPool == []
      ensures fades == [] && pendingTimers == []
    {
      this.config := config;
      this.hasPlayerController := hasPlayerController;
      actorUp := up;
      controllerForward := forward;
      actorLocation := start.actor;
      vrRootOffset := start.vrRoot;
      cameraOffset := start.camera;
      controllerOffset := start.rightController;
      markerVisible := false;
      markerOffset := Zero;
      splinePoints := [];
      meshPool := [];
      segmentHistory := [];
      fades := [];
      pendingTimers := [];
    }

    /** Per frame: recentre the actor under the camera, then retarget. */
    method Tick(predict: PredictParams -> PredictResult, navMesh: (Vec3, Vec3) -> Option<Vec3>)
      requires Valid()
      modifies this`actorLocation, this`vrRootOffset, this`markerVisible, this`markerOffset
      modifies this`splinePoints, this`meshPool, this`segmentHistory, PoolSet()
      ensures Valid()
      ensures Pose() == Recentre(old(Pose()))
      ensures LaunchParams() == old(LaunchParams())
      ensures var res := predict(LaunchParams());
              var dest := Destination(res, navMesh, config.projectionExtent);
              && markerVisible == dest.Some?
              && (dest.Some? ==> MarkerWorld() == dest.value && splinePoints == Locations(res.pathData))
              && (dest.None? ==> markerOffset == old(markerOffset) && splinePoints == [])
      ensures !markerVisible ==>
                MarkerWorld() == Add(old(MarkerWorld()), Sub(actorLocation, old(actorLocation)))
      ensures PoolView() == Drawn(old(PoolView()), |splinePoints| - 1)
      ensures old(|meshPool|) <= |meshPool| && meshPool[..old(|meshPool|)] == old(meshPool)
      ensures forall i :: old(|meshPool|) <= i < |meshPool| ==> fresh(meshPool[i])
    {
      var newCameraOffset := Sub(CameraWorld(Pose()), actorLocation);
      newCameraOffset := newCameraOffset.(z := 0.0);
      actorLocation := Add(actorLocation, newCameraOffset);
      vrRootOffset := Add(vrRootOffset, Neg(newCameraOffset));

      UpdateDestinationMarker(predict, navMesh);
    }

    /** Ask the prediction for an arc and the navigation mesh for a landing
        point. `outPath` and `outLocation` are the caller's buffers. */
    method FindTeleportDestination(
      outPath: seq<Vec3>, outLocation: Vec3,
      predict: PredictParams -> PredictResult, navMesh: (Vec3, Vec3) -> Option<Vec3>)
      returns (found: bool, path: seq<Vec3>, location: Vec3)
      ensures var res := predict(LaunchParams());
              var projected := navMesh(res.hitLocation, config.projectionExtent);
              && (!res.hit ==> !found && path == outPath)
              && (res.hit ==> path == outPath + Locations(res.pathData))
              && (found <==> res.hit && projected.Some?)
              && (found ==> location == projected.value)
              && (!found ==> location == outLocation)
    {
      var results := predict(LaunchParams());
      path, location := outPath, outLocation;
      if !results.hit {
        return false, path, location;
      }

      for k := 0 to |results.pathData|
        invariant |path| == |outPath| + k
        invariant path[..|outPath|] == outPath
        invariant forall j :: 0 <= j < k ==> path[|outPath| + j] == results.pathData[j].location
      {
        path := path + [results.pathData[k].location];
      }
      assert path == outPath + Locations(results.pathData) by {
        assert path[..|outPath|] == outPath;
        forall j | |outPath| <= j < |path|
          ensures path[j] == (outPath + Locations(results.pathData))[j]
        {
          assert path[|outPath| + (j - |outPath|)] == results.pathData[j - |outPath|].location;
        }
      }

      var navLocation := navMesh(results.hitLocation, config.projectionExtent);
      if navLocation.None? {
        return false, path, location;
      }
      location := navLocation.value;
      return true, path, location;
    }

    /** Show the marker at the destination and draw its arc, or hide the
        marker and draw the empty path. */
    method UpdateDestinationMarker(predict: PredictParams -> PredictResult, navMesh: (Vec3, Vec3) -> Option<Vec3>)
      requires Valid()
      modifies this`markerVisible, this`markerOffset
      modifies this`splinePoints, this`meshPool, this`segmentHistory, PoolSet()
      ensures Valid()
      ensures var res := predict(LaunchParams());
              var dest := Destination(res, navMesh, config.projectionExtent);
              && markerVisible == dest.Some?
              && (dest.Some? ==> MarkerWorld() == dest.value && splinePoints == Locations(res.pathData))
              && (dest.None? ==> markerOffset == old(markerOffset) && splinePoints == [])
      ensures PoolView() == Drawn(old(PoolView()), |splinePoints| - 1)
      ensures old(|meshPool|) <= |meshPool| && meshPool[..old(|meshPool|)] == old(meshPool)
      ensures forall i :: old(|meshPool|) <= i < |meshPool| ==> fresh(meshPool[i])
    {
      var hasDestination, path, location := FindTeleportDestination([], Zero, predict, navMesh);

      if hasDestination {
        markerVisible := true;
        markerOffset := Sub(location, actorLocation);
        DrawTeleportPath(path);
      } else {
        markerVisible := false;
        DrawTeleportPath([]);
      }
    }

    /** Rebuild the spline from `path`, hide every pooled segment, then for
        each segment index create the entry if missing, show it and bind it
        to spline points `i` and `i + 1`. */
    method DrawTeleportPath(path: seq<Vec3>)
      requires Valid()
      modifies this`splinePoints, this`meshPool, this`segmentHistory, PoolSet()
      ensures Valid()
      ensures splinePoints == path
      ensures |meshPool| == Max(old(|meshPool|), |path| - 1)
      ensures meshPool[..old(|meshPool|)] == old(meshPool)
      ensures forall i :: old(|meshPool|) <= i < |meshPool| ==> fresh(meshPool[i])
      ensures segmentHistory == old(segmentHistory) + [|path| - 1]
      ensures PoolView() == Drawn(old(PoolView()), |path| - 1)
    {
      ghost var before := PoolView();
      ghost var oldPool := meshPool;
      UpdateSpline(path);
      HidePool();

      var segmentNum := |path| - 1;
      var i := 0;
      while i < segmentNum
        invariant 0 <= i <= Max(segmentNum, 0)
        invariant splinePoints == path && segmentHistory == old(segmentHistory)
        invariant |meshPool| == Max(|oldPool|, i)
        invariant meshPool[..|oldPool|] == oldPool
        invariant forall j :: |oldPool| <= j < |meshPool| ==> fresh(meshPool[j])
        invariant Distinct() && AllConfigured()
        invariant BindFrom(PoolView(), i, segmentNum) == Drawn(before, segmentNum)
      {
        ShowSegment(i);
        i := i + 1;
      }

      segmentHistory := segmentHistory + [segmentNum];
      PeakAppend(old(segmentHistory), segmentNum);
      PoolDrawnEntries(before, segmentNum);
    }

    /** A pool whose view is `Drawn(before, n)`, entry by entry. */
    lemma PoolDrawnEntries(before: seq<SegmentView>, n: int)
      requires PoolView() == Drawn(before, n)
      ensures |meshPool| == Max(|before|, n)
      ensures forall i :: 0 <= i < |meshPool| ==> (meshPool[i].visible <==> i < n)
      ensures forall i :: 0 <= i < n ==> meshPool[i].binding == Bound(i, i + 1)
      ensures forall i :: 0 <= i < |before| && n <= i ==> meshPool[i].binding == before[i].binding
    {
      DrawnShape(before, n);
      forall j | 0 <= j < |meshPool|
        ensures meshPool[j].View() == Drawn(before, n)[j]
      {
        assert PoolView()[j] == meshPool[j].View();
      }
    }

    /** The first loop of DrawTeleportPath: hide every pooled segment. */
    method HidePool()
      requires Distinct() && AllConfigured()
      modifies PoolSet()
      ensures AllConfigured()
      ensures PoolView() == HideAll(old(PoolView()))
    {
      ghost var before := PoolView();
      for k := 0 to |meshPool|
        invariant AllConfigured()
        invariant forall j :: 0 <= j < |meshPool| ==>
                    meshPool[j].View() == if j < k then HideAll(before)[j] else before[j]
      {
        meshPool[k].visible := false;
      }
    }

    /** The body of DrawTeleportPath's segment loop: create entry `i` if
        the pool is too short for it, then show it and bind it to spline
        points `i` and `i + 1`. */
    method ShowSegment(i: nat)
      requires i <= |meshPool| && Distinct() && AllConfigured()
      modifies this`meshPool, PoolSet()
      ensures Distinct() && AllConfigured()
      ensures |meshPool| == Max(old(|meshPool|), i + 1)
      ensures meshPool[..old(|meshPool|)] == old(meshPool)
      ensures forall j :: old(|meshPool|) <= j < |meshPool| ==> fresh(meshPool[j])
      ensures PoolView() == Bind(old(PoolView()), i)
    {
      ghost var v := PoolView();
      if |meshPool| <= i {
        var created := new SplineMesh(i, config.arcMesh, config.arcMaterial);
        meshPool := meshPool + [created];
      }
      ghost var grown := PoolView();
      assert grown == if |v| <= i then v + [Created] else v;
      var splineMesh := meshPool[i];
      splineMesh.visible := true;
      splineMesh.binding := Bound(i, i + 1);
      forall j | 0 <= j < |meshPool| && j != i
        ensures meshPool[j].View() == grown[j]
      {
        assert meshPool[j].slot != splineMesh.slot;
      }
    }

    /** Replace the spline's points by the path's, in order. */
    method UpdateSpline(path: seq<Vec3>)
      modifies this`splinePoints
      ensures splinePoints == path
    {
      splinePoints := [];
      for i := 0 to |path|
        invariant splinePoints == path[..i]
      {
        splinePoints := splinePoints + [path[i]];
      }
    }

    /** Fade out and arm a fresh timer that will call EndTeleport; nothing
        checks for a destination and nothing cancels an earlier timer. */
    method BeginTeleport()
      modifies this`fades, this`pendingTimers
      ensures fades == old(fades) + FadeIssued(0.0, 1.0)
      ensures pendingTimers == old(pendingTimers) + [EndTeleportTimer(config.fadeTime)]
    {
      StartFade(0.0, 1.0);
      pendingTimers := pendingTimers + [EndTeleportTimer(config.fadeTime)];
    }

    /** The oldest armed timer fires and runs EndTeleport; with no timer
        armed nothing happens. */
    method FireTimer() returns (fired: bool)
      modifies this`pendingTimers, this`actorLocation, this`fades
      ensures fired == (old(pendingTimers) != [])
      ensures fired ==> pendingTimers == old(pendingTimers)[1..]
      ensures fired ==> actorLocation == TeleportTarget(old(MarkerWorld()), config.capsuleHalfHeight, actorUp)
      ensures fired ==> fades == old(fades) + FadeIssued(1.0, 0.0)
      ensures !fired ==> pendingTimers == [] && actorLocation == old(actorLocation) && fades == old(fades)
    {
      if pendingTimers == [] {
        return false;
      }
      pendingTimers := pendingTimers[1..];
      EndTeleport();
      return true;
    }

    /** Move the actor to the marker's current location raised by the
        capsule half-height (visible or not), then fade back in. */
    method EndTeleport()
      modifies this`actorLocation, this`fades
      ensures actorLocation == TeleportTarget(old(MarkerWorld()), config.capsuleHalfHeight, actorUp)
      ensures fades == old(fades) + FadeIssued(1.0, 0.0)
    {
      var destination := MarkerWorld();
      destination := Add(destination, Scale(config.capsuleHalfHeight, actorUp));
      actorLocation := destination;
      StartFade(1.0, 0.0);
    }

    /** Issue a camera fade when a player controller exists. */
    method StartFade(fromAlpha: real, toAlpha: real)
      modifies this`fades
      ensures fades == old(fades) + FadeIssued(fromAlpha, toAlpha)
    {
      if hasPlayerController {
        fades := fades + [Fade(fromAlpha, toAlpha, config.fadeTime)];
      }
    }
  }
}
