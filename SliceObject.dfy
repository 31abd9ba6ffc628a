/** SliceObject: the blade. Each physics tick it checks the blade speed, takes
    the objects the capsule cast between the blade's two points hit, and tries
    to cut each distinct one once: derive the cutting plane, ask the mesh
    splitter for two hulls, turn them into physical halves pushed apart,
    destroy the original and score one point. */
module Slicing {
  import opened Options
  import opened Geometry
  import opened Scene
  import opened ScoreManagement

  /** The two closed meshes the splitter produces. */
  datatype Hull = Hull(upper: MeshId, lower: MeshId)

  /** The mesh splitter `target.Slice(point, normal)`: for a target and a cut
      plane, the two hulls, or None when the plane misses the mesh. */
  type Splitter = (ObjId, Vec3, Direction) -> Option<Hull>

  /** What a cut depends on: the blade's two points this tick, the layer and
      tag of the slicer's own game object, and the separation impulse. */
  datatype Blade = Blade(start: Vec3, end: Vec3, layer: int, tag: string, cutForce: real)

  /** `velocity.magnitude < minCutSpeed`, stated without a square root: a
      magnitude is never negative, so the test can only hold for a positive
      minimum, and then it compares the squares. */
  predicate SpeedGated(velocity: Vec3, minCutSpeed: real) {
    minCutSpeed > 0.0 && SqrMag(velocity) < minCutSpeed * minCutSpeed
  }

  /** SpeedGated is the magnitude test, for whatever the magnitude is. */
  lemma SpeedGatedIsMagnitudeTest(velocity: Vec3, magnitude: real, minCutSpeed: real)
    requires magnitude >= 0.0 && magnitude * magnitude == SqrMag(velocity)
    ensures SpeedGated(velocity, minCutSpeed) <==> magnitude < minCutSpeed
  {
    if magnitude < minCutSpeed {
      assert minCutSpeed > 0.0;
      MulStrict(magnitude, minCutSpeed);
    } else if minCutSpeed > 0.0 {
      MulMono(minCutSpeed, magnitude);
    }
  }

  lemma MulStrict(a: real, b: real)
    requires 0.0 <= a < b
    ensures a * a < b * b
  {
    PositiveProduct(b - a, b + a);
    assert b * b - a * a == (b - a) * (b + a);
  }

  lemma PositiveProduct(x: real, y: real)
    requires x > 0.0 && y > 0.0
    ensures x * y > 0.0
  {
  }

  lemma MulMono(a: real, b: real)
    requires 0.0 <= a <= b
    ensures a * a <= b * b
  {
    assert a * a <= a * b;
    assert a * b <= b * b;
  }

  /** The distinct elements of s, in order of first occurrence. */
  function Distinct<T(==)>(s: seq<T>): seq<T>
    decreases |s|
  {
    if s == [] then []
    else if s[|s| - 1] in s[..|s| - 1] then Distinct(s[..|s| - 1])
    else Distinct(s[..|s| - 1]) + [s[|s| - 1]]
  }

  function Elems<T>(s: seq<T>): set<T> {
    set x | x in s
  }

  /** Each element of s occurs exactly once in Distinct(s), and nothing else does. */
  lemma {:induction false} DistinctOnce<T>(s: seq<T>, x: T)
    ensures multiset(Distinct(s))[x] == if x in s then 1 else 0
    decreases |s|
  {
    if s != [] {
      var init := s[..|s| - 1];
      DistinctOnce(init, x);
      assert s == init + [s[|s| - 1]];
      assert x in s <==> x in init || x == s[|s| - 1];
    }
  }

  /** Distinct(s) holds no element twice. */
  lemma DistinctNoDuplicates<T>(s: seq<T>)
    ensures forall i, j :: 0 <= i < j < |Distinct(s)| ==> Distinct(s)[i] != Distinct(s)[j]
  {
    var d := Distinct(s);
    forall i, j | 0 <= i < j < |d|
      ensures d[i] != d[j]
    {
      DistinctOnce(s, d[i]);
      RepeatCounted(d, i, j);
    }
  }

  /** An element that d holds at positions i and j is counted twice. */
  lemma RepeatCounted<T>(d: seq<T>, i: nat, j: nat)
    requires i < j < |d|
    ensures multiset(d)[d[i]] >= if d[i] == d[j] then 2 else 1
  {
    var before := d[..j];
    assert d == before + [d[j]] + d[j + 1..];
    assert before[i] == d[i];
    assert multiset(d) == multiset(before) + multiset([d[j]]) + multiset(d[j + 1..]);
  }

  lemma DistinctStep<T>(s: seq<T>, i: nat)
    requires i < |s|
    ensures Distinct(s[..i + 1]) ==
      if s[i] in Elems(s[..i]) then Distinct(s[..i]) else Distinct(s[..i]) + [s[i]]
  {
    assert s[..i + 1][..i] == s[..i];
  }

  /** The upper and lower halves' bodies: SetupSliceComponent on a freshly
      created hull object. */
  function SetUpSlice(body: Body, blade: Blade, impulseDir: Direction): Body {
    body.(layer := blade.layer,
          tag := blade.tag,
          rigidbody := true,
          collider := MeshCollider(true),
          impulses := body.impulses + [Impulse(impulseDir, blade.cutForce)])
  }

  /** Whether Slice cuts the target: a non-degenerate plane, and hulls from the splitter. */
  predicate Cuts(blade: Blade, velocity: Vec3, splitter: Splitter, target: ObjId) {
    var plane := CutPlane(blade.start, blade.end, velocity);
    plane.Some? && splitter(target, plane.value.point, plane.value.normal).Some?
  }

  /** The scene after Slice(target): unchanged unless the target is cut; then
      two new objects (upper half first) with their physics, pushed along the
      plane normal and against it, and the original gone. */
  function SliceWorld(w: WorldState, blade: Blade, velocity: Vec3, splitter: Splitter, target: ObjId): WorldState {
    if !Cuts(blade, velocity, splitter, target) then w
    else
      var plane := CutPlane(blade.start, blade.end, velocity).value;
      var hull := splitter(target, plane.point, plane.normal).value;
      var upper, lower := w.nextId, w.nextId + 1;
      WorldState(
        (w.live + {upper, lower}) - {target},
        w.bodies[upper := SetUpSlice(NewObject(hull.upper), blade, plane.normal)]
                [lower := SetUpSlice(NewObject(hull.lower), blade, Opposite(plane.normal))]
          - {target},
        w.nextId + 2)
  }

  /** The scene after slicing each of targets in turn. */
  function SliceAll(w: WorldState, blade: Blade, velocity: Vec3, splitter: Splitter, targets: seq<ObjId>): WorldState
    decreases |targets|
  {
    if targets == [] then w
    else SliceWorld(SliceAll(w, blade, velocity, splitter, targets[..|targets| - 1]),
                    blade, velocity, splitter, targets[|targets| - 1])
  }

  /** The AddScore calls made while slicing each of targets in turn: AddScore(1)
      for every target that is cut. */
  function ScoreEvents(blade: Blade, velocity: Vec3, splitter: Splitter, targets: seq<ObjId>): seq<Int32>
    decreases |targets|
  {
    if targets == [] then []
    else ScoreEvents(blade, velocity, splitter, targets[..|targets| - 1])
         + (if Cuts(blade, velocity, splitter, targets[|targets| - 1]) then [1] else [])
  }

  lemma SliceAllStep(w: WorldState, blade: Blade, velocity: Vec3, splitter: Splitter, targets: seq<ObjId>, t: ObjId)
    ensures SliceAll(w, blade, velocity, splitter, targets + [t])
         == SliceWorld(SliceAll(w, blade, velocity, splitter, targets), blade, velocity, splitter, t)
  {
    assert (targets + [t])[..|targets|] == targets;
  }

  lemma ScoreEventsStep(blade: Blade, velocity: Vec3, splitter: Splitter, targets: seq<ObjId>, t: ObjId)
    ensures ScoreEvents(blade, velocity, splitter, targets + [t])
         == ScoreEvents(blade, velocity, splitter, targets) + (if Cuts(blade, velocity, splitter, t) then [1] else [])
  {
    assert (targets + [t])[..|targets|] == targets;
  }

  /** A degenerate plane or a missing hull leaves the scene as it was; a cut
      removes the (live) target, adds exactly two fresh objects holding the
      splitter's upper and lower hull meshes, both with a
      rigidbody, a convex mesh collider, the slicer's layer and tag, and an
      impulse of cutForce along the normal (upper) or against it (lower). */
  lemma SliceWorldEffect(w: WorldState, blade: Blade, velocity: Vec3, splitter: Splitter, target: ObjId)
    requires w.Valid() && target in w.live
    ensures var r := SliceWorld(w, blade, velocity, splitter, target);
      && r.Valid()
      && (!Cuts(blade, velocity, splitter, target) ==> r == w)
      && (Cuts(blade, velocity, splitter, target) ==>
            var plane := CutPlane(blade.start, blade.end, velocity).value;
            var upper, lower := w.nextId, w.nextId + 1;
            var hull := splitter(target, plane.point, plane.normal).value;
            && upper !in w.live && lower !in w.live && upper != lower
            && r.bodies[upper].mesh == hull.upper && r.bodies[lower].mesh == hull.lower
            && r.live == (w.live - {target}) + {upper, lower}
            && |r.live| == |w.live| + 1
            && (forall id :: id in w.live && id != target ==> r.bodies[id] == w.bodies[id])
            && r.bodies[upper].rigidbody && r.bodies[lower].rigidbody
            && r.bodies[upper].collider == MeshCollider(true)
            && r.bodies[lower].collider == MeshCollider(true)
            && r.bodies[upper].layer == blade.layer && r.bodies[upper].tag == blade.tag
            && r.bodies[lower].layer == blade.layer && r.bodies[lower].tag == blade.tag
            && r.bodies[upper].impulses == [Impulse(plane.normal, blade.cutForce)]
            && r.bodies[lower].impulses == [Impulse(Opposite(plane.normal), blade.cutForce)])
  {
    if Cuts(blade, velocity, splitter, target) {
      var r := SliceWorld(w, blade, velocity, splitter, target);
      var upper, lower := w.nextId, w.nextId + 1;
      assert r.live == (w.live - {target}) + {upper, lower};
      assert (w.live - {target}) !! {upper, lower};
      assert |w.live - {target}| == |w.live| - 1;
    }
  }

  /** A cut along the normal d pushes the upper half, at nextId, along d and
      the lower half, at nextId + 1, along Opposite(d), each once with cutForce. */
  lemma CutHalves(w: WorldState, blade: Blade, velocity: Vec3, splitter: Splitter, target: ObjId, d: Direction)
    requires w.Valid() && target in w.live && Cuts(blade, velocity, splitter, target)
    requires CutPlane(blade.start, blade.end, velocity).value.normal == d
    ensures var r := SliceWorld(w, blade, velocity, splitter, target);
      && w.nextId in r.live && w.nextId + 1 in r.live && target !in r.live
      && w.nextId in r.bodies && w.nextId + 1 in r.bodies
      && r.bodies[w.nextId].impulses == [Impulse(d, blade.cutForce)]
      && r.bodies[w.nextId + 1].impulses == [Impulse(Opposite(d), blade.cutForce)]
  {
    SliceWorldEffect(w, blade, velocity, splitter, target);
  }

  /** What one Slice does to the scene's bookkeeping: validity is kept, a cut
      removes the target and adds one object net (two fresh ids), and no other
      object appears, disappears or changes. */
  lemma SliceWorldFrame(w: WorldState, blade: Blade, velocity: Vec3, splitter: Splitter, target: ObjId)
    requires w.Valid() && target in w.live
    ensures var r := SliceWorld(w, blade, velocity, splitter, target);
      var cut := Cuts(blade, velocity, splitter, target);
      && r.Valid()
      && r.nextId == w.nextId + (if cut then 2 else 0)
      && |r.live| == |w.live| + (if cut then 1 else 0)
      && (target in r.live <==> !cut)
      && (forall id :: id in w.live && id != target ==> id in r.live && r.bodies[id] == w.bodies[id])
      && (forall id :: id in r.live && id < w.nextId ==> id in w.live)
  {
    SliceWorldEffect(w, blade, velocity, splitter, target);
  }

  /** The ghost record of a tick in progress: the Slice calls made, the scene
      and the score manager's state. */
  datatype Progress = Progress(calls: seq<ObjId>, world: WorldState, score: ScoreState)

  /** After visiting hits[..i] from `start`: the targets seen are those of the
      prefix, each distinct one was sliced once in order of first report, and
      the scene and the score are what those slices make of them. */
  ghost predicate Visited(start: Progress, blade: Blade, velocity: Vec3, splitter: Splitter,
                          hits: seq<ObjId>, i: nat, seen: set<ObjId>, p: Progress)
    requires i <= |hits|
  {
    var done := Distinct(hits[..i]);
    && seen == Elems(hits[..i])
    && p.calls == start.calls + done
    && p.world == SliceAll(start.world, blade, velocity, splitter, done)
    && p.score == Run(start.score, ScoreEvents(blade, velocity, splitter, done))
  }

  lemma ElemsStep<T>(s: seq<T>, i: nat)
    requires i < |s|
    ensures s[..i + 1] == s[..i] + [s[i]]
    ensures Elems(s[..i + 1]) == Elems(s[..i]) + {s[i]}
  {
    assert s[..i + 1] == s[..i] + [s[i]];
  }

  /** A hit whose target was already seen this tick changes nothing. */
  lemma VisitSeen(start: Progress, blade: Blade, velocity: Vec3, splitter: Splitter,
                  hits: seq<ObjId>, i: nat, seen: set<ObjId>, p: Progress)
    requires i < |hits| && hits[i] in seen
    requires Visited(start, blade, velocity, splitter, hits, i, seen, p)
    ensures Visited(start, blade, velocity, splitter, hits, i + 1, seen, p)
  {
    ElemsStep(hits, i);
    DistinctStep(hits, i);
  }

  /** The score after the Slice calls for done + [t]: one AddScore(1) more when t is cut. */
  lemma ScoreStep(score: ScoreState, blade: Blade, velocity: Vec3, splitter: Splitter, done: seq<ObjId>, t: ObjId)
    ensures Run(score, ScoreEvents(blade, velocity, splitter, done + [t])) ==
      var before := Run(score, ScoreEvents(blade, velocity, splitter, done));
      if Cuts(blade, velocity, splitter, t) then AddScoreState(before, 1) else before
  {
    var events := ScoreEvents(blade, velocity, splitter, done);
    ScoreEventsStep(blade, velocity, splitter, done, t);
    if Cuts(blade, velocity, splitter, t) {
      RunStep(score, events, 1);
    } else {
      assert events + [] == events;
    }
  }

  /** A hit whose target is new this tick is sliced. */
  lemma VisitNew(start: Progress, blade: Blade, velocity: Vec3, splitter: Splitter,
                 hits: seq<ObjId>, i: nat, seen: set<ObjId>, p: Progress)
    requires i < |hits| && hits[i] !in seen
    requires Visited(start, blade, velocity, splitter, hits, i, seen, p)
    ensures var t := hits[i];
      Visited(start, blade, velocity, splitter, hits, i + 1, seen + {t},
              Progress(p.calls + [t], SliceWorld(p.world, blade, velocity, splitter, t),
                       if Cuts(blade, velocity, splitter, t) then AddScoreState(p.score, 1) else p.score))
  {
    var t := hits[i];
    var done := Distinct(hits[..i]);
    ElemsStep(hits, i);
    DistinctStep(hits, i);
    var done' := Distinct(hits[..i + 1]);
    assert done' == done + [t];
    assert p.calls + [t] == start.calls + done';
    SliceAllStep(start.world, blade, velocity, splitter, done, t);
    ScoreStep(start.score, blade, velocity, splitter, done, t);
  }

  /** Slicing distinct live targets in turn: every target is gone exactly when
      it was cut, every other object keeps its body, the scene stays valid, and
      each point scored stands for one object more in the scene (one original
      destroyed, two halves created). */
  lemma {:induction false} SliceAllAccounting(w: WorldState, blade: Blade, velocity: Vec3, splitter: Splitter, targets: seq<ObjId>)
    requires w.Valid()
    requires forall t :: t in targets ==> t in w.live
    requires forall i, j :: 0 <= i < j < |targets| ==> targets[i] != targets[j]
    ensures var r := SliceAll(w, blade, velocity, splitter, targets);
      && r.Valid()
      && r.nextId == w.nextId + 2 * |ScoreEvents(blade, velocity, splitter, targets)|
      && |r.live| == |w.live| + |ScoreEvents(blade, velocity, splitter, targets)|
      && (forall t :: t in targets ==> (t in r.live <==> !Cuts(blade, velocity, splitter, t)))
      && (forall id :: id in w.live && id !in targets ==> id in r.live && r.bodies[id] == w.bodies[id])
    decreases |targets|
  {
    if targets != [] {
      var init := targets[..|targets| - 1];
      var last := targets[|targets| - 1];
      assert targets == init + [last];
      SliceAllAccounting(w, blade, velocity, splitter, init);
      var mid := SliceAll(w, blade, velocity, splitter, init);
      assert last !in init by {
        forall i | 0 <= i < |init|
          ensures init[i] != last
        {
          assert init[i] == targets[i];
        }
      }
      SliceAllStep(w, blade, velocity, splitter, init, last);
      ScoreEventsStep(blade, velocity, splitter, init, last);
      SliceWorldFrame(mid, blade, velocity, splitter, last);
      var r := SliceAll(w, blade, velocity, splitter, targets);
      assert r == SliceWorld(mid, blade, velocity, splitter, last);
      forall t | t in init
        ensures t in r.live <==> !Cuts(blade, velocity, splitter, t)
      {
        assert t != last;
        assert t < w.nextId <= mid.nextId;
      }
    }
  }

  /** Every score event of a tick is AddScore(1), one per target that is cut. */
  lemma {:induction false} ScoreEventsAreOnes(blade: Blade, velocity: Vec3, splitter: Splitter, targets: seq<ObjId>)
    ensures |ScoreEvents(blade, velocity, splitter, targets)| <= |targets|
    ensures forall i :: 0 <= i < |ScoreEvents(blade, velocity, splitter, targets)| ==>
      ScoreEvents(blade, velocity, splitter, targets)[i] == 1
    ensures Sum(ScoreEvents(blade, velocity, splitter, targets)) == |ScoreEvents(blade, velocity, splitter, targets)|
    ensures (forall t :: t in targets ==> !Cuts(blade, velocity, splitter, t)) ==>
      ScoreEvents(blade, velocity, splitter, targets) == []
    decreases |targets|
  {
    if targets != [] {
      var init := targets[..|targets| - 1];
      ScoreEventsAreOnes(blade, velocity, splitter, init);
      var e := ScoreEvents(blade, velocity, splitter, targets);
      if Cuts(blade, velocity, splitter, targets[|targets| - 1]) {
        assert e == ScoreEvents(blade, velocity, splitter, init) + [1];
        assert e[..|e| - 1] == ScoreEvents(blade, velocity, splitter, init);
      } else {
        assert e == ScoreEvents(blade, velocity, splitter, init);
      }
      assert forall t :: t in init ==> t in targets;
    }
  }

  /** A tick raises the score by exactly the number of objects it cut
      (wrapping as a 32-bit int). */
  lemma TickScore(s: ScoreState, blade: Blade, velocity: Vec3, splitter: Splitter, targets: seq<ObjId>)
    ensures var events := ScoreEvents(blade, velocity, splitter, targets);
      Run(s, events).score == Wrap32(s.score + |events|)
  {
    ScoreEventsAreOnes(blade, velocity, splitter, targets);
    RunScore(s, ScoreEvents(blade, velocity, splitter, targets));
  }

  /** When the mesh splitter fails on everything, a tick changes neither the
      scene nor the score. */
  lemma {:induction false} NoHullNoChange(w: WorldState, blade: Blade, velocity: Vec3, splitter: Splitter, targets: seq<ObjId>)
    requires forall o, p, n :: splitter(o, p, n).None?
    ensures SliceAll(w, blade, velocity, splitter, targets) == w
    ensures ScoreEvents(blade, velocity, splitter, targets) == []
    decreases |targets|
  {
    if targets != [] {
      NoHullNoChange(w, blade, velocity, splitter, targets[..|targets| - 1]);
    }
  }

  class SliceObject {
    /** Positions of the blade's two points (startSlicePoint, endSlicePoint). */
    var start: Vec3
    var end: Vec3
    /** Layer and tag of the slicer's own game object. */
    var layer: int
    var tag: string
    var cutForce: real
    var minCutSpeed: real
    var bladeRadius: real
    /** Targets already handled in the current tick. */
    var alreadySliced: set<ObjId>
    /** Every target Slice was called on, in order. */
    ghost var sliceCalls: seq<ObjId>
    /** How many capsule casts were made. */
    ghost var queries: nat

    function CurrentBlade(): Blade
      reads this
    {
      Blade(start, end, layer, tag, cutForce)
    }

    /** The component with the Inspector defaults (cutForce 2,
        minCutSpeed 0.25, bladeRadius 0.02). */
    constructor (start: Vec3, end: Vec3, layer: int, tag: string)
      ensures CurrentBlade() == Blade(start, end, layer, tag, 2.0)
      ensures minCutSpeed == 0.25 && bladeRadius == 0.02
      ensures alreadySliced == {} && sliceCalls == [] && queries == 0
    {
      this.start, this.end := start, end;
      this.layer, this.tag := layer, tag;
      this.cutForce, this.minCutSpeed, this.bladeRadius := 2.0, 0.25, 0.02;
      this.alreadySliced := {};
      this.sliceCalls, this.queries := [], 0;
    }

    /** One physics tick. `velocity` is the velocity estimator's reading and
        `hits` the objects `Physics.CapsuleCastAll` reports (with repetitions),
        in order. */
    method FixedUpdate(velocity: Vec3, hits: seq<ObjId>, world: World, slot: Singleton, splitter: Splitter)
      requires slot.instance != null ==> slot.instance.Valid()
      modifies this`alreadySliced, this`sliceCalls, this`queries, world, slot.instance
      ensures slot.instance != null ==> slot.instance.Valid()
      ensures slot.instance != null ==> slot.instance.destroyed == old(slot.instance.destroyed)
      ensures SpeedGated(velocity, minCutSpeed) ==>
        && queries == old(queries)
        && alreadySliced == old(alreadySliced)
        && sliceCalls == old(sliceCalls)
        && world.State() == old(world.State())
        && (slot.instance != null ==> slot.instance.State() == old(slot.instance.State()))
      ensures !SpeedGated(velocity, minCutSpeed) ==> queries == old(queries) + 1
      ensures !SpeedGated(velocity, minCutSpeed) && hits == [] ==>
        && alreadySliced == old(alreadySliced)
        && sliceCalls == old(sliceCalls)
        && world.State() == old(world.State())
        && (slot.instance != null ==> slot.instance.State() == old(slot.instance.State()))
      ensures !SpeedGated(velocity, minCutSpeed) && hits != [] ==>
        && alreadySliced == Elems(hits)
        && sliceCalls == old(sliceCalls) + Distinct(hits)
        && world.State() == SliceAll(old(world.State()), CurrentBlade(), velocity, splitter, Distinct(hits))
        && (slot.instance != null ==>
              slot.instance.State() == Run(old(slot.instance.State()), ScoreEvents(CurrentBlade(), velocity, splitter, Distinct(hits))))
    {
      if SpeedGated(velocity, minCutSpeed) {
        return;
      }

      queries := queries + 1;
      if |hits| == 0 {
        return;
      }

      SliceHits(velocity, hits, world, slot, splitter);
    }

    /** The rest of a tick once the cast found something: clears the
        per-tick set and slices every target the first time it is reported. */
    method SliceHits(velocity: Vec3, hits: seq<ObjId>, world: World, slot: Singleton, splitter: Splitter)
      requires slot.instance != null ==> slot.instance.Valid()
      modifies this`alreadySliced, this`sliceCalls, world, slot.instance
      ensures slot.instance != null ==> slot.instance.Valid()
      ensures slot.instance != null ==> slot.instance.destroyed == old(slot.instance.destroyed)
      ensures alreadySliced == Elems(hits)
      ensures sliceCalls == old(sliceCalls) + Distinct(hits)
      ensures world.State() == SliceAll(old(world.State()), CurrentBlade(), velocity, splitter, Distinct(hits))
      ensures slot.instance != null ==>
        slot.instance.State() == Run(old(slot.instance.State()), ScoreEvents(CurrentBlade(), velocity, splitter, Distinct(hits)))
    {
      alreadySliced := {};
      ghost var blade := CurrentBlade();
      ghost var manager := slot.instance;
      // the manager's state, or what it would be if there were one
      ghost var score := if manager != null then manager.State() else ScoreState(0, 0, false, None, None, None, None);
      ghost var start := Progress(sliceCalls, world.State(), score);

      for i := 0 to |hits|
        invariant slot.instance == manager && CurrentBlade() == blade
        invariant manager != null ==> manager.Valid() && manager.State() == score
        invariant manager != null ==> manager.destroyed == old(manager.destroyed)
        invariant Visited(start, blade, velocity, splitter, hits, i, alreadySliced, Progress(sliceCalls, world.State(), score))
      {
        var target := hits[i];
        if target in alreadySliced {
          VisitSeen(start, blade, velocity, splitter, hits, i, alreadySliced, Progress(sliceCalls, world.State(), score));
          continue;
        }
        VisitNew(start, blade, velocity, splitter, hits, i, alreadySliced, Progress(sliceCalls, world.State(), score));
        Slice(target, velocity, world, slot, splitter);
        score := if Cuts(blade, velocity, splitter, target) then AddScoreState(score, 1) else score;
        alreadySliced := alreadySliced + {target};
      }
      assert hits[..|hits|] == hits;
    }

    /** Tries to cut one target (Slice). */
    method Slice(target: ObjId, velocity: Vec3, world: World, slot: Singleton, splitter: Splitter)
      requires slot.instance != null ==> slot.instance.Valid()
      modifies this`sliceCalls, world, slot.instance
      ensures sliceCalls == old(sliceCalls) + [target]
      ensures slot.instance != null ==> slot.instance.destroyed == old(slot.instance.destroyed)
      ensures world.State() == SliceWorld(old(world.State()), CurrentBlade(), velocity, splitter, target)
      ensures slot.instance != null ==>
        && slot.instance.Valid()
        && slot.instance.State() ==
             if Cuts(CurrentBlade(), velocity, splitter, target) then AddScoreState(old(slot.instance.State()), 1)
             else old(slot.instance.State())
    {
      sliceCalls := sliceCalls + [target];

      var plane := CutPlane(start, end, velocity);
      if plane.None? {
        return;
      }

      var hull := splitter(target, plane.value.point, plane.value.normal);
      if hull.None? {
        return;
      }

      ghost var w0 := world.State();
      ghost var blade := CurrentBlade();
      var upper := world.Instantiate(hull.value.upper);
      SetupSliceComponent(world, upper, plane.value.normal);
      assert world.State() == w0.(live := w0.live + {upper}, nextId := w0.nextId + 1,
        bodies := w0.bodies[upper := SetUpSlice(NewObject(hull.value.upper), blade, plane.value.normal)]);

      var lower := world.Instantiate(hull.value.lower);
      SetupSliceComponent(world, lower, Opposite(plane.value.normal));
      assert world.State() == w0.(live := w0.live + {upper, lower}, nextId := w0.nextId + 2,
        bodies := w0.bodies[upper := SetUpSlice(NewObject(hull.value.upper), blade, plane.value.normal)]
                           [lower := SetUpSlice(NewObject(hull.value.lower), blade, Opposite(plane.value.normal))]);

      world.Destroy(target);

      if slot.instance != null {
        slot.instance.AddScore(1);
      }
    }

    /** Gives a half the slicer's layer and tag, a rigidbody and a convex mesh
        collider, and pushes it along impulseDir with cutForce. */
    method SetupSliceComponent(world: World, obj: ObjId, impulseDir: Direction)
      requires obj in world.bodies
      modifies world
      ensures world.State() ==
        old(world.State()).(bodies := old(world.bodies)[obj := SetUpSlice(old(world.bodies)[obj], CurrentBlade(), impulseDir)])
    {
      world.SetLayer(obj, layer);
      world.SetTag(obj, tag);

      world.AddRigidbody(obj);
      world.AddMeshCollider(obj);
      world.SetConvex(obj, true);

      world.AddImpulse(obj, Impulse(impulseDir, cutForce));
    }
  }
}
