# Fruits-ninja slicing and scoring, modelled in Dafny

This is a model of the gameplay core of a VR "fruit ninja" game built with Unity:

- **The blade** (`SliceObject`). Every physics tick it reads the blade's velocity. When the blade
  moves fast enough, it sweeps a capsule between the blade's two points. Each object the sweep
  reports is cut at most once per tick, and only by the first report. A cut computes a plane from the
  blade direction and the velocity. It asks the mesh splitter for two hulls. It then creates the
  upper and lower halves, each with the slicer's layer and tag, a rigidbody, a convex mesh collider
  and an impulse of `cutForce` in the direction of the plane normal and against it. Finally it
  destroys the original object and scores one point.
- **The score keeper** (`ScoreManager`). Only one instance is allowed: a second copy destroys itself.
  It keeps a C# `int` score and a label `Score: <n>`. The first time the score reaches the target,
  it sets a latch and shows the victory canvas, the victory animation and the victory sound.

Modules:

| file | module | contents |
|---|---|---|
| `Options.dfy` | `Options` | `Option` |
| `Decimal.dfy` | `Decimal` | the decimal text of an `int`, and a parser that reads it back |
| `Geometry.dfy` | `Geometry` | vectors over `real`, cross product, directions of unit length, the cutting plane |
| `Scene.dfy` | `Scene` | the scene as a class `World`: live objects and their bodies, with the engine calls the slicer makes |
| `ScoreManager.dfy` | `ScoreManagement` | the score keeper's state machine (`AddScoreState`, runs of calls) and the class `ScoreManager` proved against it |
| `SliceObject.dfy` | `Slicing` | the speed gate, per-tick deduplication, the effect of one cut and of a whole tick, and the class `SliceObject` proved against them |
| `Scenarios.dfy` | `Scenarios` | concrete situations: a perpendicular sweep that cuts, three points against a target of 3, a slow blade |

The model works in two layers:

- **Specification layer.** Functions of the state describe each operation: `AddScoreState`, `Run`,
  `SliceWorld`, `SliceAll`, `ScoreEvents` and `Distinct`. Lemmas prove what the game promises about
  those functions.
- **Imperative layer.** The two MonoBehaviours are classes with the source's fields. Their methods
  (`Awake`, `AddScore`, `TriggerVictory`, `FixedUpdate`, `Slice`, `SetupSliceComponent`) keep the
  source's branches and loop. Each method is proved to produce exactly the state the specification
  functions give.

Collaborators are parameters:

- **The mesh splitter** (EzySlice) is an arbitrary function `Splitter` from (object, point, normal)
  to an optional pair of hull meshes.
- **The velocity estimator and `Physics.CapsuleCastAll`** are inputs of `FixedUpdate`: the velocity,
  and the sequence of objects hit, in order, repetitions included.
- **`ScoreManager.Instance`** is the field of a `Singleton` object.

## Model

| member | source | states |
|---|---|---|
| `Decimal.NatToDecimal` | Assets/ScoreManager.cs:43 | the text of a natural number is non-empty, all decimal digits, and has no leading zero |
| `Decimal.ParseIntToDecimal` | Assets/ScoreManager.cs:43 | round trip: parsing the decimal text of any integer, negative ones included, gives back that integer |
| `Decimal.IntToDecimalInjective` | Assets/ScoreManager.cs:43 | two different scores never produce the same text |
| `Decimal.IntToDecimalExamples` | Assets/ScoreManager.cs:43 | 3, 10 and -42 are written "3", "10" and "-42" |
| `ScoreManagement.Wrap32` | Assets/ScoreManager.cs:42 | the result is a 32-bit int congruent to the exact value modulo 2^32, and equal to it when it fits |
| `ScoreManagement.Wrap32Add` | Assets/ScoreManager.cs:42 | wrapping after every addition equals wrapping once at the end |
| `ScoreManagement.LabelShowsScore` | Assets/ScoreManager.cs:43 | the label is "Score: " followed by text that reads back as the score |
| `ScoreManagement.AddScoreState` | Assets/ScoreManager.cs:40-57 | the score becomes the wrapped sum. The target is unchanged. A present label shows the new score. The latch is set afterwards iff it was set before or the new score reaches the target. The canvas, animation and audio change exactly when the call fires victory: canvas and animation are shown and the audio plays once. Otherwise all of them keep their values |
| `ScoreManagement.RunScore` | Assets/ScoreManager.cs:42 | after any sequence of AddScore calls the score is the wrapped sum of the start and all values; the target never changes |
| `ScoreManagement.FiresAtMostOnce` | Assets/ScoreManager.cs:45-52 | over any sequence of calls, victory fires at most once; never if the latch was already set; the latch ends set iff it started set or a call fired |
| `ScoreManagement.RunEffects` | Assets/ScoreManager.cs:45-57 | after a run the canvas, animation and audio are either untouched (no firing) or exactly the victory effects applied once to the start state |
| `ScoreManagement.RunLabel` | Assets/ScoreManager.cs:43 | after a non-empty run a label is present iff it was before, and it shows the final score |
| `ScoreManagement.ScoreManager.constructor` | Assets/ScoreManager.cs:9-19 | a scene-loaded manager: score 0, latch clear, the Inspector's target and collaborators |
| `ScoreManagement.ScoreManager.Awake` | Assets/ScoreManager.cs:21-37 | if another instance is registered, this one is destroyed and nothing else changes. Otherwise this one is registered, the canvas and the animation are hidden (the warm-up ends hidden), and nothing else changes |
| `ScoreManagement.ScoreManager.AddScore` | Assets/ScoreManager.cs:40-47 | the new state is `AddScoreState` of the old one; the victory firing count goes up by one exactly when the call fires, and never exceeds one |
| `ScoreManagement.ScoreManager.TriggerVictory` | Assets/ScoreManager.cs:50-57 | sets the latch and applies the victory effects to each assigned collaborator; counted as the one firing |
| `Scene.World.Instantiate` | Assets/SliceObject.cs:95-99 | a hull object gets a fresh identifier with a bare body holding the mesh; nothing else changes |
| `Scene.World.SetLayer` | Assets/SliceObject.cs:112 | only the layer of that object changes |
| `Scene.World.SetTag` | Assets/SliceObject.cs:113 | only the tag of that object changes |
| `Scene.World.AddRigidbody` | Assets/SliceObject.cs:116 | only that object changes, and it gains a rigidbody |
| `Scene.World.AddMeshCollider` | Assets/SliceObject.cs:117 | only that object changes, and it gains a non-convex mesh collider |
| `Scene.World.SetConvex` | Assets/SliceObject.cs:118 | only that object's collider changes, and its convex flag is set |
| `Scene.World.AddImpulse` | Assets/SliceObject.cs:121 | only that object changes, and it has one more impulse recorded |
| `Scene.World.Destroy` | Assets/SliceObject.cs:102 | the object is removed from the scene; identifiers are not reused |
| `Geometry.CrossPerpendicular` | Assets/SliceObject.cs:82 | the plane normal is perpendicular to both the blade direction and the velocity |
| `Geometry.CutPlane` | Assets/SliceObject.cs:81-88 | there is no plane iff the squared length of (end - start) x velocity is below 1e-4; otherwise the plane passes through the blade's end point |
| `Geometry.CutPlaneNormal` | Assets/SliceObject.cs:81-88 | an accepted plane's normal is normalised from a vector of squared length at least 1e-4 that is perpendicular to both the blade and the velocity |
| `Geometry.CutPlaneOf` | Assets/SliceObject.cs:81-88 | when the cross product is a given vector of squared length at least 1e-4, the plane goes through the end point with that vector, normalised, as its normal |
| `Geometry.ParallelMotionIsRejected` | Assets/SliceObject.cs:85-86 | moving the blade along its own direction never yields a plane |
| `Geometry.CollinearExample` | Assets/SliceObject.cs:85-86 | a blade along x moving along x is rejected |
| `Geometry.DenotesUnique` | Assets/SliceObject.cs:88 | a normalised direction stands for at most one unit vector |
| `Geometry.UnitDenotesItself` | Assets/SliceObject.cs:88 | normalising a unit vector gives that vector |
| `Geometry.DenotesOpposite` | Assets/SliceObject.cs:99 | `-planeNormal` stands for the negated unit vector |
| `Slicing.SpeedGatedIsMagnitudeTest` | Assets/SliceObject.cs:42-43 | the squared-length test the model uses is equivalent to `velocity.magnitude < minCutSpeed` for every non-negative magnitude |
| `Slicing.DistinctOnce` | Assets/SliceObject.cs:61-73 | the targets sliced in one tick are exactly the objects reported, each exactly once |
| `Slicing.DistinctNoDuplicates` | Assets/SliceObject.cs:61-73 | no object is sliced twice in one tick |
| `Slicing.SliceWorldEffect` | Assets/SliceObject.cs:85-122 | without a non-degenerate plane and a hull, the scene is unchanged. Otherwise the target is gone and two fresh objects appear, the first holding the splitter's upper hull and the second its lower hull, each with a rigidbody, a convex mesh collider, the slicer's layer and tag, and a single impulse of `cutForce`: along the normal for the upper half, against it for the lower. Every other object is unchanged |
| `Slicing.CutHalves` | Assets/SliceObject.cs:95-99 | a cut along normal d leaves both halves in the scene and the target gone. The upper half has exactly one impulse, along d with scale `cutForce`. The lower half has exactly one impulse, along the opposite of d |
| `Slicing.SliceWorldFrame` | Assets/SliceObject.cs:77-106 | one Slice keeps the scene valid. A cut uses two fresh identifiers and leaves one object more. The target survives iff it is not cut. No other object changes, and no old identifier reappears |
| `Slicing.SliceAllAccounting` | Assets/SliceObject.cs:63-73 | after slicing distinct live targets: the scene is valid. Each target is gone iff it was cut. Objects that were not hit are untouched. The object count rises by the number of points scored, and two identifiers are used per point |
| `Slicing.ScoreEventsAreOnes` | Assets/SliceObject.cs:105 | a tick makes only `AddScore(1)` calls, at most one per target and none when nothing is cut |
| `Slicing.TickScore` | Assets/SliceObject.cs:105 | a tick raises the score by exactly the number of objects cut (wrapping as an int) |
| `Slicing.NoHullNoChange` | Assets/SliceObject.cs:91-92 | if the splitter never returns a hull, a tick changes neither the scene nor the score |
| `Slicing.VisitSeen` | Assets/SliceObject.cs:68-69 | skipping an already-sliced target keeps the tick's bookkeeping |
| `Slicing.VisitNew` | Assets/SliceObject.cs:71-72 | slicing a new target and marking it extends the tick's bookkeeping by that target |
| `Slicing.SliceObject.constructor` | Assets/SliceObject.cs:15-33 | the Inspector defaults: cutForce 2, minCutSpeed 0.25, bladeRadius 0.02; the per-tick set is empty |
| `Slicing.SliceObject.FixedUpdate` | Assets/SliceObject.cs:36-74 | a slow blade changes nothing. Otherwise one cast is made, and an empty result changes nothing else. Otherwise the per-tick set is exactly the objects hit. Slice is called once per distinct object, in order of first report. The scene and the manager's state are `SliceAll` and `Run` of those calls; a registered score manager is never destroyed by it |
| `Slicing.SliceObject.SliceHits` | Assets/SliceObject.cs:61-73 | the clear-and-loop part of the tick, with the same conclusions on the set, the calls, the scene and the score; a registered score manager is never destroyed by it |
| `Slicing.SliceObject.Slice` | Assets/SliceObject.cs:77-106 | the scene becomes `SliceWorld` of the old one; the manager, when registered, gets `AddScore(1)` exactly when the target is cut; a registered score manager is never destroyed by it |
| `Slicing.SliceObject.SetupSliceComponent` | Assets/SliceObject.cs:109-122 | only that half changes: the slicer's layer and tag, a rigidbody, a convex mesh collider, one impulse of `cutForce` along the given direction |
| `Scenarios.QuietPoint` | Assets/ScoreManager.cs:40-47 | a point below the target does not fire: the score goes up by one and the effects are untouched |
| `Scenarios.WinningPoint` | Assets/ScoreManager.cs:45-57 | the point that reaches the target fires: latch set, canvas and animation shown, audio played |
| `Scenarios.ThirdPointWins` | Assets/ScoreManager.cs:40-57 | with target 3, the first two points are quiet, the third wins, and the label reads "Score: 3" |
| `Scenarios.SlowBladeIsGated` | Assets/SliceObject.cs:42-43 | a blade moving at 0.1 is below the default minimum speed 0.25 |
| `Scenarios.PerpendicularSweepCuts` | Assets/SliceObject.cs:81-99 | a blade from start to start + (1,0,0) moving with velocity (0,1,0) is cut by the plane through its end with normal Normalize(0,0,1). That normal stands for (0,0,1), which has length 1, and its opposite stands for (0,0,-1) |
| `Scenarios.PerpendicularSweepHalves` | Assets/SliceObject.cs:91-102 | in that sweep, when the splitter returns hulls: the original is gone and both halves exist. The upper half gets exactly one impulse, of scale `cutForce`, along that normal. The lower half gets exactly one impulse along the opposite direction. Combined with `Scenarios.PerpendicularSweepCuts`, which shows what these directions stand for, a positive `cutForce` pushes the upper half up the z axis and the lower half down it |

## Left out

- Floating point: vectors are exact `real`s, so IEEE rounding of `float` is not modelled. The threshold `1e-4f` is taken as exactly 0.0001.
- `Normalize` has no square root over `real`s. A normalised vector is the symbolic value `Unit(raw)`, and the ghost predicate `Denotes` states which unit vector it stands for.
- `Geometry.DenotesUnique`: proves that a normalised direction stands for at most one unit vector, not that one exists. That a normalised non-zero vector has length 1 is assumed, not proved, because Dafny has no square root over reals. So the model does not prove that the normal given to the splitter and to the impulses has length 1 in general. It is proved only where the cross product already has length 1, as in `Scenarios.PerpendicularSweepCuts`.
- The velocity estimator and `Physics.CapsuleCastAll` are inputs. The cast direction `dir` (lines 46-47), `bladeRadius` and `sliceableLayer` therefore only feed the cast, which the model does not compute.
- The hit objects are given as identifiers. `hit.transform.gameObject` is taken to be the hit object itself.
- EzySlice is an arbitrary function from (object, point, normal) to an optional pair of hull meshes. The cross-section material and the hull objects' transforms and parents are not modelled.
- `Destroy` takes effect at once in the model; Unity defers it to the end of the frame. Unity can run several `FixedUpdate` steps in one frame. `_alreadySliced` is cleared at every step whose cast hits something (line 61), so a target destroyed in one step is still in the physics scene for the later steps of that frame. Reading the source, it could then be cut and scored again. The model cannot show this: a destroyed object is gone from the next step on.
- Unity's "fake null" for destroyed objects is not modelled. It matters where Unity's overloaded `==` or truthiness test is used: `Instance != null` in `Awake` (ScoreManager.cs line 24) and the tests on assigned collaborators (lines 28-29, 32, 43 and 54-56). The model takes a collaborator that is present as alive. In the C#, `?.` at SliceObject.cs line 105 bypasses the overload, so the model's plain null test matches the source there.
- Physics after the impulse is not modelled: motion, collisions, and the deferred application of `ForceMode.Impulse`. So are text rendering, the culture used by string interpolation (invariant digits are assumed), GPU warm-up and audio output; the audio is a play counter.
- `ScoreManagement.ScoreManager.TriggerVictory`: requires the latch to be clear. The method is private, and its only caller (line 45) runs it under that condition.
- Assets/SpawnFruitSimple.cs and Assets/AutoDestroy.cs are not part of this model.
- The model follows the code in the following points:
  - The halves take the slicer's own layer and tag (lines 112-113), not the layer and tag of the object that was cut.
  - The separating impulse is a direct force (`ForceMode.Impulse`) of `impulseDir * cutForce`, not an explosion force. A negative `cutForce` pushes each half the other way.
  - The score is an unchecked C# `int`: `AddScore` with a negative value lowers it, and it wraps around at 2^31.
