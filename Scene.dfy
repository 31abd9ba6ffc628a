/** The part of the Unity scene the slicer touches: which game objects exist,
    and for each its mesh, layer, tag, physics components and the impulses
    applied to it. Object creation, component attachment and destruction are
    the engine calls SliceObject makes. */
module Scene {
  import opened Geometry

  type ObjId = nat
  /** An opaque handle on a mesh (the original's, or a hull produced by the splitter). */
  type MeshId = int

  datatype Collider = NoCollider | MeshCollider(convex: bool)

  /** `AddForce(direction * scale, ForceMode.Impulse)`. The scale is an
      Inspector value and may be negative, which pushes against `direction`
      with strength |scale|. */
  datatype Impulse = Impulse(direction: Direction, scale: real)

  datatype Body = Body(
    mesh: MeshId,
    layer: int,
    tag: string,
    rigidbody: bool,
    collider: Collider,
    impulses: seq<Impulse>)

  /** Layer and tag of a freshly created game object. */
  const DefaultLayer: int := 0
  const Untagged: string := "Untagged"

  /** A game object as the mesh splitter creates it: a mesh and nothing else. */
  function NewObject(mesh: MeshId): Body {
    Body(mesh, DefaultLayer, Untagged, false, NoCollider, [])
  }

  datatype WorldState = WorldState(live: set<ObjId>, bodies: map<ObjId, Body>, nextId: nat) {
    /** Every live object has a body, and identifiers are handed out in
        increasing order, so `nextId` is never in use. */
    ghost predicate Valid() {
      live == bodies.Keys && forall id :: id in live ==> id < nextId
    }
  }

  class World {
    var live: set<ObjId>
    var bodies: map<ObjId, Body>
    var nextId: nat

    function State(): WorldState
      reads this
    {
      WorldState(live, bodies, nextId)
    }

    constructor (objects: map<ObjId, Body>, nextId: nat)
      ensures State() == WorldState(objects.Keys, objects, nextId)
    {
      this.live := objects.Keys;
      this.bodies := objects;
      this.nextId := nextId;
    }

    /** Creates a game object holding the mesh. */
    method Instantiate(mesh: MeshId) returns (id: ObjId)
      modifies this
      ensures id == old(nextId)
      ensures State() == WorldState(old(live) + {id}, old(bodies)[id := NewObject(mesh)], old(nextId) + 1)
    {
      id := nextId;
      live := live + {id};
      bodies := bodies[id := NewObject(mesh)];
      nextId := nextId + 1;
    }

    /** `obj.layer = layer` */
    method SetLayer(id: ObjId, layer: int)
      requires id in bodies
      modifies this
      ensures State() == old(State()).(bodies := old(bodies)[id := old(bodies)[id].(layer := layer)])
    {
      bodies := bodies[id := bodies[id].(layer := layer)];
    }

    /** `obj.tag = tag` */
    method SetTag(id: ObjId, tag: string)
      requires id in bodies
      modifies this
      ensures State() == old(State()).(bodies := old(bodies)[id := old(bodies)[id].(tag := tag)])
    {
      bodies := bodies[id := bodies[id].(tag := tag)];
    }

    /** `obj.AddComponent<Rigidbody>()` */
    method AddRigidbody(id: ObjId)
      requires id in bodies
      modifies this
      ensures State() == old(State()).(bodies := old(bodies)[id := old(bodies)[id].(rigidbody := true)])
    {
      bodies := bodies[id := bodies[id].(rigidbody := true)];
    }

    /** `obj.AddComponent<MeshCollider>()`; a new mesh collider is not convex. */
    method AddMeshCollider(id: ObjId)
      requires id in bodies
      modifies this
      ensures State() == old(State()).(bodies := old(bodies)[id := old(bodies)[id].(collider := MeshCollider(false))])
    {
      bodies := bodies[id := bodies[id].(collider := MeshCollider(false))];
    }

    /** `collider.convex = convex` */
    method SetConvex(id: ObjId, convex: bool)
      requires id in bodies && bodies[id].collider.MeshCollider?
      modifies this
      ensures State() == old(State()).(bodies := old(bodies)[id := old(bodies)[id].(collider := MeshCollider(convex))])
    {
      bodies := bodies[id := bodies[id].(collider := MeshCollider(convex))];
    }

    /** `rigidbody.AddForce(impulse, ForceMode.Impulse)` */
    method AddImpulse(id: ObjId, impulse: Impulse)
      requires id in bodies && bodies[id].rigidbody
      modifies this
      ensures State() == old(State()).(bodies := old(bodies)[id := old(bodies)[id].(impulses := old(bodies)[id].impulses + [impulse])])
    {
      bodies := bodies[id := bodies[id].(impulses := bodies[id].impulses + [impulse])];
    }

    /** `Destroy(obj)`; destroying an object that is not there does nothing. */
    method Destroy(id: ObjId)
      modifies this
      ensures State() == WorldState(old(live) - {id}, old(bodies) - {id}, old(nextId))
    {
      live := live - {id};
      bodies := bodies - {id};
    }
  }
}
