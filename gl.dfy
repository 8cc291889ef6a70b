/**
 * The render backend that the simulation drives (three.js's WebGLRenderer and
 * its render targets in FluidsGL).
 *
 * A GPU render target is an abstract id. The backend records, in order, every
 * operation issued to it (creating a target, clearing one, drawing a
 * full-screen pass) and keeps, for each target, its size and which operation
 * last defined its contents. What a fragment program computes is not modelled:
 * a draw is known only by the program, the uniform values bound to it and the
 * target it writes.
 */
module Gl {
  import opened Wrappers

  type BufferId = nat

  /** A value bound to a uniform of a fragment program. */
  datatype Value =
    | Texture(id: BufferId)
    | Scalar(s: real)
    | Vec2(x: real, y: real)
    | Vec3(x: real, y: real, z: real)

  /** A shader material: the fragment program text and, when one was given, the vertex program text. */
  datatype Program = Program(fragment: Option<string>, vertex: Option<string>)

  /** Where a draw goes: the display surface or an off-screen render target. */
  datatype Target = Screen | Offscreen(id: BufferId)

  /** What a render target holds: all zero, or the output of the draw at that position of the log. */
  datatype Image = Zero | Drawn(op: nat)

  datatype Surface = Surface(width: nat, height: nat, image: Image)

  /** One operation issued to the backend. */
  datatype Op =
    | Create(id: BufferId, width: nat, height: nat)
    | Clear(id: BufferId)
    | Draw(program: Program, uniforms: map<string, Value>, target: Target)

  type Contents = map<BufferId, Surface>

  /** The effect of the operation at position `at` of the log on the targets' contents. */
  function Effect(c: Contents, op: Op, at: nat): Contents
  {
    match op
    case Create(id, w, h) => c[id := Surface(w, h, Zero)]
    case Clear(id) => if id in c then c[id := c[id].(image := Zero)] else c
    case Draw(_, _, t) =>
      if t.Offscreen? && t.id in c then c[t.id := c[t.id].(image := Drawn(at))] else c
  }

  /** The contents after the operations `ops`, the first of which sits at position `start` of the log. */
  function Apply(c: Contents, ops: seq<Op>, start: nat): Contents
    decreases |ops|
  {
    if ops == [] then c
    else Effect(Apply(c, ops[..|ops| - 1], start), ops[|ops| - 1], start + |ops| - 1)
  }

  /** The contents that a whole log of operations leaves behind. */
  function Replay(ops: seq<Op>): Contents
  {
    Apply(map[], ops, 0)
  }

  /** Replaying two runs of operations one after the other is replaying their concatenation. */
  lemma {:induction false} ApplyAppend(c: Contents, a: seq<Op>, b: seq<Op>, start: nat)
    ensures Apply(c, a + b, start) == Apply(Apply(c, a, start), b, start + |a|)
    decreases |b|
  {
    if b == [] {
      assert a + b == a;
    } else {
      var b' := b[..|b| - 1];
      assert (a + b)[..|a + b| - 1] == a + b';
      ApplyAppend(c, a, b', start);
    }
  }

  /** Replaying one more operation applies its effect to what the earlier ones left. */
  lemma ApplySnoc(c: Contents, ops: seq<Op>, op: Op, start: nat)
    ensures Apply(c, ops + [op], start) == Effect(Apply(c, ops, start), op, start + |ops|)
  {
    assert (ops + [op])[..|ops|] == ops;
  }

  /** Operations that create no target keep every target and its size; only images change. */
  predicate SameShapes(c: Contents, d: Contents)
  {
    && c.Keys == d.Keys
    && forall id :: id in c ==> c[id].width == d[id].width && c[id].height == d[id].height
  }

  lemma {:induction false} NoCreateKeepsShapes(c: Contents, ops: seq<Op>, start: nat)
    requires forall i :: 0 <= i < |ops| ==> !ops[i].Create?
    ensures SameShapes(c, Apply(c, ops, start))
    decreases |ops|
  {
    if ops != [] {
      NoCreateKeepsShapes(c, ops[..|ops| - 1], start);
    }
  }

  /**
   * Clearing a run of live targets zeroes each of them and leaves every
   * other target as it was.
   */
  lemma {:induction false} ApplyClears(c: Contents, ops: seq<Op>, start: nat)
    requires forall i :: 0 <= i < |ops| ==> ops[i].Clear? && ops[i].id in c
    ensures Apply(c, ops, start).Keys == c.Keys
    ensures forall i :: 0 <= i < |ops| ==> Apply(c, ops, start)[ops[i].id] == c[ops[i].id].(image := Zero)
    ensures forall id :: id in c && (forall i :: 0 <= i < |ops| ==> ops[i].id != id) ==> Apply(c, ops, start)[id] == c[id]
    decreases |ops|
  {
    if ops != [] {
      ApplyClears(c, ops[..|ops| - 1], start);
    }
  }

  /** The render backend: the log of operations issued so far and the targets' contents. */
  class Backend {
    var ops: seq<Op>
    var contents: Contents
    var next: BufferId

    ghost predicate Valid()
      reads this
    {
      && contents == Replay(ops)
      && forall id :: id in contents ==> id < next
    }

    constructor ()
      ensures Valid() && ops == [] && contents == map[]
    {
      ops, contents, next := [], map[], 0;
    }

    /** Allocates a new render target of the given size (`new THREE.WebGLRenderTarget`). */
    method CreateTarget(width: nat, height: nat) returns (id: BufferId)
      requires Valid()
      modifies this
      ensures Valid()
      ensures id !in old(contents)
      ensures ops == old(ops) + [Create(id, width, height)]
      ensures contents == old(contents)[id := Surface(width, height, Zero)]
    {
      id := next;
      Append(Create(id, width, height));
      next := next + 1;
    }

    /** Allocates a new render target with the size of an existing one (`WebGLRenderTarget.clone`). */
    method CloneTarget(source: BufferId) returns (id: BufferId)
      requires Valid() && source in contents
      modifies this
      ensures Valid()
      ensures id !in old(contents)
      ensures ops == old(ops) + [Create(id, old(contents)[source].width, old(contents)[source].height)]
      ensures contents == old(contents)[id := old(contents)[source].(image := Zero)]
    {
      id := next;
      Append(Create(id, contents[source].width, contents[source].height));
      next := next + 1;
    }

    /** Clears the colour of a render target to zero (`clearTarget(target, true, false, false)`). */
    method ClearTarget(id: BufferId)
      requires Valid()
      modifies this
      ensures Valid()
      ensures ops == old(ops) + [Clear(id)]
      ensures contents == Effect(old(contents), Clear(id), |old(ops)|)
    {
      Append(Clear(id));
    }

    /** Draws the full-screen quad with `program` and `uniforms` into `target`. */
    method Render(program: Program, uniforms: map<string, Value>, target: Target)
      requires Valid()
      modifies this
      ensures Valid()
      ensures ops == old(ops) + [Draw(program, uniforms, target)]
      ensures contents == Effect(old(contents), Draw(program, uniforms, target), |old(ops)|)
    {
      Append(Draw(program, uniforms, target));
    }

    method Append(op: Op)
      requires Valid()
      requires op.Create? ==> op.id == next
      modifies this`ops, this`contents
      ensures ops == old(ops) + [op]
      ensures contents == Effect(old(contents), op, |old(ops)|)
      ensures contents == Replay(ops)
      ensures forall id :: id in contents ==> id < next || (op.Create? && id == op.id)
    {
      contents := Effect(contents, op, |ops|);
      ops := ops + [op];
      assert ops[..|ops| - 1] == old(ops);
    }
  }
}
