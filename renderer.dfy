/**
 * A pass (renderer.js): a fragment program drawn over a full-screen quad,
 * together with the table of uniform values the program sees. `Render`
 * binds the given uniforms, resolving every double buffer to its current
 * `read` target, draws into the output's `write` target (or to the screen
 * when there is no output) and flips the output; it repeats this
 * `iterations` times, re-resolving the bindings on every round.
 */
module Renderers {
  import opened Wrappers
  import opened Gl
  import opened DoubleBuffers

  /** A value handed to `render` for one uniform: a double buffer, or any other value. */
  datatype Binding = Field(buffer: DoubleBuffer) | Plain(value: Value)

  /**
   * A binding as it stands when a call starts: a value that stays fixed for
   * the whole call, or the current `read` target of the call's output
   * buffer, which moves with every flip of that buffer.
   */
  datatype Arg = Fixed(value: Value) | OutputRead

  /** Only a call with an output buffer can have a binding that follows it. */
  predicate Matches(args: map<string, Arg>, out: Option<Pair>)
  {
    out.None? ==> forall u :: u in args ==> args[u].Fixed?
  }

  function Resolve(a: Arg, cur: Option<Pair>): Value
    requires a.OutputRead? ==> cur.Some?
  {
    match a
    case Fixed(v) => v
    case OutputRead => Texture(cur.value.read)
  }

  /** The values bound in one round, given the output's labels in that round. */
  function Resolved(args: map<string, Arg>, cur: Option<Pair>): (r: map<string, Value>)
    requires Matches(args, cur)
    ensures r.Keys == args.Keys
  {
    map u | u in args :: Resolve(args[u], cur)
  }

  /** How many rounds `for (i = 0; i < iterations; i++)` runs. */
  function Iterations(iterations: int): nat
  {
    if iterations <= 0 then 0 else iterations
  }

  /** The output's labels at the start of round `k`. */
  function LabelsAt(p: Pair, flip: bool, k: nat): Pair
  {
    if flip then FlipTimes(p, k) else p
  }

  function Current(out: Option<Pair>, flip: bool, k: nat): (cur: Option<Pair>)
    ensures cur.Some? == out.Some?
  {
    if out.Some? then Some(LabelsAt(out.value, flip, k)) else None
  }

  /** The target of round `k`: the output's `write` target then, or the screen. */
  function TargetAt(out: Option<Pair>, flip: bool, k: nat): Target
  {
    if out.Some? then Offscreen(LabelsAt(out.value, flip, k).write) else Screen
  }

  /** The whole uniform table the program sees in round `k`. */
  function UniformsAt(base: map<string, Value>, args: map<string, Arg>, out: Option<Pair>, flip: bool, k: nat): map<string, Value>
    requires Matches(args, out)
  {
    base + Resolved(args, Current(out, flip, k))
  }

  /** The uniform table after `n` rounds: untouched when there were none, else as the last round set it. */
  function UniformsAfter(base: map<string, Value>, args: map<string, Arg>, out: Option<Pair>, flip: bool, n: nat): map<string, Value>
    requires Matches(args, out)
  {
    if n == 0 then base else UniformsAt(base, args, out, flip, n - 1)
  }

  function DrawAt(program: Program, base: map<string, Value>, args: map<string, Arg>, out: Option<Pair>, flip: bool, k: nat): Op
    requires Matches(args, out)
  {
    Draw(program, UniformsAt(base, args, out, flip, k), TargetAt(out, flip, k))
  }

  /** The draws issued by `n` rounds of a pass, in order. */
  function PassOps(program: Program, base: map<string, Value>, args: map<string, Arg>, out: Option<Pair>, flip: bool, n: nat): (ops: seq<Op>)
    requires Matches(args, out)
    ensures |ops| == n
  {
    if n == 0 then [] else PassOps(program, base, args, out, flip, n - 1) + [DrawAt(program, base, args, out, flip, n - 1)]
  }

  /** A pass of `n` rounds issues exactly `n` draws, round `k` being the `k`-th. */
  lemma {:induction false} PassOpsAt(program: Program, base: map<string, Value>, args: map<string, Arg>, out: Option<Pair>, flip: bool, n: nat)
    requires Matches(args, out)
    ensures forall k :: 0 <= k < n ==> PassOps(program, base, args, out, flip, n)[k] == DrawAt(program, base, args, out, flip, k)
  {
    if n > 0 {
      PassOpsAt(program, base, args, out, flip, n - 1);
    }
  }

  /**
   * When every declared uniform is bound, the values left over from earlier
   * calls are all overwritten: the draws do not depend on them.
   */
  lemma {:induction false} BaseIrrelevant(program: Program, base: map<string, Value>, args: map<string, Arg>, out: Option<Pair>, flip: bool, n: nat)
    requires Matches(args, out)
    requires base.Keys <= args.Keys
    ensures PassOps(program, base, args, out, flip, n) == PassOps(program, map[], args, out, flip, n)
  {
    if n > 0 {
      BaseIrrelevant(program, base, args, out, flip, n - 1);
      var r := Resolved(args, Current(out, flip, n - 1));
      assert base + r == map[] + r;
    }
  }

  /** No draw binds the target it writes. */
  predicate HazardFree(op: Op)
  {
    op.Draw? && op.target.Offscreen? ==> forall u :: u in op.uniforms ==> op.uniforms[u] != Texture(op.target.id)
  }

  /**
   * A pass into a double buffer whose two targets differ, whose fixed
   * bindings and left-over uniforms name neither target, never binds the
   * target it writes: a binding of the output itself resolves to its `read`
   * target while the draw goes to its `write` target.
   */
  lemma PassIsHazardFree(program: Program, base: map<string, Value>, args: map<string, Arg>, p: Pair, flip: bool, n: nat)
    requires p.read != p.write
    requires forall u :: u in args ==> args[u] != Fixed(Texture(p.read)) && args[u] != Fixed(Texture(p.write))
    requires forall u :: u in base ==> base[u] != Texture(p.read) && base[u] != Texture(p.write)
    ensures forall k :: 0 <= k < n ==> HazardFree(PassOps(program, base, args, Some(p), flip, n)[k])
  {
    PassOpsAt(program, base, args, Some(p), flip, n);
    forall k | 0 <= k < n
      ensures HazardFree(DrawAt(program, base, args, Some(p), flip, k))
    {
      var cur := LabelsAt(p, flip, k);
      FlipParity(p, k);
      assert cur.read != cur.write;
      assert cur == p || cur == Swap(p);
    }
  }

  /** Every draw after the first binds `name` to the target the draw before it wrote. */
  ghost predicate Chained(ops: seq<Op>, name: string)
  {
    forall j, k :: 0 <= j < k < |ops| && k == j + 1 ==>
      && ops[k].Draw? && ops[j].Draw? && ops[j].target.Offscreen?
      && name in ops[k].uniforms
      && ops[k].uniforms[name] == Texture(ops[j].target.id)
  }

  /** Every draw goes to one of the two targets of `p`, alternating and starting with `write`. */
  ghost predicate Alternates(ops: seq<Op>, p: Pair)
  {
    forall k :: 0 <= k < |ops| ==> ops[k].Draw? && ops[k].target == Offscreen(if k % 2 == 0 then p.write else p.read)
  }

  /**
   * A pass that binds its own output and flips: round 0 reads the output's
   * original `read` target and every later round reads exactly the target the
   * round before it wrote, while the targets alternate between the two.
   */
  lemma SelfTargetChain(program: Program, base: map<string, Value>, args: map<string, Arg>, p: Pair, name: string, n: nat)
    requires name in args && args[name] == OutputRead
    ensures var ops := PassOps(program, base, args, Some(p), true, n);
      && (n > 0 ==> ops[0].Draw? && name in ops[0].uniforms && ops[0].uniforms[name] == Texture(p.read))
      && Chained(ops, name)
      && Alternates(ops, p)
  {
    PassOpsAt(program, base, args, Some(p), true, n);
    forall k | 0 <= k < n
      ensures DrawAt(program, base, args, Some(p), true, k).target == Offscreen(if k % 2 == 0 then p.write else p.read)
    {
      FlipParity(p, k);
    }
  }

  /** Without flipping, every round draws into the same `write` target and sees the same uniform values. */
  lemma NoFlipSameTarget(program: Program, base: map<string, Value>, args: map<string, Arg>, p: Pair, n: nat)
    ensures forall k :: 0 <= k < n ==>
      PassOps(program, base, args, Some(p), false, n)[k] == Draw(program, base + Resolved(args, Some(p)), Offscreen(p.write))
  {
    PassOpsAt(program, base, args, Some(p), false, n);
  }

  /** Without an output, every round draws to the screen. */
  lemma ScreenOnly(program: Program, base: map<string, Value>, args: map<string, Arg>, flip: bool, n: nat)
    requires Matches(args, None)
    ensures forall k :: 0 <= k < n ==> PassOps(program, base, args, None, flip, n)[k] == Draw(program, base + Resolved(args, None), Screen)
  {
    PassOpsAt(program, base, args, None, flip, n);
  }

  /** Binding the same names again replaces every value the earlier binding set. */
  lemma Overwrite(base: map<string, Value>, earlier: map<string, Value>, later: map<string, Value>)
    requires earlier.Keys == later.Keys
    ensures base + earlier + later == base + later
  {
  }

  /** The labels of the output buffer of a call, if there is one. */
  ghost function OutLabels(output: DoubleBuffer?): (out: Option<Pair>)
    reads if output == null then {} else {output}
    ensures out.Some? <==> output != null
    ensures output != null ==> out.value == output.Labels()
  {
    if output == null then None else Some(output.Labels())
  }

  /** One binding as it stands when a call starts. */
  ghost function ArgOf(b: Binding, output: DoubleBuffer?): Arg
    reads if b.Field? then {b.buffer} else {}
  {
    match b
    case Field(d) => if d == output then OutputRead else Fixed(Texture(d.read))
    case Plain(v) => Fixed(v)
  }

  /** The bindings of a call as they stand when it starts. */
  ghost function Args(vals: map<string, Binding>, output: DoubleBuffer?): (args: map<string, Arg>)
    reads set u | u in vals && vals[u].Field? :: vals[u].buffer
    ensures args.Keys == vals.Keys
    ensures output == null ==> forall u :: u in args ==> args[u].Fixed?
  {
    map u | u in vals :: ArgOf(vals[u], output)
  }

  /** The values the bindings stand for right now: a double buffer is its current `read` target. */
  ghost function Live(vals: map<string, Binding>): (live: map<string, Value>)
    reads set u | u in vals && vals[u].Field? :: vals[u].buffer
    ensures live.Keys == vals.Keys
  {
    map u | u in vals ::
      match vals[u]
      case Field(b) => Texture(b.read)
      case Plain(v) => v
  }

  /**
   * `args` is what `vals` stood for when the call started: a plain value as
   * itself, the output buffer as `OutputRead`, and any other double buffer as
   * its `read` target, which the call never flips.
   */
  ghost predicate Linked(vals: map<string, Binding>, output: DoubleBuffer?, args: map<string, Arg>, others: set<DoubleBuffer>)
    reads others
  {
    && args.Keys == vals.Keys
    && output !in others
    && (forall u :: u in vals && vals[u].Field? && vals[u].buffer != output ==> vals[u].buffer in others)
    && (forall u :: u in vals && vals[u].Plain? ==> args[u] == Fixed(vals[u].value))
    && (forall u :: u in vals && vals[u].Field? && vals[u].buffer == output ==> args[u] == OutputRead)
    && (forall u :: u in vals && vals[u].Field? && vals[u].buffer != output ==> args[u] == Fixed(Texture(vals[u].buffer.read)))
  }

  /**
   * While only the output buffer has flipped since `args` was taken, the
   * bindings' current values are the arguments resolved against the output's
   * current labels.
   */
  lemma LiveIsResolved(vals: map<string, Binding>, output: DoubleBuffer?, args: map<string, Arg>, others: set<DoubleBuffer>, cur: Option<Pair>)
    requires args.Keys == vals.Keys
    requires cur.Some? <==> output != null
    requires output != null ==> cur.value.read == output.read
    requires Linked(vals, output, args, others)
    ensures Matches(args, cur)
    ensures Live(vals) == Resolved(args, cur)
  {
    forall u | u in vals
      ensures args[u].OutputRead? ==> cur.Some?
      ensures Live(vals)[u] == Resolve(args[u], cur)
    {
    }
  }

  class Renderer {
    const program: Program
    /** The uniforms the program declares. */
    const schema: set<string>
    /** The uniform values set so far; a declared uniform with no value yet is absent. */
    var uniforms: map<string, Value>

    ghost predicate Valid()
      reads this
    {
      uniforms.Keys <= schema
    }

    /** A pass over the program `fs` (with vertex program `vs` when that is a non-empty text) declaring `schema`. */
    constructor (schema: set<string>, fs: Option<string>, vs: Option<string>)
      ensures Valid()
      ensures this.schema == schema && uniforms == map[]
      ensures program.fragment == fs
      ensures program.vertex.Some? <==> vs.Some? && vs.value != ""
      ensures program.vertex.Some? ==> program.vertex == vs
    {
      this.schema := schema;
      program := Program(fs, if vs.Some? && vs.value != "" then vs else None);
      uniforms := map[];
    }

    /**
     * Runs the pass `iterations` times. Each round binds every entry of
     * `vals` (a double buffer as its current `read` target), draws into
     * `output`'s `write` target or to the screen, and flips `output` when
     * `flip` holds.
     */
    method Render(gl: Backend, vals: map<string, Binding>, output: DoubleBuffer?, iterations: int, flip: bool)
      requires Valid() && gl.Valid()
      requires vals.Keys <= schema
      modifies this, gl, if output == null then {} else {output}
      ensures Valid() && gl.Valid()
      ensures gl.ops == old(gl.ops) + PassOps(program, old(uniforms), old(Args(vals, output)), old(OutLabels(output)), flip, Iterations(iterations))
      ensures output != null ==> output.Labels() == LabelsAt(old(output.Labels()), flip, Iterations(iterations))
      ensures uniforms == UniformsAfter(old(uniforms), old(Args(vals, output)), old(OutLabels(output)), flip, Iterations(iterations))
      ensures iterations <= 0 ==> uniforms == old(uniforms)
      ensures forall u :: u in old(uniforms) && u !in vals ==> u in uniforms && uniforms[u] == old(uniforms)[u]
    {
      ghost var args := Args(vals, output);
      ghost var others := set u | u in vals && vals[u].Field? && vals[u].buffer != output :: vals[u].buffer;
      Rounds(gl, vals, output, iterations, flip, args, others, OutLabels(output));
    }

    /** The loop of `Render`, specified against the bindings `args` as they stood when the call started. */
    method Rounds(gl: Backend, vals: map<string, Binding>, output: DoubleBuffer?, iterations: int, flip: bool,
                  ghost args: map<string, Arg>, ghost others: set<DoubleBuffer>, ghost out: Option<Pair>)
      requires Valid() && gl.Valid()
      requires vals.Keys <= schema && args.Keys == vals.Keys
      requires out.Some? <==> output != null
      requires output != null ==> out.value == output.Labels()
      requires Linked(vals, output, args, others)
      modifies this, gl, if output == null then {} else {output}
      ensures Valid() && gl.Valid() && Matches(args, out)
      ensures gl.ops == old(gl.ops) + PassOps(program, old(uniforms), args, out, flip, Iterations(iterations))
      ensures output != null ==> output.Labels() == LabelsAt(out.value, flip, Iterations(iterations))
      ensures uniforms == UniformsAfter(old(uniforms), args, out, flip, Iterations(iterations))
    {
      LiveIsResolved(vals, output, args, others, out);
      ghost var base := uniforms;
      var i := 0;
      while i < iterations
        invariant 0 <= i <= Iterations(iterations)
        invariant Valid() && gl.Valid() && Linked(vals, output, args, others)
        invariant gl.ops == old(gl.ops) + PassOps(program, base, args, out, flip, i)
        invariant output != null ==> output.Labels() == LabelsAt(out.value, flip, i)
        invariant uniforms == UniformsAfter(base, args, out, flip, i)
      {
        BindRound(vals, output, flip, args, others, base, out, i);
        DrawRound(gl, output, flip, vals, args, others, base, out, old(gl.ops), i);
        i := i + 1;
      }
      assert i == Iterations(iterations);
    }

    /** The first half of round `k` of `Render`: every binding's current value becomes its uniform's value. */
    method BindRound(vals: map<string, Binding>, output: DoubleBuffer?, flip: bool,
                     ghost args: map<string, Arg>, ghost others: set<DoubleBuffer>, ghost base: map<string, Value>,
                     ghost out: Option<Pair>, ghost k: nat)
      requires Valid() && vals.Keys <= schema
      requires out.Some? <==> output != null
      requires output != null ==> output.Labels() == LabelsAt(out.value, flip, k)
      requires Linked(vals, output, args, others)
      requires Matches(args, out) && uniforms == UniformsAfter(base, args, out, flip, k)
      modifies this
      ensures Valid() && Linked(vals, output, args, others)
      ensures uniforms == UniformsAfter(base, args, out, flip, k + 1)
    {
      ghost var cur := Current(out, flip, k);
      if k > 0 {
        Overwrite(base, Resolved(args, Current(out, flip, k - 1)), Resolved(args, cur));
      }
      LiveIsResolved(vals, output, args, others, cur);
      BindUniforms(vals);
    }

    /** The second half of round `k` of `Render`: draw, and flip the output when asked. */
    method DrawRound(gl: Backend, output: DoubleBuffer?, flip: bool, ghost vals: map<string, Binding>,
                     ghost args: map<string, Arg>, ghost others: set<DoubleBuffer>, ghost base: map<string, Value>,
                     ghost out: Option<Pair>, ghost start: seq<Op>, ghost k: nat)
      requires gl.Valid() && Linked(vals, output, args, others)
      requires out.Some? <==> output != null
      requires output != null ==> output.Labels() == LabelsAt(out.value, flip, k)
      requires Matches(args, out) && uniforms == UniformsAt(base, args, out, flip, k)
      requires gl.ops == start + PassOps(program, base, args, out, flip, k)
      modifies gl, if output == null then {} else {output}
      ensures gl.Valid() && Linked(vals, output, args, others)
      ensures gl.ops == start + PassOps(program, base, args, out, flip, k + 1)
      ensures output != null ==> output.Labels() == LabelsAt(out.value, flip, k + 1)
    {
      var target := if output == null then Screen else Offscreen(output.write);
      gl.Render(program, uniforms, target);
      if output != null && flip {
        output.Flip();
      }
      assert gl.ops == start + PassOps(program, base, args, out, flip, k) + [DrawAt(program, base, args, out, flip, k)];
    }

    /** The loop over the bindings of one round: each named uniform gets the binding's current value. */
    method BindUniforms(vals: map<string, Binding>)
      requires Valid() && vals.Keys <= schema
      modifies this
      ensures Valid()
      ensures uniforms == old(uniforms) + old(Live(vals))
    {
      ghost var live := Live(vals);
      var todo := vals.Keys;
      ghost var done: set<string> := {};
      while todo != {}
        invariant done + todo == vals.Keys && done !! todo
        invariant Valid()
        invariant uniforms.Keys == old(uniforms).Keys + done
        invariant forall u :: u in done ==> uniforms[u] == live[u]
        invariant forall u :: u in old(uniforms) && u !in done ==> uniforms[u] == old(uniforms)[u]
        decreases todo
      {
        var u :| u in todo;
        match vals[u] {
          case Field(b) => uniforms := uniforms[u := Texture(b.read)];
          case Plain(v) => uniforms := uniforms[u := v];
        }
        todo := todo - {u};
        done := done + {u};
      }
    }
  }
}
