/**
 * What one frame of the simulation (main.js) issues to the backend, as pure
 * functions of the labels of the four fields' double buffers: each stage
 * returns the operations it issues, in order, and the labels it leaves.
 * The simulation's methods are proved to issue exactly these operations;
 * the lemmas here state what the stages promise: their order, the gating by
 * `pause`, how often each field flips, that no draw reads the target it
 * writes, and how the pressure solve relaxes from a cleared guess.
 */
module Pipeline {
  import opened Wrappers
  import opened Gl
  import opened DoubleBuffers
  import opened Renderers
  import opened MouseInput

  /** The labels of the four simulated fields. */
  datatype Fields = Fields(velocity: Pair, density: Pair, divergence: Pair, pressure: Pair)

  /** The programs of the seven passes. */
  datatype Kernels = Kernels(
    advect: Program, mouse: Program, divergence: Program, jacobi: Program, gradient: Program,
    scalarDisplay: Program, vectorDisplay: Program)

  type Positive = r: real | r > 0.0 witness 1.0

  /** The tunable parameters and the window size in client coordinates. */
  datatype Settings = Settings(timestep: real, dissipation: real, radius: real, windowWidth: Positive, windowHeight: Positive)

  /** What a stage issues and the labels it leaves. */
  datatype Stage = Stage(fields: Fields, ops: seq<Op>)

  /** The simulation grid: 640 by 360 cells of size 1. */
  const GridWidth: real := 640.0
  const GridHeight: real := 360.0
  const GridScale: real := 1.0
  const GridSize: Value := Vec2(GridWidth, GridHeight)

  /** The rounds of the pressure solve. */
  const JacobiIterations: nat := 50

  /** A pass of `n` rounds into the double buffer labelled `p`, flipping after each round. */
  function Pass(program: Program, args: map<string, Arg>, p: Pair, n: nat): (ops: seq<Op>)
    ensures |ops| == n
    ensures n == 1 ==> ops == [Draw(program, Resolved(args, Some(p)), Offscreen(p.write))]
  {
    assert map[] + Resolved(args, Some(p)) == Resolved(args, Some(p));
    PassOps(program, map[], args, Some(p), true, n)
  }

  function AdvectArgs(velocity: Arg, advected: Arg, timestep: real, dissipation: real): map<string, Arg>
  {
    map["velocity" := velocity, "advected" := advected, "gridSize" := Fixed(GridSize),
        "gridScale" := Fixed(Scalar(GridScale)), "timestep" := Fixed(Scalar(timestep)),
        "dissipation" := Fixed(Scalar(dissipation))]
  }

  /** `advect`: velocity carries itself (dissipation 1), then the new velocity carries density. */
  function Advect(f: Fields, s: Settings, k: Kernels): Stage
  {
    var v := Swap(f.velocity);
    Stage(
      f.(velocity := v, density := Swap(f.density)),
      Pass(k.advect, AdvectArgs(OutputRead, OutputRead, s.timestep, 1.0), f.velocity, 1)
        + Pass(k.advect, AdvectArgs(Fixed(Texture(v.read)), OutputRead, s.timestep, s.dissipation), f.density, 1))
  }

  /** A client position as a grid position: x scaled across, y flipped and scaled up. */
  function GridPoint(p: Point, s: Settings): Point
  {
    Point(p.x / s.windowWidth * GridWidth, (s.windowHeight - p.y) / s.windowHeight * GridHeight)
  }

  function MouseArgs(color: Value, point: Point, radius: real): map<string, Arg>
  {
    map["read" := OutputRead, "gridSize" := Fixed(GridSize), "color" := Fixed(color),
        "point" := Fixed(Vec2(point.x, point.y)), "radius" := Fixed(Scalar(radius))]
  }

  /** The colour a left-button motion adds to velocity: the drag, with y pointing up. */
  function ForceColor(m: Motion): Value
  {
    Vec3(m.drag.x, -m.drag.y, 0.0)
  }

  /** The colour a right-button motion adds to density. */
  const DyeColor: Value := Vec3(1.0, 1.0, 1.0)

  /** One motion: a splat into velocity when the left button was held, then one into density for the right. */
  function Force(f: Fields, s: Settings, k: Kernels, m: Motion): Stage
  {
    var point := GridPoint(m.position, s);
    var left := if m.left then Pass(k.mouse, MouseArgs(ForceColor(m), point, s.radius), f.velocity, 1) else [];
    var right := if m.right then Pass(k.mouse, MouseArgs(DyeColor, point, s.radius), f.density, 1) else [];
    Stage(
      f.(velocity := if m.left then Swap(f.velocity) else f.velocity,
         density := if m.right then Swap(f.density) else f.density),
      left + right)
  }

  /** `addForces`: every queued motion, in order. */
  function Forces(f: Fields, s: Settings, k: Kernels, ms: seq<Motion>): Stage
  {
    if ms == [] then Stage(f, [])
    else
      var before := Forces(f, s, k, ms[..|ms| - 1]);
      var last := Force(before.fields, s, k, ms[|ms| - 1]);
      Stage(last.fields, before.ops + last.ops)
  }

  function DivergenceArgs(velocity: BufferId): map<string, Arg>
  {
    map["velocity" := Fixed(Texture(velocity)), "gridSize" := Fixed(GridSize), "gridScale" := Fixed(Scalar(GridScale))]
  }

  function JacobiArgs(divergence: BufferId): map<string, Arg>
  {
    map["x" := OutputRead, "b" := Fixed(Texture(divergence)), "gridSize" := Fixed(GridSize),
        "alpha" := Fixed(Scalar(-GridScale * GridScale)), "beta" := Fixed(Scalar(4.0))]
  }

  function GradientArgs(pressure: BufferId): map<string, Arg>
  {
    map["p" := Fixed(Texture(pressure)), "w" := OutputRead, "gridSize" := Fixed(GridSize), "gridScale" := Fixed(Scalar(GridScale))]
  }

  /**
   * `project`: clear the pressure guess, write the velocity's divergence,
   * relax pressure for 50 rounds, then subtract its gradient from velocity.
   */
  function Project(f: Fields, k: Kernels): Stage
  {
    var p := Swap(f.pressure);
    var d := Swap(f.divergence);
    var p' := FlipTimes(p, JacobiIterations);
    Stage(
      Fields(Swap(f.velocity), f.density, d, p'),
      [Op.Clear(f.pressure.write)]
        + Pass(k.divergence, DivergenceArgs(f.velocity.read), f.divergence, 1)
        + Pass(k.jacobi, JacobiArgs(d.read), p, JacobiIterations)
        + Pass(k.gradient, GradientArgs(p'.read), f.velocity, 1))
  }

  /** `step`: advect, add forces, project; only the forces while paused. */
  function Step(f: Fields, s: Settings, k: Kernels, ms: seq<Motion>, pause: bool): Stage
  {
    if pause then Forces(f, s, k, ms)
    else
      var a := Advect(f, s, k);
      var b := Forces(a.fields, s, k, ms);
      var c := Project(b.fields, k);
      Stage(c.fields, a.ops + b.ops + c.ops)
  }

  /** The scalar display of the target `read`, with the same bias and the same scale on every channel. */
  function ScalarArgs(read: BufferId, bias: real, scale: real): map<string, Arg>
  {
    map["read" := Fixed(Texture(read)), "bias" := Fixed(Vec3(bias, bias, bias)), "scale" := Fixed(Vec3(scale, scale, scale))]
  }

  /** `render`: one draw to the screen showing the selected field, or nothing for an unknown name. */
  function Display(f: Fields, k: Kernels, slab: string): seq<Op>
  {
    if slab == "velocity" then PassOps(k.vectorDisplay, map[], map["read" := Fixed(Texture(f.velocity.read))], None, true, 1)
    else if slab == "density" then PassOps(k.scalarDisplay, map[], ScalarArgs(f.density.read, 0.0, 1.0), None, true, 1)
    else if slab == "divergence" then PassOps(k.scalarDisplay, map[], ScalarArgs(f.divergence.read, 0.5, 0.5), None, true, 1)
    else if slab == "pressure" then PassOps(k.scalarDisplay, map[], ScalarArgs(f.pressure.read, 0.5, 0.5), None, true, 1)
    else []
  }

  /** The clear button: clear every field, in declaration order. */
  function ClearAll(f: Fields): Stage
  {
    Stage(
      Fields(Swap(f.velocity), Swap(f.density), Swap(f.divergence), Swap(f.pressure)),
      [Op.Clear(f.velocity.write), Op.Clear(f.density.write), Op.Clear(f.divergence.write), Op.Clear(f.pressure.write)])
  }

  /** The shader table key of a file name: the name up to its first '.'. */
  function ShaderKey(name: string): (key: string)
    ensures |key| <= |name| && key == name[..|key|]
    ensures '.' !in key
    ensures |key| < |name| ==> name[|key|] == '.'
  {
    if name == [] || name[0] == '.' then [] else [name[0]] + ShaderKey(name[1..])
  }

  // ---------------------------------------------------------------------
  // Counting flips

  function LeftCount(ms: seq<Motion>): nat
  {
    if ms == [] then 0 else LeftCount(ms[..|ms| - 1]) + (if ms[|ms| - 1].left then 1 else 0)
  }

  function RightCount(ms: seq<Motion>): nat
  {
    if ms == [] then 0 else RightCount(ms[..|ms| - 1]) + (if ms[|ms| - 1].right then 1 else 0)
  }

  /** Every draw of `ops` runs `program`. */
  predicate Draws(ops: seq<Op>, program: Program)
  {
    forall i :: 0 <= i < |ops| ==> ops[i].Draw? && ops[i].program == program
  }

  /** One motion flips velocity when the left button was held and density when the right one was. */
  lemma ForceEffect(f: Fields, s: Settings, k: Kernels, m: Motion)
    ensures var st := Force(f, s, k, m);
      && st.fields == f.(velocity := FlipTimes(f.velocity, if m.left then 1 else 0), density := FlipTimes(f.density, if m.right then 1 else 0))
      && |st.ops| == (if m.left then 1 else 0) + (if m.right then 1 else 0)
      && Draws(st.ops, k.mouse)
  {
  }

  /**
   * The forces stage flips velocity once per left-button motion and density
   * once per right-button motion, issues one mouse splat per flip, and leaves
   * the other fields alone.
   */
  lemma {:induction false} ForcesEffect(f: Fields, s: Settings, k: Kernels, ms: seq<Motion>)
    ensures var st := Forces(f, s, k, ms);
      && st.fields == f.(velocity := FlipTimes(f.velocity, LeftCount(ms)), density := FlipTimes(f.density, RightCount(ms)))
      && |st.ops| == LeftCount(ms) + RightCount(ms)
      && Draws(st.ops, k.mouse)
  {
    if ms != [] {
      var ms' := ms[..|ms| - 1];
      var m := ms[|ms| - 1];
      var before := Forces(f, s, k, ms');
      ForcesEffect(f, s, k, ms');
      ForceEffect(before.fields, s, k, m);
      FlipsCompose(f.velocity, LeftCount(ms'), if m.left then 1 else 0);
      FlipsCompose(f.density, RightCount(ms'), if m.right then 1 else 0);
    }
  }

  /**
   * A motion with the left button issues one splat into velocity, coloured
   * by its drag with y pointing up, before one into density, coloured white,
   * when the right button was held too; both at the motion's grid point.
   */
  lemma ForceDraws(f: Fields, s: Settings, k: Kernels, m: Motion)
    ensures var ops := Force(f, s, k, m).ops;
      var point := Vec2(GridPoint(m.position, s).x, GridPoint(m.position, s).y);
      && |ops| == (if m.left then 1 else 0) + (if m.right then 1 else 0)
      && (m.left ==>
          && ops[0].Draw? && ops[0].target == Offscreen(f.velocity.write)
          && ops[0].uniforms == map["read" := Texture(f.velocity.read), "gridSize" := GridSize,
               "color" := Vec3(m.drag.x, -m.drag.y, 0.0), "point" := point, "radius" := Scalar(s.radius)])
      && (m.right ==>
          && ops[|ops| - 1].Draw? && ops[|ops| - 1].target == Offscreen(f.density.write)
          && ops[|ops| - 1].uniforms == map["read" := Texture(f.density.read), "gridSize" := GridSize,
               "color" := Vec3(1.0, 1.0, 1.0), "point" := point, "radius" := Scalar(s.radius)])
  {
    var point := GridPoint(m.position, s);
    if m.left {
      var args := MouseArgs(ForceColor(m), point, s.radius);
      assert Resolved(args, Some(f.velocity)) == map["read" := Texture(f.velocity.read), "gridSize" := GridSize,
               "color" := Vec3(m.drag.x, -m.drag.y, 0.0), "point" := Vec2(point.x, point.y), "radius" := Scalar(s.radius)];
    }
    if m.right {
      var args := MouseArgs(DyeColor, point, s.radius);
      assert Resolved(args, Some(f.density)) == map["read" := Texture(f.density.read), "gridSize" := GridSize,
               "color" := Vec3(1.0, 1.0, 1.0), "point" := Vec2(point.x, point.y), "radius" := Scalar(s.radius)];
    }
  }

  /**
   * A step flips velocity twice more than the left-button motions (advect and
   * the gradient subtraction), density once more than the right-button
   * motions, divergence once and pressure 51 times, which leaves it swapped;
   * paused, only the forces flip anything.
   */
  lemma StepFlips(f: Fields, s: Settings, k: Kernels, ms: seq<Motion>, pause: bool)
    ensures var g := Step(f, s, k, ms, pause).fields;
      var l := LeftCount(ms);
      var r := RightCount(ms);
      if pause then
        g == Fields(FlipTimes(f.velocity, l), FlipTimes(f.density, r), f.divergence, f.pressure)
      else
        && g == Fields(FlipTimes(f.velocity, l + 2), FlipTimes(f.density, r + 1), Swap(f.divergence), FlipTimes(f.pressure, 51))
        && g.pressure == Swap(f.pressure)
  {
    if pause {
      ForcesEffect(f, s, k, ms);
    } else {
      var a := Advect(f, s, k);
      ForcesEffect(a.fields, s, k, ms);
      FlipsCompose(f.velocity, 1, LeftCount(ms));
      FlipsCompose(f.velocity, 1 + LeftCount(ms), 1);
      FlipsCompose(f.density, 1, RightCount(ms));
      FlipsCompose(f.pressure, 1, JacobiIterations);
      FlipParity(f.pressure, 51);
    }
  }

  /** A clear of `cleared`, one divergence draw, 50 Jacobi rounds and one gradient draw, in that order. */
  predicate ProjectShape(ops: seq<Op>, k: Kernels, cleared: BufferId)
  {
    && |ops| == 3 + JacobiIterations
    && ops[0] == Op.Clear(cleared)
    && Draws(ops[1..2], k.divergence)
    && Draws(ops[2..2 + JacobiIterations], k.jacobi)
    && Draws(ops[2 + JacobiIterations..], k.gradient)
  }

  /** The operations of `project`, in order: the clear, one divergence draw, 50 Jacobi rounds, one gradient draw. */
  lemma ProjectOrder(f: Fields, k: Kernels)
    ensures ProjectShape(Project(f, k).ops, k, f.pressure.write)
  {
    var p := Swap(f.pressure);
    var d := Swap(f.divergence);
    var jac := Pass(k.jacobi, JacobiArgs(d.read), p, JacobiIterations);
    PassOpsAt(k.jacobi, map[], JacobiArgs(d.read), Some(p), true, JacobiIterations);
    var ops := Project(f, k).ops;
    assert ops[2..2 + JacobiIterations] == jac;
  }

  /** The shape of an unpaused step: two advection draws, `|b|` splats, then the projection. */
  predicate StepShape(ops: seq<Op>, k: Kernels, n: nat, cleared: BufferId)
  {
    && |ops| == 2 + n + 3 + JacobiIterations
    && Draws(ops[..2], k.advect)
    && Draws(ops[2..2 + n], k.mouse)
    && ops[2 + n] == Op.Clear(cleared)
    && Draws(ops[3 + n..4 + n], k.divergence)
    && Draws(ops[4 + n..4 + n + JacobiIterations], k.jacobi)
    && Draws(ops[4 + n + JacobiIterations..], k.gradient)
  }

  lemma Sequenced(a: seq<Op>, b: seq<Op>, c: seq<Op>, k: Kernels, cleared: BufferId)
    requires |a| == 2 && Draws(a, k.advect) && Draws(b, k.mouse) && ProjectShape(c, k, cleared)
    ensures StepShape(a + b + c, k, |b|, cleared)
  {
    var ops := a + b + c;
    var n := |b|;
    assert ops[..2] == a;
    assert ops[2..2 + n] == b;
    assert ops[3 + n..4 + n] == c[1..2];
    assert ops[4 + n..4 + n + JacobiIterations] == c[2..2 + JacobiIterations];
    assert ops[4 + n + JacobiIterations..] == c[2 + JacobiIterations..];
  }

  /**
   * `step` issues the advection of velocity and then of density, the
   * splats of the queued motions, then the projection; paused, it issues
   * only the splats.
   */
  lemma StepOrder(f: Fields, s: Settings, k: Kernels, ms: seq<Motion>, pause: bool)
    ensures var ops := Step(f, s, k, ms, pause).ops;
      var n := LeftCount(ms) + RightCount(ms);
      if pause then |ops| == n && Draws(ops, k.mouse)
      else StepShape(ops, k, n, f.pressure.write)
  {
    if pause {
      ForcesEffect(f, s, k, ms);
    } else {
      var a := Advect(f, s, k);
      var b := Forces(a.fields, s, k, ms);
      ForcesEffect(a.fields, s, k, ms);
      ProjectOrder(b.fields, k);
      Sequenced(a.ops, b.ops, Project(b.fields, k).ops, k, f.pressure.write);
    }
  }

  // ---------------------------------------------------------------------
  // No draw reads the target it writes

  /** The two targets of a double buffer. */
  function Ids(p: Pair): set<BufferId>
  {
    {p.read, p.write}
  }

  /** Eight distinct targets: no two fields share one, and no field uses one target twice. */
  predicate Disjoint(f: Fields)
  {
    && f.velocity.read != f.velocity.write && f.density.read != f.density.write
    && f.divergence.read != f.divergence.write && f.pressure.read != f.pressure.write
    && Ids(f.velocity) !! Ids(f.density) && Ids(f.velocity) !! Ids(f.divergence) && Ids(f.velocity) !! Ids(f.pressure)
    && Ids(f.density) !! Ids(f.divergence) && Ids(f.density) !! Ids(f.pressure)
    && Ids(f.divergence) !! Ids(f.pressure)
  }

  /** Flipping moves the labels, never the targets. */
  lemma FlipKeepsIds(p: Pair, n: nat)
    ensures Ids(FlipTimes(p, n)) == Ids(p)
    ensures p.read != p.write ==> FlipTimes(p, n).read != FlipTimes(p, n).write
  {
    FlipParity(p, n);
  }

  predicate AllHazardFree(ops: seq<Op>)
  {
    forall i :: 0 <= i < |ops| ==> HazardFree(ops[i])
  }

  lemma ForcesHazardFree(f: Fields, s: Settings, k: Kernels, ms: seq<Motion>)
    requires Disjoint(f)
    ensures Disjoint(Forces(f, s, k, ms).fields)
    ensures AllHazardFree(Forces(f, s, k, ms).ops)
    decreases |ms|
  {
    if ms != [] {
      var ms' := ms[..|ms| - 1];
      var before := Forces(f, s, k, ms');
      ForcesHazardFree(f, s, k, ms');
      var g := before.fields;
      var m := ms[|ms| - 1];
      var point := GridPoint(m.position, s);
      PassIsHazardFree(k.mouse, map[], MouseArgs(ForceColor(m), point, s.radius), g.velocity, true, 1);
      PassIsHazardFree(k.mouse, map[], MouseArgs(DyeColor, point, s.radius), g.density, true, 1);
    }
  }

  /**
   * With eight distinct targets, no draw of a step binds the target it
   * writes, and the targets stay distinct for the next step.
   */
  lemma StepHazardFree(f: Fields, s: Settings, k: Kernels, ms: seq<Motion>, pause: bool)
    requires Disjoint(f)
    ensures Disjoint(Step(f, s, k, ms, pause).fields)
    ensures AllHazardFree(Step(f, s, k, ms, pause).ops)
  {
    if pause {
      ForcesHazardFree(f, s, k, ms);
    } else {
      var a := Advect(f, s, k);
      AdvectHazardFree(f, s, k);
      var b := Forces(a.fields, s, k, ms);
      ForcesHazardFree(a.fields, s, k, ms);
      ProjectHazardFree(b.fields, k);
    }
  }

  lemma AdvectHazardFree(f: Fields, s: Settings, k: Kernels)
    requires Disjoint(f)
    ensures Disjoint(Advect(f, s, k).fields)
    ensures AllHazardFree(Advect(f, s, k).ops)
  {
    var v := Swap(f.velocity);
    PassIsHazardFree(k.advect, map[], AdvectArgs(OutputRead, OutputRead, s.timestep, 1.0), f.velocity, true, 1);
    PassIsHazardFree(k.advect, map[], AdvectArgs(Fixed(Texture(v.read)), OutputRead, s.timestep, s.dissipation), f.density, true, 1);
  }

  lemma ProjectHazardFree(f: Fields, k: Kernels)
    requires Disjoint(f)
    ensures Disjoint(Project(f, k).fields)
    ensures AllHazardFree(Project(f, k).ops)
  {
    var p := Swap(f.pressure);
    var d := Swap(f.divergence);
    var p' := FlipTimes(p, JacobiIterations);
    FlipKeepsIds(p, JacobiIterations);
    PassIsHazardFree(k.divergence, map[], DivergenceArgs(f.velocity.read), f.divergence, true, 1);
    PassIsHazardFree(k.jacobi, map[], JacobiArgs(d.read), p, true, JacobiIterations);
    PassIsHazardFree(k.gradient, map[], GradientArgs(p'.read), f.velocity, true, 1);
  }

  // ---------------------------------------------------------------------
  // The pressure solve

  /**
   * The Jacobi rounds of `project` start from the guess that the clear
   * zeroed: the first round reads the cleared target, each later round
   * reads what the round before it wrote, and the rounds alternate between
   * the two pressure targets.
   */
  lemma JacobiRelaxes(f: Fields, k: Kernels)
    ensures var jac := Project(f, k).ops[2..2 + JacobiIterations];
      && jac[0].Draw? && "x" in jac[0].uniforms && jac[0].uniforms["x"] == Texture(f.pressure.write)
      && Chained(jac, "x")
      && Alternates(jac, Swap(f.pressure))
  {
    var p := Swap(f.pressure);
    var d := Swap(f.divergence);
    SelfTargetChain(k.jacobi, map[], JacobiArgs(d.read), p, "x", JacobiIterations);
    var ops := Project(f, k).ops;
    assert ops[2..2 + JacobiIterations] == Pass(k.jacobi, JacobiArgs(d.read), p, JacobiIterations);
  }

  /**
   * When the first Jacobi round runs, the target it reads holds zero: the
   * clear zeroed it and the divergence draw in between wrote elsewhere.
   */
  lemma JacobiStartsFromZero(c: Contents, f: Fields, k: Kernels, at: nat)
    requires Disjoint(f) && f.pressure.write in c
    ensures f.pressure.write in Apply(c, Project(f, k).ops[..2], at)
    ensures Apply(c, Project(f, k).ops[..2], at)[f.pressure.write].image == Zero
  {
    var ops := Project(f, k).ops;
    ApplyClears(c, [ops[0]], at);
    ApplySnoc(c, [ops[0]], ops[1], at);
    assert ops[..2] == [ops[0]] + [ops[1]];
    assert ops[1].Draw? && ops[1].target == Offscreen(f.divergence.write);
  }

  // ---------------------------------------------------------------------
  // The display and the clear button

  /**
   * The display issues one draw to the screen for each of the four field
   * names and none for any other: the vector display for velocity, the
   * scalar display with bias 0 and scale 1 for density, and bias and scale
   * 0.5 for divergence and pressure. It flips nothing.
   */
  lemma DisplayShows(f: Fields, k: Kernels, slab: string)
    ensures var ops := Display(f, k, slab);
      && |ops| == (if slab in {"velocity", "density", "divergence", "pressure"} then 1 else 0)
      && (slab == "velocity" ==> ops == [Draw(k.vectorDisplay, map["read" := Texture(f.velocity.read)], Screen)])
      && (slab == "density" ==> ops == [Draw(k.scalarDisplay, map["read" := Texture(f.density.read),
            "bias" := Vec3(0.0, 0.0, 0.0), "scale" := Vec3(1.0, 1.0, 1.0)], Screen)])
      && (slab == "divergence" ==> ops == [Draw(k.scalarDisplay, map["read" := Texture(f.divergence.read),
            "bias" := Vec3(0.5, 0.5, 0.5), "scale" := Vec3(0.5, 0.5, 0.5)], Screen)])
      && (slab == "pressure" ==> ops == [Draw(k.scalarDisplay, map["read" := Texture(f.pressure.read),
            "bias" := Vec3(0.5, 0.5, 0.5), "scale" := Vec3(0.5, 0.5, 0.5)], Screen)])
  {
    if slab == "velocity" {
      assert map[] + Resolved(map["read" := Fixed(Texture(f.velocity.read))], None) == map["read" := Texture(f.velocity.read)];
    } else if slab == "density" {
      assert map[] + Resolved(ScalarArgs(f.density.read, 0.0, 1.0), None) == map["read" := Texture(f.density.read),
            "bias" := Vec3(0.0, 0.0, 0.0), "scale" := Vec3(1.0, 1.0, 1.0)];
    } else if slab == "divergence" {
      assert map[] + Resolved(ScalarArgs(f.divergence.read, 0.5, 0.5), None) == map["read" := Texture(f.divergence.read),
            "bias" := Vec3(0.5, 0.5, 0.5), "scale" := Vec3(0.5, 0.5, 0.5)];
    } else if slab == "pressure" {
      assert map[] + Resolved(ScalarArgs(f.pressure.read, 0.5, 0.5), None) == map["read" := Texture(f.pressure.read),
            "bias" := Vec3(0.5, 0.5, 0.5), "scale" := Vec3(0.5, 0.5, 0.5)];
    }
  }

  /**
   * After the clear button, every field's `read` target holds zero and its
   * `write` target is the former `read` target, untouched.
   */
  lemma ClearAllZeroes(c: Contents, f: Fields, at: nat)
    requires Disjoint(f)
    requires Ids(f.velocity) + Ids(f.density) + Ids(f.divergence) + Ids(f.pressure) <= c.Keys
    ensures var st := ClearAll(f);
      var c' := Apply(c, st.ops, at);
      && c'.Keys == c.Keys
      && c'[st.fields.velocity.read].image == Zero && c'[st.fields.velocity.write] == c[f.velocity.read]
      && c'[st.fields.density.read].image == Zero && c'[st.fields.density.write] == c[f.density.read]
      && c'[st.fields.divergence.read].image == Zero && c'[st.fields.divergence.write] == c[f.divergence.read]
      && c'[st.fields.pressure.read].image == Zero && c'[st.fields.pressure.write] == c[f.pressure.read]
  {
    var ops := ClearAll(f).ops;
    ApplyClears(c, ops, at);
    assert ops[0].id == f.velocity.write && ops[1].id == f.density.write;
    assert ops[2].id == f.divergence.write && ops[3].id == f.pressure.write;
  }

  // ---------------------------------------------------------------------
  // Coordinates

  /** A position inside the window maps into the grid, with y turned upside down. */
  lemma GridPointInGrid(p: Point, s: Settings)
    requires 0.0 <= p.x <= s.windowWidth && 0.0 <= p.y <= s.windowHeight
    ensures var g := GridPoint(p, s);
      0.0 <= g.x <= GridWidth && 0.0 <= g.y <= GridHeight
  {
    var w: real := s.windowWidth;
    var h: real := s.windowHeight;
    assert 0.0 <= p.x / w <= 1.0;
    assert 0.0 <= (h - p.y) / h <= 1.0;
  }
}
