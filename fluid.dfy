/**
 * The application (main.js): the backend, the mouse, the four fields' double
 * buffers, the seven passes and the tunable parameters, and the functions
 * that run one frame: `advect`, `addForces`, `project`, `step`, the display
 * `render`, the clear button and `update`. Each method is proved to issue
 * exactly the operations the pure stage of the same name in `Pipeline`
 * describes, and to leave the labels that stage leaves.
 */
module Fluid {
  import opened Wrappers
  import opened Gl
  import opened DoubleBuffers
  import opened Renderers
  import opened MouseInput
  import opened Pipeline
  import opened FileLoading

  /** The uniforms each program declares. */
  const AdvectSchema: set<string> := {"velocity", "advected", "gridSize", "gridScale", "timestep", "dissipation"}
  const MouseSchema: set<string> := {"read", "gridSize", "color", "point", "radius"}
  const DivergenceSchema: set<string> := {"velocity", "gridSize", "gridScale"}
  const JacobiSchema: set<string> := {"x", "b", "gridSize", "alpha", "beta"}
  const GradientSchema: set<string> := {"p", "w", "gridSize", "gridScale"}
  const ScalarDisplaySchema: set<string> := {"read", "bias", "scale"}
  const VectorDisplaySchema: set<string> := {"read"}

  /** The grid size in cells, as the double buffers' size. */
  const GridCellsX: nat := 640
  const GridCellsY: nat := 360

  /** The directory the shader loader fetches from. */
  const ShaderDirectory: string := "shaders"

  /** The table key of each shader file, in the loader's order. */
  const ShaderKeys: seq<string> := [
    "advect", "basic", "scalardisplay", "vectordisplay",
    "divergence", "gradient", "jacobiscalar", "jacobivector", "mouse"]

  /** The extension of each shader file: `basic` is a vertex shader, the rest are fragment shaders. */
  const ShaderExtensions: seq<string> := ["fs", "vs", "fs", "fs", "fs", "fs", "fs", "fs", "fs"]

  /**
   * The files the loader fetches, in order: advect.fs, basic.vs,
   * scalardisplay.fs, vectordisplay.fs, divergence.fs, gradient.fs,
   * jacobiscalar.fs, jacobivector.fs, mouse.fs.
   */
  const ShaderFiles: seq<string> :=
    seq(|ShaderKeys|, i requires 0 <= i < |ShaderKeys| => ShaderKeys[i] + "." + ShaderExtensions[i])

  /** A shader text from the table, or none when the key is missing or its file failed to load. */
  function Shader(shaders: map<string, Option<string>>, key: string): Option<string>
  {
    if key in shaders then shaders[key] else None
  }

  /** Both labels of `p` name live targets of one size. */
  predicate Usable(c: Contents, p: Pair)
  {
    && p.read in c && p.write in c
    && c[p.read].width == c[p.write].width && c[p.read].height == c[p.write].height
  }

  /** Every field's double buffer names live targets of one size. */
  predicate Allocated(c: Contents, f: Fields)
  {
    Usable(c, f.velocity) && Usable(c, f.density) && Usable(c, f.divergence) && Usable(c, f.pressure)
  }

  /** Each field keeps its two targets, in either order. */
  predicate Relabelled(f: Fields, g: Fields)
  {
    && (g.velocity == f.velocity || g.velocity == Swap(f.velocity))
    && (g.density == f.density || g.density == Swap(f.density))
    && (g.divergence == f.divergence || g.divergence == Swap(f.divergence))
    && (g.pressure == f.pressure || g.pressure == Swap(f.pressure))
  }

  /** Flipping buffers and redrawing images keeps the targets allocated and disjoint. */
  lemma Relabel(c: Contents, d: Contents, f: Fields, g: Fields)
    requires SameShapes(c, d) && Allocated(c, f) && Disjoint(f) && Relabelled(f, g)
    ensures Allocated(d, g) && Disjoint(g)
  {
  }

  /**
   * Runs `n` rounds of the pass `r` into `output`, flipping after each,
   * where `vals` binds every uniform the program declares: the backend
   * receives exactly the draws of `Pass`, the output flips `n` times and
   * no target changes size.
   */
  method DrawPass(gl: Backend, r: Renderer, vals: map<string, Binding>, output: DoubleBuffer, n: nat, ghost args: map<string, Arg>)
    requires gl.Valid() && r.Valid()
    requires vals.Keys == r.schema
    requires args == Args(vals, output)
    modifies r, gl, output
    ensures gl.Valid() && r.Valid()
    ensures gl.ops == old(gl.ops) + Pass(r.program, args, old(output.Labels()), n)
    ensures output.Labels() == FlipTimes(old(output.Labels()), n)
    ensures SameShapes(old(gl.contents), gl.contents)
  {
    ghost var p := output.Labels();
    r.Render(gl, vals, output, n, true);
    BaseIrrelevant(r.program, old(r.uniforms), args, Some(p), true, n);
    ghost var drawn := Pass(r.program, args, p, n);
    PassOpsAt(r.program, map[], args, Some(p), true, n);
    ApplyAppend(map[], old(gl.ops), drawn, 0);
    NoCreateKeepsShapes(old(gl.contents), drawn, |old(gl.ops)|);
  }

  /** Runs the display pass `r` once, to the screen. */
  method Show(gl: Backend, r: Renderer, vals: map<string, Binding>, ghost args: map<string, Arg>)
    requires gl.Valid() && r.Valid()
    requires vals.Keys == r.schema
    requires args == Args(vals, null)
    modifies r, gl
    ensures gl.Valid() && r.Valid()
    ensures gl.ops == old(gl.ops) + PassOps(r.program, map[], args, None, true, 1)
    ensures SameShapes(old(gl.contents), gl.contents)
  {
    r.Render(gl, vals, null, 1, true);
    BaseIrrelevant(r.program, old(r.uniforms), args, None, true, 1);
    ghost var drawn := PassOps(r.program, map[], args, None, true, 1);
    ApplyAppend(map[], old(gl.ops), drawn, 0);
    NoCreateKeepsShapes(old(gl.contents), drawn, |old(gl.ops)|);
  }

  class Simulation {
    const gl: Backend
    const mouse: Mouse
    const velocity: DoubleBuffer
    const density: DoubleBuffer
    const divergence: DoubleBuffer
    const pressure: DoubleBuffer
    const advectPass: Renderer
    const mousePass: Renderer
    const divergencePass: Renderer
    const jacobiPass: Renderer
    const gradientPass: Renderer
    const scalarDisplay: Renderer
    const vectorDisplay: Renderer
    const windowWidth: Positive
    const windowHeight: Positive
    var timestep: real
    var dissipation: real
    var radius: real
    var pause: bool
    /** The field the display shows. */
    var slab: string

    /** The current labels of the four fields. */
    ghost function F(): Fields
      reads velocity, density, divergence, pressure
    {
      Fields(velocity.Labels(), density.Labels(), divergence.Labels(), pressure.Labels())
    }

    function S(): Settings
      reads this
    {
      Settings(timestep, dissipation, radius, windowWidth, windowHeight)
    }

    function K(): Kernels
    {
      Kernels(advectPass.program, mousePass.program, divergencePass.program, jacobiPass.program,
              gradientPass.program, scalarDisplay.program, vectorDisplay.program)
    }

    ghost function Passes(): set<Renderer>
    {
      {advectPass, mousePass, divergencePass, jacobiPass, gradientPass, scalarDisplay, vectorDisplay}
    }

    /** Every pass is ready and declares the uniforms its program reads. */
    ghost predicate Ready()
      reads Passes()
    {
      && advectPass.Valid() && mousePass.Valid() && divergencePass.Valid() && jacobiPass.Valid()
      && gradientPass.Valid() && scalarDisplay.Valid() && vectorDisplay.Valid()
      && advectPass.schema == AdvectSchema && mousePass.schema == MouseSchema
      && divergencePass.schema == DivergenceSchema && jacobiPass.schema == JacobiSchema
      && gradientPass.schema == GradientSchema && scalarDisplay.schema == ScalarDisplaySchema
      && vectorDisplay.schema == VectorDisplaySchema
    }

    /**
     * The four fields are distinct buffers over disjoint, allocated targets,
     * the passes are ready, and the mouse clamps drags to the grid scale
     * that the passes bind.
     */
    ghost predicate Valid()
      reads this, gl, velocity, density, divergence, pressure, Passes()
    {
      && gl.Valid()
      && velocity != density && velocity != divergence && velocity != pressure
      && density != divergence && density != pressure && divergence != pressure
      && Disjoint(F())
      && Allocated(gl.contents, F())
      && Ready()
      && mouse.scale == GridScale
    }

    /** One buffer of a field. */
    ghost predicate IsField(b: DoubleBuffer)
    {
      b == velocity || b == density || b == divergence || b == pressure
    }

    /** `DrawPass` on one of the passes into one of the fields, keeping the simulation valid. */
    method RunPass(r: Renderer, vals: map<string, Binding>, output: DoubleBuffer, n: nat, ghost args: map<string, Arg>)
      requires Valid() && r in Passes() && IsField(output)
      requires vals.Keys == r.schema
      requires args == Args(vals, output)
      modifies gl, r, output
      ensures Valid()
      ensures gl.ops == old(gl.ops) + Pass(r.program, args, old(output.Labels()), n)
      ensures output.Labels() == FlipTimes(old(output.Labels()), n)
    {
      ghost var f := F();
      ghost var p := output.Labels();
      DrawPass(gl, r, vals, output, n, args);
      FlipParity(p, n);
      Relabel(old(gl.contents), gl.contents, f, F());
    }

    /** `Show` on one of the display passes, keeping the simulation valid. */
    method ShowPass(r: Renderer, vals: map<string, Binding>, ghost args: map<string, Arg>)
      requires Valid() && r in Passes()
      requires vals.Keys == r.schema
      requires args == Args(vals, null)
      modifies gl, r
      ensures Valid()
      ensures gl.ops == old(gl.ops) + PassOps(r.program, map[], args, None, true, 1)
    {
      Show(gl, r, vals, args);
      Relabel(old(gl.contents), gl.contents, F(), F());
    }

    /** `clear` on one field's double buffer, keeping the simulation valid. */
    method ClearBuffer(b: DoubleBuffer)
      requires Valid() && IsField(b)
      modifies gl, b
      ensures Valid()
      ensures gl.ops == old(gl.ops) + [Op.Clear(old(b.write))]
      ensures b.Labels() == Swap(old(b.Labels()))
    {
      ghost var f := F();
      b.Clear(gl);
      Relabel(old(gl.contents), gl.contents, f, F());
    }

    /**
     * `init`: the seven passes over the loaded shaders (a missing shader is
     * no program text) and the four fields' double buffers of the grid's
     * size, created in declaration order; the parameters take their
     * initial values.
     */
    constructor (gl: Backend, mouse: Mouse, shaders: map<string, Option<string>>, windowWidth: Positive, windowHeight: Positive)
      requires gl.Valid() && mouse.scale == GridScale
      modifies gl
      ensures Valid()
      ensures this.gl == gl && this.mouse == mouse
      ensures this.windowWidth == windowWidth && this.windowHeight == windowHeight
      ensures timestep == 1.0 && dissipation == 1.0 && radius == 0.2 && !pause && slab == "velocity"
      ensures K() == Programs(shaders)
      ensures gl.ops == old(gl.ops) + Creates(F())
    {
      this.gl := gl;
      this.mouse := mouse;
      this.windowWidth := windowWidth;
      this.windowHeight := windowHeight;
      timestep := 1.0;
      dissipation := 1.0;
      radius := 0.2;
      pause := false;
      slab := "velocity";
      var a, m, dp, j, g, sd, vd := NewPasses(shaders);
      advectPass, mousePass, divergencePass, jacobiPass, gradientPass, scalarDisplay, vectorDisplay := a, m, dp, j, g, sd, vd;
      var v, d, dv, p := NewFields(gl);
      velocity, density, divergence, pressure := v, d, dv, p;
    }

    /**
     * The advection pass into `b`: the velocity field carries `b`'s own
     * read target. When `b` is the velocity buffer itself, its binding is
     * the output's current read target.
     */
    method AdvectInto(b: DoubleBuffer, dissipation: real)
      requires Valid() && (b == velocity || b == density)
      modifies gl, b, advectPass
      ensures Valid()
      ensures var v := if b == velocity then OutputRead else Fixed(Texture(velocity.read));
        gl.ops == old(gl.ops) + Pass(K().advect, AdvectArgs(v, OutputRead, timestep, dissipation), old(b.Labels()), 1)
      ensures b.Labels() == Swap(old(b.Labels()))
    {
      var vals := map[
        "velocity" := Field(velocity), "advected" := Field(b), "gridSize" := Plain(GridSize),
        "gridScale" := Plain(Scalar(GridScale)), "timestep" := Plain(Scalar(timestep)), "dissipation" := Plain(Scalar(dissipation))];
      ghost var v := if b == velocity then OutputRead else Fixed(Texture(velocity.read));
      assert Args(vals, b) == AdvectArgs(v, OutputRead, timestep, dissipation);
      RunPass(advectPass, vals, b, 1, AdvectArgs(v, OutputRead, timestep, dissipation));
    }

    /** `advect`: velocity advects itself (dissipation 1), then density is advected by the new velocity. */
    method Advect()
      requires Valid()
      modifies gl, velocity, density, advectPass
      ensures Valid()
      ensures gl.ops == old(gl.ops) + Pipeline.Advect(old(F()), S(), K()).ops
      ensures F() == Pipeline.Advect(old(F()), S(), K()).fields
    {
      ghost var f := F();
      ghost var k := K();
      ghost var ops := gl.ops;
      AdvectInto(velocity, 1.0);
      AdvectInto(density, dissipation);
      ghost var v := Swap(f.velocity);
      Associate(ops, Pass(k.advect, AdvectArgs(OutputRead, OutputRead, timestep, 1.0), f.velocity, 1),
                Pass(k.advect, AdvectArgs(Fixed(Texture(v.read)), OutputRead, timestep, dissipation), f.density, 1));
    }

    /** A splat of `color` at the grid position `point` into `b`, which the pass also reads. */
    method Push(b: DoubleBuffer, color: Value, point: Point)
      requires Valid() && (b == velocity || b == density)
      modifies gl, b, mousePass
      ensures Valid()
      ensures gl.ops == old(gl.ops) + Pass(K().mouse, MouseArgs(color, point, radius), old(b.Labels()), 1)
      ensures b.Labels() == Swap(old(b.Labels()))
    {
      var vals := map[
        "read" := Field(b), "gridSize" := Plain(GridSize), "color" := Plain(color),
        "point" := Plain(Vec2(point.x, point.y)), "radius" := Plain(Scalar(radius))];
      assert Args(vals, b) == MouseArgs(color, point, radius);
      RunPass(mousePass, vals, b, 1, MouseArgs(color, point, radius));
    }

    /** The pointer's client position as a grid position: y flipped, both scaled to the grid. */
    method ToGrid(position: Point) returns (point: Point)
      ensures point == GridPoint(position, S())
    {
      var x := position.x;
      var y := windowHeight - position.y;
      x := x / windowWidth * GridWidth;
      y := y / windowHeight * GridHeight;
      point := Point(x, y);
    }

    /**
     * One queued motion: a splat of the drag into velocity when the left
     * button was held, then a splat of dye into density when the right
     * button was, both at the pointer's grid position.
     */
    method Splat(m: Motion)
      requires Valid()
      modifies gl, velocity, density, mousePass
      ensures Valid()
      ensures gl.ops == old(gl.ops) + Force(old(F()), S(), K(), m).ops
      ensures F() == Force(old(F()), S(), K(), m).fields
    {
      var point := ToGrid(m.position);
      ghost var ops := gl.ops;
      ghost var k := K();
      ghost var left := if m.left then Pass(k.mouse, MouseArgs(ForceColor(m), point, radius), velocity.Labels(), 1) else [];
      ghost var right := if m.right then Pass(k.mouse, MouseArgs(DyeColor, point, radius), density.Labels(), 1) else [];
      assert Force(F(), S(), k, m).ops == left + right;
      if m.left {
        var force := ForceColor(m);
        Push(velocity, force, point);
      } else {
        assert ops + left == ops;
      }
      if m.right {
        Push(density, DyeColor, point);
      } else {
        assert ops + left + right == ops + left;
      }
      Associate(ops, left, right);
    }

    /** Every queued motion, in order; the queue itself is left as it is. */
    method SplatAll()
      requires Valid()
      modifies gl, velocity, density, mousePass
      ensures Valid()
      ensures gl.ops == old(gl.ops) + Forces(old(F()), S(), K(), mouse.motions).ops
      ensures F() == Forces(old(F()), S(), K(), mouse.motions).fields
    {
      ghost var f := F();
      ghost var s := S();
      ghost var k := K();
      ghost var ops := gl.ops;
      ghost var ms := mouse.motions;
      var i := 0;
      while i < |mouse.motions|
        invariant 0 <= i <= |ms|
        invariant Valid()
        invariant gl.ops == ops + Forces(f, s, k, ms[..i]).ops
        invariant F() == Forces(f, s, k, ms[..i]).fields
      {
        var motion := mouse.motions[i];
        ghost var before := Forces(f, s, k, ms[..i]);
        Splat(motion);
        assert ms[..i + 1][..i] == ms[..i];
        Associate(ops, before.ops, Force(before.fields, s, k, motion).ops);
        i := i + 1;
      }
      assert ms[..i] == ms;
    }

    /** `addForces`: every queued motion in order, then the queue is emptied. */
    method AddForces()
      requires Valid()
      modifies gl, velocity, density, mousePass, mouse
      ensures Valid()
      ensures gl.ops == old(gl.ops) + Forces(old(F()), S(), K(), old(mouse.motions)).ops
      ensures F() == Forces(old(F()), S(), K(), old(mouse.motions)).fields
      ensures mouse.motions == []
      ensures mouse.left == old(mouse.left) && mouse.right == old(mouse.right) && mouse.position == old(mouse.position)
    {
      SplatAll();
      mouse.motions := [];
    }

    /** The divergence of velocity, written into the divergence buffer. */
    method ComputeDivergence()
      requires Valid()
      modifies gl, divergence, divergencePass
      ensures Valid()
      ensures gl.ops == old(gl.ops) + Pass(K().divergence, DivergenceArgs(velocity.read), old(divergence.Labels()), 1)
      ensures divergence.Labels() == Swap(old(divergence.Labels()))
    {
      var vals := map["velocity" := Field(velocity), "gridSize" := Plain(GridSize), "gridScale" := Plain(Scalar(GridScale))];
      assert Args(vals, divergence) == DivergenceArgs(velocity.read);
      RunPass(divergencePass, vals, divergence, 1, DivergenceArgs(velocity.read));
    }

    /** 50 Jacobi rounds on pressure against the divergence, flipping after each. */
    method SolvePressure()
      requires Valid()
      modifies gl, pressure, jacobiPass
      ensures Valid()
      ensures gl.ops == old(gl.ops) + Pass(K().jacobi, JacobiArgs(divergence.read), old(pressure.Labels()), JacobiIterations)
      ensures pressure.Labels() == FlipTimes(old(pressure.Labels()), JacobiIterations)
    {
      var vals := map[
        "x" := Field(pressure), "b" := Field(divergence), "gridSize" := Plain(GridSize),
        "alpha" := Plain(Scalar(-GridScale * GridScale)), "beta" := Plain(Scalar(4.0))];
      assert Args(vals, pressure) == JacobiArgs(divergence.read);
      RunPass(jacobiPass, vals, pressure, JacobiIterations, JacobiArgs(divergence.read));
    }

    /** The pressure gradient subtracted from velocity. */
    method SubtractGradient()
      requires Valid()
      modifies gl, velocity, gradientPass
      ensures Valid()
      ensures gl.ops == old(gl.ops) + Pass(K().gradient, GradientArgs(pressure.read), old(velocity.Labels()), 1)
      ensures velocity.Labels() == Swap(old(velocity.Labels()))
    {
      var vals := map["p" := Field(pressure), "w" := Field(velocity), "gridSize" := Plain(GridSize), "gridScale" := Plain(Scalar(GridScale))];
      assert Args(vals, velocity) == GradientArgs(pressure.read);
      RunPass(gradientPass, vals, velocity, 1, GradientArgs(pressure.read));
    }

    /**
     * `project`: clear pressure, write velocity's divergence, relax pressure
     * for 50 rounds, subtract its gradient from velocity.
     */
    method Project()
      requires Valid()
      modifies gl, velocity, divergence, pressure, divergencePass, jacobiPass, gradientPass
      ensures Valid()
      ensures gl.ops == old(gl.ops) + Pipeline.Project(old(F()), K()).ops
      ensures F() == Pipeline.Project(old(F()), K()).fields
    {
      ghost var f := F();
      ghost var k := K();
      ghost var ops := gl.ops;
      ClearBuffer(pressure);
      ComputeDivergence();
      SolvePressure();
      SubtractGradient();
      ghost var clear := [Op.Clear(f.pressure.write)];
      ghost var a := Pass(k.divergence, DivergenceArgs(f.velocity.read), f.divergence, 1);
      ghost var b := Pass(k.jacobi, JacobiArgs(Swap(f.divergence).read), Swap(f.pressure), JacobiIterations);
      ghost var c := Pass(k.gradient, GradientArgs(FlipTimes(Swap(f.pressure), JacobiIterations).read), f.velocity, 1);
      Associate3(ops, clear, a, b);
      Associate(ops, clear + a + b, c);
    }

    /** An unpaused `step`: advect, add forces, project. */
    method Simulate()
      requires Valid()
      modifies gl, velocity, density, divergence, pressure, advectPass, mousePass, divergencePass, jacobiPass, gradientPass, mouse
      ensures Valid()
      ensures gl.ops == old(gl.ops) + Pipeline.Step(old(F()), S(), K(), old(mouse.motions), false).ops
      ensures F() == Pipeline.Step(old(F()), S(), K(), old(mouse.motions), false).fields
      ensures mouse.motions == []
      ensures mouse.left == old(mouse.left) && mouse.right == old(mouse.right) && mouse.position == old(mouse.position)
    {
      ghost var f := F();
      ghost var ms := mouse.motions;
      ghost var ops := gl.ops;
      Advect();
      ghost var a := Pipeline.Advect(f, S(), K());
      assert F() == a.fields && gl.ops == ops + a.ops;
      AddForces();
      ghost var b := Forces(a.fields, S(), K(), ms);
      assert F() == b.fields && gl.ops == ops + a.ops + b.ops;
      Project();
      ghost var c := Pipeline.Project(b.fields, K());
      assert F() == c.fields && gl.ops == ops + a.ops + b.ops + c.ops;
      Associate3(ops, a.ops, b.ops, c.ops);
    }

    /**
     * `step`: advect, add forces, project; while paused, only the forces
     * (the advection and the projection are skipped, the mouse queue is
     * still drained).
     */
    method Step()
      requires Valid()
      modifies gl, velocity, density, divergence, pressure, advectPass, mousePass, divergencePass, jacobiPass, gradientPass, mouse
      ensures Valid()
      ensures gl.ops == old(gl.ops) + Pipeline.Step(old(F()), S(), K(), old(mouse.motions), pause).ops
      ensures F() == Pipeline.Step(old(F()), S(), K(), old(mouse.motions), pause).fields
      ensures mouse.motions == []
      ensures mouse.left == old(mouse.left) && mouse.right == old(mouse.right) && mouse.position == old(mouse.position)
    {
      if pause {
        AddForces();
      } else {
        Simulate();
      }
    }

    /** The scalar display of `b`'s read target with the given bias and scale on every channel. */
    method ShowScalar(b: DoubleBuffer, bias: real, scale: real)
      requires Valid() && IsField(b)
      modifies gl, scalarDisplay
      ensures Valid()
      ensures gl.ops == old(gl.ops) + PassOps(K().scalarDisplay, map[], ScalarArgs(b.read, bias, scale), None, true, 1)
    {
      var vals := map["read" := Plain(Texture(b.read)), "bias" := Plain(Vec3(bias, bias, bias)), "scale" := Plain(Vec3(scale, scale, scale))];
      assert Args(vals, null) == ScalarArgs(b.read, bias, scale);
      ShowPass(scalarDisplay, vals, ScalarArgs(b.read, bias, scale));
    }

    /** `render`: draw the selected field to the screen; an unknown name draws nothing. */
    method Render()
      requires Valid()
      modifies gl, scalarDisplay, vectorDisplay
      ensures Valid()
      ensures gl.ops == old(gl.ops) + Display(F(), K(), slab)
    {
      if slab == "velocity" {
        ShowPass(vectorDisplay, map["read" := Plain(Texture(velocity.read))], map["read" := Fixed(Texture(velocity.read))]);
      } else if slab == "density" {
        ShowScalar(density, 0.0, 1.0);
      } else if slab == "divergence" {
        ShowScalar(divergence, 0.5, 0.5);
      } else if slab == "pressure" {
        ShowScalar(pressure, 0.5, 0.5);
      }
    }

    /** `update`: one step, then the display. */
    method Update()
      requires Valid()
      modifies gl, velocity, density, divergence, pressure, advectPass, mousePass, divergencePass, jacobiPass, gradientPass
      modifies scalarDisplay, vectorDisplay, mouse
      ensures Valid()
      ensures var s := Pipeline.Step(old(F()), S(), K(), old(mouse.motions), pause);
        gl.ops == old(gl.ops) + s.ops + Display(s.fields, K(), slab) && F() == s.fields
      ensures mouse.motions == []
      ensures mouse.left == old(mouse.left) && mouse.right == old(mouse.right) && mouse.position == old(mouse.position)
    {
      Step();
      Render();
    }

    /** The clear button: clear every field's double buffer, in declaration order. */
    method ClearAll()
      requires Valid()
      modifies gl, velocity, density, divergence, pressure
      ensures Valid()
      ensures gl.ops == old(gl.ops) + Pipeline.ClearAll(old(F())).ops
      ensures F() == Pipeline.ClearAll(old(F())).fields
    {
      ghost var f := F();
      var buffers := [velocity, density, divergence, pressure];
      for i := 0 to 4
        invariant Valid()
        invariant gl.ops == old(gl.ops) + Pipeline.ClearAll(f).ops[..i]
        invariant velocity.Labels() == if 0 < i then Swap(f.velocity) else f.velocity
        invariant density.Labels() == if 1 < i then Swap(f.density) else f.density
        invariant divergence.Labels() == if 2 < i then Swap(f.divergence) else f.divergence
        invariant pressure.Labels() == if 3 < i then Swap(f.pressure) else f.pressure
      {
        ClearBuffer(buffers[i]);
      }
    }
  }

  /**
   * The seven passes of `init`, in its order, each over the shader of its
   * name (the two displays with the `basic` vertex shader) and declaring
   * its uniforms.
   */
  method NewPasses(shaders: map<string, Option<string>>)
    returns (advect: Renderer, mouse: Renderer, divergence: Renderer, jacobi: Renderer, gradient: Renderer,
             scalarDisplay: Renderer, vectorDisplay: Renderer)
    ensures advect.Valid() && mouse.Valid() && divergence.Valid() && jacobi.Valid()
    ensures gradient.Valid() && scalarDisplay.Valid() && vectorDisplay.Valid()
    ensures advect.schema == AdvectSchema && mouse.schema == MouseSchema
    ensures divergence.schema == DivergenceSchema && jacobi.schema == JacobiSchema
    ensures gradient.schema == GradientSchema && scalarDisplay.schema == ScalarDisplaySchema
    ensures vectorDisplay.schema == VectorDisplaySchema
    ensures advect.program == Program(Shader(shaders, "advect"), None)
    ensures mouse.program == Program(Shader(shaders, "mouse"), None)
    ensures divergence.program == Program(Shader(shaders, "divergence"), None)
    ensures jacobi.program == Program(Shader(shaders, "jacobiscalar"), None)
    ensures gradient.program == Program(Shader(shaders, "gradient"), None)
    ensures scalarDisplay.program == Program(Shader(shaders, "scalardisplay"), Vertex(Shader(shaders, "basic")))
    ensures vectorDisplay.program == Program(Shader(shaders, "vectordisplay"), Vertex(Shader(shaders, "basic")))
  {
    scalarDisplay := new Renderer(ScalarDisplaySchema, Shader(shaders, "scalardisplay"), Shader(shaders, "basic"));
    vectorDisplay := new Renderer(VectorDisplaySchema, Shader(shaders, "vectordisplay"), Shader(shaders, "basic"));
    mouse := new Renderer(MouseSchema, Shader(shaders, "mouse"), None);
    advect := new Renderer(AdvectSchema, Shader(shaders, "advect"), None);
    gradient := new Renderer(GradientSchema, Shader(shaders, "gradient"), None);
    divergence := new Renderer(DivergenceSchema, Shader(shaders, "divergence"), None);
    jacobi := new Renderer(JacobiSchema, Shader(shaders, "jacobiscalar"), None);
  }

  /** The two targets of one double buffer, read then write, of the grid's size. */
  function CreatePair(p: Pair): seq<Op>
  {
    [Create(p.read, GridCellsX, GridCellsY), Create(p.write, GridCellsX, GridCellsY)]
  }

  /** The eight targets `init` creates, read then write for each field in declaration order. */
  function Creates(f: Fields): seq<Op>
  {
    CreatePair(f.velocity) + CreatePair(f.density) + CreatePair(f.divergence) + CreatePair(f.pressure)
  }

  /** One field's double buffer over two fresh targets of the grid's size; every existing target is kept. */
  method NewField(gl: Backend) returns (b: DoubleBuffer)
    requires gl.Valid()
    modifies gl
    ensures gl.Valid() && fresh(b)
    ensures Ids(b.Labels()) !! old(gl.contents).Keys && b.read != b.write
    ensures gl.contents.Keys == old(gl.contents).Keys + Ids(b.Labels())
    ensures forall id :: id in old(gl.contents) ==> gl.contents[id] == old(gl.contents)[id]
    ensures Usable(gl.contents, b.Labels())
    ensures gl.ops == old(gl.ops) + CreatePair(b.Labels())
  {
    b := new DoubleBuffer(gl, GridCellsX, GridCellsY);
  }

  /** The four fields' double buffers, each over two fresh targets of the grid's size. */
  method NewFields(gl: Backend) returns (velocity: DoubleBuffer, density: DoubleBuffer, divergence: DoubleBuffer, pressure: DoubleBuffer)
    requires gl.Valid()
    modifies gl
    ensures gl.Valid()
    ensures velocity != density && velocity != divergence && velocity != pressure
    ensures density != divergence && density != pressure && divergence != pressure
    ensures var f := Fields(velocity.Labels(), density.Labels(), divergence.Labels(), pressure.Labels());
      Disjoint(f) && Allocated(gl.contents, f) && gl.ops == old(gl.ops) + Creates(f)
    ensures Ids(velocity.Labels()) !! old(gl.contents).Keys && Ids(density.Labels()) !! old(gl.contents).Keys
    ensures Ids(divergence.Labels()) !! old(gl.contents).Keys && Ids(pressure.Labels()) !! old(gl.contents).Keys
  {
    ghost var ops := gl.ops;
    velocity := NewField(gl);
    ghost var v := velocity.Labels();
    density := NewField(gl);
    ghost var d := density.Labels();
    divergence := NewField(gl);
    ghost var dv := divergence.Labels();
    assert Usable(gl.contents, v) && Usable(gl.contents, d);
    pressure := NewField(gl);
    ghost var p := pressure.Labels();
    assert Usable(gl.contents, v) && Usable(gl.contents, d) && Usable(gl.contents, dv);
    Associate4(ops, CreatePair(v), CreatePair(d), CreatePair(dv), CreatePair(p));
  }

  /** Appending two sequences one after the other is appending their concatenation. */
  lemma Associate<T>(o: seq<T>, a: seq<T>, b: seq<T>)
    ensures o + a + b == o + (a + b)
  {
  }

  /** The same for three sequences. */
  lemma Associate3<T>(o: seq<T>, a: seq<T>, b: seq<T>, c: seq<T>)
    ensures o + a + b + c == o + (a + b + c)
  {
  }

  /** The same for four sequences. */
  lemma Associate4<T>(o: seq<T>, a: seq<T>, b: seq<T>, c: seq<T>, d: seq<T>)
    ensures o + a + b + c + d == o + (a + b + c + d)
  {
  }

  /** No other name in `files` has the table key of `name`. */
  predicate KeyUnique(files: map<string, Option<string>>, name: string)
  {
    forall other :: other in files && ShaderKey(other) == ShaderKey(name) ==> other == name
  }

  /** The table's keys are the keys of the names in `done`. */
  ghost predicate KeysOf(done: set<string>, shaders: map<string, Option<string>>)
  {
    shaders.Keys == (set name | name in done :: ShaderKey(name))
  }

  /** A name of `done` whose key no other file shares has its own text in the table. */
  ghost predicate UniqueTexts(files: map<string, Option<string>>, done: set<string>, shaders: map<string, Option<string>>)
  {
    forall name :: name in done && name in files && KeyUnique(files, name) && ShaderKey(name) in shaders ==> shaders[ShaderKey(name)] == files[name]
  }

  /** Every text in the table is the text of some name of `done` with that key. */
  ghost predicate TextsFrom(files: map<string, Option<string>>, done: set<string>, shaders: map<string, Option<string>>)
  {
    forall key :: key in shaders ==> exists name :: name in done && name in files && ShaderKey(name) == key && shaders[key] == files[name]
  }

  lemma KeysStep(done: set<string>, name: string, text: Option<string>, shaders: map<string, Option<string>>)
    requires KeysOf(done, shaders)
    ensures KeysOf(done + {name}, shaders[ShaderKey(name) := text])
  {
    assert (set n | n in done + {name} :: ShaderKey(n)) == (set n | n in done :: ShaderKey(n)) + {ShaderKey(name)};
  }

  lemma UniqueStep(files: map<string, Option<string>>, done: set<string>, name: string, shaders: map<string, Option<string>>)
    requires name in files && UniqueTexts(files, done, shaders)
    ensures UniqueTexts(files, done + {name}, shaders[ShaderKey(name) := files[name]])
  {
    var shaders' := shaders[ShaderKey(name) := files[name]];
    forall n | n in done + {name} && n in files && KeyUnique(files, n) && ShaderKey(n) in shaders'
      ensures shaders'[ShaderKey(n)] == files[n]
    {
      if n != name {
        assert ShaderKey(n) != ShaderKey(name);
      }
    }
  }

  lemma TextsStep(files: map<string, Option<string>>, done: set<string>, name: string, shaders: map<string, Option<string>>)
    requires name in files && TextsFrom(files, done, shaders)
    ensures TextsFrom(files, done + {name}, shaders[ShaderKey(name) := files[name]])
  {
    var shaders' := shaders[ShaderKey(name) := files[name]];
    forall key | key in shaders'
      ensures exists n :: n in done + {name} && n in files && ShaderKey(n) == key && shaders'[key] == files[n]
    {
      if key != ShaderKey(name) {
        var n :| n in done && n in files && ShaderKey(n) == key && shaders[key] == files[n];
        assert n in done + {name};
      } else {
        assert name in done + {name};
      }
    }
  }

  /**
   * The `loader.run` callback's table: every loaded file's text under the
   * file's name up to its first '.'. A key shared by several names holds
   * the text of one of them; a key no other name shares holds its own file's.
   */
  method ShaderTable(files: map<string, Option<string>>) returns (shaders: map<string, Option<string>>)
    ensures KeysOf(files.Keys, shaders)
    ensures UniqueTexts(files, files.Keys, shaders)
    ensures TextsFrom(files, files.Keys, shaders)
  {
    shaders := map[];
    var todo := files.Keys;
    ghost var done: set<string> := {};
    while todo != {}
      invariant todo <= files.Keys && done == files.Keys - todo
      invariant KeysOf(done, shaders) && UniqueTexts(files, done, shaders) && TextsFrom(files, done, shaders)
      decreases |todo|
    {
      var name :| name in todo;
      KeysStep(done, name, files[name], shaders);
      UniqueStep(files, done, name, shaders);
      TextsStep(files, done, name, shaders);
      shaders := shaders[ShaderKey(name) := files[name]];
      todo := todo - {name};
      done := done + {name};
    }
  }

  /** The key of a name made of a key without '.', a '.', and an extension. */
  lemma {:induction false} KeyOfFile(key: string, ext: string)
    requires '.' !in key
    ensures ShaderKey(key + "." + ext) == key
  {
    if key != [] {
      assert (key + "." + ext)[1..] == key[1..] + "." + ext;
      KeyOfFile(key[1..], ext);
    }
  }

  /** The nine keys of the fetched shader files are distinct. */
  lemma DistinctShaderKeys()
    ensures forall i, j :: 0 <= i < j < |ShaderKeys| ==> ShaderKeys[i] != ShaderKeys[j]
  {
  }

  /** The nine files the loader fetches have, in order, the nine keys of `ShaderKeys`. */
  lemma ShaderFileKeys()
    ensures |ShaderFiles| == |ShaderKeys| == 9
    ensures forall i :: 0 <= i < |ShaderFiles| ==> ShaderKey(ShaderFiles[i]) == ShaderKeys[i]
  {
    assert forall i :: 0 <= i < |ShaderKeys| ==> '.' !in ShaderKeys[i];
    forall i | 0 <= i < |ShaderFiles|
      ensures ShaderKey(ShaderFiles[i]) == ShaderKeys[i]
    {
      KeyOfFile(ShaderKeys[i], ShaderExtensions[i]);
    }
  }

  /** The programs `init` builds from a shader table. */
  function Programs(shaders: map<string, Option<string>>): Kernels
  {
    Kernels(
      Program(Shader(shaders, "advect"), None), Program(Shader(shaders, "mouse"), None),
      Program(Shader(shaders, "divergence"), None), Program(Shader(shaders, "jacobiscalar"), None),
      Program(Shader(shaders, "gradient"), None),
      Program(Shader(shaders, "scalardisplay"), Vertex(Shader(shaders, "basic"))),
      Program(Shader(shaders, "vectordisplay"), Vertex(Shader(shaders, "basic"))))
  }

  /**
   * Once every fetch has completed, the callback's table holds, under each
   * file's key, that file's text, or no text when its fetch failed.
   */
  lemma LoadedShaders(entries: seq<FileEntry>, cs: seq<Completion>, shaders: map<string, Option<string>>)
    requires |entries| == |ShaderFiles| && forall i :: 0 <= i < |entries| ==> entries[i].name == ShaderFiles[i]
    requires WellFormed(cs, |entries|) && |cs| == |entries|
    requires var files := Collected(entries, cs);
      KeysOf(files.Keys, shaders) && UniqueTexts(files, files.Keys, shaders)
    ensures forall j :: 0 <= j < |cs| ==> ShaderKeys[cs[j].index] in shaders && shaders[ShaderKeys[cs[j].index]] == Outcome(cs[j])
  {
    AllCollected(entries, cs);
    forall j | 0 <= j < |cs|
      ensures ShaderKeys[cs[j].index] in shaders && shaders[ShaderKeys[cs[j].index]] == Outcome(cs[j])
    {
      LoadedShader(entries, cs, shaders, j);
    }
  }

  /** One completion of `LoadedShaders`: its outcome is in the table under its file's key. */
  lemma LoadedShader(entries: seq<FileEntry>, cs: seq<Completion>, shaders: map<string, Option<string>>, j: int)
    requires |entries| == |ShaderFiles| && forall i :: 0 <= i < |entries| ==> entries[i].name == ShaderFiles[i]
    requires WellFormed(cs, |entries|) && 0 <= j < |cs|
    requires var files := Collected(entries, cs);
      files.Keys == (set i | 0 <= i < |entries| :: entries[i].name)
      && KeysOf(files.Keys, shaders) && UniqueTexts(files, files.Keys, shaders)
    ensures ShaderKeys[cs[j].index] in shaders && shaders[ShaderKeys[cs[j].index]] == Outcome(cs[j])
  {
    var files := Collected(entries, cs);
    var name := entries[cs[j].index].name;
    DistinctShaderFiles();
    assert forall l :: j < l < |cs| ==> cs[l].index != cs[j].index;
    CollectedLast(entries, cs, j);
    FileKeyUnique(entries, files, cs[j].index);
    assert ShaderKey(name) in (set n | n in files.Keys :: ShaderKey(n));
  }

  /** The nine file names the loader fetches are distinct. */
  lemma DistinctShaderFiles()
    ensures forall a, b :: 0 <= a < |ShaderFiles| && 0 <= b < |ShaderFiles| && a != b ==> ShaderFiles[a] != ShaderFiles[b]
  {
    ShaderFileKeys();
    DistinctShaderKeys();
    forall a, b | 0 <= a < |ShaderFiles| && 0 <= b < |ShaderFiles| && a != b
      ensures ShaderFiles[a] != ShaderFiles[b]
    {
      assert ShaderKey(ShaderFiles[a]) != ShaderKey(ShaderFiles[b]);
    }
  }

  /** In a table over the nine shader files, the `i`-th file's key is `ShaderKeys[i]` and no other file shares it. */
  lemma FileKeyUnique(entries: seq<FileEntry>, files: map<string, Option<string>>, i: int)
    requires |entries| == |ShaderFiles| && forall k :: 0 <= k < |entries| ==> entries[k].name == ShaderFiles[k]
    requires files.Keys == set k | 0 <= k < |entries| :: entries[k].name
    requires 0 <= i < |entries|
    ensures ShaderKey(entries[i].name) == ShaderKeys[i] && KeyUnique(files, entries[i].name)
  {
    ShaderFileKeys();
    DistinctShaderKeys();
    forall other | other in files && ShaderKey(other) == ShaderKey(entries[i].name)
      ensures other == entries[i].name
    {
      var k :| 0 <= k < |entries| && entries[k].name == other;
      assert ShaderKeys[k] == ShaderKeys[i];
    }
  }

  /**
   * The loading half of the start-up: the loader fetches the nine shader
   * files and, once all have completed, its callback turns the file table
   * into the shader table. `loaded` tells whether the callback ran.
   */
  method LoadShaders(cs: seq<Completion>) returns (loaded: bool, shaders: map<string, Option<string>>)
    requires WellFormed(cs, |ShaderFiles|)
    ensures loaded <==> |cs| == |ShaderFiles|
    ensures loaded ==> forall j :: 0 <= j < |cs| ==> Shader(shaders, ShaderKeys[cs[j].index]) == Outcome(cs[j])
  {
    ShaderFileKeys();
    var loader := new FileLoader(ShaderDirectory, ShaderFiles);
    ghost var entries := loader.queue;
    var calls := loader.Run(cs);
    loaded := calls != [];
    shaders := map[];
    if loaded {
      shaders := ShaderTable(calls[0]);
      LoadedShaders(entries, cs, shaders);
    }
  }

  /**
   * The start-up: once every shader file has been fetched, `init` builds the
   * simulation from the shader table. Until then there is no simulation and
   * the backend is untouched.
   */
  method Start(gl: Backend, mouse: Mouse, cs: seq<Completion>, windowWidth: Positive, windowHeight: Positive)
    returns (sim: Simulation?, shaders: map<string, Option<string>>)
    requires gl.Valid() && mouse.scale == GridScale && WellFormed(cs, |ShaderFiles|)
    modifies gl
    ensures sim != null <==> |cs| == |ShaderFiles|
    ensures sim == null ==> gl.ops == old(gl.ops) && unchanged(gl)
    ensures sim != null ==> fresh(sim) && sim.Valid() && sim.gl == gl && sim.mouse == mouse && sim.K() == Programs(shaders)
    ensures sim != null ==> gl.ops == old(gl.ops) + Creates(sim.F())
    ensures sim != null ==> sim.windowWidth == windowWidth && sim.windowHeight == windowHeight
    ensures sim != null ==> sim.timestep == 1.0 && sim.dissipation == 1.0 && sim.radius == 0.2 && !sim.pause && sim.slab == "velocity"
    ensures sim != null ==> forall j :: 0 <= j < |cs| ==> Shader(shaders, ShaderKeys[cs[j].index]) == Outcome(cs[j])
  {
    var loaded;
    loaded, shaders := LoadShaders(cs);
    sim := null;
    if loaded {
      sim := new Simulation(gl, mouse, shaders, windowWidth, windowHeight);
    }
  }

  /** A vertex program is attached only when its text is present and non-empty. */
  function Vertex(vs: Option<string>): (v: Option<string>)
    ensures v.Some? <==> vs.Some? && vs.value != ""
    ensures v.Some? ==> v == vs
  {
    if vs.Some? && vs.value != "" then vs else None
  }
}
