# FluidsGL pipeline model

FluidsGL runs a 2D fluid simulation on the GPU. Each frame it advects velocity and density, injects mouse forces, and projects the velocity field to be divergence free. The projection clears pressure, computes divergence, runs 50 Jacobi rounds and subtracts the pressure gradient. Last, it draws one field to the screen. The numerical work happens inside fragment shaders. This model covers the bookkeeping around those shaders:
- the double buffers whose `read`/`write` labels swap after every pass;
- the pass runner that re-resolves its bindings on every round;
- the fixed order of the passes within a frame, and how `pause` gates them;
- the mouse's event state machine;
- the file loader that fetches the shaders and hands the shader table to `init`.

The GPU is modelled as a backend (`Gl.Backend`) holding render targets as abstract ids. The backend records every operation in a log: creating a target, clearing one, or drawing a full-screen pass. For each target it also keeps what the last operation left in it. A draw is known only by its program, the uniform values bound to it and its target.

The model has two layers:
- **Pure stages:** `Pipeline.Advect`, `Forces`, `Project`, `Step`, `Display` and `ClearAll` describe what each stage of main.js issues, given the labels of the four fields.
- **Imperative methods:** the methods of `Fluid.Simulation` are the main.js functions, written over the classes `DoubleBuffer`, `Renderer`, `Mouse` and `Backend`. Each method is proved to issue exactly its stage's operations and to leave its stage's labels.

Separate lemmas then state the properties:
- the stage order and the gating by `pause`;
- how many times each field flips;
- that no draw binds the target it writes;
- that the Jacobi rounds chain from a cleared guess;
- the mode switch of the display;
- what the clear button leaves behind.

Files:
- `wrappers.dfy`: `Option`, which stands for JavaScript's `undefined`.
- `gl.dfy`: the backend (three.js's `WebGLRenderer` and render targets).
- `doublebuffer.dfy`: `DoubleBuffer` (doublebuffer.js).
- `renderer.dfy`: `Renderer` and its `render` (renderer.js).
- `mouse.dfy`: `Mouse` (mouse.js).
- `fileloader.dfy`: `FileLoader` (fileloader.js).
- `pipeline.dfy`: the pure per-frame stages and their lemmas (main.js).
- `fluid.dfy`: the application state and its functions (main.js).

Three behaviours of the code are worth stating, because a cleaner design would differ:
- **Binding validation:** bindings are not checked against a pass's declared uniforms. A declared uniform left unbound keeps its previous value. Binding an undeclared name would throw, and no call in main.js does so.
- **Velocity display:** the velocity view binds only `read`, with no bias or scale.
- **Last position:** the mouse's last position is updated on every move, whether or not a button is held.

## Model

| member | source | states |
|---|---|---|
| DoubleBuffers.DoubleBuffer.constructor | doublebuffer.js:9-14 | `read` and `write` are two distinct, freshly created targets of the requested size; `write` is a clone of `read`; both start zero; the backend log gains exactly the two creations |
| DoubleBuffers.DoubleBuffer.Flip | doublebuffer.js:21-25 | the labels are exchanged; no target is touched (only the buffer object is modified) |
| DoubleBuffers.DoubleBuffer.Clear | doublebuffer.js:28-33 | the log gains one clear of the old `write`; afterwards `read` is that target, zeroed, and `write` is the old `read` with its contents untouched; nothing else changes and `read != write` is kept |
| DoubleBuffers.FlipParity | doublebuffer.js:21-25 | `n` flips give the original labels when `n` is even and the swapped labels when it is odd |
| DoubleBuffers.FlipRestoresIffEven | doublebuffer.js:21-25 | for two distinct targets, `n` flips restore the pairing if and only if `n` is even, and swap it if and only if `n` is odd |
| DoubleBuffers.FlipsCompose | doublebuffer.js:21-25 | `a` flips followed by `b` flips are `a + b` flips |
| Renderers.Renderer.constructor | renderer.js:9-33 | the pass holds the given fragment program and declared uniforms, with no values yet; the vertex program is attached exactly when a non-empty one was given |
| Renderers.Renderer.Render | renderer.js:46-70 | the log gains exactly `max(iterations, 0)` draws as `PassOps` describes them; the output has flipped once per round when `flip` holds and not at all otherwise; uniforms not bound keep their values; with `iterations <= 0` nothing is drawn or changed |
| Renderers.Renderer.Rounds | renderer.js:50-69 | the loop issues round `k`'s draw with the bindings resolved against the output's labels at round `k`, and leaves the uniform table as the last round set it |
| Renderers.Renderer.BindRound | renderer.js:52-58 | binding round `k + 1` replaces every value that round `k` set |
| Renderers.Renderer.DrawRound | renderer.js:60-68 | one draw to the output's current `write` target, or to the screen, followed by a flip when asked |
| Renderers.Renderer.BindUniforms | renderer.js:52-58 | each bound name gets its binding's current value, where a double buffer stands for its current `read` target; every other uniform keeps its value |
| Renderers.LiveIsResolved | renderer.js:52-58 | as long as only the output has flipped, the bindings' current values are the call's arguments resolved against the output's current labels |
| Renderers.PassOpsAt | renderer.js:50-69 | a pass of `n` rounds issues exactly `n` draws, and the `k`-th is round `k`'s draw |
| Renderers.BaseIrrelevant | renderer.js:52-58 | when every declared uniform is bound, the draws do not depend on values left over from earlier calls |
| Renderers.PassIsHazardFree | renderer.js:54-64 | when the output's two targets differ and no other binding names them, no round binds the target it writes: the output as input resolves to `read` while the draw goes to `write` |
| Renderers.SelfTargetChain | renderer.js:50-64 | in a flipping pass that binds its own output, round 0 reads the original `read`, every later round reads what the round before wrote, and the targets alternate starting with `write` |
| Renderers.NoFlipSameTarget | renderer.js:60-64 | without flipping, every round draws into the same `write` target with the same values |
| Renderers.ScreenOnly | renderer.js:65-68 | without an output, every round draws to the screen |
| Renderers.Overwrite | renderer.js:52-58 | binding the same names again replaces every value the earlier binding set |
| MouseInput.Clamp | mouse.js:63-64 | `min(max(v, -r), r)` lies in `[-r, r]`; it equals `v` inside the range and the nearer bound outside it |
| MouseInput.Drag | mouse.js:59-65 | the movement is clamped componentwise into `[-scale, scale]` and is exact when already inside |
| MouseInput.Mouse.constructor | mouse.js:9-18 | no button held, the pointer at the origin, no motion queued |
| MouseInput.Mouse.MouseDown | mouse.js:32-37 | the position becomes the event's; button 0 sets `left`, button 2 sets `right`, any other button leaves both alone; nothing is queued |
| MouseInput.Mouse.MouseUp | mouse.js:40-46 | button 0 clears `left`, button 2 clears `right`; the position and the queue are unchanged |
| MouseInput.Mouse.MouseMove | mouse.js:49-83 | with a button held, exactly one motion is appended, carrying the flags, the clamped drag from the last position and the new position; with none held, nothing is queued; in both cases the position becomes the event's; every queued drag stays within the scale |
| FileLoading.Outcome | fileloader.js:53-58 | a completion leaves a text exactly when its status is 200, and then it is the response text |
| FileLoading.CollectedKeys | fileloader.js:39-43 | the result table holds exactly the names of the entries whose fetch has completed |
| FileLoading.CollectedLast | fileloader.js:41 | the value under a name is the outcome of the last completion for that name: a later completion overwrites an earlier one |
| FileLoading.IndicesCount | fileloader.js:36-43 | completions of distinct fetches name as many queue entries as there are completions |
| FileLoading.Pigeonhole | fileloader.js:36-47 | at most `n` fetches of `n` queued files complete, and once `n` have, every entry has |
| FileLoading.AllCollected | fileloader.js:36-47 | once every fetch has completed, the table is keyed by exactly the queued names |
| FileLoading.Complete | fileloader.js:36-61 | the callback runs exactly once, with the full table, on the completion that brings the count to zero; it never runs before then, and never for an empty queue |
| FileLoading.FileLoader.constructor | fileloader.js:9-25 | one queue entry per name, in order, with the URL `path + "/" + name` |
| FileLoading.FileLoader.Run | fileloader.js:32-73 | the queue is emptied; the callback receives the table of the queued files exactly once, and only after all have completed |
| Pipeline.Pass | renderer.js:50-69 | a pass of `n` rounds into a double buffer issues `n` draws; a single round is one draw into `write`, binding the output as its `read` |
| Pipeline.ShaderKey | main.js:331 | the key is the prefix of the name up to its first '.': it contains no '.', and the name continues with '.' when it is longer |
| Pipeline.ForceEffect | main.js:200-224 | one motion flips velocity exactly when the left button was held and density exactly when the right one was, with one mouse splat per flip |
| Pipeline.ForcesEffect | main.js:186-227 | the forces stage flips velocity once per left-button motion and density once per right-button motion, issues only mouse splats, one per flip, and leaves divergence and pressure alone |
| Pipeline.ForceDraws | main.js:195-224 | a left-button motion splats `(drag.x, -drag.y, 0)` into velocity; then a right-button motion splats white into density; both at the motion's grid point with the brush radius, each reading the target it flips away from |
| Pipeline.StepFlips | main.js:266-275 | an unpaused step flips velocity `left + 2` times, density `right + 1` times, divergence once and pressure 51 times, which leaves pressure swapped; a paused step flips only what the forces flip |
| Pipeline.ProjectOrder | main.js:230-263 | `project` issues the clear of pressure's `write` target, one divergence draw, 50 Jacobi draws and one gradient draw, in that order |
| Pipeline.Sequenced | main.js:266-275 | the two advection draws, the splats and the projection, concatenated, have the shape of a step |
| Pipeline.StepOrder | main.js:266-275 | an unpaused step issues two advection draws, then the splats, then the projection; a paused step issues only the splats |
| Pipeline.FlipKeepsIds | doublebuffer.js:21-25 | flipping moves the labels, never the targets, and keeps them distinct |
| Pipeline.AdvectHazardFree | main.js:159-183 | with eight distinct targets, neither advection draw binds the target it writes, and the targets stay distinct |
| Pipeline.ForcesHazardFree | main.js:186-227 | the same for every splat of the forces stage |
| Pipeline.ProjectHazardFree | main.js:230-263 | the same for the divergence, Jacobi and gradient draws |
| Pipeline.StepHazardFree | main.js:266-275 | the same for a whole step, paused or not, so that it also holds for the next frame |
| Pipeline.JacobiRelaxes | main.js:244-252 | the first Jacobi round reads the target the clear zeroed, each later round reads what the round before it wrote, and the rounds alternate between the two pressure targets |
| Pipeline.JacobiStartsFromZero | main.js:232-241 | when the first Jacobi round runs, the target it reads holds zero: the divergence draw in between wrote elsewhere |
| Pipeline.DisplayShows | main.js:290-318 | `render` issues one draw to the screen for each of the four field names and none for any other name. Velocity uses the vector display. Density uses the scalar display with bias 0 and scale 1. Divergence and pressure use bias 0.5 and scale 0.5 |
| Pipeline.ClearAllZeroes | main.js:148-152 | after the clear button, every field's `read` target holds zero, its `write` target is its former `read` target, untouched, and no target is added or lost |
| Pipeline.GridPointInGrid | main.js:195-198 | a position inside the window maps inside the grid |
| Fluid.Simulation.constructor | main.js:54-145 | `init` builds the seven passes over the shaders of their names. The displays get the `basic` vertex shader. It creates the four fields' double buffers of the grid's size, in declaration order. The parameters take their initial values. The state is valid: eight distinct live targets, every pass declares its uniforms, and the mouse clamps drags to the grid scale the passes bind |
| Fluid.NewPasses | main.js:66-137 | the seven passes, each over the shader of its key, declaring its uniforms |
| Fluid.NewField | main.js:141-144 | one double buffer over two distinct targets that did not exist before, of the grid's size; every existing target is kept as it was |
| Fluid.NewFields | main.js:140-145 | four distinct double buffers over eight distinct targets of the grid's size, none of which existed before, created in order |
| Fluid.Simulation.AdvectInto | main.js:161-182 | one advection draw into the given field, with velocity as the carrier, followed by one flip of that field |
| Fluid.Simulation.Advect | main.js:159-183 | `advect` issues exactly `Pipeline.Advect`'s two draws: velocity into itself with dissipation 1, then density carried by the new velocity with the tunable dissipation |
| Fluid.Simulation.ToGrid | main.js:195-198 | the motion's client position as a grid position, y flipped |
| Fluid.Simulation.Push | main.js:203-223 | one mouse splat of the given colour into the given field, followed by a flip |
| Fluid.Simulation.Splat | main.js:193-224 | one queued motion issues exactly `Force`'s splats, left before right |
| Fluid.Simulation.SplatAll | main.js:192-225 | the loop over the queue issues exactly `Forces`'s splats, in queue order |
| Fluid.Simulation.AddForces | main.js:186-227 | `addForces` issues the splats of every queued motion in order, then empties the queue; the button flags and the position are unchanged |
| Fluid.Simulation.ComputeDivergence | main.js:235-241 | one divergence draw of velocity's `read` target into the divergence field, followed by a flip |
| Fluid.Simulation.SolvePressure | main.js:244-252 | 50 Jacobi draws on pressure against divergence's `read` target, with alpha `-scale*scale` and beta 4, flipping after each |
| Fluid.Simulation.SubtractGradient | main.js:255-262 | one gradient draw of pressure into velocity, followed by a flip |
| Fluid.Simulation.Project | main.js:230-263 | `project` issues exactly `Pipeline.Project`'s operations and leaves its labels |
| Fluid.Simulation.Simulate | main.js:266-275 | an unpaused step issues advection, forces and projection, exactly as `Pipeline.Step` does, and leaves its labels; it empties the queue and keeps the mouse's flags and position |
| Fluid.Simulation.Step | main.js:266-275 | `step` issues exactly `Pipeline.Step`'s operations for the current `pause` and leaves its labels; it empties the queue and keeps the mouse's flags and position |
| Fluid.Simulation.ClearBuffer | main.js:150 | clearing one field logs one clear of its `write` target and swaps its labels |
| Fluid.Simulation.ShowScalar | main.js:296-315 | one scalar display draw of the field's `read` target to the screen, with the given bias and scale |
| Fluid.Simulation.Render | main.js:290-318 | `render` issues exactly `Display`'s operations for the current mode, and flips nothing |
| Fluid.Simulation.Update | main.js:278-287 | one frame issues the step's operations, then the display of the labels the step left; the labels after the frame are the step's; the queue is emptied and the mouse's flags and position are kept |
| Fluid.Simulation.ClearAll | main.js:148-152 | the clear button clears velocity, density, divergence and pressure in that order, exactly as `Pipeline.ClearAll` describes |
| Fluid.ShaderTable | main.js:329-332 | the table's keys are the files' keys; a key that no other file shares holds its own file's text; every entry is the text of some file with that key |
| Fluid.KeyOfFile | main.js:331 | a name made of a key without '.', a '.' and an extension has that key |
| Fluid.ShaderFileKeys | main.js:321-325 | the nine files fetched have, in order, the nine keys of `ShaderKeys` (`init` reads eight of them; `jacobivector` is fetched but unused) |
| Fluid.DistinctShaderKeys | main.js:321-325 | the nine keys of the fetched files are distinct, so no shader shadows another |
| Fluid.DistinctShaderFiles | main.js:321-325 | the nine file names fetched are distinct, so no completion overwrites another file's entry |
| Fluid.LoadedShaders | main.js:328-333 | once every fetch has completed, the shader table holds, under each file's key, that file's text, or no text when its fetch failed |
| Fluid.LoadShaders | main.js:320-332 | the loader's callback runs exactly when all nine fetches have completed, and the table it builds holds each completed fetch's outcome under the file's key |
| Fluid.Start | main.js:320-334 | there is no simulation until all nine fetches complete, and until then the backend is untouched. Then `init` builds a valid simulation from the table's shaders. It logs exactly the eight creations of the fields' targets, and starts with the initial parameters (timestep 1, dissipation 1, radius 0.2, unpaused, showing velocity) |

## Left out
- Shader numerics: the GLSL programs and all floating-point work on the GPU are external. A draw is an uninterpreted operation on its bound values.
- three.js: render targets and their options, materials, scenes, cameras and the renderer's settings are abstracted. The backend keeps a log of operations and the contents of each target. The `make` helpers' option records and the renderer's unused `PlaneBufferGeometry` are not modelled.
- Network I/O: `XMLHttpRequest`, asynchronous delivery and `onerror` are left out. The completions the browser delivers are given as a sequence of events. A fetch that never completes simply never appears in it.
- DOM plumbing is left out: `addEventListener`, `preventDefault`, the context-menu handler, the canvas, `Stats` and the `dat.GUI` controls. This includes the slider ranges of the parameters.
- `requestAnimationFrame` scheduling is left out. `Fluid.Simulation.Update` is one frame.
- The window size is a parameter, required to be positive. A window of zero size would divide by zero in the source.
- Shared vector objects: the source reuses the `point`, `force` and `color` objects across the calls of one frame and binds them by reference. Each draw consumes them immediately, so they are modelled as values.
- Renderers.Renderer.Render: requires every bound name to be declared by the pass. The source would throw for an undeclared name, and no call in main.js binds one.
- Fluid.ShaderTable: for several files sharing a key, it does not say which file's text wins. The source's `for ... in` order decides that. The nine files of main.js have distinct keys, so this never arises.
- Exact coordinates: client and grid coordinates are exact reals, not JavaScript doubles. The drag subtraction (mouse.js:59-60) and the scaling to the grid (main.js:197-198) are exact in the model, and the source's rounding is not modelled.
- Mouse creation: the mouse is created before `init` from the same grid whose scale the passes bind (main.js:34, main.js:51). It is passed to the simulation rather than created by it. `Fluid.Simulation.constructor` and `Fluid.Start` require its scale to be `GridScale`, and `Fluid.Simulation.Valid` keeps that link.
