# IntenseLogic demos: physics space, debug lines, render pipeline, start-up

This Dafny project models four pieces of the IntenseLogic demo programs:

- **`Bullet` (BulletSpace.dfy)**: the bouncing-lights physics space.
  - Bodies live in parallel containers (`bodies`, `trans`, `scale`) indexed by a `BodyID` handle.
  - Freed handles go on a LIFO free list and are handed out again by `Add`.
  - `ObjectMatrices` and `ViewMatrix` compose one matrix per request from a bit mask. The order is fixed: seed (projection or identity), view rotation, view translation, model translation, model rotation, model scale. Inverse, then transpose, apply to the whole product.
- **`Matrix` (Matrix.dfy)**: matrices are terms of a free datatype (`Identity`, `Mul`, `Invert`, `Transpose`, `Translate`, `Rotate`, `Scale`, `Perspective`). The model therefore states *which* factors appear and in *what order*, not float values. `ObjMat`/`ViewMat` are the reference compositions. `Factors`/`Product` state the same thing independently, as a list of enabled factors.
- **`Debug` (DebugDraw.dfy)**: the physics debug-line drawer.
  - It keeps an append-only vertex buffer that `Begin` clears and every line callback extends by two vertices.
  - It also holds the debug mode.
  - Its graphics-driver calls are recorded in a `calls` trace.
- **`Graphics` (Graphics.dfy)**: the deferred-rendering pipeline object.
  - `Init` is a two-state lifecycle: the first call creates the render manager, a re-entry frees the owned passes first. It then runs a build chain that stops at its first failure.
  - `Draw` emits one frame: window policy, a resize only when the window size changed, the per-frame matrix requests, then the passes in a fixed order.
  - Every pass runs inside a named debug group, the registered drawables come in list order, and the frame ends with one buffer swap.
  - Every engine, driver and window call is an `Event` appended to `trace`.
- **`Demo` (Demo.dfy)**: `demoLoad`, the start-up shared by the demos.
  - The parsed options are applied to the global settings: data directories, shader path, ShaderToy shader, floating-point trapping.
  - `-h`/`-v` exit with their text.
  - The help screen is formatted from the help table.

Results that come from code outside the model (whether an image loads or a shader builds, the window size, the physics world's substep count and motion states, a material id) come in as parameters. Text a demo prints is returned as a string.

Points where the model follows the code:

- The view-rotation term is a rotation by the camera's stored orientation, not by its inverse (`bulletspace.cpp` lines 15-17 and 47-48).
- A slot that `Add` appends gets a default-constructed transform, whose contents are indeterminate. It is not the identity. Only `Del` resets a slot to the identity.
- The help table's argument markers are indexed in the order the argument kinds are declared, so a required argument prints as `[=arg]`.
- `ILG_VP` is taken to be projection, view rotation and view translation. `graphics/transform.h` is not part of this model.
- An option matches an entry when `il_string_cmp` reports the names equal, that is, when the name equals the entry's short or long name.

## Model

| member | source | states |
|---|---|---|
| Matrix.Factors | src/bouncing-lights/bulletspace.cpp:39-45 | The factor list always starts with the seed: the projection when its bit is set, else the identity |
| Matrix.ObjMatIsProductOfFactors | src/bouncing-lights/bulletspace.cpp:38-78 | A composed matrix is the left-to-right product of exactly the enabled factors, in the fixed order, with invert and transpose applied to the whole product |
| Matrix.PostFlagsWrapWholeProduct | src/bouncing-lights/bulletspace.cpp:73-78 | With both bits the result is transpose(invert(M)), M being the unflagged composition; with one bit, only that operation is applied; with neither bit, the result is M |
| Matrix.InversionsOfObjMat | src/bouncing-lights/bulletspace.cpp:38-78 | A composed matrix holds exactly one inversion when the Inverse bit is set (plus any inside the projection seed): inversion is never applied per term |
| Matrix.ViewMatIsObjMatWithoutModel | src/bouncing-lights/bulletspace.cpp:11-34 | viewmat is the per-object composition with the model bits cleared: same order, no dependence on any object |
| Matrix.ModelTranslationOnly | src/bouncing-lights/bulletspace.cpp:61-64 | A model-translation-only request gives the identity times the translation by the object's position |
| Matrix.ViewMatIgnoresCameraPosition | src/bouncing-lights/bulletspace.cpp:19-26 | Without the view-translation bit, the camera position has no influence on the result |
| Bullet.BodyID.Value | src/bouncing-lights/bulletspace.hpp:33-37 | Wrapping the returned value gives back the same handle |
| Bullet.Resize | src/bouncing-lights/bulletspace.cpp:121-122 | Vector resize: the result has the new length, keeps the old entries and pads with the fill value |
| Bullet.BulletSpace.constructor | src/bouncing-lights/bulletspace.cpp:102-108 | A new space has empty containers and free list, and satisfies the parallel-container invariant |
| Bullet.BulletSpace.Add | src/bouncing-lights/bulletspace.cpp:110-124 | With a non-empty free list it returns the last freed handle and pops it, replaces that body and keeps every container length. Otherwise it returns the old body count, appends the body and scale (1,1,1), keeps the old transforms and keeps the containers parallel. Either way it adds the body to the world |
| Bullet.BulletSpace.Del | src/bouncing-lights/bulletspace.cpp:126-131 | An out-of-range handle is refused and nothing changes. Otherwise the handle is pushed on the free list, its transform is reset to identity and the body is removed from the world. Bodies and scales are untouched |
| Bullet.BulletSpace.Step | src/bouncing-lights/bulletspace.cpp:133-143 | Steps the world once, then every transform slot holds its body's motion-state transform; returns the world's substep count |
| Bullet.BulletSpace.SetBodyScale | src/bouncing-lights/bulletspace.hpp:52-54 | Sets exactly one scale entry and changes nothing else |
| Bullet.BulletSpace.ViewMatrix | src/bouncing-lights/bulletspace.cpp:11-34 | The imperative viewmat returns the reference camera-only composition ViewMat |
| Bullet.BulletSpace.SeedStage | src/bouncing-lights/bulletspace.cpp:39-45 | The two seed loops leave the projection (bit set) or the identity (bit clear) in every requested slot and touch nothing past count |
| Bullet.BulletSpace.Stage | src/bouncing-lights/bulletspace.cpp:46-78 | One stage loop applies its term to every requested slot exactly when its bit is set and touches nothing past count |
| Bullet.BulletSpace.StagedIsComposition | src/bouncing-lights/bulletspace.cpp:36-79 | After all seven stages, a slot holds the reference ObjMat of its handle, or ViewMat when no model bit is set |
| Bullet.BulletSpace.AllStagesComposed | src/bouncing-lights/bulletspace.cpp:36-79 | Every slot that went through all stages holds the requested matrix |
| Bullet.BulletSpace.ObjectMatrices | src/bouncing-lights/bulletspace.cpp:36-79 | For every i below count, out[i] is the reference composition for handle i; slots past count are unchanged |
| Bullet.DeleteThenAddReusesSlot | src/bouncing-lights/bulletspace.cpp:110-131 | del(h) then add, with no step between, returns h (LIFO reuse): the slot holds an identity transform and keeps its old scale, and the free list is as before |
| Bullet.DeleteStepAddKeepsStaleTransform | src/bouncing-lights/bulletspace.cpp:110-143 | A step between del(h) and the add that reuses h overwrites the identity del wrote: the slot holds the motion-state transform the step copied |
| Bullet.DoubleDeleteAliases | src/bouncing-lights/bulletspace.cpp:126-131 | Deleting h twice is not detected: the next two adds both return h, so two registrations share one slot |
| Debug.DebugDraw.constructor | src/bouncing-lights/debugdraw.hpp:24-29 | A new drawer has an empty buffer, debug mode DBG_DrawAabb and no render manager |
| Debug.DebugDraw.Begin | src/bouncing-lights/debugdraw.hpp:36-38 | The line buffer is empty afterwards |
| Debug.DebugDraw.DrawLine | src/bouncing-lights/debugdraw.cpp:63-67 | Appends exactly Vertex(from, color) then Vertex(to, color); earlier contents unchanged |
| Debug.DebugDraw.DrawGradientLine | src/bouncing-lights/debugdraw.cpp:69-73 | Appends exactly Vertex(from, fromColor) then Vertex(to, toColor); earlier contents unchanged |
| Debug.DebugDraw.ReportErrorWarning | src/bouncing-lights/debugdraw.cpp:75-78 | Logs the message with the "bullet: " prefix; buffer and mode unchanged |
| Debug.DebugDraw.Draw3dText | src/bouncing-lights/debugdraw.cpp:80-83 | Changes nothing |
| Debug.DebugDraw.DrawContactPoint | src/bouncing-lights/debugdraw.cpp:95-98 | Changes nothing |
| Debug.DebugDraw.SetDebugMode | src/bouncing-lights/debugdraw.cpp:85-88 | The mode afterwards is the one given |
| Debug.DebugDraw.GetDebugMode | src/bouncing-lights/debugdraw.cpp:90-93 | Returns the current mode |
| Debug.DebugDraw.Build | src/bouncing-lights/debugdraw.cpp:36-61 | Records the render manager first. Returns true exactly when the material is created. On failure, the material request is the only call and no buffers are created. On success, the uniform location and the vertex buffer and array are set up |
| Debug.DebugDraw.Draw | src/bouncing-lights/debugdraw.cpp:17-29 | Uploads the buffer and draws exactly lines.size() vertices as lines; the buffer is not modified |
| Debug.DebugDraw.Free | src/bouncing-lights/debugdraw.cpp:31-34 | Deletes the line material |
| Debug.Deliver | src/bouncing-lights/debugdraw.cpp:63-98 | Delivering one callback to the drawer leaves its buffer and mode exactly as the callback replay LinesAfter and ModeAfter say |
| Debug.DeliverAll | src/bouncing-lights/debugdraw.cpp:63-98 | Delivering a callback sequence in order leaves the buffer and mode as the replay says, so every replay lemma holds of the drawer itself |
| Debug.LinesAfterAppends | src/bouncing-lights/debugdraw.cpp:63-73 | Any callback sequence only appends: old contents stay in place and the buffer grows by two vertices per line callback |
| Debug.LinesFromBeginAreEven | src/bouncing-lights/debugdraw.cpp:63-73 | Starting from Begin, the buffer length is twice the number of line callbacks, hence even |
| Debug.ModeIsLastSet | src/bouncing-lights/debugdraw.cpp:85-93 | After any callback sequence, the mode is the last one set |
| Debug.NoSetModeKeepsMode | src/bouncing-lights/debugdraw.cpp:75-98 | Callbacks other than setDebugMode never change the mode |
| Debug.SetThenGetMode | src/bouncing-lights/debugdraw.cpp:85-93 | setDebugMode(m) followed by getDebugMode() returns m and leaves the buffer unchanged |
| Graphics.Drawable.Name | src/Graphics.h:37-39 | A drawable's name is "Untitled" unless overridden |
| Graphics.Graphics.constructor | src/Graphics.h:65-69 | A new pipeline is not initialised, has no drawables and has made no calls |
| Graphics.Graphics.AddDrawable | src/Graphics.h:65 | A registered drawable goes at the end of the list |
| Graphics.Graphics.Free | src/Graphics.cpp:11-22 | Releases box, ico, skybox, ambient, sun, point and tonemapper in that order and clears the initialised flag |
| Graphics.Graphics.LoadSkyFaces | src/Graphics.cpp:42-64 | Loads the six faces in order. It succeeds exactly when all load, and the trace is the face-loading trace, which stops at and logs the first failure |
| Graphics.Graphics.BuildPasses | src/Graphics.cpp:65-95 | Runs skybox, ambient, sunlighting, lighting, tonemapper. It succeeds exactly when all build, and the trace is the build-chain trace, which stops at and logs the first failure |
| Graphics.Graphics.Init | src/Graphics.cpp:24-96 | Frees first when already initialised, otherwise creates the render manager and floating space. Sets the flag before any fallible step, so it stays set on failure. Returns true exactly when every face loads and every step builds. Stores the 800x600 size |
| Graphics.Graphics.Draw | src/Graphics.cpp:98-176 | Emits exactly the frame trace: the resize events appear exactly when the window size differs from the stored size. Stores the window size and sets the projection from the state's fov, near and far |
| Graphics.Graphics.RunPasses | src/Graphics.cpp:142-170 | Emits each pass of the frame, in order, inside its named debug group, with the drawables visited in list order |
| Graphics.ChainAllSucceed | src/Graphics.cpp:67-95 | When every step succeeds, the chain builds every step, in order, and logs nothing |
| Graphics.ChainStopsAtFirstFailure | src/Graphics.cpp:67-95 | The first failing step is attempted and logged under its label; no later step is attempted |
| Graphics.FacesAllLoad | src/Graphics.cpp:54-61 | When every face loads, the loop loads all six files in order and logs nothing |
| Graphics.FacesStopAtFirstFailure | src/Graphics.cpp:54-61 | The first face that fails is loaded and logged; no later face is attempted |
| Graphics.FaceFailureSkipsBuilds | src/Graphics.cpp:62-65 | When a face fails, Init ends after the faces: no cubemap upload, no build step |
| Graphics.InitHeadFrees | src/Graphics.cpp:26-31 | The head of Init releases the seven owned resources when already initialised, and none otherwise |
| Graphics.BuildEvent | src/Graphics.cpp:67-95 | A build event records the sample count for the sunlighting, lighting and tonemapper builds only; the skybox and ambient builds take none |
| Graphics.FacesBuildNothing | src/Graphics.cpp:54-61 | The face-loading loop builds no pass, whatever the loads return |
| Graphics.ReinitAfterFailedFacesReleasesAgain | src/Graphics.cpp:24-96 | When a face fails, Init builds no pass, yet the next Init releases all seven owned resources; after two such calls each resource has been released twice |
| Graphics.InitReleasesOnce | src/Graphics.cpp:24-96 | Over a whole Init, each owned resource is released exactly once when already initialised, and never otherwise. The release comes first |
| Graphics.PassesBalanced | src/Graphics.cpp:142-144 | A sequence of grouped passes has balanced debug-group pushes and pops |
| Graphics.FrameGroupOrder | src/Graphics.cpp:146-170 | A frame's groups are Geometry, Skybox, each drawable's name in list order, Ambient Lighting, Sunlights, Point Lights, Tone Mapping |
| Graphics.FrameBalanced | src/Graphics.cpp:142-171 | A frame's debug-group pushes and pops are balanced: depth never negative, zero at the end |
| Graphics.FrameDrawsInOrder | src/Graphics.cpp:152-156 | Each registered drawable is drawn exactly once per frame, in list order |
| Graphics.FrameSwapsOnce | src/Graphics.cpp:171 | A frame swaps exactly once |
| Graphics.FrameEndsWithSwap | src/Graphics.cpp:171 | The swap is the last event of a frame |
| Graphics.PrologueResizes | src/Graphics.cpp:104-109 | The frame prologue resizes the render manager once, to the window size, when asked to, and never otherwise |
| Graphics.ResizeOnlyOnChange | src/Graphics.cpp:104-109 | A frame resizes exactly when width or height differ from the stored size; an unchanged size causes no resize |
| Graphics.DefaultFrame | src/Graphics.cpp:146-171 | With the default state and no drawables, the frame's work is geometry, skybox, ambient, sun, point and tone mapping in that order, followed by one swap |
| Graphics.LightAndSkyboxMatrices | src/Graphics.cpp:112-124 | The skybox matrix ignores the camera position. The light masks give (P·VR)⁻¹, VT·MT and P·VR·VT·MT. This rests on the floating space composing its factors the way `Matrix.ObjMat` does; the floating space is not part of this model |
| Graphics.MatVector.Elements | src/Graphics.cpp:185 | A vector's elements are the first size entries of its storage |
| Graphics.Reserve | src/Graphics.cpp:186 | reserve(n) makes room for at least n matrices and changes neither the size nor the elements |
| Graphics.ResizeVector | src/Graphics.cpp:186 | resize(n), the intended call: size n, old elements kept, new elements value-initialised |
| Graphics.WriteData | src/Graphics.cpp:187 | A write through data() fills the front of the storage and changes neither the size nor the capacity |
| Graphics.ObjMatsAsWrittenIsEmpty | src/Graphics.cpp:185-188 | As written (reserve, then write through data()), the matrices reach the storage but the returned vector is empty |
| Graphics.ObjMatsAsWrittenHasNoFront | src/Graphics.cpp:185-188 | As written, a one-object request has no first element for callers to take |
| Graphics.ObjMatsReturnsWritten | src/Graphics.cpp:185-188 | As intended (resize, then write through data()), the returned vector is exactly the count matrices written, in request order |
| Graphics.ObjMatsFront | src/Graphics.cpp:185-188 | As intended, a one-object request has a first element and it is the matrix written |
| Demo.PadRight | src/Demo.cpp:67 | Left-justified field: the text, then spaces up to the width; longer texts are not cut |
| Demo.HelpLineLayout | src/Demo.cpp:56-72 | A help line is a space, '-' and the short name (or two spaces), a space, the long-name column padded to 18, a space and the description, so the description starts at column 23 |
| Demo.TableFitsColumn | src/Demo.cpp:28-35 | Every entry before the end marker fits the 18-character column; the seventh entry is the end marker |
| Demo.HelpStopsAtMarker | src/Demo.cpp:55 | Help output lists the entries before the first end marker, in order, and nothing after it |
| Demo.HelpListsTable | src/Demo.cpp:28-55 | The help lists the six options of the table, in table order |
| Demo.WriteHelp | src/Demo.cpp:52-73 | The help loop prints the header and then one formatted line per table entry until the end marker |
| Demo.ApplyWithoutExit | src/Demo.cpp:82-96 | An option other than -h/-v changes only the field its entry names: -d and -s append their argument, -f sets the shader, --fpe turns trapping on and logs |
| Demo.RunWithoutExit | src/Demo.cpp:46-97 | Without -h/-v the loop runs to the end, appending every -d and -s argument in command-line order |
| Demo.RunLastShaderWins | src/Demo.cpp:88-91 | With several -f options the last one determines the shader; with none it is unchanged |
| Demo.RunFpe | src/Demo.cpp:92-95 | Trapping ends on exactly when it was on or some --fpe was given, and the log gains one line per --fpe |
| Demo.RunStopsAtFirstExit | src/Demo.cpp:51-81 | The first -h or -v exits with status 0 and its text; the settings are those of the options before it, and later options are never processed |
| Demo.LoadWithoutExit | src/Demo.cpp:44-105 | Data directories are "assets" then the -d arguments. Shader paths are the -s arguments then "shaders" and "IntenseLogic/shaders". The last -f wins. Trapping is on when some --fpe was given, and the start-up banner is logged |
| Demo.LoadExitsAtFirst | src/Demo.cpp:44-81 | The first -h or -v exits with status 0 and the help or version text. Data directories are "assets" plus the -d arguments before it, shader paths only the -s arguments before it: the default shader paths are not added |
| Demo.Globals.constructor | src/Demo.cpp:146-147 | The demo's globals start empty |
| Demo.Globals.ApplyOption | src/Demo.cpp:48-96 | One pass of the loop over one option leaves the globals, the exit decision and the printed text exactly as ApplyOpt says: -h and -v stop with status 0 and their text; -f skips the --fpe check |
| Demo.Globals.DemoLoad | src/Demo.cpp:38-108 | The imperative option loop leaves the globals, the exit decision and the printed text exactly as the reference Load says |

## Left out

- Float arithmetic of matrices and quaternions (`il_mat_*`, `btTransform` accessors): matrices are uninterpreted terms, and only which factors appear and in what order is modelled. The perspective aspect ratio `width / float(height)` (including a zero height) is therefore not modelled either.
- The physics world (`stepSimulation`, rigid-body construction, motion states, collision): calls into it are recorded in `world`, and its results are parameters.
- Bullet.BulletSpace.Pos, Bullet.BulletSpace.Rot and Bullet.BulletSpace.GetBody: these are modelled as plain reads of a slot, with the unchecked index as a precondition. The mutable reference `getBody` hands out is not modelled.
- `BulletSpace::viewmat` reads the camera from the ghost object; the model takes the camera transform as a parameter.
- All GL, SDL and render-manager calls (materials, buffers, textures, window, debug groups): each is a trace event carrying the arguments that matter. The material's name and attribute setup in `DebugDraw::build`, and the material lookup in `DebugDraw::draw`, are folded into single events.
- The sub-pass fields `Graphics::draw` assigns each frame (ambient colour, fov squared, buffer pointers, width and height of the light passes, exposure, gamma): these are plain stores of state into pass structures and are not modelled.
- `State.projection`: the field is never read by the pipeline.
- The render manager's size before `Init` is not set by the source; the model starts it at 0x0.
- `Graphics::viewmat` is a one-line delegation to the floating space, and the floating space itself is not part of this model. Only the masks of the per-frame requests are modelled. The vectors returned by `Graphics::objmats` are modelled separately, as a size and a storage; see Findings.
- `Init` is written as one method in the source. The model keeps it as `Init`, with the face loop and the build chain as the helper methods `LoadSkyFaces` and `BuildPasses`.
- Releasing passes a failed `Init` never rebuilt: the source does not track which passes a failed `Init` built, so the next `Init` (or `Free`) releases all seven again, including passes released before and never rebuilt. The model reproduces this and does not model what a second release does to the render manager; `Graphics.ReinitAfterFailedFacesReleasesAgain` states it.
- `il_opt_parse`: the main module's option list is an input, with None when the parser produced no main module.
- `feenableexcept`, `printf`, `exit` and `il_load_ilgraphics`: trapping is a flag, printed text is returned, exiting is a result, and the graphics-module load is not modelled.
- `createWindow`: window and GL context creation are driver plumbing with no modelled state.
- The freeing of each option's argument string, and the reuse of the loop counter by the help loop: neither has an effect the model can observe, because the help path exits.

## Findings

| source | as written | input that shows it | evidently intended | confidence | as-written member | corrected member |
|---|---|---|---|---|---|---|
| src/Graphics.cpp:186-188 | `objmats` calls `reserve(count)` and writes through `data()` without resizing, so the returned vector has size 0; the callers in src/teapots/teapots.cpp:86-88 and src/lighting/lighting.cpp:24-26 then call `front()` on it | a request for one object (`count = 1`) | `resize(count)`, giving a vector with the `count` matrices written | high (not executed) | Graphics.ObjMatsAsWrittenIsEmpty, Graphics.ObjMatsAsWrittenHasNoFront | Graphics.ObjMatsReturnsWritten, Graphics.ObjMatsFront |
