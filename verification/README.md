# Skeletal-model viewer: input selector and scene scan, in Dafny

This project models the two pieces of the viewer's C++ code that carry real
logic, and proves what they promise.

- **InputControl** (`input_controller.dfy`) models `InputController`. The
  controller is a class with the same fields as the original apart from the
  camera, with the double and float fields as exact reals. `Update` runs
  once per frame. It moves the selected bone index by +1 on an Up *press
  transition* (Up pressed now, released the frame before) and by −1 on a Down
  press transition. It clamps the index to `[0, maxBoneIndex − 1]`, but only
  once a positive bound is set. It then remembers this frame's key states. The
  same method runs the left-button drag: the first frame only records the
  cursor, later frames turn the model by the cursor's movement times the
  sensitivity, and releasing the button ends the drag. Each section is specified
  by a pure step function on a value of the fields it touches (`SelectorStep`,
  `DragStep`). Multi-frame properties are lemmas about runs of those functions.
- **SceneParsing** (`scene_parsing.dfy`) models `loadModel`, `parse_scene`,
  `parse_meshes`, `parse_mesh_bones` and `parse_single_bone`. The imported
  scene is a sequence of meshes. Each mesh has a name, a vertex count, a triangle count
  and bones, and each bone has a name and a list of vertex weights. The scan's
  printed report is modelled as a log of visits (mesh, bone, weight) in the
  order the scan makes them, plus the three totals. The methods keep the
  original's index loops and are proved equal to recursive reference
  definitions. Lemmas then state what those definitions mean: totals are sums,
  and every mesh, bone and weight is visited once, in index order.

The importer is a parameter of `LoadModel` (a function from path to optional
scene). Key and mouse-button states and the cursor position are the fields of
the `FrameInput` value given to `Update`. They replace the window-system
queries.

The controller's `Update` is split into two methods, `SelectBone` and
`HandleDrag`, one per section of the original method. Each modifies only the
fields of its own section. `Update` calls them in the original order.

## Model

| member | source | states |
|---|---|---|
| `InputControl.InputController.constructor` | OpenGLApplication/input_controller.h:33-59 | A new controller has index 0, bound 0, both previous-key flags false, no drag, cursor and angles at 0 and sensitivity 0.005 |
| `InputControl.InputController.Update` | OpenGLApplication/input_controller.cpp:31-134 | The bound stays non-negative. The selector fields become `SelectorStep` of their old values, so a positive bound means the index lies in `[0, maxBoneIndex − 1]`. The previous-key flags equal this frame's keys. The drag fields become `DragStep` of their old values |
| `InputControl.InputController.SelectBone` | OpenGLApplication/input_controller.cpp:53-81 | The bone-selection section moves the selector exactly as `SelectorStep` does and writes no other field |
| `InputControl.InputController.HandleDrag` | OpenGLApplication/input_controller.cpp:98-133 | The drag section moves the drag fields exactly as `DragStep` does and writes no other field |
| `InputControl.InputController.SetMaxBoneIndex` | OpenGLApplication/input_controller.cpp:137-140 | The stored bound is `max(0, m)`: it is never negative, it equals `m` when `m ≥ 0`, and the current index is left unchanged |
| `InputControl.InputController.GetCurrentBoneIndex` | OpenGLApplication/input_controller.cpp:142-145 | Returns the current index and changes no state |
| `InputControl.SelectorStep` | OpenGLApplication/input_controller.cpp:59-81 | The new previous-key flags are this frame's keys and the bound is unchanged. With a positive bound the new index lies in `[0, bound − 1]`. Without one, the index is the old one +1 on an Up transition and −1 on a Down transition. A result already in range is never moved by the clamp. With a positive bound, a result below 0 becomes 0 and a result at or above the bound becomes `bound − 1` (the clamp saturates, it does not wrap) |
| `InputControl.HeldKeysKeepIndex` | OpenGLApplication/input_controller.cpp:59-69 | With no press transition this frame, an index in range does not move |
| `InputControl.UpPressIncrements` | OpenGLApplication/input_controller.cpp:59-77 | From an in-range index, an Up press with no Down press adds one to the index, except on the last bone, where the clamp holds it |
| `InputControl.DownPressDecrements` | OpenGLApplication/input_controller.cpp:65-77 | From an in-range index, a Down press with no Up press takes one from the index, except at 0 when a bound is set |
| `InputControl.SimultaneousPressesCancel` | OpenGLApplication/input_controller.cpp:60-69 | Up and Down pressed in the same frame leave an in-range index where it was |
| `InputControl.IndexMovesOnlyOnPress` | OpenGLApplication/input_controller.cpp:59-77 | From an in-range index, the index grows only on an Up transition and shrinks only on a Down transition |
| `InputControl.HeldOnFirstFrameCounts` | OpenGLApplication/input_controller.h:34-35 | Both flags start released, so a key already held on a new controller's first frame counts as a press: Up gives 1 (0 if Down is also held), Down alone gives −1 |
| `InputControl.RunSelector` | OpenGLApplication/input_controller.cpp:71-81 | Over any run of frames the bound is unchanged. After at least one frame the index is in range and the flags hold the last frame's keys. An in-range index stays in range |
| `InputControl.UnboundedRunCountsPresses` | OpenGLApplication/input_controller.cpp:59-77 | With no bound set, the index after a run equals the start index plus Up press transitions minus Down press transitions |
| `InputControl.HoldingUpAddsNothing` | OpenGLApplication/input_controller.cpp:59-63 | Holding Up (with Down released) over any number of further frames never moves an in-range index |
| `InputControl.DragStep` | OpenGLApplication/input_controller.cpp:104-133 | After a frame the drag flag equals the button state. While the button is down the cursor is recorded. While it is up the recorded cursor is kept. Yaw and pitch change only on a frame that continues a drag |
| `InputControl.DragStartRecordsCursor` | OpenGLApplication/input_controller.cpp:107-113 | The first frame of a drag sets the flag and records the cursor; yaw and pitch stay as they were |
| `InputControl.ReleaseEndsDrag` | OpenGLApplication/input_controller.cpp:129-133 | With the button up, the flag becomes false and nothing else changes |
| `InputControl.DragFlagFollowsLastFrame` | OpenGLApplication/input_controller.cpp:105-133 | After any non-empty run of frames, a drag is in progress exactly when the button was down on the last frame |
| `InputControl.OngoingDragTurnsByDisplacement` | OpenGLApplication/input_controller.cpp:114-127 | While a drag goes on, the yaw (pitch) after any run grows by the sensitivity times the net horizontal (vertical) cursor movement since the last recorded position |
| `InputControl.DragTurnsByNetDisplacement` | OpenGLApplication/input_controller.cpp:104-127 | For a whole drag (button pressed on the first frame and held), the model turns by the sensitivity times the cursor's movement from the first frame to the last |
| `SceneParsing.ParseSingleBone` | OpenGLApplication/Main.cpp:15-32 | The log holds the bone's own entry, then its weights in list order (see `WeightsVisitedOnceInOrder`, `BoneLogOrder`) |
| `SceneParsing.ParseMeshBones` | OpenGLApplication/Main.cpp:35-41 | The log holds the mesh's bones in list order (see `BonesVisitedInOrder`) |
| `SceneParsing.ParseMeshes` | OpenGLApplication/Main.cpp:44-81 | The total of vertices is the sum of the meshes' vertex counts. The total of indices is 3 × the sum of their face counts. The total of bones is the sum of their bone counts. The log is the meshes visited in order (see `MeshesVisitedInOrder`) |
| `SceneParsing.ParseScene` | OpenGLApplication/Main.cpp:84-87 | Scanning a scene produces exactly the report of scanning its meshes |
| `SceneParsing.ModelPath` | OpenGLApplication/Main.cpp:98 | The path read is `"../Models/"` followed by the file name, character for character |
| `SceneParsing.ModelPathInjective` | OpenGLApplication/Main.cpp:98 | Different file names are read from different paths |
| `SceneParsing.LoadModel` | OpenGLApplication/Main.cpp:95-115 | Fails exactly when the importer yields no scene for `"../Models/" + filename`, and then reports nothing. Otherwise it succeeds with the report of scanning that scene |
| `SceneParsing.WeightsVisitedOnceInOrder` | OpenGLApplication/Main.cpp:21-29 | A bone's weights are each visited exactly once: the k-th weight visit is weight k, with its vertex id and weight |
| `SceneParsing.BoneLogOrder` | OpenGLApplication/Main.cpp:15-32 | A bone's log has its own entry once, no mesh entry, and weight slots 0, 1, …, n − 1 in order |
| `SceneParsing.WeightsOrder` | OpenGLApplication/Main.cpp:21-29 | A weight list's log contains only weight visits, with slots 0, 1, …, n − 1 in order |
| `SceneParsing.BonesVisitedInOrder` | OpenGLApplication/Main.cpp:38-40 | A mesh's bones are visited once each, as bones 0, 1, …, n − 1 in order. The k-th bone entry carries bone k's name and weight count. No mesh entry is among them |
| `SceneParsing.BoneLogEntries` | OpenGLApplication/Main.cpp:15-18 | A bone's log holds exactly one bone entry, its own, with its index, name and weight count |
| `SceneParsing.EntriesAppend` | OpenGLApplication/Main.cpp:54-74 | Concatenating two logs concatenates their visits of each kind |
| `SceneParsing.OrderIsEntryPositions` | OpenGLApplication/Main.cpp:21-29 | The visit positions of a kind are exactly the positions carried by that kind's visits, one for one and in the same order |
| `SceneParsing.NoEntriesWithoutOrder` | OpenGLApplication/Main.cpp:21-29 | A stretch of the log with no visit positions of a kind holds no visits of that kind |
| `SceneParsing.ScanOneMore` | OpenGLApplication/Main.cpp:60-74 | Scanning one more mesh adds its vertex, face and bone counts to the totals and appends its own log |
| `SceneParsing.MeshLogOrder` | OpenGLApplication/Main.cpp:60-74 | A mesh is visited once, at its own index, with its name, vertex count, 3 × face count and bone count. Its bones are visited 0, …, n − 1 in order, the k-th entry carrying bone k's name and weight count. A mesh without bones produces nothing beyond its own entry |
| `SceneParsing.MeshesVisitedInOrder` | OpenGLApplication/Main.cpp:54-65 | The meshes are visited exactly once each, as 0, 1, …, mNumMeshes − 1 in order. The i-th mesh entry carries mesh i's name, vertex count, 3 × face count and bone count |
| `SceneParsing.OrderAppend` | OpenGLApplication/Main.cpp:54-74 | Concatenating two logs concatenates their visit orders (used to compose the per-mesh and per-bone visits) |
| `SceneParsing.LoggedTotalsAppend` | OpenGLApplication/Main.cpp:67-70 | The counts reported in two consecutive stretches of the log add up |
| `SceneParsing.NoMeshVisitsNoCounts` | OpenGLApplication/Main.cpp:73-74 | A stretch of the log without mesh entries (a mesh's bones) adds nothing to the reported counts |
| `SceneParsing.ReportedCountsAddUp` | OpenGLApplication/Main.cpp:65-80 | The per-mesh vertex, index and bone counts in the log add up to the reported scene totals |

## Left out

- Camera movement (W/A/S/D/Q/E keys, `Camera` and its vector arithmetic) and the `deltaTime` parameter of `Update`, which only scales camera speed: floating-point vector code outside this model.
- `GetCamera` and `GetModelRotationMatrix`: they return a camera reference and a rotation matrix built by a matrix library; outside this model.
- The window-system queries (`IsKeyPressed`, `glfwGetCursorPos`, `glfwGetMouseButton`) and the global window pointer: they are inputs of `Update` here.
- `InputControl.InputController.Update`: a missing window is not modelled. `IsKeyPressed` then reports every key released, but the cursor and mouse-button queries of the drag section use the window without checking it, so the model's ordinary drag frame stands for behaviour the original does not define.
- `InputControl.DragStep`: the cursor position (double) and the angles and sensitivity (float) are exact reals, so rounding and the float cast of the delta are not modelled.
- `InputControl.InputController.Update`: `currentBoneIndex` is an unbounded integer. The source's 32-bit `int` would overflow (undefined behaviour) after about 2^31 Up presses with no bound set.
- `SceneParsing.ParseMeshes`: the totals are unbounded naturals. The source keeps them in 32-bit `int`, and its `mNumFaces * 3` is an unsigned 32-bit product, so very large scenes would wrap or overflow.
- The text printed by the scan (the banner, formatting, `%.2f` rounding of weights) and the importer's error message: output is abstracted to the visit log and the totals.
- The importer itself (file reading, triangulation, normal generation, vertex joining): it is the function parameter of `LoadModel`. Its post-processing flags are not modelled.
- `main`: it only calls `loadModel` with a fixed file name and turns the result into an exit code.
- The skeleton pipeline (bone table, vertex-weight binding and normalisation, hierarchy build, global poses, skinning matrices): `OpenGLApplication/skeleton.h` only declares the `Bone` and `Skeleton` records and contains no operations. That behaviour is not part of this model.
- The shader loader, the camera and the physics-bone record: file I/O, graphics-library calls and data-only records with floating-point fields.
