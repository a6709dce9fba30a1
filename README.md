# Gaussian splat selection tools: a verified model

This project models the editor-side logic of a Gaussian-splat point-cloud tool.
The user drags a rectangle in the scene view to select splats. On release, the
tool reads the renderer's packed selection bits, averages the positions of the
selected splats, and records that centre in a process-wide store. A separate
menu command takes four selected marker objects and builds a quad "wall" mesh
through them. The modules follow the source files:

- `Vectors` (`vectors.dfy`): Unity's `Vector2`, `Vector3` and `Rect` as value
  types over `real`, with running sums and centroids.
- `SelectionFlags` (`selection_flags.dfy`): the `uint[]` bit-per-splat
  selection flags and the selected-index list they define.
- `ToolContext` (`tool_context.dfy`): `GaussianToolContext`. It holds
  `FromToRect`, the keyboard command dispatcher, the mouse down/drag/up state
  machine keyed on `GUIUtility.hotControl`, the debug-print loop and the
  centroid loop.
- `CenterStore` (`center_store.dfy`): `GaussianToolContextCenterStore`. It
  holds the static list of recorded centres.
- `WallGenerator` (`wall_generator.dfy`): `GenerateWallFromCenters`.
- `Wrappers` (`wrappers.dfy`): an `Option` type.

The renderer is seen only through the calls made on it. Each call
(`EditDeselectAll`, `EditSelectAll`, `EditUpdateSelection`, …) is appended
to `SplatRenderer.trace`. What the renderer reports back is passed to the
handlers as parameters: its selected-splat count, the exported splat data
(`None` when the export fails) and its selection flags (`None` when they are
null). `Mathf.Atan2` is a function parameter, and no property of it is
assumed. The GUI-to-screen-pixel conversion is also a function parameter.
`i >> 5` and `i & 31` on the non-negative splat index are written as
`i / 32` and `i % 32`. The bit test `(word & (1u << bit)) != 0` stays on
32-bit words.

Where the design intent and the code differ, this model follows the code:

- Mesh building is not triggered by the store reaching four centres. The wall
  is built on demand from the four selected marker objects. The store is never
  read by the wall generator, and the "already four" guard in the mouse-up
  branch is commented out.
- `GetCenters` returns the live list, not a snapshot. Later adds and clears
  are visible through it (`LiveListScenario`).
- The drag update passes `evt.control` ("subtract") to the renderer. Adding
  versus replacing is decided only at mouse-down, by clearing the selection
  when no modifier is held.
- A flag array shorter than the splat data is not checked. Indexing past it
  throws in both loops, and the model returns it as an error outcome.

## Model

| member | source | states |
|---|---|---|
| `ToolContext.FromToRect` | Editor/GaussianToolContext.cs:273-280 | width and height are never negative; the min corner is the componentwise minimum of the two arguments and the max corner the componentwise maximum |
| `ToolContext.FromToRectSymmetric` | Editor/GaussianToolContext.cs:275-279 | swapping the two corners gives the same rectangle |
| `ToolContext.FromToRectCovers` | Editor/GaussianToolContext.cs:272-280 | a point lies in the rectangle iff it lies between the two corners on both axes, whichever corner comes first |
| `SelectionFlags.IndexInBounds` | Editor/GaussianToolContext.cs:177-179 | for i < 32·flags.Length the word index is inside the array, the bit index is below 32, and together they recompose i |
| `SelectionFlags.SelectedIndicesExact` | Editor/GaussianToolContext.cs:175-180 | the scan lists every selected index below n and only those, each once, in increasing order |
| `SelectionFlags.SelectedCount` | Editor/GaussianToolContext.cs:190-199 | the number of listed indices equals the number of selected indices in [0, n) |
| `SelectionFlags.SelectedIndicesPrefix` | Editor/GaussianToolContext.cs:174-185 | scanning further only appends: the list for a shorter scan is a prefix of the list for a longer one |
| `SelectionFlags.SelectedIndicesOfUniformFlags` | Editor/GaussianToolContext.cs:177-179 | all-zero words select nothing; all-ones words select every index |
| `ToolContext.SelectedPositionsStep` | Editor/GaussianToolContext.cs:190-199 | one more scanned splat adds its position exactly when its flag is set |
| `ToolContext.DebugPrintSelected` | Editor/GaussianToolContext.cs:174-185 | logs the first selected splats in index order, at most 10 and only selected ones; throws only if it runs past the flags before logging 10 |
| `ToolContext.AccumulateSelected` | Editor/GaussianToolContext.cs:187-200 | the count is the number of selected splats and the sum is the sum of exactly their positions; throws exactly when the flags cover fewer splats than the data |
| `ToolContext.ReleaseOutcomeStored` | Editor/GaussianToolContext.cs:202-209 | a centre is stored iff the drag is released, the renderer reports a selection and some flag is set; the stored centre is the sum over a positive count, so there is no division by zero |
| `ToolContext.ReleaseOfOneSplat` | Editor/GaussianToolContext.cs:187-209 | a selection of one splat records that splat's own position |
| `ToolContext.CommandAction` | Editor/GaussianToolContext.cs:44-80 | exactly the five command names are recognised, and each maps to one of the four selection edits |
| `ToolContext.KeyboardPhases` | Editor/GaussianToolContext.cs:41-80 | validate and execute consume the same commands; only execute acts, with the one edit the command names; other event types are ignored |
| `ToolContext.HandleKeyboardCommands` | Editor/GaussianToolContext.cs:39-81 | the event is used and the renderer called as the two-phase effect says; unrecognised names and other events change nothing |
| `ToolContext.GaussianToolContext.OnWillBeDeactivated` | Editor/GaussianToolContext.cs:31-37 | with a target renderer, deselects all; with none, does nothing |
| `ToolContext.GaussianToolContext.OnMouseDown` | Editor/GaussianToolContext.cs:108-126 | a primary press on this control with no view tool starts a drag; without shift, action key or control it deselects all before storing the selection state; it takes the hot control and records the press position; otherwise nothing changes |
| `ToolContext.GaussianToolContext.OnMouseDrag` | Editor/GaussianToolContext.cs:127-137 | while dragging, updates the selection once from the normalised rectangle between press and pointer, with control meaning subtract |
| `ToolContext.GaussianToolContext.OnMouseUp` | Editor/GaussianToolContext.cs:138-229 | on release, resets the hot control to 0 and the drag start to zero; the outcome is the one ReleaseOutcome gives, and the store gains the centroid only when one is stored |
| `CenterStore.GaussianToolContextCenterStore.constructor` | Editor/GaussianToolContextCenterStore.cs:7 | the store starts empty |
| `CenterStore.GaussianToolContextCenterStore.AddCenter` | Editor/GaussianToolContextCenterStore.cs:9-13 | appends at the end, keeping earlier centres; the logged number is the new count, the 1-based position of the new centre |
| `CenterStore.GaussianToolContextCenterStore.GetCenters` | Editor/GaussianToolContextCenterStore.cs:15-18 | returns the store's own list object |
| `CenterStore.GaussianToolContextCenterStore.ClearCenters` | Editor/GaussianToolContextCenterStore.cs:20-24 | leaves the list empty |
| `CenterStore.LiveListScenario` | Editor/GaussianToolContextCenterStore.cs:7-24 | a list obtained before any add sees the later adds and the clear; numbering restarts at 1 after a clear |
| `Vectors.SumPermutation` | Editor/WallGenerator.cs:28-38 | the sum of positions does not depend on their order |
| `Vectors.CentroidOfOne` | Editor/GaussianToolContext.cs:204 | the centroid of a single position is that position |
| `Vectors.CentroidOfFour` | Editor/WallGenerator.cs:28-31 | the centre is the sum of the four positions divided by 4, component by component |
| `WallGenerator.SumPositions` | Editor/WallGenerator.cs:28-30 | the accumulated centre is the sum of the positions |
| `WallGenerator.SortByKey` | Editor/WallGenerator.cs:33-38 | after the in-place sort the key never decreases, and the list is a permutation of the input |
| `WallGenerator.InsertIntoSorted` | Editor/WallGenerator.cs:33-38 | one insertion step extends the sorted prefix by one element and keeps the same elements |
| `WallGenerator.LogEdgeLengths` | Editor/WallGenerator.cs:41-47 | visits each index i with its successor (i + 1) % Count, every index in range |
| `WallGenerator.RingEdgesVisitEachVertexOnce` | Editor/WallGenerator.cs:41-47 | every edge stays inside the vertex list; each vertex starts exactly one edge and ends exactly one edge |
| `WallGenerator.FanTriangles` | Editor/WallGenerator.cs:59-63 | six indices, all below 4, covering all four vertices; both triangles share vertex 0 and the diagonal 0-2 |
| `WallGenerator.GenerateWallFromCenters` | Editor/WallGenerator.cs:16-63 | anything but exactly 4 markers builds nothing. With 4, the mesh vertices are the 4 input positions, permuted and keeping their centroid, and sorted by atan2 angle around that centroid. The triangles are the fan, and the logged edges form the ring |

## Left out

- GPU export: allocating the `GraphicsBuffer` and reading it back. The exported splat array is a parameter. `null` selection flags are a `None` parameter.
- The renderer's internals: `EditUpdateSelection`'s screen projection, the `Edit…` selection edits themselves, `editSelectedSplats` and `editSelectedBounds`. Its calls are recorded in a trace.
- The Repaint branch (cutout gizmos, the selection bounds box, the drag rectangle) and the Layout branch (`HandleUtility.AddDefaultControl`). Both are drawing or control registration in the Unity host.
- `OnToolGUI`'s own dispatch: the scene-view and target checks, control-ID allocation and `GetTypeForControl`. Each mouse case is modelled by its own method.
- `IsViewToolActive`, `HandleUtility.nearestControl` and `GetEditorToolType` read editor state. The first two are parameters; `GetEditorToolType` is not modelled.
- Marker spheres, the wall's `GameObject`, `Material` and `Shader` set-up, and `RepaintAll`. These are Unity scene-host work.
- `mesh.RecalculateNormals` and `RecalculateBounds`. They belong to Unity's mesh library.
- `Debug.Log` text. Where a log line carries model-relevant data, it is returned instead: the logged splat indices, the stored centre's number and the logged ring edges.
- `Vector3.Distance` for the logged edge lengths. It involves a floating-point square root.
- Floating-point rounding in `Vector3` sums and divisions, and the values of `Mathf.Atan2`. The model uses `real` arithmetic and an arbitrary angle function.
- `Selection.gameObjects`. The wall generator receives the selected markers' positions directly.
- `SortByKey`: does not fix the order of positions with equal angles. .NET's `List.Sort` is unstable, and the model proves only ordering and permutation.
- `Editor/WallGenMenu.cs` is not part of this model. It only forwards to `GenerateWallFromCenters`.
