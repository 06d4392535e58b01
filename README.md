# Adaptive clearing, mortise joints, stock and job bookkeeping

A Dafny model of four files of a FreeCAD add-on for timber joinery and CAM:

- **PathAdaptive.py** is the main part. It covers the adaptive milling operation:
  - `execute` clamps the tolerance and builds the input-state record;
  - it reuses the stored clearing-engine output, or calls the engine when none is stored;
  - it stores both states;
  - `generateGCode` turns the engine's regions into G-code commands. It walks the pass depths (outer loop) and the regions (inner loop). Each region gets a helical ramp entry or a straight plunge. Each engine segment becomes feed or rapid moves by its motion type. The tool returns to clearance height after each region, each pass and the whole run;
  - `shapeToPath2d` projects a discretised face outline to XY;
  - `progressFn` is the engine's progress callback.
- **Mortise.py** covers the joint object:
  - the capsule-shaped hole profile (four corners and two semicircular ends);
  - the centred stock rectangle;
  - the type-dependent shape and the placement;
  - the one-shot creation of the linked adaptive operation.
- **PathStock.py** covers the three stock kinds:
  - a box grown from a base object's bounding box by six allowances;
  - a box with minimum-extent clamps;
  - a cylinder with minimum-extent clamps;
  - for each kind, the change handler that recomputes it.
- **PathJob.py** covers the job's bookkeeping:
  - resource-clone recognition and lookups;
  - the ordered operation group (insert before a given operation, or append, never twice);
  - the tool-controller list, unique by name;
  - the pre-order walk over the operation tree;
  - the broadcast of the centre of rotation.

How each part is modelled:

- **State.** The document objects whose properties the source updates are classes: `AdaptiveObject` and `PathAdaptive`, `MortiseJoint`, `StockFromBase`, `StockCreateBox`, `StockCreateCylinder` and `Job`. Their methods change the fields the source changes.
- **Loops.** The source's loops are `while` loops with invariants:
  - the point, path, region and pass loops of `generateGCode`;
  - the two angle loops of the helix ramp;
  - the projection loop of `shapeToPath2d`;
  - the operation and model walks in the job.
- **Specifications.** Each method is proved against a function that specifies it (`PointStep`, `PointsEmit`, `Descent`, `Sweep`, `RegionEmit`, `PassesEmit`, `Generate`, `Expand`, `BoxExecuted`, `Inserted`, `CollectAll`, `Broadcast`, …). The properties the source promises are proved as lemmas about those functions.
- **Numbers.** Coordinates and lengths are `real`.
- **Trigonometry.** `sin`, `cos`, `tan`, `atan2`, `sqrt` and π are supplied by a `MathLib` record of functions. The only assumptions are a positive π and a non-zero tangent of a positive angle.
- **Foreign calls.** The clearing engine, `discretize` and `PathUtils.depth_params` are function parameters.
- **CAD kernel.** Faces, solids, rotations and placements are symbolic values (`Geometry`).

Modules: `Wrappers`, `Geometry`, `AdaptiveTypes`, `AdaptiveHelix`, `AdaptiveEmit`, `AdaptiveLog`, `PathAdaptive`, `Mortise`, `PathStock`, `PathJob`.

Where the code and its intended behaviour differ, the model follows the code, with one exception (the log line at line 264, below):

- **The engine is never re-run for changed inputs.** The comparison of the stored and fresh input states (PathAdaptive.py:131-132) has no effect, because lines 135-138 reassign the result in both branches. So the engine runs exactly when the stored output is None or "", even after the inputs change. `PathAdaptive.Execute` states this.
- **No pass depths makes `generateGCode` raise.** With regions but an empty depth list, `lastZ` is never bound. Line 276 then raises `UnboundLocalError` before `obj.Path` is written. The model's `Generate` yields `Raised(UnboundLastZ, [])`.
- **The log line at line 264 always raises.** See "## Findings". The main model uses the corrected behaviour, in which the log line has no effect.

## Model

| member | source | states |
|---|---|---|
| `Geometry.ClampMin` | PathAdaptive.py:110 | The result is at least the limit, equals the input when the input is already at least the limit, and otherwise equals the limit. |
| `Geometry.ClampMax` | PathAdaptive.py:183 | The result is at most the limit, equals the input when the input is within it, and otherwise equals the limit. |
| `AdaptiveEmit.Settle` | PathAdaptive.py:177-184 | After the prologue `stepDown >= 0.1`, `stepUp >= ToolDiameter`, `finish_step <= stepDown` and `HelixAngle >= 1`; each value already within its bound is kept, and any other value is replaced by the bound. |
| `AdaptiveEmit.PointStepClassifies` | PathAdaptive.py:250-265 | The motion classification of one point. A Z-only move comes first exactly when the new height differs from `lastZ`, then one XY move to the point. Cutting points give G1 moves, the Z move at the vertical feed and the XY move at the horizontal feed. Link points give only G0 moves. Afterwards `lastZ` is the height of the motion type, which is the tool's actual height. |
| `AdaptiveEmit.PointsEmitClosedForm` | PathAdaptive.py:249-265 | One path emits at most one Z-only move, before its first point and only when the height changes, followed by one XY move per point in order. `lastZ` afterwards is the motion type's height, or unchanged for an empty path. |
| `AdaptiveEmit.PointsEmitTracksHeight` | PathAdaptive.py:249-265 | After a path, `lastZ` equals the height the emitted commands leave the tool at. |
| `AdaptiveEmit.PathsEmitTracksHeight` | PathAdaptive.py:247-265 | After all paths of a region, `lastZ` equals the height the emitted commands leave the tool at. |
| `AdaptiveEmit.MotionClassificationExample` | PathAdaptive.py:252-263 | A cutting path followed by a not-clear link at depth −10 and clearance 20 emits two G1 moves, one G0 rise to 20 and two G0 moves, in that order. |
| `AdaptiveEmit.DepthPerRevolution` | PathAdaptive.py:215-217 | The depth per revolution is never zero, so the division at line 219 cannot fail. It is positive when the helix angle's tangent is positive. |
| `AdaptiveEmit.HelixTurnsOnDescent` | PathAdaptive.py:218-222 | On a descending pass with a positive tangent, the rotation `maxRadians` is positive, so the first ramp loop emits at least one point. |
| `AdaptiveEmit.EntryKind` | PathAdaptive.py:204-241 | A region gets the helix block if and only if its radius exceeds 0.0001. Otherwise it gets exactly a comment, a G0 over the start point at clearance height and a G1 over the start point down to the pass end depth. |
| `AdaptiveEmit.HelixEntryDepths` | PathAdaptive.py:205-236 | On a descending pass the helix entry has this shape. It approaches at clearance height, then at safe height, then feeds to the pass start depth. Every later command is a feed whose height lies between the pass end and the pass start. The ramp part never rises. The final circle stays at the pass end depth at the horizontal feed. |
| `AdaptiveEmit.EntryEndsAtPassEnd` | PathAdaptive.py:204-243 | The entry leaves the tool at the pass end depth, the value line 243 stores in `lastZ`. This holds for the plunge always, and for the helix when its final circle emits a point. |
| `AdaptiveEmit.RegionEndsAtClearance` | PathAdaptive.py:199-269 | When the region's entry reaches its pass depth (`EntryReachesDepth`: a plunge, or a helix whose `maxRadians` exceeds −2π), the region block ends with the tool at clearance height. |
| `AdaptiveEmit.NonRisingPassReachesDepth` | PathAdaptive.py:215-236 | On a pass that does not rise, with a positive tangent of the helix angle, every entry reaches its pass depth: `maxRadians` is not negative, so the final circle emits a point. |
| `AdaptiveEmit.NonRisingRegionEndsAtClearance` | PathAdaptive.py:199-269 | With a positive tangent of the helix angle, every region block of a pass that does not rise ends with the tool at clearance height, with no further hypothesis. |
| `AdaptiveEmit.RegionsEmit` | PathAdaptive.py:197-269 | After the region loop of one pass, `lastZ` is the clearance height. |
| `AdaptiveEmit.PassRounds` | PathAdaptive.py:195-270 | The pass loop runs one round of the region loop per pass depth. |
| `AdaptiveEmit.PassRoundsAt` | PathAdaptive.py:195-270 | Round i is the region loop from the previous pass's end depth (or StartDepth for the first) down to the i-th depth. |
| `AdaptiveEmit.PassBlocks` | PathAdaptive.py:195-270 | The commands are grouped in one block per pass depth. |
| `AdaptiveEmit.PassBlocksAt` | PathAdaptive.py:195-270 | The i-th pass block is the region blocks, in region order, between the previous pass's end depth (StartDepth for the first) and the i-th depth. |
| `AdaptiveEmit.RegionsEmitConcat` | PathAdaptive.py:197-269 | The region loop emits the region blocks one after another and nothing else. |
| `AdaptiveEmit.FoldPassesStep` | PathAdaptive.py:271-274 | One iteration of the pass loop emits its round followed by the raise. What remains owed after it is the later rounds. |
| `AdaptiveEmit.FoldPassesLastZ` | PathAdaptive.py:196-274 | `lastZ` after the pass loop is unbound exactly when no round ran, and otherwise is the clearance height. |
| `AdaptiveEmit.PassesEmitLastZ` | PathAdaptive.py:196-274 | `lastZ` after the pass loop is unbound exactly when the depth list is empty. |
| `AdaptiveEmit.PassesEmitConcat` | PathAdaptive.py:196-274 | The pass loop emits the pass blocks, pass-major and region-minor. The per-pass raise of lines 272-273 never adds a command. |
| `AdaptiveEmit.GenerateShape` | PathAdaptive.py:171-279 | `generateGCode` emits nothing and leaves the path alone if and only if there is no region or the first region has no paths. With no pass depth it raises, having emitted nothing. Otherwise it emits exactly the pass blocks, and the final raise adds nothing. |
| `AdaptiveEmit.GenerateEndsAtClearance` | PathAdaptive.py:266-277 | When every entry reaches its depth, a completed run leaves the tool at clearance height. |
| `AdaptiveEmit.DescendingGenerateEndsAtClearance` | PathAdaptive.py:195-277 | With a positive tangent of the helix angle, and pass depths that start at or below StartDepth and never rise, a completed run leaves the tool at clearance height. |
| `AdaptiveHelix.LoopEndIsFirstAtBound` | PathAdaptive.py:221-236 | The angle counter steps by π/18. It stops at the first value that reaches the bound, after exactly `Remaining` steps. For a counter below the bound, the stop value lies in [bound, bound + step). |
| `AdaptiveHelix.AngleAtClosedForm` | PathAdaptive.py:227 | k increments of the counter add k times the step. |
| `AdaptiveHelix.AngleAtMonotone` | PathAdaptive.py:227 | With a positive step the counter never decreases. |
| `AdaptiveHelix.DescentAt` | PathAdaptive.py:222-227 | The k-th feed of the first loop is at the k-th counter value. That value lies in [0, maxRadians), and the feed is on the ramp at the height of line 225. |
| `AdaptiveHelix.SweepAt` | PathAdaptive.py:231-236 | The k-th feed of the second loop is at the k-th counter value, which is below the bound, at the pass end depth. |
| `AdaptiveHelix.SweepLength` | PathAdaptive.py:231-236 | The second loop emits as many feeds as the counter takes steps. |
| `AdaptiveHelix.DescentZInPass` | PathAdaptive.py:225 | On a descending pass, for angles in [0, maxRadians) the interpolated height lies in (passEnd, passStart]. |
| `AdaptiveHelix.DescentZMonotone` | PathAdaptive.py:225 | On a pass that does not rise, the interpolated height never rises as the angle grows. |
| `AdaptiveHelix.DescentFeedInPass` | PathAdaptive.py:222-226 | Each feed of the first loop on a descending pass is at the vertical feed rate, at a height in (passEnd, passStart]. |
| `AdaptiveHelix.DescentFeedsNonIncreasing` | PathAdaptive.py:222-226 | Of two feeds of the first loop, the later one is not higher. |
| `AdaptiveHelix.DescentDepths` | PathAdaptive.py:219-227 | The first loop starts at the pass start depth. Every feed lies in (passEnd, passStart] at the vertical feed rate, and the heights never rise. |
| `AdaptiveHelix.SweepDepths` | PathAdaptive.py:230-236 | Every feed of the second loop is at the pass end depth at the horizontal feed rate. |
| `AdaptiveHelix.SweepAfterDescentNonEmpty` | PathAdaptive.py:229-236 | The second loop continues from where the first stopped. It emits at least one feed whenever `maxRadians > −2π`, which includes every descending pass. |
| `AdaptiveLog.PointMessageHasTwoConversions` | PathAdaptive.py:264 | The message `"X= %f, Y= %f"` has two conversions. |
| `AdaptiveLog.LinkNotClearRaisesAsWritten` | PathAdaptive.py:260-264 | As written, every not-clear link point raises TypeError right after its two moves. Points of other motion types are unaffected. |
| `AdaptiveLog.CorrectedStepIsPointStep` | PathAdaptive.py:260-264 | With both coordinates passed to the format, the log line never raises, and each point emits exactly its classified moves. |
| `PathAdaptive.ProgressFn` | PathAdaptive.py:90-97 | The progress callback never asks the engine to stop. |
| `PathAdaptive.ShapeToPath2d` | PathAdaptive.py:34-45 | The 2D path is a single edge holding, in order, the XY projection of every discretised point. |
| `PathAdaptive.AdaptiveObject.constructor` | PathAdaptive.py:53-54 | A fresh document object has no linked faces and an empty path. |
| `PathAdaptive.AdaptiveObject.Context` | PathAdaptive.py:177-184 | The emission parameters use the clamped helix angle (≥ 1) and lift distance (≥ ToolDiameter), and the object's clearance and safe heights. |
| `PathAdaptive.AdaptiveObject.Request` | PathAdaptive.py:186-193 | The depth request passes the clamped step (≥ 0.1), a finish step no larger than it, and the object's start depth. |
| `PathAdaptive.PathAdaptive.constructor` | PathAdaptive.py:51-88 | `__init__` gives every property its default: no Base or Stock, tolerance 0.1, helix angle 5, and both state properties `""`. The path is untouched. |
| `PathAdaptive.PathAdaptive.EmitPoint` | PathAdaptive.py:250-265 | Appends exactly the point's classified moves to the command list, and returns the new `lastZ`. |
| `PathAdaptive.PathAdaptive.EmitPoints` | PathAdaptive.py:249-265 | The point loop appends exactly what the path specification yields, and returns its `lastZ`. |
| `PathAdaptive.PathAdaptive.EmitPaths` | PathAdaptive.py:247-265 | The path loop appends exactly what the region's paths yield, and returns its `lastZ`. |
| `PathAdaptive.PathAdaptive.EmitDescent` | PathAdaptive.py:221-227 | The first angle loop appends exactly the ramp feeds, and returns the first counter value at or above maxRadians. |
| `PathAdaptive.PathAdaptive.EmitSweep` | PathAdaptive.py:230-236 | The second angle loop appends exactly the final-circle feeds, starting from the counter the first loop left. |
| `PathAdaptive.PathAdaptive.EmitHelixEntry` | PathAdaptive.py:205-236 | Appends exactly the helix entry: comment, approach moves, ramp and final circle. |
| `PathAdaptive.PathAdaptive.EmitRegion` | PathAdaptive.py:199-269 | Appends exactly one region block and returns `lastZ` afterwards. |
| `PathAdaptive.PathAdaptive.EmitPass` | PathAdaptive.py:197-269 | The region loop appends exactly the region blocks of one pass. It returns `lastZ`, which is the clearance height. |
| `PathAdaptive.PathAdaptive.EmitPassRaised` | PathAdaptive.py:196-274 | One pass-loop iteration: after it, the command list plus the later rounds is the total owed. |
| `PathAdaptive.PathAdaptive.EmitPasses` | PathAdaptive.py:195-274 | The pass loop appends exactly what the pass specification yields. Its `lastZ` is unbound when no depth exists. |
| `PathAdaptive.PathAdaptive.GenerateGCode` | PathAdaptive.py:171-279 | `generateGCode` against `Generate`. Skipped: nothing changes. Raised: the command list is reset and the helix angle clamped, but `obj.Path` is not written. Emitted: the command list is the emitted commands and `obj.Path` holds them. `depthParameters` is stored in every case except Skipped. |
| `PathAdaptive.PathAdaptive.Execute` | PathAdaptive.py:99-169 | A missing Base or Stock raises after the placeholder path, with nothing else changed. Otherwise: the tolerance is clamped to ≥ 0.001; the engine runs if and only if the stored output is None or `""`; the stored input is the fresh record; the stored output is the results handed to `generateGCode`, whose outcome follows. |
| `Mortise.HoleOutline` | Mortise.py:40-55 | The corners are (±w/2, ±(l/2 − w/2)), in the plane z = 0, so the profile is symmetric under x ↦ −x and y ↦ −y. The arc midpoints lie on the y axis at ±l/2, also at z = 0. |
| `Mortise.ArcsAreSemicircles` | Mortise.py:43-58 | Each arc's three points are at distance w/2 from (0, ±(l/2 − w/2)). The arc's endpoints are a diameter apart, so both ends are semicircles of diameter w. |
| `Mortise.HoleWireIsClosed` | Mortise.py:49-61 | For a non-degenerate hole, each corner is an endpoint of exactly two of the four edges, and every edge ends at corners: the wire is a closed loop. |
| `Mortise.StockFace` | Mortise.py:70-74 | The stock rectangle has its corner at (−L/2, −W/2) and size L×W, so it spans [−L/2, L/2] × [−W/2, W/2]. |
| `Mortise.MortiseJoint.constructor` | Mortise.py:8-35 | The properties take their defaults. The constructor then executes once: the faces, shape and placement are computed, `OperationExists` is true and exactly one linked operation exists. |
| `Mortise.MortiseJoint.AddOperation` | Mortise.py:79-86 | Adds one adaptive operation linked to HoleFace and StockFace. |
| `Mortise.MortiseJoint.Execute` | Mortise.py:88-112 | Stores both faces for the current dimensions. The shape is the hole for "hole" and the stock-minus-hole cutout otherwise. The placement's base is Position and its rotation the product of the two rotations. An operation is added only when none existed. The one-operation invariant is preserved. |
| `Mortise.AtMostOneOperation` | Mortise.py:110-112 | Under the invariant that `execute` keeps, there is at most one linked operation, and one exactly when `OperationExists` holds. |
| `PathStock.Expand` | PathStock.py:85-89 | The origin is the bounding-box minimum minus the negative allowances, and each extent is the box length plus both allowances. Hence origin + extent is the box maximum plus the positive allowances. |
| `PathStock.ExpandEncloses` | PathStock.py:84-91 | With non-negative allowances, the stock box encloses the base's bounding box. |
| `PathStock.NoRecomputeWhileRestoring` | PathStock.py:99-101 | A property change never triggers a recompute while 'Restore' is in the object state, nor for a property outside the watched list. |
| `PathStock.StockFromBase.constructor` | PathStock.py:46-75 | Stores the base object, takes its placement, copies `neg`/`pos` into the six allowances and sets the type "FromBase". The allowance writes run `onChanged`, so the block is already the expanded bounding box and the shape its box. |
| `PathStock.StockFromBase.Execute` | PathStock.py:77-92 | With no base object, block and shape are unchanged. Otherwise the block is the expanded bounding box and the shape its solid. |
| `PathStock.StockFromBase.OnChanged` | PathStock.py:99-101 | Recomputes exactly when an allowance changed and the object is not restoring, and otherwise changes nothing. |
| `PathStock.BoxExecuted` | PathStock.py:139-149 | After the clamps, Length, Width and Height are each ≥ 0.001, and values already ≥ 0.001 are unchanged. The shape is the box of those extents at the object's placement. |
| `PathStock.BoxExecuteIdempotent` | PathStock.py:139-149 | A second execute of a box changes nothing. |
| `PathStock.StockCreateBox.constructor` | PathStock.py:116-137 | Sets the type "CreateBox" and the placement, given or default. The extent writes run `onChanged`, so the extents are already clamped to ≥ 0.001 and the shape is the box of `BoxExecuted`, placed at the default placement that holds when that execute runs. |
| `PathStock.StockCreateBox.Execute` | PathStock.py:139-149 | The new extents and shape are those of `BoxExecuted` on the old extents. |
| `PathStock.StockCreateBox.OnChanged` | PathStock.py:156-158 | Re-executes exactly for Length, Width or Height outside a restore, and otherwise changes nothing. |
| `PathStock.CylinderExecuted` | PathStock.py:194-202 | After the clamps, Radius and Height are each ≥ 0.001, and values already ≥ 0.001 are unchanged. The shape is the cylinder of those sizes at the object's placement. |
| `PathStock.CylinderExecuteIdempotent` | PathStock.py:194-202 | A second execute of a cylinder changes nothing. |
| `PathStock.StockCreateCylinder.constructor` | PathStock.py:173-192 | Sets the type "CreateCylinder" and the placement, given or default. The dimension writes run `onChanged`, so radius and height are already clamped to ≥ 0.001 and the shape is the cylinder of `CylinderExecuted`, placed at the default placement that holds when that execute runs. |
| `PathStock.StockCreateCylinder.Execute` | PathStock.py:194-202 | The new sizes and shape are those of `CylinderExecuted` on the old sizes. |
| `PathStock.StockCreateCylinder.OnChanged` | PathStock.py:209-211 | Re-executes exactly for Radius or Height outside a restore, and otherwise changes nothing. |
| `PathJob.ResourceCloneNames` | PathJob.py:57-70 | A clone made for a resource is a resource clone for no name and for exactly its own name. An object without PathResource is never one. |
| `PathJob.BaseObjectOf` | PathJob.py:163-167 | Fails with an index error exactly for a Model or Base clone without Objects. |
| `PathJob.BaseObjectOfClone` | PathJob.py:163-167 | `baseObject` maps a Model or Base clone back to its original, and clones of other resources, and objects that are not clones, to themselves. |
| `PathJob.CloneAmong` | PathJob.py:177-180 | The lookup returns None exactly when every model is a clone of something else. A result is the first model cloned from the base. A failure is a model without Objects met before any match. |
| `PathJob.ResourceCloneFindsClone` | PathJob.py:173-180 | In a model group of clones of distinct originals, each original's lookup returns its own clone. |
| `PathJob.Collect` | PathJob.py:146-155 | The walk of one node lists only operations and compounds. It lists something exactly when the node is one, and then the node comes first. |
| `PathJob.CollectAll` | PathJob.py:156-158 | The walk over the group lists only operations and compounds. |
| `PathJob.CollectAllAppend` | PathJob.py:156-158 | The walk over two lists concatenated is the concatenation of the two walks. |
| `PathJob.CompoundPreOrder` | PathJob.py:152-155 | A compound is listed, then its Group children are walked in order. |
| `PathJob.CollectAllContains` | PathJob.py:146-158 | Every top-level operation or compound of the group appears among all operations. |
| `PathJob.IndexOf` | PathJob.py:128 | `index` returns the first position of the element, and fails exactly when it is absent. |
| `PathJob.InsertedPresent` | PathJob.py:123-125 | Adding an operation already in the group leaves the group unchanged. |
| `PathJob.InsertedBefore` | PathJob.py:126-128 | If `before` is in the group, the op is inserted immediately before it, and every other element keeps its order. |
| `PathJob.InsertedAppended` | PathJob.py:126-133 | If `before` is not given or is absent, the op is appended at the end. |
| `PathJob.InsertedGrows` | PathJob.py:124-134 | A successful add grows the group by exactly the new op, and introduces no duplicate. |
| `PathJob.WithControllerKeepsNamesDistinct` | PathJob.py:137-142 | A controller is appended only when no existing controller has its name, so distinct names stay distinct. |
| `PathJob.BroadcastSets` | PathJob.py:186-187 | Setting the centre on every listed operation gives each listed name the new centre and leaves all others as they were. |
| `PathJob.Job.constructor` | PathJob.py:82-103 | A new job has an empty model group, operation group and tool-controller list. |
| `PathJob.Job.AddOperation` | PathJob.py:123-135 | The group becomes the inserted group. A newly added op takes the compound's centre, and nothing else changes. |
| `PathJob.Job.AddToolController` | PathJob.py:137-142 | The list grows by the controller exactly when its name is new. |
| `PathJob.Job.AllOperations` | PathJob.py:144-158 | Returns the pre-order walk of the operation group. |
| `PathJob.Job.ResourceClone` | PathJob.py:173-180 | Returns exactly the resource-clone lookup over the model group, failures included. |
| `PathJob.Job.SetCenterOfRotation` | PathJob.py:182-187 | Nothing changes when the centre is unchanged. Otherwise the job, the compound and every operation of `allOperations` take the new centre, and no other operation changes. |

## Left out

- The clearing engine (`area.Adaptive2d`), `discretize`, `PathUtils.depth_params`, trigonometry and `sqrt` are parameters. Their floating-point behaviour is not modelled. Neither is any claim that `helixStart` equals the start point, or a point count that depends on the value of π.
- Floating-point rounding is not modelled: all arithmetic is exact on `real`.
- The CAD kernel (`makeLine`, `Arc`, `Wire`, `Face`, `extrude`, `cut`, `makePlane`, `makeBox`, `makeCylinder`, `Rotation.multiply`) is symbolic: the model records which shape is built from what, not its geometry.
- The engine is a total function: an exception from `a2d.Execute` (PathAdaptive.py:153, outside any `try`) is not modelled. It would leave `obj.Path` at the "(calculating...)" placeholder with neither state property written.
- Console output, the timing at lines 140 and 169, and `progressFn`'s drawing hook are left out. They change no modelled state.
- The JSON serialisation of the input and output states is value equality. It has no effect on the engine decision as written.
- FreeCAD's change notifications are modelled only where they decide the outcome. In each stock constructor, the proxy is attached before the watched properties are written, so those writes run `execute` through `onChanged`; the constructors end with the execute the last such write runs. The earlier nested executes are overwritten by it. Writes inside `execute` itself would run `onChanged` again; by the idempotence lemmas `PathStock.BoxExecuteIdempotent` and `PathStock.CylinderExecuteIdempotent`, such a nested run reaches the same state.
- FreeCAD's own update of a Part feature's Shape placement when its Placement is written is not modelled: after `StockCreateBox` and `StockCreateCylinder` are constructed with a placement, the stored shape stays at the default placement until the next execute.
- `obj.Placement`, `Path.Center` and `op.Path.Center` are modelled as values written directly: the copy semantics of these FreeCAD properties (reading a copy and assigning a sub-field) are not modelled. So `Job.AddOperation` and `Job.SetCenterOfRotation` treat `Path.Center` writes as taking effect.
- The PropertyLength constraint that lengths are never negative is not modelled. The allowances and extents are arbitrary reals, and the non-negativity facts are stated as hypotheses of `PathStock.ExpandEncloses`.
- Default dictionary arguments (`neg`, `pos`, `extent`, `radius`, `height`) are ordinary parameters of the constructors.
- Document objects are compared by value, not by identity. The per-operation centres are a map keyed by the operation's Name.
- From PathJob.py:
  - `ObjectJob.__init__`'s document plumbing (the PostProcessor, GeometryTolerance and editor modes) is left out;
  - `execute`, `onDelete`, `onDocumentRestored` and the post-processor loading in `onChanged` are left out;
  - `createResourceClone` is represented only by the clone record `CloneOf`;
  - `addStock` is left out: it calls `PathStock.CreateFromBase`, which does not exist;
  - `addModel`, `baseObjects` and `modelBoundBox` are left out.
- `onDocumentRestored`, `__getstate__`/`__setstate__` and all ViewObject and GUI code in PathStock.py and Mortise.py are left out, as are the `test()` functions.
- Bar.py and Beam.py are not part of this model.
- `AdaptiveEmit.RegionEndsAtClearance` holds only when the region's entry reaches its pass depth. A helix whose `maxRadians` is at most −2π (possible on a rising pass or with a negative tangent of the helix angle) emits neither ramp nor final circle, leaving the tool at the pass start depth. The block then ends away from clearance height when no later move sets Z: with no paths and clearance equal to the pass end depth, or with cutting points at the recorded pass end depth. `AdaptiveEmit.NonRisingRegionEndsAtClearance` states the unconditional form for non-rising passes with a positive tangent.
- `AdaptiveEmit.GenerateEndsAtClearance` holds only when every entry reaches its depth. A helix whose final circle emits no point leaves the tool where the ramp stopped. `AdaptiveEmit.DescendingGenerateEndsAtClearance` discharges this hypothesis for pass depths that never rise and a positive tangent.
- `Mortise.HoleWireIsClosed` requires a hole whose width is non-zero and differs from its length, since otherwise corners coincide. The source does not guard these values; it hands the coincident points to `Part.makeLine` and `Part.Arc`.

## Findings

| source | as written | input that shows it | evidently intended | confidence | as-written member | corrected member |
|---|---|---|---|---|---|---|
| PathAdaptive.py:264 | the not-clear link's log call applies `%` to its two-conversion message with `x` alone (`y` becomes a second argument of the print call, since `%` binds tighter than the comma), so Python raises TypeError | any region with a LinkNotClear path holding at least one point | `% (x, y)`: the message logs both coordinates and emission continues | not executed | `AdaptiveLog.LinkNotClearRaisesAsWritten` | `AdaptiveLog.CorrectedStepIsPointStep` |
