# CraftCAD core, modelled in Dafny

CraftCAD is a desktop CAD program for woodworking and DIY projects. Its kernel is a set of Rust crates under `core/`. A Qt desktop application under `apps/desktop` drives that kernel through a JSON FFI. This project models both layers, together with the job queue and the market-metadata crates under `ucel/`, one Dafny module per source file:

- **Document and wire format.** `model.dfy` holds the document, layers, entities, parts, nest jobs and uuids, with their textual forms. `json.dfy` holds JSON values as serde_json stores them, and the desktop bridge's merge patch. It is checked against the algorithm in section 2 of RFC 7396. `serialize.dfy` holds reason codes and their UPPER_SNAKE wire names. `ffi.dfy` holds the desktop FFI's table of history handles, the wrapper that runs one history operation on a document, and the mapping of the trim candidate index.
- **Commands and history.** `deltas.dfy` holds the closed datatype of every reversible delta the commands commit. `history.dfy` holds applying and reverting deltas and delta groups, and the undo and redo stacks. `passes.dfy` holds the per-id loop that mirror and pattern share. The following each model one command:
  - `create_line.dfy`, `create_part.dfy`, `create_shapes.dfy`;
  - `transform_selection.dfy`, `offset_entity.dfy`, `advanced_edit.dfy`;
  - `nesting_commands.dfy`, `editops.dfy`, `trim.dfy`.
- **Nesting.** `nesting_model.dfy`, `nesting_pack.dfy`, `nesting_score.dfy` and `nesting_constraints.dfy` cover the diycad_nesting crate.
- **Outputs and checks.** These modules cover the bill of materials, the tiled PDF layout, the drawing style, localisation, the job queue, schema migration, preflight, sketch validation, the spatial index and snap resolution:
  - `bom.dfy`, `pdf_tiled.dfy`, `drawing_style.dfy`, `i18n.dfy`;
  - `job_queue.dfy`, `migration.dfy`, `preflight.dfy`, `sketch_validate.dfy`;
  - `spatial_index.dfy`, `snapping.dfy`.
- **Market metadata.** `market_meta.dfy` and `market_meta_store.dfy` cover instrument metadata with tick and step quantisation, and the versioned in-memory store.
- **Desktop.**
  - `desk_model.dfy` holds the desktop's view of the document.
  - `doc_store.dfy` is the document store. It holds the cache, the spatial candidates, the reason-log ring, undo and redo, and a trace of every kernel call it sends.
  - `snap_engine.dfy`, `hittest.dfy`, `ambiguity_controller.dfy` and `canvas_widget.dfy` cover snapping, picking, ambiguity cycling and event routing.
  - There is one class per gesture tool: line, move, rotate, scale, trim, offset, polyline, rectangle, circle, arc, mirror, fillet and pattern, in `line_tool.dfy`, `move_tool.dfy`, `rotate_tool.dfy`, `scale_tool.dfy`, `trim_tool.dfy`, `offset_tool.dfy`, `polyline_tool.dfy`, `rect_tool.dfy`, `circle_tool.dfy`, `arc_tool.dfy`, `mirror_tool.dfy`, `fillet_tool.dfy` and `pattern_tool.dfy`.
- **Shared pieces.**
  - `aabb.dfy` holds boxes.
  - `rounding.dfy` holds Rust and C++ rounding.
  - `decimal.dfy` holds decimal digits.
  - `sorting.dfy` holds the stable sort Rust's `sort_by` performs.
  - `utf8.dfy` holds UTF-8 encoding.
  - `seqs.dfy` and `wrappers.dfy` hold sequences and Option/Result.

Geometry uses Dafny's `real`. Square roots, trigonometry and the kernel's geometric primitives are fields of a `Math` or `Geometry` record that the caller supplies, so the proofs hold for every implementation of them. The desktop classes do not call the kernel. Each kernel reply is a method parameter, and the store records the call it answers. Object-oriented code (the store, the tools, the history, the market store) is modelled as Dafny classes whose methods state their whole new state. Pure code is modelled as functions with lemmas.

## Model

| member | source | states |
|---|---|---|
| Aabbs.FromPoints | core/crates/geom2d/src/aabb.rs:12-19 | the box is well formed and holds both corner points |
| Aabbs.FromPointsLeast | core/crates/geom2d/src/aabb.rs:12-19 | every box holding both points holds the built box: it is the smallest one |
| Aabbs.IntersectsSymmetric | core/crates/geom2d/src/aabb.rs:21-26 | the overlap test does not depend on the order of the boxes |
| Aabbs.IntersectsIffCommonPoint | core/crates/geom2d/src/aabb.rs:21-26 | two well-formed boxes overlap exactly when some point lies in both |
| Aabbs.TouchingIntersects | core/crates/geom2d/src/aabb.rs:21-26 | boxes that only share an edge count as overlapping (the test is closed) |
| Aabbs.SelfIntersects | core/crates/geom2d/src/aabb.rs:21-26 | a box overlaps itself exactly when it is well formed |
| Json.Get | core/ffi_desktop/src/lib.rs:559 | a lookup finds a value exactly when the object has a member under that key |
| Json.Put | core/ffi_desktop/src/lib.rs:559 | after insertion the key holds the new value, every other key holds what it held, the key set gains exactly that key, and unique keys stay unique |
| Json.Remove | core/ffi_desktop/src/lib.rs:557 | after removal the key is absent, every other key holds what it held, the key set loses exactly that key, and unique keys stay unique |
| Json.MergeObjectLookup | core/ffi_desktop/src/lib.rs:552-565 | merging an object patch into an object: a key the patch does not mention keeps its value, a null removes it, any other value is merged into the old value (null when absent) |
| Json.MergeMembersLookup | core/ffi_desktop/src/lib.rs:555-561 | the same lookup law for the loop over the patch's members from any position onward |
| Json.RfcMergeObjectLookup | core/ffi_desktop/src/lib.rs:552-565 | the lookup law of the RFC 7396 section 2 algorithm, the reference the routine is measured against, for any target |
| Json.NonObjectTargetKeepsNulls | core/ffi_desktop/src/lib.rs:563 | an object patch on a non-object target is copied with its null members, where RFC 7396 drops them |
| Json.MergeAgreesWithRfcWhenNullFree | core/ffi_desktop/src/lib.rs:552-565 | on a patch with no null members anywhere, the routine computes exactly what RFC 7396 computes, for every target |
| Json.RfcMergeIntoEmpty | core/ffi_desktop/src/lib.rs:559 | merging a null-free object patch into an empty object rebuilds the patch itself |
| Ffi.NextHandle | core/ffi_desktop/src/lib.rs:659-665 | the next handle stays below 2^64: one more than the last, or 0 when the counter wraps |
| Ffi.HistoryTable.constructor | core/ffi_desktop/src/lib.rs:629-635 | the handle table starts empty with handle 1 next |
| Ffi.HistoryTable.New | core/ffi_desktop/src/lib.rs:659-665 | the handle returned is the counter's old value, the counter advances (wrapping), and the handle maps to a new empty history; other handles are untouched |
| Ffi.HistoryTable.Free | core/ffi_desktop/src/lib.rs:668-673 | the handle is dropped from the table; an unknown handle changes nothing |
| Ffi.HistoryTable.Undo | core/ffi_desktop/src/lib.rs:1207-1209 | an unknown handle gives CORE_INVARIANT_VIOLATION; otherwise the history's state and the result are those of undo on the given document |
| Ffi.HistoryTable.Redo | core/ffi_desktop/src/lib.rs:1212-1214 | an unknown handle gives CORE_INVARIANT_VIOLATION; otherwise the state and result are those of redo |
| Ffi.HistoryTable.ApplyAndPush | core/ffi_desktop/src/lib.rs:674-698 | an unknown handle is refused; a command error or an apply error is returned and leaves the history unchanged; otherwise the applied document is returned and the applied delta is pushed |
| Ffi.HistoryTable.BeginGroup | core/ffi_desktop/src/lib.rs:1217-1234 | an unknown handle is refused; otherwise the history opens a group with that name |
| Ffi.HistoryTable.EndGroup | core/ffi_desktop/src/lib.rs:1237-1247 | an unknown handle is refused; otherwise the history closes its open group |
| Ffi.Issued | core/ffi_desktop/src/lib.rs:659-665 | n calls of history_new issue n handles |
| Ffi.IssuedIncreasing | core/ffi_desktop/src/lib.rs:659-665 | before the counter wraps, the issued handles are consecutive and strictly increasing, so distinct |
| Ffi.IssuedWraps | core/ffi_desktop/src/lib.rs:660 | after handle 2^64 - 1 the counter wraps to 0 |
| Ffi.CandidateIndex | core/ffi_desktop/src/lib.rs:1194-1198 | a negative candidate index means no choice; any other index is passed on unchanged |
| Serialize.AsStrInjective | core/serialize/src/lib.rs:89-146 | distinct reason codes have distinct wire names |
| Serialize.NameKeyDecodes | core/serialize/src/lib.rs:89-146 | every code's wire name, read back by its length and two of its characters, gives the code: the decoding inverse of `as_str` |
| Serialize.AsStrUpperSnake | core/serialize/src/lib.rs:89-146 | every wire name is non-empty and made only of the characters A-Z, 0-9 and `_` |
| Serialize.AsStrIsUpperSnake | core/serialize/src/lib.rs:89-146 | every wire name is a non-empty UPPER_SNAKE_CASE string |
| Serialize.FromCode | core/serialize/src/lib.rs:25-33 | a reason built from a code carries its wire name and empty parameter and debug maps |
| Serialize.WithParam | core/serialize/src/lib.rs:617-620 | the parameter key then holds the value, every other parameter is kept, unique keys stay unique, and code and debug are untouched |
| Serialize.WithDebug | core/serialize/src/lib.rs:621-624 | the debug key then holds the value, every other debug entry is kept, unique keys stay unique, and code and parameters are untouched |
| Serialize.NormalizeDocumentJson | core/serialize/src/lib.rs:470-480 | a non-object passes through; an object gains `"materials": []` and `"settings": {}` only where they are missing, and every other key keeps its value |
| Serialize.NormalizeIdempotent | core/serialize/src/lib.rs:470-480 | normalising twice is normalising once |
| CommandHistory.ApplyAll | core/commands/src/history.rs:89-94 | a group's members applied in order: on success one filled delta per member |
| CommandHistory.RevertAllCons | core/commands/src/history.rs:96-101 | reverting a group reverts its later members first and its first member last |
| CommandHistory.ApplyGroup | core/commands/src/history.rs:89-94 | the loop over the members computes exactly the in-order fold, stopping at the first failure |
| CommandHistory.RevertGroup | core/commands/src/history.rs:96-101 | the reverse loop computes exactly the last-first fold, stopping at the first failure |
| CommandHistory.ApplyAllRoundTrip | core/commands/src/history.rs:88-101 | when each member undoes exactly on the document before it, reverting the applied group restores the document and re-applying gives the same result |
| CommandHistory.GroupRoundTrip | core/commands/src/history.rs:88-101 | such a group, as one delta, undoes exactly and re-applies to itself |
| CommandHistory.UndoableRoundTrips | core/commands/src/history.rs:34-48 | every kind of delta, applied under the condition its command guarantees (new ids, the document's own before-values, an empty cache, a deleted part that was last), undoes to the exact prior document and re-applies to the same document and delta |
| CommandHistory.DocumentEditRoundTrips | core/commands/src/history.rs:34-48 | the entity and part creations, the part update and delete, and the selection transform round-trip under those conditions |
| CommandHistory.EntityJobEditRoundTrips | core/commands/src/history.rs:34-48 | the offset, the fillet/chamfer/mirror/pattern edits, run-nesting and edit-placement round-trip under those conditions |
| CommandHistory.StepsUndoableRoundTrip | core/commands/src/history.rs:88-101 | a group whose members are each undoable in turn is undoable member by member |
| CommandHistory.PushState | core/commands/src/history.rs:25-32 | push goes into the open group if there is one, else onto the undo stack; redo is cleared either way |
| CommandHistory.UndoState | core/commands/src/history.rs:34-40 | an empty undo stack does nothing; otherwise the top is popped and reverted, and reaches redo only if the revert succeeds |
| CommandHistory.RedoState | core/commands/src/history.rs:42-48 | an empty redo stack does nothing; otherwise the top is popped and applied, and the delta as applied reaches undo only on success |
| CommandHistory.BeginGroupState | core/commands/src/history.rs:50-54 | a group opens under the name only when none is open |
| CommandHistory.EndGroupState | core/commands/src/history.rs:56-63 | closing leaves no open group; a non-empty group becomes one undo entry and clears redo; an empty one is dropped |
| CommandHistory.History.constructor | core/commands/src/history.rs:17-23 | the history starts with both stacks empty and no group |
| CommandHistory.History.Push | core/commands/src/history.rs:25-32 | the new state is the push of the old state |
| CommandHistory.History.Undo | core/commands/src/history.rs:34-40 | the new state and the result are the undo of the old state |
| CommandHistory.History.Redo | core/commands/src/history.rs:42-48 | the new state and the result are the redo of the old state |
| CommandHistory.History.BeginGroup | core/commands/src/history.rs:50-54 | the new state is begin-group of the old state |
| CommandHistory.History.EndGroup | core/commands/src/history.rs:56-63 | the new state is end-group of the old state |
| CommandHistory.PushUndoRedo | core/commands/src/history.rs:25-48 | outside a group, apply-and-push then undo restores the exact document with the delta alone on redo, and redo brings back the applied document and the pushed state |
| CommandHistory.PushUndoRedoOf | core/commands/src/history.rs:25-48 | the stack half of the same round trip, for any delta whose revert and re-apply are exact |
| CommandHistory.UndoThenRedo | core/commands/src/history.rs:34-48 | undo then redo restores the stacks and the document when the undone delta re-applies to itself |
| CommandHistory.BracketTwoUndo | core/commands/src/history.rs:50-63 | begin, two pushes and end leave one undo entry holding both deltas in order, and one undo takes both back |
| CommandHistory.RevertTwoCreates | core/commands/src/history.rs:96-101 | reverting a group of two entity creations removes both, restoring the document |
| CommandHistory.ApplyCreate | core/commands/src/history.rs:89-94 | applying an entity creation appends the entity when its layer exists |
| CommandHistory.GroupedCreatesUndoneInOneStep | core/commands/src/history.rs:25-63 | two creations pushed inside a group are undone by one undo, back to the exact prior document, with the group as the only redo entry |
| CreateLine.EnsureValid | core/commands/src/commands/create_line.rs:27-32 | a point is accepted exactly when both coordinates are finite; otherwise GEOM_INVALID_NUMERIC |
| CreateLine.CreateLineCommand.constructor | core/commands/src/commands/create_line.rs:19-25 | the command keeps its layer and its one entity id and has no preview |
| CreateLine.CreateLineCommand.Begin | core/commands/src/commands/create_line.rs:38-41 | begin clears the preview |
| CreateLine.CreateLineCommand.Update | core/commands/src/commands/create_line.rs:43-48 | update succeeds exactly when all four coordinates are finite and then stores the endpoints; on failure GEOM_INVALID_NUMERIC and the preview is kept |
| CreateLine.CreateLineCommand.Commit | core/commands/src/commands/create_line.rs:50-69 | without a preview GEOM_INVALID_NUMERIC; otherwise a create-entity delta for a line between the previewed points, with `{}` style, no tags and no meta |
| CreateLine.CreateLineCommand.Cancel | core/commands/src/commands/create_line.rs:71-74 | cancel clears the preview |
| CreateLine.ApplyCreateEntity | core/commands/src/commands/create_line.rs:83-89 | fails with MODEL_REFERENCE_NOT_FOUND exactly when the entity's layer is missing; otherwise the entity is appended |
| CreateLine.RevertCreateEntity | core/commands/src/commands/create_line.rs:91-98 | fails with MODEL_REFERENCE_NOT_FOUND exactly when no entity has the id; otherwise every entity with that id is removed |
| CreateLine.CreateEntityRoundTrip | core/commands/src/commands/create_line.rs:83-98 | apply then revert restores the exact prior document when the id was new |
| CreateLine.CreateEntityRedo | core/commands/src/commands/create_line.rs:83-98 | revert then apply restores the document when the entity was the last one and unique |
| Model.WithoutEntityLength | core/commands/src/commands/create_line.rs:92-96 | `retain` keeps the length exactly when no entity has the id, and then changes nothing |
| Model.WithoutPartLength | core/commands/src/commands/create_part.rs:250-254 | the same for parts |
| Model.RemoveAppendedEntity | core/commands/src/commands/create_line.rs:87-93 | removing the id of an entity just appended with a fresh id restores the list |
| Model.RemoveAppendedPart | core/commands/src/commands/create_part.rs:245-256 | the same for parts |
| Model.EntityIndexSameIds | core/commands/src/commands/transform_selection.rs:135-139 | a lookup by id gives the same position in two lists with the same ids in the same order |
| CreatePart.IsValidRing | core/commands/src/commands/create_part.rs:39-53 | the loop's shoelace sum decides exactly the reference predicate: at least three vertices and twice the signed area above 1e-12 in absolute value |
| CreatePart.ShoelaceStep | core/commands/src/commands/create_part.rs:47-51 | one step of the shoelace sum, the last edge closing back to vertex 0 |
| CreatePart.RectRingArea | core/commands/src/commands/create_part.rs:46-52 | an axis-parallel w by h rectangle listed counter-clockwise has twice-area 2wh |
| CreatePart.RectRingValid | core/commands/src/commands/create_part.rs:39-53 | such a rectangle is a valid ring exactly when 2wh exceeds 1e-12 in absolute value |
| CreatePart.CollinearRingInvalid | core/commands/src/commands/create_part.rs:39-53 | three equally spaced collinear points are never a valid ring |
| CreatePart.Validate | core/commands/src/commands/create_part.rs:55-70 | PART_INVALID_OUTLINE exactly when the outer ring or a hole is not a valid ring; PART_INVALID_FIELDS exactly when the outline is valid but the quantity is 0, a thickness, margin or kerf is negative, or the name is blank; otherwise Ok |
| CreatePart.CreatePartCommand.constructor | core/commands/src/commands/create_part.rs:35-37 | no preview |
| CreatePart.CreatePartCommand.Begin | core/commands/src/commands/create_part.rs:80-83 | begin clears the preview |
| CreatePart.CreatePartCommand.Update | core/commands/src/commands/create_part.rs:84-88 | the result is the validation of the part; only a valid part becomes the preview |
| CreatePart.CreatePartCommand.Commit | core/commands/src/commands/create_part.rs:89-96 | no preview gives PART_INVALID_OUTLINE; otherwise the part is validated again and a valid one yields a create-part delta |
| CreatePart.CreatePartCommand.Cancel | core/commands/src/commands/create_part.rs:97-100 | cancel clears the preview |
| CreatePart.CreatePartFromFaceCommand.constructor | core/commands/src/commands/create_part.rs:107-109 | no preview |
| CreatePart.CreatePartFromFaceCommand.Begin | core/commands/src/commands/create_part.rs:118-121 | begin clears the preview |
| CreatePart.CreatePartFromFaceCommand.Update | core/commands/src/commands/create_part.rs:122-125 | the face and properties become the preview unchecked |
| CreatePart.CreatePartFromFaceCommand.Commit | core/commands/src/commands/create_part.rs:126-149 | no preview gives PART_INVALID_OUTLINE; otherwise the part built from the properties with a fresh id and an empty outline goes to the face converter, whose error is returned, and its result is validated before it yields a create-part delta |
| CreatePart.CreatePartFromFaceCommand.Cancel | core/commands/src/commands/create_part.rs:150-153 | cancel clears the preview |
| CreatePart.UpdatePartCommand.constructor | core/commands/src/commands/create_part.rs:165-167 | no preview |
| CreatePart.UpdatePartCommand.Begin | core/commands/src/commands/create_part.rs:176-179 | begin clears the preview |
| CreatePart.UpdatePartCommand.Update | core/commands/src/commands/create_part.rs:180-187 | an id change gives PART_INVALID_FIELDS before anything else; otherwise the result is the validation of the new part, and only success sets the preview |
| CreatePart.UpdatePartCommand.Commit | core/commands/src/commands/create_part.rs:188-197 | no preview gives PART_INVALID_FIELDS; otherwise an update delta with the previewed before and after |
| CreatePart.UpdatePartCommand.Cancel | core/commands/src/commands/create_part.rs:198-201 | cancel clears the preview |
| CreatePart.DeletePartCommand.constructor | core/commands/src/commands/create_part.rs:208-210 | no preview |
| CreatePart.DeletePartCommand.Begin | core/commands/src/commands/create_part.rs:219-222 | begin clears the preview |
| CreatePart.DeletePartCommand.Update | core/commands/src/commands/create_part.rs:223-226 | the part becomes the preview |
| CreatePart.DeletePartCommand.Commit | core/commands/src/commands/create_part.rs:227-233 | no preview gives MODEL_REFERENCE_NOT_FOUND; otherwise a delete delta for the part |
| CreatePart.DeletePartCommand.Cancel | core/commands/src/commands/create_part.rs:234-237 | cancel clears the preview |
| CreatePart.AppendPart | core/commands/src/commands/create_part.rs:245-248 | the part is appended and nothing else changes |
| CreatePart.RemovePart | core/commands/src/commands/create_part.rs:249-256 | MODEL_REFERENCE_NOT_FOUND exactly when no part has the id; otherwise every part with the id is removed |
| CreatePart.ReplacePart | core/commands/src/commands/create_part.rs:265-273 | MODEL_REFERENCE_NOT_FOUND exactly when no part has the id; otherwise the first part with the id is overwritten in place |
| CreatePart.CreatePartRoundTrip | core/commands/src/commands/create_part.rs:244-257 | create then undo restores the exact document when the id was new |
| CreatePart.UpdatePartRoundTrip | core/commands/src/commands/create_part.rs:264-283 | update then undo restores the document when the first part with the id is the recorded before-value |
| CreatePart.DeletePartUndoMovesToEnd | core/commands/src/commands/create_part.rs:289-302 | undoing the delete of the first of two parts puts it back last: the part order changes |
| CreatePart.DeletePartRoundTrip | core/commands/src/commands/create_part.rs:289-302 | delete then undo restores the document exactly when the part was last and its id unique |
| CreateShapes.EnsureVec2 | core/commands/src/commands/create_shapes.rs:6-11 | a point passes exactly when both coordinates are finite; otherwise DRAW_INVALID_NUMERIC |
| CreateShapes.RectFromCorners | core/commands/src/commands/create_shapes.rs:83-95 | the committed rectangle is a closed polyline of four vertices |
| CreateShapes.RectSpansCorners | core/commands/src/commands/create_shapes.rs:82-96 | both dragged corners are vertices of the rectangle, its edges alternate horizontal and vertical, and its extent equals the corners' |
| CreateShapes.CreateRectCommand.constructor | core/commands/src/commands/create_shapes.rs:49-55 | the command keeps its layer and entity id and has no preview |
| CreateShapes.CreateRectCommand.Begin | core/commands/src/commands/create_shapes.rs:59-62 | begin clears the preview |
| CreateShapes.CreateRectCommand.Update | core/commands/src/commands/create_shapes.rs:63-75 | DRAW_INVALID_NUMERIC exactly when a corner is not finite; GEOM_DEGENERATE exactly when both are finite and the width or height is below 1e-12; on failure the preview is kept, otherwise the corners become it |
| CreateShapes.CreateRectCommand.Commit | core/commands/src/commands/create_shapes.rs:76-101 | no preview gives DRAW_INSUFFICIENT_INPUT; otherwise a create-entity delta of the rectangle spanning the corners on the command's layer with its entity id |
| CreateShapes.CreateRectCommand.Cancel | core/commands/src/commands/create_shapes.rs:102-105 | cancel clears the preview |
| CreateShapes.CreateCircleCommand.constructor | core/commands/src/commands/create_shapes.rs:124-130 | the command keeps its layer and entity id and has no preview |
| CreateShapes.CreateCircleCommand.Begin | core/commands/src/commands/create_shapes.rs:134-137 | begin clears the preview |
| CreateShapes.CreateCircleCommand.Update | core/commands/src/commands/create_shapes.rs:138-149 | succeeds exactly when the centre is finite and the radius finite and positive; otherwise DRAW_INVALID_NUMERIC with the preview kept |
| CreateShapes.CreateCircleCommand.Commit | core/commands/src/commands/create_shapes.rs:150-161 | no preview gives DRAW_INSUFFICIENT_INPUT; otherwise a create-entity delta of the previewed circle |
| CreateShapes.CreateCircleCommand.Cancel | core/commands/src/commands/create_shapes.rs:162-165 | cancel clears the preview |
| CreateShapes.CreateArcCommand.constructor | core/commands/src/commands/create_shapes.rs:189-196 | the command keeps its layer and entity id and has no preview |
| CreateShapes.CreateArcCommand.Begin | core/commands/src/commands/create_shapes.rs:200-203 | begin clears the preview |
| CreateShapes.CreateArcCommand.Update | core/commands/src/commands/create_shapes.rs:204-222 | succeeds exactly when the centre, the radius (positive) and both angles are finite; otherwise DRAW_INVALID_NUMERIC with the preview kept |
| CreateShapes.CreateArcCommand.Commit | core/commands/src/commands/create_shapes.rs:223-246 | no preview gives DRAW_INSUFFICIENT_INPUT; otherwise a create-entity delta of the previewed arc with its direction flag |
| CreateShapes.CreateArcCommand.Cancel | core/commands/src/commands/create_shapes.rs:247-250 | cancel clears the preview |
| CreateShapes.ToVec2s | core/commands/src/commands/create_shapes.rs:290-293 | every accepted input point is kept, in order |
| CreateShapes.CreatePolylineCommand.constructor | core/commands/src/commands/create_shapes.rs:268-275 | the command keeps its layer and entity id and has no preview |
| CreateShapes.CreatePolylineCommand.Begin | core/commands/src/commands/create_shapes.rs:279-282 | begin clears the preview |
| CreateShapes.CreatePolylineCommand.Update | core/commands/src/commands/create_shapes.rs:283-295 | DRAW_INSUFFICIENT_INPUT exactly when there are fewer than two points, or fewer than three on a closed polyline; DRAW_INVALID_NUMERIC exactly when the count is enough and some point is not finite; otherwise all points become the preview |
| CreateShapes.CreatePolylineCommand.Commit | core/commands/src/commands/create_shapes.rs:296-311 | no preview gives DRAW_INSUFFICIENT_INPUT; otherwise a create-entity delta of the previewed polyline |
| CreateShapes.CreatePolylineCommand.Cancel | core/commands/src/commands/create_shapes.rs:312-315 | cancel clears the preview |
| TransformSelection.Transformed | core/commands/src/commands/transform_selection.rs:88-96 | the transform dispatches to translate, rotate or scale; a failure is EDIT_INVALID_NUMERIC or EDIT_TRANSFORM_WOULD_DEGENERATE, a success keeps the geometry's kind, and a finite translation always succeeds with the translated geometry |
| TransformSelection.TransformSelectionCommand.constructor | core/commands/src/commands/transform_selection.rs:26-28 | no preview |
| TransformSelection.TransformSelectionCommand.Begin | core/commands/src/commands/transform_selection.rs:38-41 | begin clears the preview |
| TransformSelection.TransformSelectionCommand.Update | core/commands/src/commands/transform_selection.rs:42-48 | fails exactly on an empty selection, with EDIT_NO_SELECTION and the preview kept; otherwise the ids and transform become the preview |
| TransformSelection.TransformSelectionCommand.Commit | core/commands/src/commands/transform_selection.rs:49-58 | no preview gives EDIT_NO_SELECTION; otherwise a transform delta with an empty entry cache |
| TransformSelection.TransformSelectionCommand.Cancel | core/commands/src/commands/transform_selection.rs:59-62 | cancel clears the preview |
| TransformSelection.EntryFor | core/commands/src/commands/transform_selection.rs:102-122 | an id no entity has gives MODEL_REFERENCE_NOT_FOUND |
| TransformSelection.EntryForOk | core/commands/src/commands/transform_selection.rs:102-122 | an entry is built exactly when the entity exists, its layer exists and is visible, unlocked and editable, and the transform accepts its geometry; the entry records the id, the entity's layer, its geometry as before and the transformed geometry as after |
| TransformSelection.EntriesFor | core/commands/src/commands/transform_selection.rs:101-123 | the first id that fails stops the loop with its error |
| TransformSelection.EntriesForOk | core/commands/src/commands/transform_selection.rs:101-123 | the entries succeed exactly when every id's entry does, and then the k-th entry is the k-th id's |
| TransformSelection.Entries | core/commands/src/commands/transform_selection.rs:97-100 | an empty selection gives EDIT_NO_SELECTION before any lookup; otherwise the per-id entries |
| TransformSelection.BuildEntries | core/commands/src/commands/transform_selection.rs:97-124 | the loop computes exactly the reference entries, error included |
| TransformSelection.ApplyEntry | core/commands/src/commands/transform_selection.rs:126-147 | succeeds exactly when the entry's layer exists and is editable and its entity exists on that layer; a missing layer gives MODEL_REFERENCE_NOT_FOUND, a hidden, locked or read-only one EDIT_TARGET_LOCKED_OR_HIDDEN; success overwrites only that entity's geometry with the before or after value |
| TransformSelection.ApplyEntriesLoop | core/commands/src/commands/transform_selection.rs:125-150 | the loop computes the reference left-to-right application, each entry seeing the writes of the previous ones |
| TransformSelection.GeomOnlyTrans | core/commands/src/commands/transform_selection.rs:143-147 | changing only geometries composes |
| TransformSelection.GeomOnlyKeepsTargets | core/commands/src/commands/transform_selection.rs:127-142 | a document changed only in geometries has the same entity positions and the same entry validity |
| TransformSelection.GeomOnlyKeepsAll | core/commands/src/commands/transform_selection.rs:126-142 | the validity of all entries carries over to such a document |
| TransformSelection.TargetSetGeomOnly | core/commands/src/commands/transform_selection.rs:135-139 | the set of written positions carries over to such a document |
| TransformSelection.ApplyEntriesEffect | core/commands/src/commands/transform_selection.rs:125-150 | with every target valid, applying succeeds, changes only geometries, and leaves every unwritten entity's geometry as it was |
| TransformSelection.RevertRestores | core/commands/src/commands/transform_selection.rs:167-176 | writing the recorded before geometries into a document that differs from the base only in the written geometries gives back the base |
| TransformSelection.EntriesValid | core/commands/src/commands/transform_selection.rs:97-124 | built entries are valid against the document they came from and record its geometries as before |
| TransformSelection.ApplyRevertEntries | core/commands/src/commands/transform_selection.rs:154-176 | writing the after geometries and then the before ones gives back the document the entries were built from |
| TransformSelection.ApplyTransform | core/commands/src/commands/transform_selection.rs:154-166 | the first apply builds the entries from the document and caches them, a later one reuses the cache; the result is the after geometries written in order |
| TransformSelection.RevertTransform | core/commands/src/commands/transform_selection.rs:167-176 | without a cache CORE_INVARIANT_VIOLATION; otherwise the before geometries written in order |
| TransformSelection.TransformRoundTrip | core/commands/src/commands/transform_selection.rs:153-177 | after a successful first apply, revert restores the exact prior document and a redo from the cache reproduces the same document |
| TransformSelection.TranslateSingle | core/commands/src/commands/transform_selection.rs:88-90 | translating one entity on an editable layer by a finite (dx, dy) moves exactly that entity's geometry by (dx, dy) |
| OffsetEntity.OffsetEntityCommand.constructor | core/commands/src/commands/offset_entity.rs:19-26 | the command keeps its one new entity id and has no preview |
| OffsetEntity.OffsetEntityCommand.Begin | core/commands/src/commands/offset_entity.rs:36-39 | begin clears the preview |
| OffsetEntity.OffsetEntityCommand.Update | core/commands/src/commands/offset_entity.rs:40-46 | fails exactly on a non-finite distance, with EDIT_INVALID_NUMERIC and the preview kept; otherwise the entity and distance become the preview |
| OffsetEntity.OffsetEntityCommand.Commit | core/commands/src/commands/offset_entity.rs:47-59 | no preview gives EDIT_INVALID_NUMERIC; otherwise an offset delta with the command's new id and an empty cache |
| OffsetEntity.OffsetEntityCommand.Cancel | core/commands/src/commands/offset_entity.rs:60-63 | cancel clears the preview |
| OffsetEntity.OffsetCopy | core/commands/src/commands/offset_entity.rs:97-119 | a missing source gives MODEL_REFERENCE_NOT_FOUND; a copy exists only for a source on an existing editable layer whose geometry the kernel offsets, and it is the source with the new id and the offset geometry; the kernel's error is passed on |
| OffsetEntity.ApplyOffset | core/commands/src/commands/offset_entity.rs:92-129 | the first apply computes the copy, a later one reuses the cache; a success appends the copy to a document holding its layer; with a cache, failure happens exactly when the copy's layer is gone |
| OffsetEntity.RevertOffset | core/commands/src/commands/offset_entity.rs:131-138 | fails exactly when no entity has the copy's id; otherwise every entity with that id is removed |
| OffsetEntity.OffsetRoundTrip | core/commands/src/commands/offset_entity.rs:91-139 | when the copy's id is new, undo restores the exact prior document and redo from the cache reproduces the same document |
| EditOps.MapGeom | core/edit_ops/src/lib.rs:42-68 | mapping a function over the defining points keeps kind, radius, angles, direction, point count and closed flag, and maps each polyline vertex |
| EditOps.Translate | core/edit_ops/src/lib.rs:38-69 | fails exactly when an offset is not finite, with EDIT_INVALID_NUMERIC; otherwise every defining point moves by the offset and nothing else changes |
| EditOps.TranslateGeomInverse | core/edit_ops/src/lib.rs:38-69 | translating back by the opposite offset restores the geometry exactly |
| EditOps.TranslateGeomCompose | core/edit_ops/src/lib.rs:38-69 | two translations compose into one by the summed offset |
| EditOps.Rotate | core/edit_ops/src/lib.rs:71-105 | fails exactly when the angle or the centre is not finite, with EDIT_INVALID_NUMERIC; otherwise kind, radius and point count are kept and an arc's start and end angles turn by the angle |
| EditOps.RotatePointInverse | core/edit_ops/src/lib.rs:20-29 | when cos is even, sin is odd and cos²+sin²=1 at the angle, rotating a point back restores it |
| EditOps.RotateGeomInverse | core/edit_ops/src/lib.rs:71-105 | under the same trigonometric facts, rotating back by the opposite angle restores the geometry exactly |
| EditOps.Scale | core/edit_ops/src/lib.rs:107-151 | EDIT_INVALID_NUMERIC exactly when a factor or the centre is not finite; EDIT_TRANSFORM_WOULD_DEGENERATE exactly when they are finite and a factor is at most 1e-12 in magnitude or a circle or arc is scaled non-uniformly beyond 1e-12; otherwise kind, angles and point count are kept and a radius becomes r times abs(sx) |
| EditOps.ScalePointInverse | core/edit_ops/src/lib.rs:31-36 | scaling a point by the reciprocal factors about the same centre restores it |
| EditOps.RadiusInverse | core/edit_ops/src/lib.rs:119-145 | a radius scaled by abs(s) and then by abs(1/s) is the radius again |
| EditOps.ScaleGeomInverse | core/edit_ops/src/lib.rs:107-151 | scaling by the reciprocal factors restores the geometry exactly |
| AdvancedEdit.TwoPickCommand.constructor | core/commands/src/commands/advanced_edit.rs:280-284 | a fillet or chamfer command with no preview |
| AdvancedEdit.TwoPickCommand.Begin | core/commands/src/commands/advanced_edit.rs:292-295 | begin clears the preview |
| AdvancedEdit.TwoPickCommand.Update | core/commands/src/commands/advanced_edit.rs:296-302 | succeeds exactly when the radius or distance is finite and positive; otherwise DRAW_INVALID_NUMERIC with the preview kept |
| AdvancedEdit.TwoPickCommand.Commit | core/commands/src/commands/advanced_edit.rs:303-317 | no preview gives DRAW_INSUFFICIENT_INPUT; otherwise an entities delta for the fillet or chamfer with no snapshots |
| AdvancedEdit.TwoPickCommand.Cancel | core/commands/src/commands/advanced_edit.rs:318-321 | cancel clears the preview |
| AdvancedEdit.MirrorCommand.constructor | core/commands/src/commands/advanced_edit.rs:386-390 | no preview |
| AdvancedEdit.MirrorCommand.Begin | core/commands/src/commands/advanced_edit.rs:398-401 | begin clears the preview |
| AdvancedEdit.MirrorCommand.Update | core/commands/src/commands/advanced_edit.rs:402-405 | any selection and axis are accepted as the preview |
| AdvancedEdit.MirrorCommand.Commit | core/commands/src/commands/advanced_edit.rs:406-420 | no preview gives DRAW_INSUFFICIENT_INPUT; otherwise a mirror entities delta with no snapshots |
| AdvancedEdit.MirrorCommand.Cancel | core/commands/src/commands/advanced_edit.rs:421-424 | cancel clears the preview |
| AdvancedEdit.PatternCommand.constructor | core/commands/src/commands/advanced_edit.rs:450-454 | no preview |
| AdvancedEdit.PatternCommand.Begin | core/commands/src/commands/advanced_edit.rs:462-465 | begin clears the preview |
| AdvancedEdit.PatternCommand.Update | core/commands/src/commands/advanced_edit.rs:466-474 | succeeds exactly when the count is at least 2; otherwise EDIT_PATTERN_INVALID_PARAMS with the preview kept |
| AdvancedEdit.PatternCommand.Commit | core/commands/src/commands/advanced_edit.rs:475-488 | no preview gives DRAW_INSUFFICIENT_INPUT; otherwise a pattern entities delta with no snapshots |
| AdvancedEdit.PatternCommand.Cancel | core/commands/src/commands/advanced_edit.rs:489-492 | cancel clears the preview |
| AdvancedEdit.FilletGeoms | core/commands/src/commands/advanced_edit.rs:104-125 | the joint is always a counter-clockwise arc of the fillet radius; when the kernel trims, the trimmed lines are kept; when it cannot, the lines stay as they were and the arc is the quarter arc from 0 to 1.57 centred half-way between the lines' first points |
| AdvancedEdit.ReplacePair | core/commands/src/commands/advanced_edit.rs:126-143 | the list becomes the entities named neither id, then the two edited lines, then the new joint entity on the first line's layer with style {}, the given tag and no meta |
| AdvancedEdit.LinePair | core/commands/src/commands/advanced_edit.rs:88-103 | a missing id gives MODEL_REFERENCE_NOT_FOUND, two found entities that are not both lines give GEOM_OFFSET_NOT_SUPPORTED, otherwise the first entity with each id |
| AdvancedEdit.FilletEdit | core/commands/src/commands/advanced_edit.rs:87-144 | fillet fails exactly when the two lines are not found, and otherwise replaces them as the fillet geometry says, tagging the arc "fillet" |
| AdvancedEdit.ChamferEdit | core/commands/src/commands/advanced_edit.rs:145-188 | the lookup error is passed on; a trim the kernel refuses gives EDIT_CHAMFER_DISTANCE_TOO_LARGE; otherwise the kernel's two lines and joining segment replace the pair, tagged "chamfer" |
| AdvancedEdit.PairEditShape | core/commands/src/commands/advanced_edit.rs:126-143 | every kept entity comes from the list and carries neither id, every entity of the list with neither id is kept, and the list does not grow beyond three new entries |
| AdvancedEdit.MirrorCopy | core/commands/src/commands/advanced_edit.rs:195-216 | a missing id gives MODEL_REFERENCE_NOT_FOUND, an axis the kernel refuses EDIT_MIRROR_AXIS_INVALID, otherwise the source with a fresh id and the mirrored geometry |
| AdvancedEdit.MirrorAppends | core/commands/src/commands/advanced_edit.rs:194-217 | a successful mirror keeps the list as a prefix and appends one entity per selected id, the j-th being the mirror copy of that id's entity in the list as grown before it |
| AdvancedEdit.MirrorStepWidth | core/commands/src/commands/advanced_edit.rs:212-216 | each mirror step appends exactly one entity |
| AdvancedEdit.MirrorChunk | core/commands/src/commands/advanced_edit.rs:194-217 | the j-th appended entity is what the mirror step yields for the j-th id |
| AdvancedEdit.MirrorStepOne | core/commands/src/commands/advanced_edit.rs:195-216 | a successful mirror step yields just the mirror copy |
| AdvancedEdit.MirrorLoop | core/commands/src/commands/advanced_edit.rs:194-217 | the loop computes the reference mirror edit, including its first error |
| AdvancedEdit.Copies | core/commands/src/commands/advanced_edit.rs:231-261 | one source yields count - 1 copies |
| AdvancedEdit.LinearCopies | core/commands/src/commands/advanced_edit.rs:230-240 | copy j of a linear pattern is the source translated by (j dx, j dy), with a fresh id, the same layer, style and tags, and the pattern meta record under "pattern" |
| AdvancedEdit.PatternStepWidth | core/commands/src/commands/advanced_edit.rs:231-261 | each pattern step appends count - 1 entities |
| AdvancedEdit.PatternStepCopies | core/commands/src/commands/advanced_edit.rs:224-261 | a successful pattern step found the id's entity and yields its copies |
| AdvancedEdit.PatternAppends | core/commands/src/commands/advanced_edit.rs:223-264 | a successful pattern keeps the list as a prefix and appends count - 1 copies per selected id |
| AdvancedEdit.PatternChunk | core/commands/src/commands/advanced_edit.rs:223-264 | chunk j of the appended copies is the pattern step's output for the j-th id on the list as grown before it, drawing fresh ids from j (count - 1) on |
| AdvancedEdit.PatternMissing | core/commands/src/commands/advanced_edit.rs:224-228 | an id not in the list ends the pattern with MODEL_REFERENCE_NOT_FOUND |
| AdvancedEdit.PatternSingle | core/commands/src/commands/advanced_edit.rs:223-264 | a single-id pattern appends exactly that entity's copies |
| AdvancedEdit.AppendCopies | core/commands/src/commands/advanced_edit.rs:231-240 | the inner loop pushes exactly the copies of the source |
| AdvancedEdit.PatternGrowStep | core/commands/src/commands/advanced_edit.rs:223-264 | one step of the pass: a missing source ends it with MODEL_REFERENCE_NOT_FOUND, a found one appends its copies |
| AdvancedEdit.PatternFromIsGrow | core/commands/src/commands/advanced_edit.rs:223-264 | the loop's remaining work from position s is the pass of pattern steps over the remaining ids |
| AdvancedEdit.PatternFromGrowFound | core/commands/src/commands/advanced_edit.rs:223-264 | for a found source, agreement after its copies gives agreement before them |
| AdvancedEdit.PatternFromStep | core/commands/src/commands/advanced_edit.rs:223-264 | one turn of the loop: a missing source ends it, a found one appends its copies |
| AdvancedEdit.PatternEditIsFrom | core/commands/src/commands/advanced_edit.rs:223-264 | the whole pattern edit is the loop's work from the first id |
| AdvancedEdit.PatternTurn | core/commands/src/commands/advanced_edit.rs:224-262 | one outer turn looks the id up in the list as grown so far and pushes its copies, or reports the missing id |
| AdvancedEdit.PatternLoop | core/commands/src/commands/advanced_edit.rs:219-265 | the nested loops compute the reference pattern edit, including its first error |
| AdvancedEdit.ApplyEntities | core/commands/src/commands/advanced_edit.rs:30-49 | the first apply snapshots the list and succeeds exactly when the edit does, making the edited list current; a later apply with both snapshots makes the after snapshot current, and one without an after snapshot fails |
| AdvancedEdit.RevertEntities | core/commands/src/commands/advanced_edit.rs:50-59 | without a before snapshot CORE_INVARIANT_VIOLATION; otherwise the before snapshot becomes the list |
| AdvancedEdit.EntitiesRoundTrip | core/commands/src/commands/advanced_edit.rs:29-60 | undo after the first successful apply restores the exact prior document, and redo from the snapshots reproduces the same document |
| Trim.Unranked | core/crates/diycad_geom/src/ops/trim.rs:26-33 | each candidate keeps its input position and point, alongside its line parameter and its distance from the pick's parameter |
| Trim.RankCandidates | core/crates/diycad_geom/src/ops/trim.rs:34 | the ranking holds exactly the candidates, each once: a permutation of the unranked list |
| Trim.ChooseCandidate | core/crates/diycad_geom/src/ops/trim.rs:14-66 | no candidates give GEOM_TRIM_NO_INTERSECTION; an index past the end gives EDIT_TRIM_AMBIGUOUS_CANDIDATE carrying the ranked list and the index; a valid index takes that rank; otherwise two closest candidates within eq_dist of each other give EDIT_TRIM_AMBIGUOUS_CANDIDATE with the ranked list, and a clear closest is taken |
| Trim.DistLeqTotal | core/crates/diycad_geom/src/ops/trim.rs:34 | ordering by distance is a total preorder, so the stable sort is well defined |
| Trim.RankingSorted | core/crates/diycad_geom/src/ops/trim.rs:26-34 | the ranking is sorted by distance and its first entry is at least as close to the pick as every candidate |
| Trim.ChosenIsClosest | core/crates/diycad_geom/src/ops/trim.rs:53-65 | without an index, the point taken is a candidate at minimal distance from the pick |
| Trim.ChosenIsCandidate | core/crates/diycad_geom/src/ops/trim.rs:36-65 | whatever the index, the point taken is one of the candidates |
| Trim.IntersectForTrim | core/crates/diycad_geom/src/ops/trim.rs:79-85 | the intersector's points pass through; its GEOM_NO_INTERSECTION becomes GEOM_TRIM_NO_INTERSECTION and any other reason passes through |
| Trim.TrimLine | core/crates/diycad_geom/src/ops/trim.rs:68-94 | a target that is not a line gives GEOM_OFFSET_NOT_SUPPORTED; a success is a line |
| Trim.TrimLineKeepsPickSide | core/crates/diycad_geom/src/ops/trim.rs:86-93 | a successful line trim ends at an intersection point and keeps the pick's side: from the start to a point at or beyond the pick's parameter, or from a point before it to the end |
| Trim.TimesIsProduct | core/crates/diycad_geom/src/ops/trim.rs:113 | the repeated sum equals the product t · n |
| Trim.LastAtMost | core/crates/diycad_geom/src/ops/trim.rs:114 | the segment number is below the segment count |
| Trim.LastAtMostIsClampedFloor | core/crates/diycad_geom/src/ops/trim.rs:114 | the largest segment number at most u is the floor of u, saturated at 0 below and capped at n - 1 |
| Trim.SegmentIndex | core/crates/diycad_geom/src/ops/trim.rs:112-114 | the segment under the pick is below the segment count |
| Trim.SegmentIndexIsFloor | core/crates/diycad_geom/src/ops/trim.rs:112-114 | that segment is the clamped floor of t_global · seg_count |
| Trim.TrimPolyline | core/crates/diycad_geom/src/ops/trim.rs:96-133 | a target that is not an open polyline of at least two points gives GEOM_OFFSET_NOT_SUPPORTED; a success is an open polyline with the same number of points |
| Trim.WriteBack | core/crates/diycad_geom/src/ops/trim.rs:120-132 | the segment trim's error is passed on; otherwise only points i and i + 1 change, to the trimmed segment's ends, and the result is open |
| Trim.TrimPolylineLocal | core/crates/diycad_geom/src/ops/trim.rs:111-132 | a successful polyline trim projected the pick, and changes only the two ends of the segment under it, to the ends of that segment trimmed as a line |
| NestingModel.XorshiftNonZero | core/crates/diycad_nesting/src/model.rs:12-15 | a xorshift step maps a non-zero state to a non-zero state, so the stream never sticks at 0 |
| NestingModel.Draws | core/crates/diycad_nesting/src/model.rs:9-17 | the k-th drawn value is the output of the state after k + 1 xorshift steps from the mixed seed |
| NestingModel.DeterministicRng.constructor | core/crates/diycad_nesting/src/model.rs:9-11 | the state is the seed XOR 0x9e3779b97f4a7c15 |
| NestingModel.DeterministicRng.NextU32 | core/crates/diycad_nesting/src/model.rs:12-17 | the state takes the three xorshift steps, and the value is bits 32-63 of the state times 0x2545F4914F6CDD1D, wrapping at 2^64 |
| NestingModel.DrawFromSeed | core/crates/diycad_nesting/src/model.rs:8-18 | n draws from a fresh generator are exactly the reference draws of its seed |
| NestingModel.SameSeedSameDraws | core/crates/diycad_nesting/src/model.rs:8-18 | two generators built from the same seed draw the same sequence |
| NestingModel.IntoPlacement | core/crates/diycad_nesting/src/model.rs:40-54 | the placement keeps the part, sheet instance, position and rotation |
| NestingModel.IntoPlacementAnchored | core/crates/diycad_nesting/src/model.rs:47-52 | the placement's box starts at its position and has the rectangle's width and height |
| NestingModel.MinMaxOfBounds | core/crates/diycad_nesting/src/model.rs:62-74 | the running minimum and maximum bound every coordinate and are attained |
| NestingModel.ExtremesStep | core/crates/diycad_nesting/src/model.rs:70-73 | one more point folds into the running extremes with min and max |
| NestingModel.Xs | core/crates/diycad_nesting/src/model.rs:66-74 | the x coordinates of the outline, in order |
| NestingModel.Ys | core/crates/diycad_nesting/src/model.rs:66-74 | the y coordinates of the outline, in order |
| NestingModel.Extent | core/crates/diycad_nesting/src/model.rs:75 | the outline's width and height are never negative |
| NestingModel.Dims | core/crates/diycad_nesting/src/model.rs:57-76 | fewer than three points give PART_INVALID_OUTLINE; otherwise the loop returns the spread of the x and y coordinates |
| NestingModel.EvalLeqTotal | core/crates/diycad_nesting/src/model.rs:114-119 | the packing order (area descending, then the larger side descending, then part id ascending) is a total preorder |
| NestingModel.Copies | core/crates/diycad_nesting/src/model.rs:98 | a reference yields its override or else the part's quantity, and at least one copy |
| NestingModel.EvalOf | core/crates/diycad_nesting/src/model.rs:100-111 | a copy's extent is grown by twice the job's and part's margins and kerfs and clamped at 0; its area is width times height; it may rotate when the part or the job default allows |
| NestingModel.ExpandRef | core/crates/diycad_nesting/src/model.rs:87-97 | a reference to an unknown part gives MODEL_REFERENCE_NOT_FOUND |
| NestingModel.ExpandRefsOk | core/crates/diycad_nesting/src/model.rs:86-113 | expansion succeeds exactly when every reference names a part with an outline of at least three points, and then yields one record per copy |
| NestingModel.UnknownPartFails | core/crates/diycad_nesting/src/model.rs:87-97 | one reference to an unknown part makes the whole expansion fail |
| NestingModel.ExpandSorted | core/crates/diycad_nesting/src/model.rs:84-120 | a successful expansion is in packing order and is a permutation of the records of the references taken in part-id order |
| NestingModel.ExpandStep | core/crates/diycad_nesting/src/model.rs:86-113 | one turn of the loop: a failing reference ends the expansion with its error, a successful one appends its records |
| NestingModel.PushCopies | core/crates/diycad_nesting/src/model.rs:104-112 | the inner loop pushes exactly n copies of the record |
| NestingModel.ExpandOne | core/crates/diycad_nesting/src/model.rs:87-112 | one reference looked up, measured and pushed, or its error |
| NestingModel.ExpandParts | core/crates/diycad_nesting/src/model.rs:78-121 | expand_parts as the loops run it computes exactly the reference expansion, error included |
| NestingPack.SheetCursors | core/crates/diycad_nesting/src/pack.rs:14-19 | one sheet instance per unit of quantity, summed over the definitions |
| NestingPack.SheetCursorsShape | core/crates/diycad_nesting/src/pack.rs:14-19 | every instance starts at the origin with an empty row and has the size of one of the definitions |
| NestingPack.BuildSheets | core/crates/diycad_nesting/src/pack.rs:14-19 | the nested push loop builds exactly the reference sheet list |
| NestingPack.Orientations | core/crates/diycad_nesting/src/pack.rs:24-27 | the upright footprint first, then the quarter-turned one at 90 degrees exactly when the part may rotate |
| NestingPack.TryDim | core/crates/diycad_nesting/src/pack.rs:28-39 | an orientation larger than the sheet is skipped; when the row is full the cursor wraps to a new row; it is placed only if it then fits below the sheet's height, and the sheet's size never changes |
| NestingPack.TryDims | core/crates/diycad_nesting/src/pack.rs:28-57 | the orientations in turn stop at the first one placed, and a placement lies within the sheet |
| NestingPack.PlaceFromSound | core/crates/diycad_nesting/src/pack.rs:22-58 | trying the sheets in order keeps every sheet's size, and a recorded rectangle lies within its sheet in an allowed orientation |
| NestingPack.TooLargeNeverPlaced | core/crates/diycad_nesting/src/pack.rs:61-66 | a part that fits no definition in any allowed orientation is placed on no sheet |
| NestingPack.PackAll | core/crates/diycad_nesting/src/pack.rs:21-76 | one status per part |
| NestingPack.PackAllSizes | core/crates/diycad_nesting/src/pack.rs:21-76 | packing keeps the number and sizes of the sheets |
| NestingPack.PackAllStatuses | core/crates/diycad_nesting/src/pack.rs:51-75 | each part's status is Placed with no reason, or Unplaced with NEST_PART_TOO_LARGE_FOR_ANY_SHEET when no definition could hold it and NEST_NO_FEASIBLE_POSITION_WITH_MARGIN_AND_KERF otherwise; a too-large part is never placed |
| NestingPack.PackAllCounts | core/crates/diycad_nesting/src/pack.rs:40-75 | one failure code per unplaced part and one rectangle per placed part |
| NestingPack.PackAllPlacements | core/crates/diycad_nesting/src/pack.rs:40-48 | every rectangle lies within its sheet in an allowed orientation of one of the parts |
| NestingPack.TryOrientations | core/crates/diycad_nesting/src/pack.rs:28-57 | the orientation loop computes the reference attempt |
| NestingPack.PlacePart | core/crates/diycad_nesting/src/pack.rs:22-58 | the sheet loop, moving cursors in place, computes the reference placement |
| NestingPack.PackParts | core/crates/diycad_nesting/src/pack.rs:6-79 | pack_parts returns the reference rectangles and codes and appends one status per part to the caller's list |
| NestingScore.SheetAreas | core/crates/diycad_nesting/src/score.rs:9-14 | one area per sheet instance, summed quantities long |
| NestingScore.SheetAreasMatchSheets | core/crates/diycad_nesting/src/score.rs:9-14 | the k-th area is width times height of the k-th sheet instance the packer builds |
| NestingScore.CollectAreas | core/crates/diycad_nesting/src/score.rs:9-14 | the nested push loop builds exactly the reference areas |
| NestingScore.Used | core/crates/diycad_nesting/src/score.rs:15-21 | one used area per sheet instance |
| NestingScore.UsedIsAreaOn | core/crates/diycad_nesting/src/score.rs:15-21 | each instance's used area is the total area of the placements naming it |
| NestingScore.OutOfRangeIgnored | core/crates/diycad_nesting/src/score.rs:17-20 | a placement whose sheet index is out of range changes no used area |
| NestingScore.Utilization | core/crates/diycad_nesting/src/score.rs:22-26 | one ratio per sheet: used over area times area gives back used when the area is positive, and 0 otherwise |
| NestingScore.UsedSheetsBounds | core/crates/diycad_nesting/src/score.rs:27 | at most every sheet is counted as used, and none is exactly when no sheet has area placed on it |
| NestingScore.Metrics | core/crates/diycad_nesting/src/score.rs:4-44 | one utilisation per sheet instance, and four cuts per placement |
| NestingScore.UnplacedPenalty | core/crates/diycad_nesting/src/score.rs:29-36 | each unplaced status lowers the score by exactly 1000 and a placed status leaves it, with the utilisations unchanged |
| NestingScore.AccumulateUsed | core/crates/diycad_nesting/src/score.rs:15-21 | the buffer loop produces exactly the reference used areas |
| NestingScore.ComputeMetrics | core/crates/diycad_nesting/src/score.rs:4-44 | compute_metrics returns exactly the reference metrics |
| NestingConstraints.ValidateJob | core/crates/diycad_nesting/src/constraints.rs:3-18 | Ok exactly when there is a sheet definition, every definition has positive width and height and quantity at least 1, and every reference names a part of the document; no definitions or a bad one give NEST_INTERNAL_INFEASIBLE; a missing part with good sheets gives MODEL_REFERENCE_NOT_FOUND |
| NestingConstraints.ValidReferencesResolve | core/crates/diycad_nesting/src/constraints.rs:12-16 | after a successful validation every reference finds its part |
| NestingCommands.RunNestingCommand.constructor | core/commands/src/commands/nesting.rs:19-21 | a new command has no preview |
| NestingCommands.RunNestingCommand.Begin | core/commands/src/commands/nesting.rs:30-33 | begin clears the preview |
| NestingCommands.RunNestingCommand.Update | core/commands/src/commands/nesting.rs:34-52 | a job missing from the snapshot gives MODEL_REFERENCE_NOT_FOUND; the update succeeds exactly when the job exists and the run succeeds, and then previews the job's current result and trace as the before values and the run's output as the after values; a failure leaves the previous preview |
| NestingCommands.Committed | core/commands/src/commands/nesting.rs:53-57 | both nesting commands commit the previewed delta, and CORE_INVARIANT_VIOLATION exactly when nothing was previewed |
| NestingCommands.RunNestingCommand.Commit | core/commands/src/commands/nesting.rs:53-57 | the preview, or CORE_INVARIANT_VIOLATION when there is none |
| NestingCommands.RunNestingCommand.Cancel | core/commands/src/commands/nesting.rs:58-61 | cancel clears the preview |
| NestingCommands.SetJobOutput | core/commands/src/commands/nesting.rs:73-92 | the write both apply (the after values) and revert (the before values) of a run make: fails with MODEL_REFERENCE_NOT_FOUND exactly when no job has the id; otherwise only the first such job's result and trace change |
| NestingCommands.JobIndexSameIds | core/commands/src/commands/nesting.rs:74-78 | replacing a job by one with the same id keeps every job lookup |
| NestingCommands.SetJobOutputTwice | core/commands/src/commands/nesting.rs:73-92 | writing a job's output twice leaves the second write |
| NestingCommands.RunNestingRoundTrip | core/commands/src/commands/nesting.rs:44-92 | with the before values taken from the job, apply succeeds, revert restores the document, and apply again reproduces the applied one |
| NestingCommands.EditPlacementCommand.constructor | core/commands/src/commands/nesting.rs:115-117 | a new command has no preview |
| NestingCommands.EditPlacementCommand.Begin | core/commands/src/commands/nesting.rs:126-129 | begin clears the preview |
| NestingCommands.EditPlacementCommand.Update | core/commands/src/commands/nesting.rs:130-139 | any input is accepted and previewed, with the caller's old pose kept for undo |
| NestingCommands.EditPlacementCommand.Commit | core/commands/src/commands/nesting.rs:140-144 | the preview, or CORE_INVARIANT_VIOLATION when there is none |
| NestingCommands.EditPlacementCommand.Cancel | core/commands/src/commands/nesting.rs:145-148 | cancel clears the preview |
| NestingCommands.AsU32 | core/commands/src/commands/nesting.rs:174 | the i32 sheet index cast to u32: a negative index wraps by 2^32 and the result is below 2^32 |
| NestingCommands.Posed | core/commands/src/commands/nesting.rs:177-185 | the placement takes the pose, and its box keeps its width and height with its lower corner moved to the new position |
| NestingCommands.PosedTwice | core/commands/src/commands/nesting.rs:177-185 | posing twice is posing once with the second pose |
| NestingCommands.PosedOwnPose | core/commands/src/commands/nesting.rs:177-185 | posing at the placement's own pose changes nothing exactly when its box is anchored at its position |
| NestingCommands.SetPlacement | core/commands/src/commands/nesting.rs:160-187 | Ok exactly when the job exists, has a result, and has a placement of the part on the sheet index cast to u32; then only that first placement is re-posed; every failure is MODEL_REFERENCE_NOT_FOUND |
| NestingCommands.ApplyEditPlacement | core/commands/src/commands/nesting.rs:160-187 | apply re-poses the placement at the new pose |
| NestingCommands.RevertEditPlacement | core/commands/src/commands/nesting.rs:188-219 | revert without a stored old pose gives CORE_INVARIANT_VIOLATION before any lookup; otherwise it re-poses at the old pose |
| NestingCommands.SetPlacementKeepsLookups | core/commands/src/commands/nesting.rs:161-176 | after a move the job, its result and the placement are found again at the same positions |
| NestingCommands.EditPlacementRoundTrip | core/commands/src/commands/nesting.rs:160-219 | undo after an edit restores the document when the stored old pose is the placement's pose and its box is anchored there |
| NestingCommands.EditPlacementUnanchored | core/commands/src/commands/nesting.rs:180-185 | when the placement's box is not anchored at its position, undo after an edit does not restore the document, since the box is re-anchored |
| Bom.MetricsOf | core/bom/src/lib.rs:47-65 | the area is never negative; an empty outline leaves the width and height non-finite, and otherwise they are the non-negative spread of the coordinates |
| Bom.Metrics | core/bom/src/lib.rs:47-65 | the loop over the closing edges computes exactly the reference measurements |
| Bom.MaterialFor | core/bom/src/lib.rs:72-75 | no material exactly when no material of the document has the id; otherwise one with that id, the last such as the map keeps it |
| Bom.MissingMaterial | core/bom/src/lib.rs:75-81 | MATERIAL_NOT_FOUND with the part's id and its material id as hyphenated text under part_id and material_id |
| Bom.BuildRows | core/bom/src/lib.rs:74-99 | one row per part when it succeeds |
| Bom.BuildRowsOk | core/bom/src/lib.rs:74-99 | rows are built exactly when every part's material exists |
| Bom.BuildRowsRows | core/bom/src/lib.rs:82-98 | row k describes part k with its material, its measurements and numbers rounded |
| Bom.BuildRowsStep | core/bom/src/lib.rs:74-99 | one more part either fails with its missing material or appends its row |
| Bom.PrefixErrPersists | core/bom/src/lib.rs:75-81 | once a prefix of the parts fails, the whole list fails with the same reason |
| Bom.BuildRowsErr | core/bom/src/lib.rs:75-81 | a failure is the missing-material reason of the first part whose material is missing |
| Bom.RowBeforeTrans | core/bom/src/lib.rs:100-110 | the row order (material name, thickness, part name, part id) is transitive |
| Bom.RowLeqTotal | core/bom/src/lib.rs:100-110 | the row order is a total preorder |
| Bom.GenerateBomOk | core/bom/src/lib.rs:67-112 | generate_bom succeeds exactly when every part's material exists, and then returns one row per part, sorted and a permutation of the rows in part order |
| Bom.GenerateBomErr | core/bom/src/lib.rs:75-81 | a failure is MATERIAL_NOT_FOUND naming the first part whose material is missing |
| Bom.MaterialOrderExample | core/bom/src/lib.rs:245-247 | a part of material B listed before one of material A gives the A row first |
| Bom.ExampleRows | core/bom/src/lib.rs:74-99 | the example's rows come in part order before sorting |
| Bom.ExampleSorted | core/bom/src/lib.rs:100-110 | sorting the example's rows puts the A row first |
| Bom.GenerateBom | core/bom/src/lib.rs:67-112 | the loop and sort compute exactly the reference table |
| Bom.MakeRow | core/bom/src/lib.rs:82-98 | one row as the reference describes it |
| Bom.DoubleQuotes | core/bom/src/lib.rs:119 | every quote doubled; never shorter |
| Bom.UndoubleDoubleQuotes | core/bom/src/lib.rs:119 | reading doubled quotes back as one undoes the doubling |
| Bom.CsvEscapeRoundTrip | core/bom/src/lib.rs:114-120 | a CSV reader recovers the field text from its escaped form |
| Bom.CsvEscapeIdentity | core/bom/src/lib.rs:114-120 | a field is written unchanged exactly when it has no delimiter, quote, CR or LF |
| Bom.SplitOn | core/bom/src/lib.rs:141 | splitting at the delimiter gives at least one field |
| Bom.SplitField | core/bom/src/lib.rs:141 | a field free of the delimiter splits off whole |
| Bom.SplitJoin | core/bom/src/lib.rs:141 | fields free of the delimiter, joined with it, split back into the same fields |
| Bom.HeaderColumns | core/bom/src/lib.rs:126-141 | the header splits back into its 13 column names when no name holds the delimiter |
| Bom.Cells | core/bom/src/lib.rs:145-159 | one cell per header column |
| Bom.CsvFraming | core/bom/src/lib.rs:125-163 | the bytes open with EF BB BF, the UTF-8 encoding of U+FEFF, and the text ends with CRLF |
| Bom.WriteBomCsv | core/bom/src/lib.rs:122-164 | the loop's bytes are exactly the byte order mark followed by the UTF-8 of the header and row lines |
| Model.UuidText | core/bom/src/lib.rs:77-79 | a Uuid is written as JSON in its 36-character hyphenated form, hyphens at 8, 13, 18 and 23 |
| Model.HexDigitsValue | core/bom/src/lib.rs:77-79 | n hexadecimal digits of a number below 16^n spell it back |
| Model.UuidTextRoundTrip | core/bom/src/lib.rs:77-79 | the hyphenated text of a 128-bit Uuid reads back as the Uuid |
| Model.UuidTextInjective | core/bom/src/lib.rs:77-79 | distinct 128-bit Uuids are written differently |
| PdfTiled.LandscapeSwaps | core/export/src/pdf_tiled.rs:53-62 | landscape swaps the page's width and height, and both page sizes are taller than wide in portrait |
| PdfTiled.GaugeLength | core/export/src/pdf_tiled.rs:64-70 | Ok exactly for mm and inch, a length that is 100 mm in those units; any other unit gives EXPORT_UNSUPPORTED_FEATURE |
| PdfTiled.BBox | core/export/src/pdf_tiled.rs:89-107 | the box holds every point; no points give the unit box from 0 to 1 |
| PdfTiled.TileCount | core/export/src/pdf_tiled.rs:116-117 | the ceiling of size over drawable size: at least 1, covering the size, less than one tile too many |
| PdfTiled.RowLabels | core/export/src/pdf_tiled.rs:120-122 | one label per column of the row |
| PdfTiled.Labels | core/export/src/pdf_tiled.rs:118-123 | columns times rows labels |
| PdfTiled.LabelsRowMajor | core/export/src/pdf_tiled.rs:118-123 | the label of row y and column x sits at index y times columns plus x |
| PdfTiled.LabelsAt | core/export/src/pdf_tiled.rs:118-123 | the same, with the index named, by induction on the rows |
| PdfTiled.ColumnMarkAt | core/export/src/pdf_tiled.rs:121 | labels with row numbers of different lengths differ |
| PdfTiled.SplitLabel | core/export/src/pdf_tiled.rs:121 | the row and column digits of a label are determined by the label |
| PdfTiled.LabelsDistinct | core/export/src/pdf_tiled.rs:121 | different tiles get different labels |
| PdfTiled.DrawMm | core/export/src/pdf_tiled.rs:110-111 | the drawable size, page less both margins, is at least 1 mm |
| PdfTiled.SpanMm | core/export/src/pdf_tiled.rs:112-115 | the drawing's extent in mm is at least 1 mm |
| PdfTiled.TilesAlong | core/export/src/pdf_tiled.rs:110-117 | at least one tile, and the fewest tiles whose drawable length covers the extent |
| PdfTiled.LayoutFor | core/export/src/pdf_tiled.rs:109-133 | page count equals tiles across times tiles down equals the number of labels; the box is that of the points; the labels are in row-major order; the tile counts are those of each side |
| PdfTiled.LayoutOf | core/export/src/pdf_tiled.rs:85-134 | Ok exactly when the margin is finite and non-negative and the units are mm or inch; every failure is EXPORT_UNSUPPORTED_FEATURE |
| PdfTiled.OnePage | core/export/src/pdf_tiled.rs:109-127 | a drawing that fits one drawable area gets the single label R1C1 |
| PdfTiled.OneTile | core/export/src/pdf_tiled.rs:116-117 | an extent no longer than the drawable length needs one tile |
| PdfTiled.PointsBox | core/export/src/pdf_tiled.rs:89-107 | the running-extremes loop computes exactly the reference box |
| PdfTiled.BuildLabels | core/export/src/pdf_tiled.rs:118-123 | the nested push loop produces exactly the reference labels |
| PdfTiled.ComputeTiledLayout | core/export/src/pdf_tiled.rs:85-134 | compute_tiled_layout computes exactly the reference layout, errors included |
| PdfTiled.ReplaceCharAppend | core/export/src/pdf_tiled.rs:137-139 | replacing a character distributes over concatenation |
| PdfTiled.ReplaceCharAbsent | core/export/src/pdf_tiled.rs:137-139 | replacing an absent character changes nothing |
| PdfTiled.PdfEscapeAppend | core/export/src/pdf_tiled.rs:136-140 | escaping distributes over concatenation |
| PdfTiled.PdfEscapeOne | core/export/src/pdf_tiled.rs:136-140 | one character escapes to its literal-string escape |
| PdfTiled.EscapeBackslash | core/export/src/pdf_tiled.rs:137 | a backslash becomes two |
| PdfTiled.EscapeOpen | core/export/src/pdf_tiled.rs:138 | an opening parenthesis gets a backslash |
| PdfTiled.EscapeClose | core/export/src/pdf_tiled.rs:139 | a closing parenthesis gets a backslash |
| PdfTiled.EscapePlain | core/export/src/pdf_tiled.rs:136-140 | any other character is kept |
| PdfTiled.PdfEscapeIsPerChar | core/export/src/pdf_tiled.rs:136-140 | the three passes escape each character on its own, no pass rewriting another's output |
| PdfTiled.EscapeEachForward | core/export/src/pdf_tiled.rs:136-140 | escaping character by character from either end agrees |
| PdfTiled.UnescapeForward | core/export/src/pdf_tiled.rs:136-140 | a reader undoes the per-character escape |
| PdfTiled.PdfEscapeRoundTrip | core/export/src/pdf_tiled.rs:136-140 | a PDF reader recovers the text from the escaped literal string |
| DrawingStyle.HasUnsupported | core/crates/drawing_style/src/lib.rs:344-347 | true exactly when some character is a control character other than line feed and tab |
| DrawingStyle.ValidateText | core/crates/drawing_style/src/lib.rs:336-355 | Ok exactly when the text has at most 120 characters and no unsupported control character; longer text gives CAD_ANNOT_TEXT_TOO_LONG, and otherwise an unsupported character gives CAD_ANNOT_UNSUPPORTED_CHAR |
| DrawingStyle.DimCommand | core/crates/drawing_style/src/lib.rs:211-277 | a dimension's command exists exactly when it passes its geometry check, whose code is the error otherwise; the command is keyed by the dimension's id and is a dimension line exactly for a linear dimension |
| DrawingStyle.AnnCommands | core/crates/drawing_style/src/lib.rs:284-330 | an annotation's commands exist exactly when its text passes; a leader gives its line and then its text, anything else one text command, all keyed by its id |
| DrawingStyle.Ids | core/crates/drawing_style/src/lib.rs:357-364 | the ids of the dimensions, in order |
| DrawingStyle.Keys | core/crates/drawing_style/src/lib.rs:172-198 | the keys of the commands, in order |
| DrawingStyle.KeysAppend | core/crates/drawing_style/src/lib.rs:172-198 | the keys of two command lists concatenate |
| DrawingStyle.DimPlanShape | core/crates/drawing_style/src/lib.rs:210-278 | one command per dimension in order, keyed by its id, a line exactly for a linear dimension |
| DrawingStyle.AnnPlanKeys | core/crates/drawing_style/src/lib.rs:283-331 | the annotation commands' keys are the annotations' ids, a leader's twice |
| DrawingStyle.PlanOrder | core/crates/drawing_style/src/lib.rs:205-334 | the plan's keys are the dimensions' ids in id order, then the annotations' in id order |
| DrawingStyle.DimLeqTotal | core/crates/drawing_style/src/lib.rs:207-208 | ordering dimensions by id is a total preorder |
| DrawingStyle.AnnLeqTotal | core/crates/drawing_style/src/lib.rs:280-281 | ordering annotations by id is a total preorder |
| DrawingStyle.DimPlanOk | core/crates/drawing_style/src/lib.rs:210-278 | the dimension commands are built exactly when every dimension passes its check |
| DrawingStyle.AnnPlanOk | core/crates/drawing_style/src/lib.rs:283-331 | the annotation commands are built exactly when every annotation passes its text check |
| DrawingStyle.PlanOk | core/crates/drawing_style/src/lib.rs:200-334 | the plan is built exactly when every dimension and every annotation passes its check, whatever their order |
| DrawingStyle.ExampleStartsWithD1 | core/crates/drawing_style/tests/drawing_style.rs:13-45 | with d2 listed before d1 and one leader, the plan succeeds and starts with d1's dimension line |
| DrawingStyle.ExampleDims | core/crates/drawing_style/tests/drawing_style.rs:16-29 | the example's sorted dimensions give two commands, d1's line first |
| DrawingStyle.AnnPlanSingle | core/crates/drawing_style/src/lib.rs:283-331 | one annotation's plan is its own commands |
| DrawingStyle.ExampleSorts | core/crates/drawing_style/src/lib.rs:207-208 | sorting puts d1 before d2 |
| DrawingStyle.ExampleChecks | core/crates/drawing_style/src/lib.rs:212-219 | both of the example's linear dimensions are long enough |
| DrawingStyle.ExampleText | core/crates/drawing_style/src/lib.rs:336-355 | the leader text 穴加工 passes |
| DrawingStyle.DegenerateDiameter | core/crates/drawing_style/tests/drawing_style.rs:48-58 | a diameter over two equal points gives CAD_DIMENSION_ZERO_LENGTH |
| DrawingStyle.DimPlanErrPersists | core/crates/drawing_style/src/lib.rs:210-278 | once a prefix of the dimensions fails, the whole list fails the same way |
| DrawingStyle.AnnPlanErrPersists | core/crates/drawing_style/src/lib.rs:283-331 | once a prefix of the annotations fails, the whole list fails the same way |
| DrawingStyle.DimPlanFirstErr | core/crates/drawing_style/src/lib.rs:210-278 | a failing list fails with the check code of one of its dimensions |
| DrawingStyle.PushDimensions | core/crates/drawing_style/src/lib.rs:210-278 | the first loop computes exactly the reference dimension commands |
| DrawingStyle.PushAnnotations | core/crates/drawing_style/src/lib.rs:283-331 | the second loop appends exactly the reference annotation commands, or fails with their error |
| DrawingStyle.BuildRenderPlan | core/crates/drawing_style/src/lib.rs:200-334 | build_render_plan computes exactly the reference plan |
| I18n.SelectDict | core/i18n/src/lib.rs:24-27 | the locale's dictionary, else en-US's, else ja-JP's, and none exactly when all three are missing |
| I18n.Template | core/i18n/src/lib.rs:29-31 | the dictionary's entry for the key, or the key itself when there is no dictionary or no entry |
| I18n.Placeholder | core/i18n/src/lib.rs:34 | the name wrapped in braces |
| I18n.ReplaceAbsent | core/i18n/src/lib.rs:40 | replacing a pattern that does not occur leaves the text as it is |
| I18n.ReplaceAfterPlainText | core/i18n/src/lib.rs:40 | a placeholder after brace-free text is the one replaced, and the text before it is kept |
| I18n.MissingKeyShowsKey | core/i18n/src/lib.rs:19-43 | an unknown key without parameters resolves to the key itself, whatever the locale |
| I18n.ParamAppearsInMessage | core/i18n/src/lib.rs:53-59 | a template with {id} after plain text, given id = abc, contains abc where the placeholder was |
| I18n.ResolveUserMessage | core/i18n/src/lib.rs:19-43 | the loop, rebinding the message once per parameter, computes exactly the reference resolution |
| JobQueue.ByPriorityTotal | app/jobs/job_queue.rs:22 | ordering entries by priority is a total preorder |
| JobQueue.Enqueued | app/jobs/job_queue.rs:20-23 | one entry more, and a permutation of the old queue with the new entry |
| JobQueue.EnqueuedSorted | app/jobs/job_queue.rs:20-23 | after enqueue the queue is ordered by priority |
| JobQueue.EnqueuedFifo | app/jobs/job_queue.rs:20-23 | the sort is stable: the jobs of each priority keep their order and the new job comes after those of its own priority |
| JobQueue.FrontIsMinimal | app/jobs/job_queue.rs:25-27 | the front of an ordered queue has the smallest priority |
| JobQueue.JobQueue.constructor | app/jobs/job_queue.rs:16-18 | a new queue is empty |
| JobQueue.JobQueue.Enqueue | app/jobs/job_queue.rs:20-23 | the queue becomes the reference enqueued queue and stays ordered |
| JobQueue.JobQueue.PopNext | app/jobs/job_queue.rs:25-27 | an empty queue gives None; otherwise the front job, one of smallest priority, is removed and returned |
| Migration.StepLeqTotal | core/crates/migration/src/lib.rs:25-28 | ordering steps by (from, to) is a total preorder, so the sort is well defined |
| Migration.New | core/crates/migration/src/lib.rs:25-28 | the migrator's steps are ordered by (from, to) and are a permutation of the steps given |
| Migration.FindStep | core/crates/migration/src/lib.rs:39-43 | a found index names a step leaving the current version; None exactly when no step leaves it |
| Migration.PlanChained | core/crates/migration/src/lib.rs:63-89 | a successful plan is a chain from the current version to at least the target: each step leaves the version the previous one reached, every version before the last is below the target, each step is the first in sorted order leaving its version, and no version is left twice; backward steps are followed like any other |
| Migration.Describes | core/crates/migration/src/lib.rs:45-50 | one line per step, in order, each the step's "from -> to (summary)" |
| Migration.DryRunAgrees | core/crates/migration/src/lib.rs:30-89 | a successful migration applied exactly the planned steps, so its lines equal the dry run's; a failing plan makes the migration fail |
| Migration.Migrate | core/crates/migration/src/lib.rs:30-61 | the loop returns the migrated document and the report of the reference migration, or its first error: no step from the version, a failing step, or Err(NoProgress) when the walk comes back to a version it already left (see Findings); an empty gap leaves the document and reports no steps |
| Migration.DryRun | core/crates/migration/src/lib.rs:63-89 | the loop reports the lines of the reference plan, or the plan's error; by Migration.DryRunStallsIffSourceLoops its Err(NoProgress) comes exactly where the source's loop never ends |
| Migration.DescribesAppend | core/crates/migration/src/lib.rs:45-50 | the lines of steps plus one step are the old lines plus that step's line |
| Migration.LoopCompose | core/crates/migration/src/lib.rs:38-52 | the as-written loop's a + b iterations are b iterations after the first a |
| Migration.StandingStepNeverEnds | core/crates/migration/src/lib.rs:38-52 | as written, a found step with to == cur keeps the loop at cur below the target after any number of iterations |
| Migration.StandingStepExample | core/crates/migration/src/lib.rs:38-52 | one step from 1 to 1 with target 2 never leaves version 1 |
| Migration.CycleNeverEnds | core/crates/migration/src/lib.rs:38-52 | as written, a walk that returns to its version after p > 0 iterations is still in the loop after any number of iterations |
| Migration.RevisitNeverEnds | core/crates/migration/src/lib.rs:38-52 | as written, a walk that is at the same version after a and after d > a iterations never leaves the loop |
| Migration.DetourExample | core/crates/migration/src/lib.rs:38-52 | over the steps 1 -> 0 and 0 -> 2, migrating from 1 to 2 plans both steps, 1 -> 0 first, and the as-written loop ends after two iterations |
| Migration.StallLoops | core/crates/migration/src/lib.rs:68-83 | a plan that stops with NoProgress belongs to a walk that, as written, never leaves the loop |
| Migration.PlanEndsLoop | core/crates/migration/src/lib.rs:68-83 | a plan that ends any other way belongs to a walk that, as written, leaves the loop after some number of iterations |
| Migration.DryRunStallsIffSourceLoops | core/crates/migration/src/lib.rs:63-89 | the dry run's plan is Err(NoProgress) exactly when the as-written loop is still running after every number of iterations |
| Migration.ForwardStepsNeverStall | core/crates/migration/src/lib.rs:38-52 | when every step moves forward, neither migrate nor the plan ever returns NoProgress, so the guard changes nothing for such migrators |
| Preflight.CheckBytesLen | core/crates/io/src/preflight.rs:4-17 | Ok exactly when the byte length is at most max_bytes; otherwise IO_LIMIT_016 carrying the length and the limit |
| Preflight.EstimateAdditive | core/crates/io/src/preflight.rs:19-21 | the entity estimate of concatenated text is the sum of the parts' estimates |
| Preflight.OccurrencesAppend | core/crates/io/src/preflight.rs:19-21 | counting one character's occurrences adds up over concatenation |
| Preflight.EstimateBounded | core/crates/io/src/preflight.rs:19-21 | the estimate never exceeds the text's length |
| Preflight.CheckLimits | core/crates/io/src/preflight.rs:23-40 | Ok exactly when both limits hold; the byte limit is checked first and decides the error, then the entity estimate; reaching a limit exactly is allowed |
| SketchValidate.EntityViolation | core/crates/sketch/src/validate.rs:29-60 | no code exactly when circles and arcs have positive radius, polylines at most max_polyline_points points and texts at most max_text_len UTF-8 bytes; a radius failure is always CAD_INVALID_RADIUS |
| SketchValidate.FirstViolation | core/crates/sketch/src/validate.rs:29-62 | None exactly when no entity violates a rule; otherwise the code of the first violating entity, all before it passing |
| SketchValidate.Validate | core/crates/sketch/src/validate.rs:21-63 | too many entities gives CAD_LIMIT_ENTITIES before anything else; Ok exactly when the count is within the limit and no entity violates a rule; otherwise the first violating entity's code |
| SpatialQuery.CellsMeetIff | core/crates/sketch/src/query.rs:14-17 | two boxes' blocks of grid cells meet exactly when some cell lies in both |
| SpatialQuery.CellOfMonotone | core/crates/sketch/src/query.rs:14-17 | the floor of a coordinate over the cell size does not decrease as the coordinate grows |
| SpatialQuery.IntersectingShareCell | core/crates/sketch/src/query.rs:31-51 | well-formed overlapping boxes share a grid cell, so the grid never hides an intersecting box from a query |
| SpatialQuery.SortedDistinct | core/crates/sketch/src/query.rs:49 | sorting distinct indices gives a strictly increasing list with the same elements |
| SpatialQuery.SpatialIndex.Build | core/crates/sketch/src/query.rs:11-29 | the index keeps the cell size and the boxes, and each cell's bucket holds exactly the indices of the boxes whose block covers that cell |
| SpatialQuery.SpatialIndex.AddBox | core/crates/sketch/src/query.rs:13-22 | after box idx, the buckets hold exactly the boxes below idx + 1 that cover each cell |
| SpatialQuery.SpatialIndex.AddColumn | core/crates/sketch/src/query.rs:18-22 | one column of box idx's block added to the buckets, nothing else |
| SpatialQuery.SpatialIndex.QueryAabb | core/crates/sketch/src/query.rs:31-51 | the result is strictly increasing and holds exactly the indices of the boxes that overlap the region and share a cell with it |
| SpatialQuery.SpatialIndex.QueryColumn | core/crates/sketch/src/query.rs:38-48 | after one column, every index swept so far is seen once and kept exactly when its box overlaps the region |
| SpatialQuery.SpatialIndex.QueryCell | core/crates/sketch/src/query.rs:40-46 | after one bucket, an index is seen exactly when swept, and kept, once, exactly when its box overlaps the region |
| SpatialQuery.OverlapExample | core/crates/sketch/tests/query.rs:4-28 | the two overlapping boxes of the test, queried at the region (0.75, 0.75)-(0.9, 0.9), give [0, 1] |
| Snapping.SnapLeqTotal | core/crates/snapping/src/resolve.rs:15-41 | the comparator (score descending, then distance, x, y, kind) is a total preorder |
| Snapping.Resolve | core/crates/snapping/src/resolve.rs:9-47 | the candidates kept are exactly those within max_dist of the cursor, as a permutation of the filtered list; snapped is None exactly when none is within reach, otherwise the first kept candidate |
| Snapping.ResolveOrdered | core/crates/snapping/src/resolve.rs:15-42 | the kept candidates are in comparator order, and the snapped point has the highest score and, among equal scores, the smallest distance |
| Snapping.HigherScoreWinsAtSamePosition | core/crates/snapping/tests/determinism.rs:6-38 | of the test's Grid, Endpoint and Center candidates, all three are kept and the Endpoint is snapped |
| MarketMeta.NewMeta | ucel/crates/ucel-symbol-core/src/market_meta.rs:97-113 | a new market keeps its id, tick and step, has no optional limits and the current schema version |
| MarketMeta.IsMultipleOf | ucel/crates/ucel-symbol-core/src/market_meta.rs:323-331 | true exactly when the step is non-zero and the value is a whole multiple of it |
| MarketMeta.Quantize | ucel/crates/ucel-symbol-core/src/market_meta.rs:333-344 | the result is on the step grid; for a non-negative value and positive step Down gives the largest multiple not above it, Up the least not below it, and Nearest one within half a step |
| MarketMeta.QuantizeBounds | ucel/crates/ucel-symbol-core/src/market_meta.rs:333-344 | the rounded multiple satisfies the bound of each rounding mode |
| MarketMeta.QuantizeDown | ucel/crates/ucel-symbol-core/src/market_meta.rs:338 | truncating the quotient of a non-negative value gives the largest multiple not above the value |
| MarketMeta.QuantizeUp | ucel/crates/ucel-symbol-core/src/market_meta.rs:339 | the ceiling of the quotient gives the least multiple not below the value |
| MarketMeta.QuantizeNearest | ucel/crates/ucel-symbol-core/src/market_meta.rs:340 | rounding the quotient half away from zero gives a multiple within half a step of the value |
| MarketMeta.NearestOfQuotient | ucel/crates/ucel-symbol-core/src/market_meta.rs:340-343 | the same bound for any quotient that scales back to the value |
| MarketMeta.ScaleBand | ucel/crates/ucel-symbol-core/src/market_meta.rs:340-343 | a quotient within half of k scales to a value within half a step of k steps |
| MarketMeta.QuantizeAligned | ucel/crates/ucel-symbol-core/src/market_meta.rs:333-344 | a value already on the grid is left unchanged by every rounding mode |
| MarketMeta.QuantizeIdempotent | ucel/crates/ucel-symbol-core/src/market_meta.rs:333-344 | quantizing twice is quantizing once |
| MarketMeta.CheckQtyLimit | ucel/crates/ucel-symbol-core/src/market_meta.rs:125-140 | Ok exactly when an optional limit is absent, or non-negative and, when positive, on the step grid; a negative limit and a misaligned one give their own codes |
| MarketMeta.ValidateMeta | ucel/crates/ucel-symbol-core/src/market_meta.rs:115-161 | Ok exactly when every market rule holds; every error is InvalidMeta; a schema mismatch is reported first, then a non-positive tick, then a non-positive step, each with its own code |
| MarketMeta.EnsureNonNegative | ucel/crates/ucel-symbol-core/src/market_meta.rs:309-314 | Ok exactly when the value is not negative; otherwise InvalidValue with the given code |
| MarketMeta.EnsurePositive | ucel/crates/ucel-symbol-core/src/market_meta.rs:316-321 | Ok exactly when the value is positive; otherwise InvalidValue with the given code |
| MarketMeta.ApplyTick | ucel/crates/ucel-symbol-core/src/market_meta.rs:170-178 | Ok exactly for a valid market and a non-negative price, then the price quantized onto the tick grid; a negative price on a valid market gives price_must_be_non_negative |
| MarketMeta.ApplyStep | ucel/crates/ucel-symbol-core/src/market_meta.rs:180-188 | Ok exactly for a valid market and a non-negative quantity, then the quantity quantized onto the step grid; a negative quantity gives qty_must_be_non_negative |
| MarketMeta.ApplyTickForSide | ucel/crates/ucel-symbol-core/src/market_meta.rs:190-199 | a buyer's price never rises (within one tick below) and a seller's never falls (within one tick above) |
| MarketMeta.ApplyStepSafe | ucel/crates/ucel-symbol-core/src/market_meta.rs:201-203 | the quantity is rounded down, never above what was asked and within one step of it |
| MarketMeta.ComputeNotional | ucel/crates/ucel-symbol-core/src/market_meta.rs:205-215 | Ok exactly for a valid market with non-negative price and quantity, then price times quantity times the contract size (one when absent) |
| MarketMeta.CheckMinNotional | ucel/crates/ucel-symbol-core/src/market_meta.rs:217-225 | a market without a minimum notional accepts everything; with one, Ok exactly when the notional is computable and at least the minimum, else min_notional_not_satisfied |
| MarketMeta.ValidateOrder | ucel/crates/ucel-symbol-core/src/market_meta.rs:227-249 | Ok exactly when the market is valid, price and quantity are positive, on their grids, within the quantity limits and reach the minimum notional; misalignment of price, then of quantity, gives its constraint code |
| MarketMeta.NormalizeOrder | ucel/crates/ucel-symbol-core/src/market_meta.rs:251-261 | a normalized order is the side-rounded price and the rounded-down quantity, and it meets every order rule |
| MarketMeta.NormalizeOrderFixed | ucel/crates/ucel-symbol-core/src/market_meta.rs:251-261 | a normalized order validates unchanged and normalizes to itself |
| MarketMeta.QuantizeExample | ucel/crates/ucel-symbol-core/src/market_meta.rs:352-401 | the test market is valid; 123.9 ticks to 123, 124 and 124 and 0.123456 steps to 0.1234 and 0.1235 |
| MarketMeta.OrderExamples | ucel/crates/ucel-symbol-core/src/market_meta.rs:403-443 | the test's three orders fail with price_not_tick_aligned, qty_not_step_aligned and min_notional_not_satisfied, and normalizing 100.9 x 0.00019 fails |
| MarketMetaStore.LeastIdExists | ucel/crates/ucel-symbol-core/src/market_meta.rs:21-26 | every non-empty set of market ids has a least element in the derived order, the next key a BTreeMap yields |
| MarketMetaStore.ChangedMetaFieldsSpec | ucel/crates/ucel-symbol-store/src/market_meta_store.rs:233-291 | a field name is reported exactly when that field differs, nothing else is reported, and the names are strictly ascending, as a BTreeSet yields them |
| MarketMetaStore.ChangedMetaFieldsNames | ucel/crates/ucel-symbol-store/src/market_meta_store.rs:233-291 | each of the eleven names ("base", "quote", …, "meta") is reported exactly when its field differs, an optional decimal differing when both are present and unequal or only one is present |
| MarketMetaStore.ChangedMetaFieldsEmpty | ucel/crates/ucel-symbol-store/src/market_meta_store.rs:233-291 | nothing is reported exactly when the two rules agree except in the id and the schema version, which are not compared |
| MarketMetaStore.FieldNamesSorted | ucel/crates/ucel-symbol-store/src/market_meta_store.rs:233-291 | the eleven field names are in strictly ascending string order |
| MarketMetaStore.ChangedAmongHas | ucel/crates/ucel-symbol-store/src/market_meta_store.rs:233-291 | a name is reported from the first k fields exactly when it is one of them and that field changed |
| MarketMetaStore.ChangedAmongSorted | ucel/crates/ucel-symbol-store/src/market_meta_store.rs:233-291 | the names reported from the first k fields are ascending and among the first k |
| MarketMetaStore.UnchangedFieldsAgree | ucel/crates/ucel-symbol-store/src/market_meta_store.rs:233-291 | rules none of whose compared fields changed are equal but for id and schema version |
| MarketMetaStore.Incoming | ucel/crates/ucel-symbol-store/src/market_meta_store.rs:119-124 | every incoming rule is stored under its own id and passes validate_meta |
| MarketMetaStore.IncomingHas | ucel/crates/ucel-symbol-store/src/market_meta_store.rs:119-124 | an id comes in exactly when some valid rule of the snapshot carries it |
| MarketMetaStore.IncomingLast | ucel/crates/ucel-symbol-store/src/market_meta_store.rs:119-124 | an incoming id carries the last valid rule with that id: a later rule replaces an earlier |
| MarketMetaStore.CollectIncoming | ucel/crates/ucel-symbol-store/src/market_meta_store.rs:118-124 | the loop builds exactly the reference map of incoming rules |
| MarketMetaStore.RemovalEvent | ucel/crates/ucel-symbol-store/src/market_meta_store.rs:139-147 | a removal event names the id, the rules dropped and the version; Removed with reason snapshot_missing for a snapshot, Expired for the collector |
| MarketMetaStore.RemovalsOf | ucel/crates/ucel-symbol-store/src/market_meta_store.rs:96-106 | one event per key removed |
| MarketMetaStore.RemovalsOfAt | ucel/crates/ucel-symbol-store/src/market_meta_store.rs:96-106 | the i-th removal event drops the i-th key with the rules held for it and carries version v0 + i + 1 |
| MarketMetaStore.Held | ucel/crates/ucel-symbol-store/src/market_meta_store.rs:154-155 | the held rules exist exactly when the id is in the map, and are its entry's rules |
| MarketMetaStore.MergesOf | ucel/crates/ucel-symbol-store/src/market_meta_store.rs:152-200 | a merge emits at most one event per incoming id |
| MarketMetaStore.MergesOfSameHeld | ucel/crates/ucel-symbol-store/src/market_meta_store.rs:152-200 | a merge reads the held rules only at the ids it merges |
| MarketMetaStore.MergesOfEvents | ucel/crates/ucel-symbol-store/src/market_meta_store.rs:152-200 | every merge event is an Added with the incoming rules for an id not held, or an Updated with the changed fields and the rules before and after for a held id whose rules changed, and carries the next version |
| MarketMetaStore.ReportedAppend | ucel/crates/ucel-symbol-store/src/market_meta_store.rs:152-200 | two event runs in sequence report what either reports |
| MarketMetaStore.OutcomeReports | ucel/crates/ucel-symbol-store/src/market_meta_store.rs:154-199 | merging one rule reports its id exactly when it is new or its rules changed |
| MarketMetaStore.ReportedIsReportable | ucel/crates/ucel-symbol-store/src/market_meta_store.rs:152-200 | every id a merge reports is merged and is new or changed |
| MarketMetaStore.ReportableIsReported | ucel/crates/ucel-symbol-store/src/market_meta_store.rs:152-200 | every merged id that is new or changed is reported |
| MarketMetaStore.MergesOfReports | ucel/crates/ucel-symbol-store/src/market_meta_store.rs:152-200 | a merge reports an id exactly when it merges it and the id is new or its rules changed: unchanged rules emit nothing |
| MarketMetaStore.MergesOfAscending | ucel/crates/ucel-symbol-store/src/market_meta_store.rs:152-200 | merging ascending ids emits events in strictly ascending id order |
| MarketMetaStore.StaleIds | ucel/crates/ucel-symbol-store/src/market_meta_store.rs:126-137 | the stale ids are exactly the held ids a full snapshot does not bring; a partial snapshot has none |
| MarketMetaStore.CollectKeys | ucel/crates/ucel-symbol-store/src/market_meta_store.rs:84-94 | the collected keys are exactly the set's, each once |
| MarketMetaStore.SortedKeys | ucel/crates/ucel-symbol-store/src/market_meta_store.rs:152 | the keys come out exactly once each, in ascending order, as a BTreeMap yields them |
| MarketMetaStore.Without | ucel/crates/ucel-symbol-store/src/market_meta_store.rs:96-106 | the entries left are exactly those whose keys were not removed, unchanged |
| MarketMetaStore.WithoutSet | ucel/crates/ucel-symbol-store/src/market_meta_store.rs:96-106 | removing the keys of a set in any order leaves the same map |
| MarketMetaStore.MergedMeta | ucel/crates/ucel-symbol-store/src/market_meta_store.rs:154-199 | a new id stores the incoming rules; a changed one the incoming rules; an unchanged one keeps the held rules, so only its expiry moves |
| MarketMetaStore.Arrivals | ucel/crates/ucel-symbol-store/src/market_meta_store.rs:152-200 | an entry for each incoming id, with the merged rules and the new expiry |
| MarketMetaStore.Refreshed | ucel/crates/ucel-symbol-store/src/market_meta_store.rs:152-200 | the entries after merging some ids: the held keys plus those ids, each merged id carrying its merged rules |
| MarketMetaStore.RefreshedValid | ucel/crates/ucel-symbol-store/src/market_meta_store.rs:152-200 | merging valid rules into valid entries leaves valid entries |
| MarketMetaStore.RefreshedAll | ucel/crates/ucel-symbol-store/src/market_meta_store.rs:152-200 | merging every incoming id, in any order, gives the held entries overwritten by the arrivals |
| MarketMetaStore.ArrivalsSameHeld | ucel/crates/ucel-symbol-store/src/market_meta_store.rs:152-200 | the arrivals read the held entries only at the incoming ids |
| MarketMetaStore.MergeEntry | ucel/crates/ucel-symbol-store/src/market_meta_store.rs:153-199 | one turn of the merge loop: the outcome event (Added, Updated or none), the entry written, and the version bumped once per event |
| MarketMetaStore.RemoveAll | ucel/crates/ucel-symbol-store/src/market_meta_store.rs:96-106 | every key is removed in order with one event of the given kind, the version bumped once per key |
| MarketMetaStore.MergeAll | ucel/crates/ucel-symbol-store/src/market_meta_store.rs:152-200 | the entries become the held ones overwritten by the arrivals, still valid; one version per event; the ids are the incoming ones in ascending order, and the events are the reference merge's |
| MarketMetaStore.Kept | ucel/crates/ucel-symbol-store/src/market_meta_store.rs:126-150 | a full snapshot keeps only the held entries it brings, a partial one keeps all, unchanged |
| MarketMetaStore.KeptHeld | ucel/crates/ucel-symbol-store/src/market_meta_store.rs:126-154 | the kept entries read the same held rules as before at every incoming id |
| MarketMetaStore.SnapshotEvents | ucel/crates/ucel-symbol-store/src/market_meta_store.rs:117-203 | the removals followed by a merge into the kept entries equal the removals followed by a merge into the entries before |
| MarketMetaStore.RemoveStale | ucel/crates/ucel-symbol-store/src/market_meta_store.rs:126-150 | a full snapshot removes exactly the stale ids, each once, with one Removed event and one version each; a partial one removes nothing |
| MarketMetaStore.Snapshot | ucel/crates/ucel-symbol-store/src/market_meta_store.rs:117-203 | apply_snapshot: the entries after are the kept ones overwritten by the arrivals and stay valid; the version rises by the number of events; events are the Removed ones for the stale ids, then the merge events in ascending id order |
| MarketMetaStore.Store.constructor | ucel/crates/ucel-symbol-store/src/market_meta_store.rs:59-65 | a new store is empty at version 0 with the given ttl |
| MarketMetaStore.Store.BumpVersion | ucel/crates/ucel-symbol-store/src/market_meta_store.rs:228-230 | the version rises by one and the new value is returned; the entries are unchanged |
| MarketMetaStore.Store.Get | ucel/crates/ucel-symbol-store/src/market_meta_store.rs:205-216 | a live entry's rules come back unchanged; an expired entry is removed and hidden; a missing id gives None; the version never changes |
| MarketMetaStore.Store.GetByParts | ucel/crates/ucel-symbol-store/src/market_meta_store.rs:218-226 | the same as get on the id built from the parts |
| MarketMetaStore.Store.Registry | ucel/crates/ucel-symbol-store/src/market_meta_store.rs:73-79 | the current version and the rules of every entry, each entry once |
| MarketMetaStore.Store.RemoveEach | ucel/crates/ucel-symbol-store/src/market_meta_store.rs:96-106 | the keys are removed in order with one event each, the version bumped once per key |
| MarketMetaStore.Store.GcExpired | ucel/crates/ucel-symbol-store/src/market_meta_store.rs:81-108 | exactly the entries whose expiry is not after now are removed, each with an Expired event and its own version; the live ones remain unchanged |
| MarketMetaStore.Store.ApplySnapshot | ucel/crates/ucel-symbol-store/src/market_meta_store.rs:117-203 | the store moves from its old state to exactly the reference snapshot result and stays valid |
| MarketMetaStore.Store.ApplySnapshotFull | ucel/crates/ucel-symbol-store/src/market_meta_store.rs:110-112 | the held entries the snapshot does not bring are removed with Removed events, then the incoming rules are merged in ascending id order; one version per event |
| MarketMetaStore.Store.ApplySnapshotPartial | ucel/crates/ucel-symbol-store/src/market_meta_store.rs:113-115 | nothing is removed; the incoming rules are merged in ascending id order with one version per event |
| Desk.NumericInput.constructor | apps/desktop/src/tools/move_tool.cpp:12 | a tool's number entry starts with no keys, read through the given parser |
| Desk.NumericInput.HandleKey | apps/desktop/src/tools/move_tool.cpp:89 | the key is appended to the keys typed so far |
| Desk.NumericInput.Clear | apps/desktop/src/tools/move_tool.cpp:82 | no keys remain, so no number is typed |
| Desk.Camera.constructor | apps/desktop/src/canvas_widget.h:37 | the camera starts at the given zoom |
| Desk.SelectedLines | apps/desktop/src/tools/move_tool.cpp:18-24 | at most one segment per entity |
| Desk.SelectedLinesMember | apps/desktop/src/tools/move_tool.cpp:18-24 | a segment is collected exactly when it is the a-b segment of some selected Line entity |
| Desk.CollectSelectedLines | apps/desktop/src/tools/move_tool.cpp:18-24 | the loop collects exactly the selected lines' segments, in entity order |
| Desk.Mapped | apps/desktop/src/tools/move_tool.cpp:43-44 | one preview segment per base segment, each with both ends moved by the transform |
| Desk.MapSegs | apps/desktop/src/tools/move_tool.cpp:43-44 | the preview loop builds exactly the mapped segments |
| Desk.Endpoints | apps/desktop/src/tools/rotate_tool.cpp:17-21 | two points per segment |
| Desk.GrowBox | apps/desktop/src/tools/rotate_tool.cpp:16-24 | a box exists exactly when there was one or some point was added |
| Desk.GrowBoxHolds | apps/desktop/src/tools/rotate_tool.cpp:16-24 | the grown box is well formed, contains the starting box and every point |
| Desk.SelectionCenter | apps/desktop/src/tools/rotate_tool.cpp:15-26 | a default centre exists exactly when some Line is selected |
| Desk.CenterInsideSelection | apps/desktop/src/tools/rotate_tool.cpp:15-26 | the default centre is the middle of the box of the selected end points, and lies inside it |
| Desk.RebuildCenter | apps/desktop/src/tools/rotate_tool.cpp:15-26 | the loop gives the selection's centre when a Line is selected, and otherwise leaves the centre as it was |
| Snap.EntityCands | apps/desktop/src/snap_engine.cpp:13-21 | a Line yields exactly three candidates (its end points and midpoint); any other entity none |
| Snap.BestOf | apps/desktop/src/snap_engine.cpp:35-37 | no best exactly when there are no candidates |
| Snap.BestOfFirstLeast | apps/desktop/src/snap_engine.cpp:35-37 | the best is a candidate that no other beats (lower rank, or same rank and nearer), and it beats every candidate before it: the earliest of the least |
| Snap.RanksFollowKinds | apps/desktop/src/snap_engine.cpp:7-37 | every candidate carries its kind's rank (end point 0, intersection 1, midpoint 2); without a line start there are no intersections |
| Snap.LineCandsKinds | apps/desktop/src/snap_engine.cpp:13-21 | the first loop's candidates have their kinds' ranks and are not intersections |
| Snap.InterCandsKinds | apps/desktop/src/snap_engine.cpp:22-34 | the second loop's candidates are intersections of rank 1 |
| Snap.LineEndsOffered | apps/desktop/src/snap_engine.cpp:13-21 | both end points of every Line are offered |
| Snap.EndpointsWin | apps/desktop/src/snap_engine.cpp:7-39 | whenever the document holds a Line, the best snap is an end point, and no end point of any Line is nearer |
| Snap.CollectLineCands | apps/desktop/src/snap_engine.cpp:13-21 | the loop builds exactly the reference candidates of the Line entities |
| Snap.CollectHits | apps/desktop/src/snap_engine.cpp:25-33 | one entity's intersection points become candidates; a failed call adds none |
| Snap.CollectInterCands | apps/desktop/src/snap_engine.cpp:22-34 | the loop builds exactly the reference intersection candidates |
| Snap.ScanBest | apps/desktop/src/snap_engine.cpp:35-37 | the scan finds exactly the reference best |
| Snap.ComputeSnap | apps/desktop/src/snap_engine.cpp:7-39 | every candidate in the order the source adds them, and the best of them |
| HitTests.GrownBoxContains | apps/desktop/src/hittest.cpp:13-14 | a point of a well-formed box is inside the box grown by any positive margin under Qt's contains |
| HitTests.HitAheadAsym | apps/desktop/src/hittest.cpp:23 | no two hits are each ahead of the other |
| HitTests.HitAheadPast | apps/desktop/src/hittest.cpp:23 | a hit ahead of the best is ahead of every hit that is not ahead of the best |
| HitTests.HitsMember | apps/desktop/src/hittest.cpp:12-24 | the hits are exactly the hits some entity yields |
| HitTests.BestHit | apps/desktop/src/hittest.cpp:23 | no best exactly when there are no hits |
| HitTests.BestHitLeast | apps/desktop/src/hittest.cpp:23 | the best is one of the hits and no hit is ahead of it |
| HitTests.NearestHit | apps/desktop/src/hittest.cpp:7-26 | when an entity yields a hit, the test finds one, yielded by some entity, and no entity's hit is nearer or as near with a smaller id |
| HitTests.NoHitWhenNoneYields | apps/desktop/src/hittest.cpp:7-26 | when no entity yields a hit, nothing is found |
| HitTests.HitTest | apps/desktop/src/hittest.cpp:7-26 | the loop finds exactly the reference best hit with the radius radiusPx / zoom |
| Ambiguity.TruncRem | apps/desktop/src/tools/ambiguity_controller.cpp:3 | C++'s % truncates: the Euclidean remainder for a non-negative dividend, its negation for the negated dividend otherwise |
| Ambiguity.MultipleAwayFromZero | apps/desktop/src/tools/ambiguity_controller.cpp:3 | a non-zero multiple of a positive n is at least n away from zero |
| Ambiguity.ModUnique | apps/desktop/src/tools/ambiguity_controller.cpp:3 | any quotient and in-range remainder that rebuild a are the Euclidean ones |
| Ambiguity.CycleIndexIsMod | apps/desktop/src/tools/ambiguity_controller.cpp:3 | the truncated remainder lifted by n when negative is the Euclidean remainder, always in [0, n) |
| Ambiguity.StepsAreOneJump | apps/desktop/src/tools/ambiguity_controller.cpp:3 | k steps of delta land where a single jump of k * delta lands |
| Ambiguity.ModOfSum | apps/desktop/src/tools/ambiguity_controller.cpp:3 | reducing the first summand first does not change the remainder of a sum |
| Ambiguity.FullCycleReturns | apps/desktop/src/tools/ambiguity_controller.cpp:3 | n Tabs forward, or n back, return to the starting index |
| Ambiguity.AmbiguityController.constructor | apps/desktop/src/tools/trim_tool.cpp:61 | a new controller has no candidates and index 0 |
| Ambiguity.AmbiguityController.SetCandidates | apps/desktop/src/tools/trim_tool.cpp:50 | the candidates are replaced and the index restarts at 0 |
| Ambiguity.AmbiguityController.Clear | apps/desktop/src/tools/trim_tool.cpp:61 | no candidates and index 0 |
| Ambiguity.AmbiguityController.OnTab | apps/desktop/src/tools/ambiguity_controller.cpp:3 | without candidates nothing changes; otherwise the index becomes (index + delta) mod n, in range, and the candidates stay |
| Ambiguity.AmbiguityController.OnWheel | apps/desktop/src/tools/ambiguity_controller.cpp:2 | without candidates nothing changes; otherwise a Tab forward for a non-negative delta and back for a negative one |
| Canvas.ClampZoom | apps/desktop/src/canvas_widget.cpp:44-45 | the zoom always ends in [0.05, 100], is unchanged inside that range and becomes the bound it crossed outside it |
| Canvas.WheelSequenceStaysClamped | apps/desktop/src/canvas_widget.cpp:41-47 | however many wheel events arrive, a zoom that starts in [0.05, 100] stays there |
| Canvas.ZoomBoundsAreFixed | apps/desktop/src/canvas_widget.cpp:41-47 | at either bound a further notch in the same direction changes nothing |
| Canvas.ZoomInOutReturns | apps/desktop/src/canvas_widget.cpp:41-47 | away from the bounds, a notch in then a notch out returns to the same zoom |
| Canvas.CanvasWidget.constructor | apps/desktop/src/canvas_widget.cpp:8-12 | the canvas's line tool works on its store, and the camera starts at the given zoom |
| Canvas.CanvasWidget.MousePress | apps/desktop/src/canvas_widget.cpp:29-36 | a left press makes the nearest hit within 8 pixels the whole selection (or leaves the selection) and then starts the line tool; any other button changes nothing |
| Canvas.CanvasWidget.MouseMove | apps/desktop/src/canvas_widget.cpp:38 | the line tool's end follows the snapped and constrained pointer |
| Canvas.CanvasWidget.MouseRelease | apps/desktop/src/canvas_widget.cpp:39 | a left release with a started line commits the create-line call with the release end, warns "Line commit failed" on refusal, sends EndGroup, closes the group and clears the typed number; with no started line nothing changes and no warning is given; either way the gesture ends; other buttons change nothing |
| Canvas.CanvasWidget.WheelEvent | apps/desktop/src/canvas_widget.cpp:41-47 | the zoom becomes the clamped product of the old zoom and the notch's factor |
| Canvas.CanvasWidget.KeyPress | apps/desktop/src/canvas_widget.cpp:49-55 | the undo shortcut undoes and the redo shortcut redoes, warning on failure and leaving the line tool's keys, lock, start, end and group untouched; any other key goes to the line tool: H and V toggle the lock, Escape sends EndGroup, closes the group and ends the gesture, every other key leaves the store and the gesture as they were, and the key reaches the number entry |
| LineTools.ApplyConstraint | apps/desktop/src/tools/line_tool.cpp:10-15 | horizontal keeps the start's y and the end's x, vertical the start's x and the end's y, no constraint the end |
| LineTools.ConstraintIdempotent | apps/desktop/src/tools/line_tool.cpp:10-15 | constraining twice is constraining once |
| LineTools.Toggle | apps/desktop/src/tools/line_tool.cpp:76-77 | H selects horizontal exactly when it was not active, V vertical likewise; other keys keep the constraint |
| LineTools.TypedLengthOnAxis | apps/desktop/src/tools/line_tool.cpp:55-67 | a typed length on a horizontal or vertical line of non-zero drag puts the end exactly that far along +x or +y |
| LineTools.UntypedKeepsEnd | apps/desktop/src/tools/line_tool.cpp:55-67 | without a typed length, or on a zero-length drag, the dragged end is committed unchanged |
| LineTools.LineTool.constructor | apps/desktop/src/tools/line_tool.cpp:8 | a new tool is idle with no constraint, no open group and nothing typed |
| LineTools.LineTool.OnPointerDown | apps/desktop/src/tools/line_tool.cpp:17-27 | start and end become the unanchored snap point, and the LineToolDrag group is opened unless one is open |
| LineTools.LineTool.OnPointerMove | apps/desktop/src/tools/line_tool.cpp:29-35 | during a gesture the end is the snap anchored at the start, then constrained; otherwise nothing changes |
| LineTools.LineTool.OnPointerUp | apps/desktop/src/tools/line_tool.cpp:55-73 | a gesture commits the create-line call on the first layer with the release end, warns on refusal, closes the group and resets; no gesture changes nothing |
| LineTools.LineTool.OnKeyPress | apps/desktop/src/tools/line_tool.cpp:75-84 | H and V toggle the constraint; Escape closes the group and abandons the gesture; every key reaches the number entry |
| LineTools.DragLine | apps/desktop/src/tools/line_tool.cpp:17-73 | a press, a move and a release from an idle tool send exactly one group holding one create-line call, and the document changes only on an accepted reply |
| MoveTools.ToggleAxis | apps/desktop/src/tools/move_tool.cpp:86-87 | X locks to x exactly when it was not locked there, Y likewise; other keys keep the axis |
| MoveTools.ReleaseIsPreview | apps/desktop/src/tools/move_tool.cpp:66-80 | the release commits the previewed translation, and aborts exactly on a typed number with a free zero-length drag |
| MoveTools.AxisLockHolds | apps/desktop/src/tools/move_tool.cpp:29-42 | an X lock leaves no y movement and a Y lock no x movement; a typed number sets the locked component; a free untyped drag moves by the drag itself |
| MoveTools.MoveTool.constructor | apps/desktop/src/tools/move_tool.cpp:12 | a new tool is idle, free, with no group and nothing typed |
| MoveTools.MoveTool.RefreshPreview | apps/desktop/src/tools/move_tool.cpp:29-45 | the preview is the base moved by the current translation; nothing else changes |
| MoveTools.MoveTool.OnPointerDown | apps/desktop/src/tools/move_tool.cpp:14-27 | no selection warns EDIT_NO_SELECTION and changes nothing; otherwise the drag starts at the pointer over the selected lines and the Move group is open |
| MoveTools.MoveTool.OnPointerMove | apps/desktop/src/tools/move_tool.cpp:47-51 | during a drag the pointer becomes the current point; otherwise nothing changes |
| MoveTools.MoveTool.OnPointerUp | apps/desktop/src/tools/move_tool.cpp:66-83 | a drag commits the previewed translation, warns on refusal, closes the group and resets; the aborting case warns EDIT_INVALID_NUMERIC and leaves everything, group included, as it was |
| MoveTools.MoveTool.OnKeyPress | apps/desktop/src/tools/move_tool.cpp:85-91 | X and Y toggle the axis; Escape closes the group and abandons the drag; every key reaches the number entry |
| RotateTools.CentreIsFixed | apps/desktop/src/tools/rotate_tool.cpp:11 | rotating leaves the centre where it is, whatever the angle |
| RotateTools.AngleRules | apps/desktop/src/tools/rotate_tool.cpp:44-53 | a typed number gives that many degrees; under Shift the angle is a whole number of 15 degree steps within half a step of the swept angle |
| RotateTools.RotateTool.constructor | apps/desktop/src/tools/rotate_tool.cpp:13 | a new tool is idle with no centre, no group and nothing typed |
| RotateTools.RotateTool.RefreshPreview | apps/desktop/src/tools/rotate_tool.cpp:44-56 | the preview is the base turned about the centre by the gesture's angle; nothing else changes |
| RotateTools.RotateTool.OnPointerDown | apps/desktop/src/tools/rotate_tool.cpp:28-42 | no selection warns; Alt only sets the centre; otherwise the centre is rebuilt and, if there is one, the drag starts at the pointer and the Rotate group is open |
| RotateTools.RotateTool.StartDrag | apps/desktop/src/tools/rotate_tool.cpp:34-41 | the drag starts at the pointer over the selected lines, the preview is refreshed and the group is opened unless one is |
| RotateTools.RotateTool.OnPointerMove | apps/desktop/src/tools/rotate_tool.cpp:58 | during a drag the preview follows the pointer; otherwise nothing changes |
| RotateTools.RotateTool.OnPointerUp | apps/desktop/src/tools/rotate_tool.cpp:73-82 | a drag commits the rotation about the centre by the gesture's angle, warns on refusal, closes the group and resets, keeping the centre |
| RotateTools.RotateTool.OnKeyPress | apps/desktop/src/tools/rotate_tool.cpp:84-89 | Escape closes the group and abandons the drag; Enter releases it; every key reaches the number entry; while a drag remains, the base is kept and the preview is the base turned about the centre by the angle of the gesture with the number now typed |
| DocStores.FlagTableMissing | apps/desktop/src/doc_store.cpp:56-61 | a layer id no layer carries reads as the default |
| DocStores.FlagTableLastWins | apps/desktop/src/doc_store.cpp:56-61 | an id carried by several layers reads as the flag of the last of them |
| DocStores.PolyFoldHolds | apps/desktop/src/doc_store.cpp:88-95 | the min/max fold over the points holds its starting box and every point |
| DocStores.BoxOfHolds | apps/desktop/src/doc_store.cpp:73-97 | a line's rectangle is the one its end points span; a non-empty polyline's is well formed and holds every vertex |
| DocStores.ComputeBox | apps/desktop/src/doc_store.cpp:72-98 | the rectangle computed per geometry type, the polyline loop included, is the reference rectangle (zero for an empty polyline or an unknown type) |
| DocStores.Rendered | apps/desktop/src/doc_store.cpp:63-112 | the cache is never longer than the document's entity list |
| DocStores.RenderedMember | apps/desktop/src/doc_store.cpp:64-69 | the cache holds exactly the renders of the entities whose layer is visible and unlocked, unknown layers counting as both |
| DocStores.Boxes | apps/desktop/src/doc_store.cpp:101 | one rectangle per cached entity, in cache order |
| DocStores.Last | apps/desktop/src/doc_store.cpp:221-227 | min(n, size) entries |
| DocStores.LogPushKeepsLatest | apps/desktop/src/doc_store.cpp:121-122 | a log within the 200-entry cap keeps, after a push, the latest 200 entries and stays within the cap |
| DocStores.PushAllKeepsLatest | apps/desktop/src/doc_store.cpp:121-122 | however many failures are logged, the log is the latest 200 of them, oldest first |
| DocStores.UndoReplacesOnlyOnOk | apps/desktop/src/doc_store.cpp:129-143 | undo or redo sends one call and keeps the selection; on ok the returned document is stored at the next revision and the log is unchanged; on failure the document and revision stay and the reason is logged |
| DocStores.DocStore.constructor | apps/desktop/src/doc_store.cpp:20-26 | a new store holds an empty document at revision 0, nothing logged, selected or sent, and its caches agree |
| DocStores.DocStore.SetDocumentJson | apps/desktop/src/doc_store.cpp:43-47 | the document is stored, the revision advances by one and the caches agree with the new document |
| DocStores.DocStore.RebuildCache | apps/desktop/src/doc_store.cpp:49-113 | the layer tables, the shown entities with their rectangles and a grid whose buckets hold exactly the entities spanning each cell all agree with the document; nothing else changes |
| DocStores.DocStore.LatestReasonLogs | apps/desktop/src/doc_store.cpp:221-227 | the last min(n, size) reasons in order, none for n <= 0 |
| DocStores.DocStore.QuerySpatialCandidates | apps/desktop/src/doc_store.cpp:200-219 | each index at most once, and exactly the cached entities whose rectangle's cells meet the cells of the window around the point |
| DocStores.DocStore.QueryColumn | apps/desktop/src/doc_store.cpp:207-217 | one column's rows extend the seen set and the output to the entities swept up to the next column, without repeats |
| DocStores.DocStore.QueryCell | apps/desktop/src/doc_store.cpp:209-215 | one bucket's unseen indices are kept once each, extending the sweep by one cell |
| DocStores.DocStore.SetSingle | apps/desktop/src/canvas_widget.cpp:33 | the selection becomes exactly that id and nothing else changes |
| DocStores.DocStore.Send | apps/desktop/src/tools/line_tool.cpp:24 | the call is recorded and nothing else changes |
| DocStores.DocStore.Commit | apps/desktop/src/tools/line_tool.cpp:37-53 | the call is made and the returned document published exactly when the kernel reports ok |
| DocStores.DocStore.Undo | apps/desktop/src/doc_store.cpp:129-135 | the result is the kernel's ok with its reason on failure; the store is the reference undo update |
| DocStores.DocStore.Redo | apps/desktop/src/doc_store.cpp:137-143 | the result is the kernel's ok with its reason on failure; the store is the reference redo update |
| DocStores.DocStore.UpdateDocument | apps/desktop/src/doc_store.cpp:115-127 | ok mirrors the reply; a failure's reason is pushed on the capped log, a success publishes the returned document |
| ScaleTools.FactorRules | apps/desktop/src/tools/scale_tool.cpp:38-45 | a typed number scales both axes by it; Shift forces equal factors; an axis whose press offset from the centre exceeds 1e-9 scales by the ratio of offsets, otherwise x by 1 and y as x |
| ScaleTools.PressPointIsIdentity | apps/desktop/src/tools/scale_tool.cpp:38-47 | with nothing typed, the pointer back at the press point gives factors (1, 1) and moves no point |
| ScaleTools.CentreIsFixed | apps/desktop/src/tools/scale_tool.cpp:11 | every scale leaves the centre where it is |
| ScaleTools.ScaleTool.constructor | apps/desktop/src/tools/scale_tool.cpp:13 | a new tool is idle with no centre, no group and nothing typed |
| ScaleTools.ScaleTool.RefreshPreview | apps/desktop/src/tools/scale_tool.cpp:38-48 | the preview is the base scaled about the centre by the gesture's factors; nothing else changes |
| ScaleTools.ScaleTool.OnPointerDown | apps/desktop/src/tools/scale_tool.cpp:26-36 | no selection warns EDIT_NO_SELECTION; otherwise the centre is rebuilt and, if there is one, the drag starts at the pointer and the Scale group is open |
| ScaleTools.ScaleTool.StartDrag | apps/desktop/src/tools/scale_tool.cpp:29-35 | the drag starts at the pointer over the selected lines, the preview is refreshed and the group is opened unless one is |
| ScaleTools.ScaleTool.OnPointerMove | apps/desktop/src/tools/scale_tool.cpp:50 | during a drag the preview follows the pointer; otherwise nothing changes |
| ScaleTools.ScaleTool.OnPointerUp | apps/desktop/src/tools/scale_tool.cpp:65-76 | a factor at or below zero warns EDIT_TRANSFORM_WOULD_DEGENERATE and leaves everything as it was; otherwise the scale is committed, a refusal warned, the group closed and the drag reset |
| ScaleTools.ScaleTool.OnKeyPress | apps/desktop/src/tools/scale_tool.cpp:78-83 | Escape closes the group and abandons the drag; Enter releases it; every key reaches the number entry; while a drag remains, the base is kept and the preview is the base scaled about the centre by the factors of the gesture with the number now typed |
| OffsetTools.OffsetIsParallel | apps/desktop/src/tools/offset_tool.cpp:31-39 | the offset line keeps the line's direction, and both ends move by one vector at right angles to the line |
| OffsetTools.OffsetScanSource | apps/desktop/src/tools/offset_tool.cpp:26-41 | the scan leaves either the preview it started with or the offset of some line carrying the target id |
| OffsetTools.OffsetScanNoLine | apps/desktop/src/tools/offset_tool.cpp:26-41 | without a line carrying the target id, the preview is left as it was |
| OffsetTools.OffsetTool.constructor | apps/desktop/src/tools/offset_tool.cpp:10 | a new tool has no target, no preview, no previewed distance and nothing typed |
| OffsetTools.OffsetTool.UpdatePreview | apps/desktop/src/tools/offset_tool.cpp:22-42 | without a target nothing changes; with one, the distance is the typed number or 10 and the preview is the scan's result for it |
| OffsetTools.OffsetTool.Commit | apps/desktop/src/tools/offset_tool.cpp:44-59 | without a target nothing is asked and an empty reason comes back; otherwise the target is offset by the last previewed distance (10 when none), published on ok, with the kernel's reason on failure |
| OffsetTools.OffsetTool.OnPointerDown | apps/desktop/src/tools/offset_tool.cpp:12-18 | a miss within 8 pixels warns EDIT_NO_SELECTION and changes nothing; a hit becomes the target and the whole selection, and the preview follows |
| OffsetTools.OffsetTool.OnPointerMove | apps/desktop/src/tools/offset_tool.cpp:20 | the preview follows the typed distance |
| OffsetTools.OffsetTool.OnPointerUp | apps/desktop/src/tools/offset_tool.cpp:61-65 | the commit is made, any failure warned (with an empty reason when there is no target), and the preview dropped; the target stays |
| OffsetTools.OffsetTool.OnKeyPress | apps/desktop/src/tools/offset_tool.cpp:67-75 | Escape drops the target, the preview and the typed number; any other key goes to the number entry, Enter then commits with the distance previewed before it, and the preview follows |
| TrimTools.RunStore | apps/desktop/src/tools/trim_tool.cpp:31-57 | without both ids the store is untouched; otherwise exactly one trim call is made, and the trimmed document replaces the old one only on a committing run the kernel accepts; the selection and the log stay |
| TrimTools.RunOutcome | apps/desktop/src/tools/trim_tool.cpp:31-62 | a consistent choice stays consistent; an ok run returns to picking the target with nothing chosen; an ambiguous refusal offers the reply's candidates, the first selected; any other failure or a missing id changes nothing |
| TrimTools.RunFailure | apps/desktop/src/tools/trim_tool.cpp:32-54 | no warning text exactly when both ids are known and the kernel reports ok |
| TrimTools.Tabbed | apps/desktop/src/tools/trim_tool.cpp:69-71 | the candidates and the step stay, and a consistent choice stays consistent |
| TrimTools.FullTabCycleReturnsToFirst | apps/desktop/src/tools/trim_tool.cpp:49-51 | after an ambiguous run, as many Tabs as there are candidates come back to the first one |
| TrimTools.TrimTool.constructor | apps/desktop/src/tools/trim_tool.cpp:9 | a new tool picks the target first, with no ids and no candidates |
| TrimTools.TrimTool.RunTrim | apps/desktop/src/tools/trim_tool.cpp:31-63 | the tool's new state is the reference outcome, the store the reference store effect, and the result the reference failure text |
| TrimTools.TrimTool.OnPointerDown | apps/desktop/src/tools/trim_tool.cpp:11-25 | the pick is remembered; a miss or a press while choosing changes nothing else; a first hit becomes the target and the selection; a second hit becomes the cutter and, unless it is the target, runs the trim without committing |
| TrimTools.TrimTool.OnPointerMove | apps/desktop/src/tools/trim_tool.cpp:27-29 | only the pick position follows the pointer |
| TrimTools.TrimTool.OnKeyPress | apps/desktop/src/tools/trim_tool.cpp:73-83 | Escape returns to the first step with nothing chosen; while choosing, Tab and Backtab cycle by +1 and -1 and Enter runs the committing trim with the chosen index, warning "Trim failed" on failure; other keys change nothing |
| TrimTools.TrimTool.OnWheel | apps/desktop/src/tools/trim_tool.cpp:89-92 | while choosing among candidates a notch cycles the candidate; otherwise nothing changes |
| PolylineTools.LocksHold | apps/desktop/src/tools/polyline_tool.cpp:8 | after the first vertex the horizontal lock keeps the last vertex's y and the vertical lock its x whatever is typed; with no lock and nothing typed the snapped point is the vertex |
| PolylineTools.PolylineTool.constructor | apps/desktop/src/tools/polyline_tool.cpp:7 | a new tool has no vertices, no hover point, no locks and nothing typed |
| PolylineTools.PolylineTool.OnPointerDown | apps/desktop/src/tools/polyline_tool.cpp:8-9 | the snap is anchored at the last vertex when there is one; the placed vertex is appended; the hover point and the typed number are cleared |
| PolylineTools.PolylineTool.OnPointerMove | apps/desktop/src/tools/polyline_tool.cpp:10 | with no vertex nothing changes; otherwise the hover point is the snapped pointer under the locks and the vertices stay |
| PolylineTools.PolylineTool.Commit | apps/desktop/src/tools/polyline_tool.cpp:11-20 | fewer than two vertices warn DRAW_INSUFFICIENT_INPUT and drop the vertices, keeping the typed number; otherwise the polyline goes to the first layer, a refusal is warned, and vertices and number are cleared |
| PolylineTools.PolylineTool.OnKeyPress | apps/desktop/src/tools/polyline_tool.cpp:21-26 | H and V toggle the locks; Escape drops the vertices; Enter commits an open polyline and C a closed one; Backspace drops the last vertex; every key then reaches the number entry |
| RectTools.Locked | apps/desktop/src/tools/rect_tool.cpp:10 | the horizontal lock keeps the first corner's y and the vertical lock its x; an unlocked coordinate is the pointer's |
| RectTools.ReleaseCornerRules | apps/desktop/src/tools/rect_tool.cpp:12 | without a typed length or on a zero diagonal the dragged corner is committed; with one, the diagonal keeps its direction and takes that length |
| RectTools.RectTool.constructor | apps/desktop/src/tools/rect_tool.cpp:8 | a new tool has no corners, no locks and nothing typed |
| RectTools.RectTool.OnPointerDown | apps/desktop/src/tools/rect_tool.cpp:9 | both corners are the unanchored snap point |
| RectTools.RectTool.OnPointerMove | apps/desktop/src/tools/rect_tool.cpp:10 | with a first corner the opposite corner is the snap anchored at it, under the locks; otherwise nothing changes |
| RectTools.RectTool.OnPointerUp | apps/desktop/src/tools/rect_tool.cpp:11-20 | without a first corner nothing changes and both corners stay as they were; both locks warn DRAW_CONSTRAINT_CONFLICT and drop the corners, keeping the number; otherwise a two-point sharp rectangle goes to the first layer, a refusal is warned and corners and number are cleared |
| RectTools.RectTool.OnKeyPress | apps/desktop/src/tools/rect_tool.cpp:21 | H and V toggle the locks; Escape drops the corners and the number; every key reaches the number entry |
| CircleTools.CircleTool.constructor | apps/desktop/src/tools/circle_tool.cpp:7 | a new tool has no centre, no edge point and nothing typed |
| CircleTools.CircleTool.OnPointerDown | apps/desktop/src/tools/circle_tool.cpp:8 | the unanchored snap point becomes the centre, or, once there is a centre, the edge point |
| CircleTools.CircleTool.OnPointerMove | apps/desktop/src/tools/circle_tool.cpp:9 | with a centre the edge point is the snap anchored at the centre; otherwise nothing changes |
| CircleTools.CircleTool.OnPointerUp | apps/desktop/src/tools/circle_tool.cpp:10-18 | the radius is the typed number or the centre-edge distance; one not above zero warns DRAW_INVALID_NUMERIC and drops both points, keeping the number; otherwise a centre-radius circle goes to the first layer, a refusal is warned, and points and number are cleared |
| CircleTools.CircleTool.OnKeyPress | apps/desktop/src/tools/circle_tool.cpp:19 | Escape drops the points and the number; every key reaches the number entry |
| CircleTools.DrawCircle | apps/desktop/src/tools/circle_tool.cpp:8-18 | a press, a move and a release from an idle tool with nothing typed make exactly one create-circle call, centred at the snapped centre with the distance to the snapped edge as radius, or none when that radius is not positive; the tool ends idle |
| ArcTools.EndAngleRules | apps/desktop/src/tools/arc_tool.cpp:14-15 | a typed number sweeps that many degrees from the start angle; under the lock the end angle is a whole number of 15 degree steps within half a step of the pointer's; otherwise it is the pointer's angle |
| ArcTools.ArcTool.constructor | apps/desktop/src/tools/arc_tool.cpp:10 | a new tool has no points, no angle lock and nothing typed |
| ArcTools.ArcTool.OnPointerDown | apps/desktop/src/tools/arc_tool.cpp:11 | the unanchored snap point fills the centre, then the start, then the end |
| ArcTools.ArcTool.OnPointerMove | apps/desktop/src/tools/arc_tool.cpp:12 | with a centre and a start the end is the snap anchored at the centre; otherwise nothing changes |
| ArcTools.ArcTool.OnPointerUp | apps/desktop/src/tools/arc_tool.cpp:13-23 | with all three points, a start on the centre warns GEOM_DEGENERATE and drops the points; otherwise a counter-clockwise centre arc with the start's radius and angles goes to the first layer, a refusal is warned, and points and number are cleared |
| ArcTools.ArcTool.OnKeyPress | apps/desktop/src/tools/arc_tool.cpp:24 | A toggles the angle lock; Escape drops the points and the number; every key reaches the number entry |
| MirrorTools.MirrorTool.constructor | apps/desktop/src/tools/mirror_tool.cpp:6 | a new tool holds no first axis point |
| MirrorTools.MirrorTool.OnPointerDown | apps/desktop/src/tools/mirror_tool.cpp:7 | presses alternate: the first records the axis's first point and changes nothing else; the second records the other point and mirrors the selected ids across the line through the two, publishing on ok and warning on refusal |
| MirrorTools.MirrorTool.OnKeyPress | apps/desktop/src/tools/mirror_tool.cpp:8 | Escape forgets the first point; nothing else changes |
| MirrorTools.MirrorTwice | apps/desktop/src/tools/mirror_tool.cpp:7 | two presses from a fresh start make exactly one mirror call across the axis through the two points, the document changing only on ok, and the tool starts over |
| FilletTools.FilletTool.constructor | apps/desktop/src/tools/fillet_tool.cpp:7 | a new tool holds no entity ids and nothing typed |
| FilletTools.FilletTool.OnPointerDown | apps/desktop/src/tools/fillet_tool.cpp:8 | a miss does nothing; a hit fills the first empty id; once both are known, a fillet of the typed radius (5 when none) is asked for, published on ok, warned on refusal, and both ids are forgotten |
| FilletTools.FilletTool.OnKeyPress | apps/desktop/src/tools/fillet_tool.cpp:9 | Escape forgets both ids; Tab cycles a controller that holds no candidates, so the index stays; every key reaches the number entry |
| FilletTools.FilletTool.OnWheel | apps/desktop/src/tools/fillet_tool.cpp:10 | the notch reaches a controller with nothing to cycle: the index stays |
| PatternTools.PatternCount | apps/desktop/src/tools/pattern_tool.cpp:7 | 3 when nothing is typed; otherwise the typed value truncated toward zero |
| PatternTools.PatternTool.constructor | apps/desktop/src/tools/pattern_tool.cpp:6 | a new tool has nothing typed |
| PatternTools.PatternTool.OnKeyPress | apps/desktop/src/tools/pattern_tool.cpp:7 | the key reaches the number entry first; Enter then asks for a linear pattern of the selected ids, 10 apart along x, with the typed count, publishes on ok, warns on refusal and clears the number; other keys change nothing else |
| Rounding.RoundHalfAway | core/bom/src/lib.rs:42-45 | the nearest integer, within half of x, a tie going away from zero |
| Rounding.RoundTo2Close | core/bom/src/lib.rs:42-45 | rounding to two places moves a value by at most half a hundredth |
| Rounding.Ceil | core/export/src/pdf_tiled.rs:116-117 | the least integer not below x |
| Rounding.Trunc | apps/desktop/src/tools/pattern_tool.cpp:7 | the integer part of x, rounding toward zero on either sign |
| Decimal.NatStr | core/bom/src/lib.rs:148 | at least one character, all digits, with no leading zero past the first digit |
| Decimal.NatStrRoundTrip | core/bom/src/lib.rs:148 | the rendered digits read back as the number |
| Decimal.NatStrInjective | core/bom/src/lib.rs:148 | different quantities render differently |
| Sorting.SortBySorted | core/bom/src/lib.rs:100-110 | under a total preorder the result is sorted |
| Sorting.SortByStable | core/bom/src/lib.rs:100-110 | the elements equivalent to any given one keep their relative order, so the sort is stable and a permutation of each equivalence class |
| Sorting.InsertSorted | core/bom/src/lib.rs:100-110 | inserting into a sorted sequence keeps it sorted |
| Sorting.LexLeqIsTotalPreorder | core/crates/drawing_style/src/lib.rs:208 | string comparison in character order is total and transitive |
| Sorting.LexLeqAntisym | core/crates/drawing_style/src/lib.rs:208 | two strings each at most the other are equal |
| Utf8.LeadByteMarksWidth | core/bom/src/lib.rs:160 | the lead byte's range tells the encoding's length, in both directions |
| Utf8.ContinuationBytes | core/bom/src/lib.rs:160 | every byte after the lead byte lies in 0x80..0xBF |
| Utf8.EncodedLength | core/bom/src/lib.rs:160 | a string's encoding is as long as the sum of its characters' widths |
| Utf8.EncodeAppend | core/bom/src/lib.rs:142-160 | encoding a concatenation is concatenating the encodings |
| Utf8.ByteOrderMark | core/bom/src/lib.rs:125 | the three bytes written first are the UTF-8 encoding of U+FEFF |
| Seqs.Repeat | core/crates/diycad_nesting/src/model.rs:104-112 | n copies of one element: the records pushed per part copy, the sheet instances and their areas |
| Seqs.FindFirst | core/crates/diycad_nesting/src/model.rs:88-91 | the first index whose element satisfies the predicate, and none exactly when no element does |

## Left out

**Non-finite values.** Stored coordinates are reals, so a NaN or an infinity inside a document cannot be represented. The kernel reads documents from JSON, which cannot encode either. Arithmetic overflow in `f64` can still produce them in the source. Command inputs do carry them, as `Num`.
- NestingModel.Dims: does not model the rejection of non-finite outline points with PART_INVALID_OUTLINE (core/crates/diycad_nesting/src/model.rs:67-68). That branch cannot be reached from a document, whose points are finite reals here.
- CreatePart.IsValidRing: does not model the `is_finite` test of every ring point (core/commands/src/commands/create_part.rs:43). Ring points are finite reals here.
- PdfTiled.LayoutOf: does not model the EXPORT_UNSUPPORTED_ENTITY error for non-finite geometry (core/export/src/pdf_tiled.rs:91-96). PdfTiled.ComputeTiledLayout inherits this.

**Partial mutation on error.** The Rust deltas mutate `&mut Document` and can fail midway. The desktop FFI writes the document back only when the operation succeeds and drops it otherwise (core/ffi_desktop/src/lib.rs:674-698). So an error here returns no document, and the partly edited one is not modelled.
- TransformSelection.ApplyEntriesLoop: on error, does not model the entries already rewritten (core/commands/src/commands/transform_selection.rs:125-150). TransformSelection.ApplyTransform is the same.
- CommandHistory.ApplyGroup: on error, does not model the deltas of the group already applied (core/commands/src/history.rs:89-101). CommandHistory.RevertGroup is the same.
- OffsetEntity.ApplyOffset: on error, does not model the partly changed document.
- AdvancedEdit.ApplyEntities: on error, does not model the partly changed document.

**Numeric widths.**
- MarketMeta.Quantize: treats rust_decimal as exact. The source's division `v / s` rounds to 28 significant digits (ucel/crates/ucel-symbol-core/src/market_meta.rs:333-336). The model is faithful only while quotients fit in 28 digits.
- MarketMetaStore.Store.BumpVersion: the version is an unbounded nat. The source's `u64` `fetch_add` wraps after 2^64 bumps (ucel/crates/ucel-symbol-store/src/market_meta_store.rs:228-230).
- SpatialQuery.CellOf: the cell index is an unbounded int. The source casts `floor` to `i32` with `as` (core/crates/sketch/src/query.rs:14-17, 34-37), and that cast saturates far from the origin.
- DocStores.DocStore.RebuildCache: the grid cell indices are unbounded ints. The source converts `std::floor(x / gridCellSize_)` to `int` with `static_cast` (apps/desktop/src/doc_store.cpp:102-105). For a quotient outside the 32-bit range that conversion is undefined behaviour in C++, so the model holds only for boxes whose cells fit in `int`.
- DocStores.DocStore.QuerySpatialCandidates: the same unbounded cell indices for the query window, where the source makes the same `static_cast<int>` of a floor (apps/desktop/src/doc_store.cpp:202-205) and the same undefined behaviour outside the 32-bit range.
- NestingScore.ComputeMetrics: counts are nats. The source casts them with `as u32` and `as usize`, and multiplies the `u32` placement count by 4; the wrap-around these can cause is not modelled.
- PatternTools.PatternCount: truncates toward zero into an unbounded int. The C++ `int(...)` conversion has undefined behaviour outside the 32-bit range, and that case is not modelled.

**Key order.**
- Json.Put: appends a new key at the end of the object. serde_json's `Map` is a `BTreeMap` and keeps keys sorted. Json.MergePatch inherits this. Merged objects hold the same members as the source's, but not in the same order.

**Other limits.**
- MarketMetaStore.Store: concurrent access through the source's locks and atomics is modelled as one call after another. The clock is a parameter.
- NestingModel.ExpandRef: the `part_id` debug field of its error is not modelled.
- DrawingStyle.ValidateText: reduces the `AppError` it returns to its reason code. Severity, message, hint and context are not modelled. On this path the source always uses `Severity::Error` (core/crates/drawing_style/src/lib.rs:336-355).
- DrawingStyle.DimCommand: reduces the `AppError` it returns to its reason code. Severity, message, hint and context are not modelled. On this path the source always uses `Severity::Error` (core/crates/drawing_style/src/lib.rs:211-277).
- DrawingStyle.AnnCommands: reduces the `AppError` of its text check to its reason code. Severity, message, hint and context are not modelled. On this path the source always uses `Severity::Error` (core/crates/drawing_style/src/lib.rs:284-330, 336-355).
- DrawingStyle.BuildRenderPlan: reduces the `AppError` it returns to its reason code. Severity, message, hint and context are not modelled. On this path the source always uses `Severity::Error` (core/crates/drawing_style/src/lib.rs:200-355). Only `StylePreset::load_default` uses `Severity::Fatal`, and it is not modelled.
- SketchValidate.Validate: reduces the `AppError` it returns to its reason code. Severity, message, hint and context are not modelled. On this path the source always uses `Severity::Error` (core/crates/sketch/src/validate.rs:21-63).
- Bom.RowBefore: compares part ids as numbers, whereas the source compares their hyphenated lowercase text. The two orders agree for every 128-bit uuid, because the text has a fixed width and fixed hyphen positions.
- Snapping.Resolve: scores and distances are reals. The source's `partial_cmp` fallback for NaN is not modelled. Trim.RankCandidates is the same.
- Floating-point rounding of geometry is not modelled. Square roots, trigonometry, projection, intersection and offsetting are uninterpreted functions supplied by the caller.

**Parts of the system not modelled.**
- Rendering: painting, overlays and the PDF byte layout are not modelled. Only the tiled layout is.
- Storage I/O: autosave and `loadDiycad`, and JSON text parsing and printing, are not modelled. Documents arrive parsed.
- Inputs handed over from elsewhere:
  - `StylePreset::load_default` parses the bundled style files and is not modelled; the preset is a parameter.
  - Uuid generation (`Uuid::new_v4`) becomes a supplied sequence of fresh ids.
  - `MarketMetaSnapshot::new_rest` draws a random id and reads the clock, so it is not modelled. Snapshots are values built by the caller.
  - `MarketMeta::from_standardized_instrument` copies fields and holds no logic, so it is not modelled.
- `create_part_from_face` of the part operations is not modelled.
- Missing C++ headers: camera.h, numeric_input.h, selection_state.h and shortcut_map.h are not part of this model.
  - The camera's `screenToWorld` is not modelled. Pointer events carry world positions.
  - The number entry's parse function is a parameter.
  - Which keys are undo and redo is a parameter.
- Desktop comparisons: QString comparison is modelled as lexicographic order on characters. It does not model UTF-16 code-unit order for characters outside the Basic Multilingual Plane.
- Trim tool:
  - The ambiguity controller's index reset is not modelled beyond what trim_tool.cpp calls.
  - The trim tool's pointer release does nothing and has no member.
- Desk.FirstLayerId: yields the empty id for a document with no layers. The source then calls `QJsonArray::first()` on an empty array, which is undefined behaviour.

## Findings

| source | as written | input that shows it | evidently intended | confidence | as-written member | corrected member |
|---|---|---|---|---|---|---|
| core/crates/migration/src/lib.rs:38-52 | the migration loop sets `cur = step.to` with no check that the version has not been left before, so a walk that comes back to a version (a step with `to == cur`, or a cycle of steps) repeats forever while `apply_json` keeps succeeding, and `dry_run` always repeats forever there | one registered step from version 1 to version 1, migrating from 1 to 2 | stop with an error when the walk comes back to a version it already left; steps that go back to a version not yet visited (1 -> 0, then 0 -> 2) are followed as before | not executed | Migration.StandingStepNeverEnds and Migration.CycleNeverEnds (with Migration.StandingStepExample, over the as-written loop Migration.LoopVersion) | Migration.Migrate and Migration.DryRun return Err(NoProgress) on a repeated version; Migration.DryRunStallsIffSourceLoops proves the plan stalls exactly where the as-written loop never ends, Migration.DetourExample that a backward detour still completes, and Migration.ForwardStepsNeverStall that forward-only migrators never stall |
