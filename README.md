# AnnotateCanvas: canvas interaction and owner-scoped annotation store, in Dafny

This project models the two parts of AnnotateCanvas that hold logic. It proves properties of both.

- **The canvas component** (`CanvasBoard`). It is an event-driven state machine with these pieces:
  - a mode, `Draw` or `Select`;
  - the selected id;
  - the committed list of rectangles;
  - a preview slot holding the rectangle being drawn;
  - the refs `isDrawing` and `startPoint`.

  Pointer gestures draw rectangles. A rectangle with an extent below 5 is discarded. Toolbar buttons switch mode. Clicks select. Drags move and the transformer resizes, with a minimum of 20. The toolbar also deletes and recolors. Every change is applied locally first, then sent to the server. Each network outcome is its own event and may arrive at any later point, in any order:
  - a create that succeeds merges the server's document into the record with the same id, keeping the client-only label;
  - a create that fails removes every record with that id;
  - update and delete outcomes are only logged;
  - the initial fetch replaces the list.
- **The annotation routes.** They form a table of documents keyed on `(id, userId)`:
  - GET lists the caller's documents;
  - POST stores a new document built from `x, y, width, height, id, fill`, with the schema's default stroke `'red'`;
  - PUT overwrites geometry and fill of the caller's first matching document, or replies 404;
  - DELETE removes the caller's first matching document, or replies 404.

  Nothing a caller does can change another user's listing.

Files and modules:

- `common.dfy` (`Common`): `Option`, and the decimal rendering used in labels and ids.
- `annotation_schema.dfy` (`AnnotationSchema`): the stored document, its defaults, and the request body.
- `annotation_routes.dfy` (`AnnotationRoutes`): the class `AnnotationTable`, one method per route, and the isolation lemmas.
- `canvas_shapes.dfy` (`CanvasShapes`): the client record and the pure expressions of the component. These are the min/abs normalisation, the merge-by-id `map`, the rollback/delete `filter`, the replace and recolor `map`s, `find`, `boundBoxFunc`, and the drag and transform attributes. The module also holds the reconciliation lemmas for out-of-order outcomes.
- `canvas_board.dfy` (`Canvas`): the class `CanvasBoard`, one method per handler and per network outcome, and the class `ShapeNode` for the node whose scale a transform end resets.
- `sync.dfy` (`Sync`): client and server composed, and whole gestures followed by their outcomes.

Modelling choices:

- Coordinates and scale factors are `real`. Colors are strings joined with plain concatenation.
- `Date.now()` becomes the parameter `now`, and the id is `"rect-" + now`. Ids are not assumed unique.
- A pointer event's stage target and position are parameters, and so is the node position at the end of a drag.
- Each event sees the state rendered after the previous event.
- `!selectedId` is JavaScript truthiness, so an empty id counts as no selection.
- The server's `fill` may be unset, because a PUT without `fill` assigns `undefined` to it. The client's `fill` is optional too, so `{...r, ...saved}` is modelled field by field.
- Mongo's `findOne`/`deleteOne` act on the first matching document in table order.

Behaviour of the code a reader might not expect:

- The draw threshold is 5 (client/src/components/CanvasBoard.jsx:112); the resize minimum is 20 (lines 320, 371-372).
- Clicking the empty canvas in select mode does not clear the selection.
- POST does not store the stroke it is sent. As a result, a confirmed create turns the drawn record's stroke into `'red'` (`Sync.ConfirmedCreate`), and a recolor reaches the server only through its fill (`Sync.RecolorKeepsStoredStroke`).
- A drag made while a create is still in flight is overwritten when that create is confirmed (`CanvasShapes.EditBeforeConfirmIsOverwritten`).
- After a rejected create, the selection can point at a record that no longer exists (`Sync.RejectedWhileSelected`).

## Model

| member | source | states |
|---|---|---|
| Common.NatToString | client/src/components/CanvasBoard.jsx:71 | the rendering of the label counter is a non-empty string of decimal digits with no leading zero |
| Common.NatToStringRoundTrip | client/src/components/CanvasBoard.jsx:71 | reading the decimal rendering back gives the number, so different list sizes give different labels |
| Common.NatToStringInjective | client/src/components/CanvasBoard.jsx:66 | two clock readings give the same generated id only if they are equal |
| AnnotationSchema.NewDocument | server/models/Annotation.js:4-15 | a new document takes geometry, id and fill from the body (fill defaults to 'transparent'), its owner is the caller, and its stroke is always 'red' whatever the body says |
| AnnotationSchema.Overwrite | server/routes/annotations.js:40-44 | an update sets x, y, width, height and fill from the body and keeps stroke, id and owner |
| AnnotationRoutes.FirstMatch | server/routes/annotations.js:37 | findOne gives none exactly when no document matches (id, caller); otherwise the first matching position |
| AnnotationRoutes.OwnedBy | server/routes/annotations.js:9 | a document is listed exactly when it is stored and owned by the caller |
| AnnotationRoutes.MatchCount | server/routes/annotations.js:58 | the number of documents matching (id, caller) is zero exactly when findOne finds none |
| AnnotationRoutes.OwnedByConcat | server/routes/annotations.js:9 | listing a table made of two parts gives the listing of the first part followed by that of the second, so order is kept |
| AnnotationRoutes.CreatedIsListedLast | server/routes/annotations.js:21-26 | after a create the caller's listing is their earlier listing followed by the new document |
| AnnotationRoutes.AppendIsolated | server/routes/annotations.js:21-25 | a document created by one user does not appear in, or alter, any other user's listing |
| AnnotationRoutes.ReplaceIsolated | server/routes/annotations.js:37-46 | overwriting a document of one user leaves every other user's listing unchanged |
| AnnotationRoutes.RemoveIsolated | server/routes/annotations.js:61 | removing a document of one user leaves every other user's listing unchanged |
| AnnotationRoutes.RemoveMatchCount | server/routes/annotations.js:61 | deleteOne removes exactly one of the documents matching (id, caller) |
| AnnotationRoutes.AnnotationTable.List | server/routes/annotations.js:7-15 | GET returns exactly the caller's documents, in table order |
| AnnotationRoutes.AnnotationTable.Create | server/routes/annotations.js:18-31 | POST appends exactly one document built from the body and owned by the caller, returns it, and changes no other user's listing |
| AnnotationRoutes.AnnotationTable.Update | server/routes/annotations.js:34-52 | PUT replies 404 and leaves the table unchanged when the caller owns no document with the id; otherwise it overwrites only the first match and returns it; other users' listings are unchanged |
| AnnotationRoutes.AnnotationTable.Delete | server/routes/annotations.js:55-67 | DELETE replies 404 and leaves the table unchanged when the caller owns no document with the id; otherwise it removes the first match and replies 'Annotation removed'; other users' listings are unchanged |
| AnnotationRoutes.DeleteFrom | server/routes/annotations.js:58-62 | a delete without a match returns the table unchanged with 404; with a match it removes the first matching document and keeps the rest in order, lowers the match count by one, leaves other users' listings unchanged, and replies 'Annotation removed' |
| AnnotationRoutes.RepeatedDeleteIsNotFound | server/routes/annotations.js:58-62 | with one matching document, a first delete succeeds and a second one is a 404 no-op |
| CanvasShapes.Preview | client/src/components/CanvasBoard.jsx:66-79 | a press puts a 1x1 preview at the pointer, with id "rect-" plus the clock reading and label "Rect " plus the list size plus one |
| CanvasShapes.Span | client/src/components/CanvasBoard.jsx:89-102 | the live rectangle has non-negative extents, its edges are exactly the anchor's and the pointer's coordinates, and everything except the geometry is the preview's |
| CanvasShapes.SpanSymmetric | client/src/components/CanvasBoard.jsx:89-92 | swapping the anchor and the pointer gives the same rectangle |
| CanvasShapes.PreviewIsTooSmall | client/src/components/CanvasBoard.jsx:74-75 | a press released without a move is always discarded, because 1 < 5 |
| CanvasShapes.FromServerAll | client/src/components/CanvasBoard.jsx:40-41 | the fetched documents become the list one for one, in order, without labels |
| CanvasShapes.Merge | client/src/components/CanvasBoard.jsx:127 | the merged record takes id, geometry, stroke and owner from the saved document, keeps its own label, and keeps its own fill only when the saved document has none |
| CanvasShapes.MergeSaved | client/src/components/CanvasBoard.jsx:124-130 | on create success only records with the sent id change, each becoming the saved document plus its own label, keeping its own fill when the saved document has none; order and length are kept; a list without the id is unchanged |
| CanvasShapes.RemoveId | client/src/components/CanvasBoard.jsx:134 | the rollback and delete filter keep exactly the records without the id, in order; a list without the id is unchanged |
| CanvasShapes.ReplaceById | client/src/components/CanvasBoard.jsx:140-143 | every record with the new attributes' id becomes them; all other records and the order are kept |
| CanvasShapes.Recolor | client/src/components/CanvasBoard.jsx:183-187 | records with the selected id get stroke = color and fill = color + "55", with every other field kept; all other records are unchanged |
| CanvasShapes.FindById | client/src/components/CanvasBoard.jsx:189 | find gives none exactly when no record has the id; otherwise the first record with it |
| CanvasShapes.BoundBox | client/src/components/CanvasBoard.jsx:319-322 | a proposed box with width or height below 20 is refused and the old box returned; otherwise the proposal is taken |
| CanvasShapes.TrackKeepsMinimum | client/src/components/CanvasBoard.jsx:319-322 | a resize that starts from a box at least 20x20 stays at least 20x20 through any sequence of proposals |
| CanvasShapes.TrackRejectsAllSmall | client/src/components/CanvasBoard.jsx:320 | when every proposal is below the minimum, the box does not change at all |
| CanvasShapes.Dragged | client/src/components/CanvasBoard.jsx:351-356 | a drag end changes only x and y of the shape |
| CanvasShapes.Transformed | client/src/components/CanvasBoard.jsx:367-373 | a transform end sets x and y from the node and each extent to the larger of 20 and the scaled extent, so both are at least 20; nothing else changes |
| CanvasShapes.RemoveIdConcat | client/src/components/CanvasBoard.jsx:134 | the filter distributes over concatenation, so it keeps order |
| CanvasShapes.RollbackRestores | client/src/components/CanvasBoard.jsx:117-134 | appending a rect with a fresh id and then rolling it back gives back the list from before the gesture |
| CanvasShapes.MergesCommute | client/src/components/CanvasBoard.jsx:124-130 | two create confirmations for distinct ids give the same list in either arrival order |
| CanvasShapes.MergeRollbackCommute | client/src/components/CanvasBoard.jsx:124-134 | a confirmation and a rollback for distinct ids give the same list in either arrival order |
| CanvasShapes.DeleteThenConfirmStaysDeleted | client/src/components/CanvasBoard.jsx:124-130 | a confirmation for a record already deleted changes nothing, and deleting twice is the same as once |
| CanvasShapes.EditBeforeConfirmIsOverwritten | client/src/components/CanvasBoard.jsx:124-143 | an edit made before the create is confirmed loses its geometry to the saved document |
| Canvas.CanvasBoard.constructor | client/src/components/CanvasBoard.jsx:22-47 | the component starts in draw mode with no selection, an empty list and preview, no gesture, and the fetch issued |
| Canvas.CanvasBoard.MouseDown | client/src/components/CanvasBoard.jsx:56-80 | outside draw mode or off the empty stage nothing changes; otherwise a gesture starts at the pointer with exactly one 1x1 preview named after the list size; the list is never touched |
| Canvas.CanvasBoard.MouseMove | client/src/components/CanvasBoard.jsx:82-103 | while drawing in draw mode the preview becomes the span of the anchor and the pointer; nothing else changes, the list included |
| Canvas.CanvasBoard.MouseUp | client/src/components/CanvasBoard.jsx:105-121 | an active gesture always ends with no anchor and an empty preview; a preview below 5 in either extent leaves the list unchanged; otherwise exactly the preview is appended and its create issued; lists whose records are all at least 5 stay so |
| Canvas.CanvasBoard.AddRectangleClicked | client/src/components/CanvasBoard.jsx:217-220 | the button clears the selection and enters draw mode |
| Canvas.CanvasBoard.SelectClicked | client/src/components/CanvasBoard.jsx:229-231 | the button, shown only for a non-empty list, enters select mode |
| Canvas.CanvasBoard.ShapeClicked | client/src/components/CanvasBoard.jsx:296-298 | clicking a rectangle selects its id in select mode and does nothing in draw mode |
| Canvas.CanvasBoard.HandleChange | client/src/components/CanvasBoard.jsx:140-150 | the list becomes the replacement by id and one update call with the new attributes is issued |
| Canvas.CanvasBoard.DragEnd | client/src/components/CanvasBoard.jsx:351-357 | the dragged record moves to the node position with its size kept, and the update is issued |
| Canvas.CanvasBoard.TransformEnd | client/src/components/CanvasBoard.jsx:358-374 | the node's scale is reset to 1 and the record gets the scaled extents, each raised to 20 where smaller |
| Canvas.CanvasBoard.HandleDelete | client/src/components/CanvasBoard.jsx:164-176 | with no selection nothing changes; otherwise the selection is cleared, every record with that id is removed, and the delete call is issued |
| Canvas.CanvasBoard.HandleColorChange | client/src/components/CanvasBoard.jsx:180-198 | with no selection nothing changes; otherwise the list is recolored at the selected id and the update call carries the first recolored record, or no body when there is none |
| Canvas.CanvasBoard.CreateSucceeded | client/src/components/CanvasBoard.jsx:120-130 | the list becomes the merge at the sent rect's id, and that call is settled; nothing else changes |
| Canvas.CanvasBoard.CreateFailed | client/src/components/CanvasBoard.jsx:132-135 | every record with the sent rect's id is removed, and that call is settled |
| Canvas.CanvasBoard.FetchSucceeded | client/src/components/CanvasBoard.jsx:37-41 | the fetched documents replace the list, whenever they arrive |
| Canvas.CanvasBoard.Settled | client/src/components/CanvasBoard.jsx:145-149 | an update or delete outcome, or a failed fetch, only settles the call; the list is unchanged |
| Sync.ToPayload | client/src/components/CanvasBoard.jsx:121 | the body sent carries the record's id, geometry, fill and stroke |
| Sync.ConfirmedCreate | client/src/components/CanvasBoard.jsx:121-127 | after the POST round trip the drawn record is unchanged except that its stroke becomes 'red' and it gains its owner |
| Sync.RecolorKeepsStoredStroke | server/routes/annotations.js:40-44 | a recolor's update changes the stored fill to color + "55" and never the stored stroke |
| Sync.RejectedGestureRestores | client/src/components/CanvasBoard.jsx:56-134 | a whole gesture whose create is rejected leaves the list and the outstanding calls as they were before the press, when the id was fresh |
| Sync.DeleteBeforeConfirm | client/src/components/CanvasBoard.jsx:164-169 | a record deleted while its create is in flight is still absent after the confirmation arrives |
| Sync.RejectedWhileSelected | client/src/components/CanvasBoard.jsx:180-194 | after the selected record's create is rejected, the selection remains, the record is gone, and a recolor sends an update with no body |

## Left out

- JSX markup, Tailwind classes and Konva rendering are not modelled. This includes the label width, the preview's dashed outline and the canvas size. They do not affect state.
- Transformer attachment via `findOne` and `batchDraw` is not modelled. It is a scene-graph call with no effect on the modelled state.
- Konva's drag and resize mechanics are not modelled. The node's position and scale at the end of a gesture are parameters. `CanvasShapes.Track` stands for the manipulator offering a sequence of proposed boxes.
- The axios transport is represented only by its outcomes: the fetch, create, update and delete results are events of `CanvasBoard`.
- The login redirect and logout, the auth context, the register form, the auth middleware and the Express/Mongo wiring are not modelled. They are I/O wrappers with no logic of their own.
- Mongoose persistence details are not modelled. These are `_id`, timestamps, type casting, schema validation, and every 500 reply. Bodies that lack a required field end in such a reply, so `Payload` has those fields as mandatory.
- The window between `findOne` and `deleteOne` in the DELETE route is not modelled, nor are other concurrent server requests. The routes are modelled as atomic.
- React's batching of state updates is not modelled. Handlers are assumed to see the state rendered after the previous event.
- Floating-point behaviour is not modelled. This includes NaN, rounding of `w * scaleX`, and the number-to-string format of fractional values.
- Canvas.CanvasBoard.MouseMove: the source's early return when `startPoint` is null is not a separate branch. Under `Valid()` a gesture always has an anchor, so that guard cannot fire. The same holds for `MouseUp`'s missing-rect guard.
