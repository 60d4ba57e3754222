/** The client and the server together: what the client sends, what the server
    stores from it, what the client keeps after merging the reply, and whole
    gestures followed by their network outcomes. */
module Sync {
  import opened Common
  import opened AnnotationSchema
  import opened AnnotationRoutes
  import opened CanvasShapes
  import opened Canvas

  /** The JSON body axios sends for a client record: the whole record (its label
      is sent too, and ignored by the routes). */
  function ToPayload(r: Rect): (p: Payload)
    ensures p.id == r.id && p.fill == r.fill && p.stroke == Some(r.stroke)
    ensures p.x == r.x && p.y == r.y && p.width == r.width && p.height == r.height
  {
    Payload(r.id, r.x, r.y, r.width, r.height, r.fill, Some(r.stroke))
  }

  /** A confirmed create leaves the drawn record as it was except that its
      stroke becomes the schema default, since POST does not store the stroke
      sent, and that it gains its owner. */
  lemma ConfirmedCreate(rect: Rect, user: UserId)
    requires rect.fill.Some?
    ensures Merge(rect, NewDocument(ToPayload(rect), user)) ==
            rect.(stroke := DEFAULT_STROKE, userId := Some(user))
  {
  }

  /** A recolor reaches the server only through the fill: PUT keeps the stored stroke. */
  lemma RecolorKeepsStoredStroke(stored: Annotation, r: Rect, color: string)
    ensures Overwrite(stored, ToPayload(Recolored(r, color))).stroke == stored.stroke
    ensures Overwrite(stored, ToPayload(Recolored(r, color))).fill == Some(color + FILL_ALPHA)
  {
  }

  /** A complete gesture from `a` to `c` whose create is rejected leaves the
      list as it was before the press, provided the generated id was new. */
  method RejectedGestureRestores(b: CanvasBoard, a: Point, c: Point, now: nat)
    requires b.Valid() && b.mode == Draw
    requires !HasId(b.annotations, ID_PREFIX + NatToString(now))
    modifies b
    ensures b.Valid()
    ensures b.annotations == old(b.annotations) && b.inFlight == old(b.inFlight)
    ensures !b.isDrawing && b.newAnnotation == []
  {
    ghost var before := b.annotations;
    b.MouseDown(true, a, now);
    b.MouseMove(c);
    var rect := b.newAnnotation[0];
    assert rect.id == ID_PREFIX + NatToString(now);
    b.MouseUp();
    if !TooSmall(rect) {
      b.CreateFailed(|b.inFlight| - 1);
      RollbackRestores(before, rect);
      assert b.inFlight == old(b.inFlight);
    }
  }

  /** A record deleted while its create is in flight stays deleted when the
      create is confirmed. */
  method DeleteBeforeConfirm(b: CanvasBoard, a: Point, c: Point, now: nat, saved: Annotation)
    requires b.Valid() && b.mode == Draw
    requires !HasId(b.annotations, ID_PREFIX + NatToString(now))
    modifies b
    ensures b.Valid()
    ensures !HasId(b.annotations, ID_PREFIX + NatToString(now))
  {
    var id := ID_PREFIX + NatToString(now);
    b.MouseDown(true, a, now);
    b.MouseMove(c);
    var rect := b.newAnnotation[0];
    b.MouseUp();
    if TooSmall(rect) {
      return;
    }
    var pending := |b.inFlight| - 1;
    b.SelectClicked();
    b.ShapeClicked(|b.annotations| - 1);
    b.HandleDelete();
    assert b.inFlight[pending] == CreateCall(rect);
    b.CreateSucceeded(pending, saved);
  }

  /** Selecting the optimistic record and then learning that its create was
      rejected leaves the selection pointing at a record that is gone: a recolor
      then changes no record and sends its update without a body. */
  method RejectedWhileSelected(b: CanvasBoard, i: nat, color: string)
    requires b.Valid() && b.mode == Select
    requires i < |b.inFlight| && b.inFlight[i].CreateCall?
    requires b.inFlight[i].rect.id != "" && HasId(b.annotations, b.inFlight[i].rect.id)
    modifies b
    ensures b.Valid()
    ensures b.selectedId == Some(old(b.inFlight)[i].rect.id)
    ensures b.annotations == RemoveId(old(b.annotations), old(b.inFlight)[i].rect.id)
    ensures b.inFlight == Without(old(b.inFlight), i) + [UpdateCall(old(b.inFlight)[i].rect.id, None)]
  {
    var id := b.inFlight[i].rect.id;
    var k :| 0 <= k < |b.annotations| && b.annotations[k].id == id;
    b.ShapeClicked(k);
    b.CreateFailed(i);
    b.HandleColorChange(color);
  }

  /** The walkthrough on the client: draw from (100,100) to (250,180), the
      create confirmed with what the server stores, drag to (120,90), recolor,
      delete. */
  method ClientWalkthrough(user: UserId, now: nat)
  {
    var b := new CanvasBoard();
    b.Settled(0);  // the initial fetch fails: nothing to show

    b.MouseDown(true, Point(100.0, 100.0), now);
    b.MouseMove(Point(250.0, 180.0));
    b.MouseUp();
    var rect := b.annotations[0];
    assert b.annotations == [rect] && b.inFlight == [CreateCall(rect)];
    assert rect.x == 100.0 && rect.y == 100.0 && rect.width == 150.0 && rect.height == 80.0;

    var saved := NewDocument(ToPayload(rect), user);
    b.CreateSucceeded(0, saved);
    ConfirmedCreate(rect, user);
    var confirmed := rect.(stroke := DEFAULT_STROKE, userId := Some(user));
    assert b.annotations == [confirmed];

    b.DragEnd(0, 120.0, 90.0);
    assert b.annotations == [confirmed.(x := 120.0, y := 90.0)];

    b.SelectClicked();
    b.ShapeClicked(0);
    b.HandleColorChange("#ff0000");
    assert "#ff0000" + FILL_ALPHA == "#ff000055";
    assert b.annotations[0].stroke == "#ff0000" && b.annotations[0].fill == Some("#ff000055");

    b.HandleDelete();
    assert b.annotations == [] && b.selectedId == None;
  }

  /** The same walkthrough as the server sees it: create, update the position,
      delete, list, delete again. */
  method ServerWalkthrough(user: UserId, body: Payload)
  {
    var server := new AnnotationTable();
    var saved := server.Create(user, body);
    assert server.records == [saved];

    var moved := body.(x := body.x + 20.0, y := body.y - 10.0);
    var reply := server.Update(user, body.id, moved);
    assert reply.Ok? && reply.value.x == body.x + 20.0 && reply.value.y == body.y - 10.0;
    assert reply.value.stroke == DEFAULT_STROKE;

    var removed := server.Delete(user, body.id);
    assert removed == Ok(REMOVED_MSG);
    var listed := server.List(user);
    assert listed == [];
    var again := server.Delete(user, body.id);
    assert again == NotFound(NOT_FOUND_MSG);
  }
}
