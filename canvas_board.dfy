/** The canvas component's state machine (client/src/components/CanvasBoard.jsx):
    React state (`mode`, `selectedId`, `annotations`, `newAnnotation`), the refs
    `isDrawing` and `startPoint`, and the network calls still awaiting their
    outcome. Each handler is a method; each network outcome is a method of its
    own, so outcomes may be delivered late and in any order. */
module Canvas {
  import opened Common
  import opened AnnotationSchema
  import opened CanvasShapes

  /** A network call that has been issued and not yet settled, with what it was
      issued for. A recolor whose record is gone sends no body. */
  datatype Request =
    | Fetch
    | CreateCall(rect: Rect)
    | UpdateCall(id: string, body: Option<Rect>)
    | DeleteCall(id: string)

  /** JavaScript truthiness of `selectedId`: `null` and `""` both mean "none". */
  predicate Truthy(s: Option<string>) {
    s.Some? && s.value != ""
  }

  function Without<T>(s: seq<T>, i: nat): (r: seq<T>)
    requires i < |s|
    ensures |r| == |s| - 1
    ensures forall k :: 0 <= k < i ==> r[k] == s[k]
    ensures forall k :: i <= k < |r| ==> r[k] == s[k + 1]
  {
    s[..i] + s[i + 1..]
  }

  /** Every record is at least as large as a committed drawing must be. */
  ghost predicate AllDrawable(s: seq<Rect>) {
    forall r :: r in s ==> r.width >= MIN_DRAW_SIZE && r.height >= MIN_DRAW_SIZE
  }

  /** The scene-graph node of one rectangle's group: its position and the scale
      the transformer leaves on it. */
  class ShapeNode {
    var x: real
    var y: real
    var scaleX: real
    var scaleY: real

    constructor (x: real, y: real)
      ensures this.x == x && this.y == y && scaleX == 1.0 && scaleY == 1.0
    {
      this.x, this.y := x, y;
      scaleX, scaleY := 1.0, 1.0;
    }
  }

  class CanvasBoard {
    var mode: Mode
    var selectedId: Option<string>
    var annotations: seq<Rect>
    /** The preview slot: empty, or the one rectangle being drawn. */
    var newAnnotation: seq<Rect>
    var isDrawing: bool
    var startPoint: Option<Point>
    var inFlight: seq<Request>

    /** A gesture is in progress exactly when there is an anchor and a preview. */
    ghost predicate Valid()
      reads this
    {
      && |newAnnotation| <= 1
      && (isDrawing <==> startPoint.Some?)
      && (isDrawing <==> |newAnnotation| == 1)
    }

    /** Mounting: the initial state, with the fetch of the user's list issued. */
    constructor ()
      ensures Valid()
      ensures mode == Draw && selectedId == None && annotations == [] && newAnnotation == []
      ensures !isDrawing && startPoint == None && inFlight == [Fetch]
    {
      mode, selectedId := Draw, None;
      annotations, newAnnotation := [], [];
      isDrawing, startPoint := false, None;
      inFlight := [Fetch];
    }

    // ---------------- Drawing ----------------

    /** Pointer down at `pos`; `onEmptyStage` says the target is the stage itself
        and `now` is the clock reading the id is made from. */
    method MouseDown(onEmptyStage: bool, pos: Point, now: nat)
      requires Valid()
      modifies this
      ensures Valid()
      ensures annotations == old(annotations) && mode == old(mode)
      ensures selectedId == old(selectedId) && inFlight == old(inFlight)
      ensures if old(mode) == Draw && onEmptyStage
              then isDrawing && startPoint == Some(pos) &&
                   newAnnotation == [Preview(now, |annotations|, pos)]
              else isDrawing == old(isDrawing) && startPoint == old(startPoint) &&
                   newAnnotation == old(newAnnotation)
    {
      if mode != Draw {
        return;
      }
      if !onEmptyStage {
        return;
      }
      startPoint := Some(pos);
      isDrawing := true;
      newAnnotation := [Preview(now, |annotations|, pos)];
    }

    /** Pointer move to `pos`: only the preview changes. */
    method MouseMove(pos: Point)
      requires Valid()
      modifies this
      ensures Valid()
      ensures annotations == old(annotations) && mode == old(mode) && selectedId == old(selectedId)
      ensures inFlight == old(inFlight)
      ensures isDrawing == old(isDrawing) && startPoint == old(startPoint)
      ensures if old(isDrawing) && old(mode) == Draw
              then newAnnotation == [Span(old(newAnnotation)[0], old(startPoint).value, pos)]
              else newAnnotation == old(newAnnotation)
    {
      if !isDrawing || mode != Draw {
        return;
      }
      // Valid() gives an anchor here, so the source's missing-anchor guard never fires.
      var start := startPoint.value;
      newAnnotation := [Span(newAnnotation[0], start, pos)];
    }

    /** Pointer up: the gesture ends; a large enough preview is appended and its
        create call issued. */
    method MouseUp()
      requires Valid()
      modifies this
      ensures Valid()
      ensures mode == old(mode) && selectedId == old(selectedId)
      ensures !(old(isDrawing) && old(mode) == Draw) ==>
                isDrawing == old(isDrawing) && startPoint == old(startPoint) &&
                newAnnotation == old(newAnnotation) && annotations == old(annotations) &&
                inFlight == old(inFlight)
      ensures old(isDrawing) && old(mode) == Draw ==>
                !isDrawing && startPoint == None && newAnnotation == []
      ensures old(isDrawing) && old(mode) == Draw && TooSmall(old(newAnnotation)[0]) ==>
                annotations == old(annotations) && inFlight == old(inFlight)
      ensures old(isDrawing) && old(mode) == Draw && !TooSmall(old(newAnnotation)[0]) ==>
                annotations == old(annotations) + [old(newAnnotation)[0]] &&
                inFlight == old(inFlight) + [CreateCall(old(newAnnotation)[0])]
      ensures AllDrawable(old(annotations)) ==> AllDrawable(annotations)
    {
      if !isDrawing || mode != Draw {
        return;
      }
      isDrawing := false;
      startPoint := None;
      // Valid() gives a preview here, so the source's missing-rect guard never fires.
      var rect := newAnnotation[0];
      if TooSmall(rect) {
        newAnnotation := [];
        return;
      }
      annotations := annotations + [rect];
      newAnnotation := [];
      inFlight := inFlight + [CreateCall(rect)];
    }

    // ---------------- Mode and selection ----------------

    /** The "Add Rectangle" button. */
    method AddRectangleClicked()
      requires Valid()
      modifies this
      ensures Valid()
      ensures mode == Draw && selectedId == None
      ensures annotations == old(annotations) && newAnnotation == old(newAnnotation)
      ensures isDrawing == old(isDrawing) && startPoint == old(startPoint) && inFlight == old(inFlight)
    {
      selectedId := None;
      mode := Draw;
    }

    /** The "Select" button, which is only rendered while the list is non-empty. */
    method SelectClicked()
      requires Valid() && |annotations| > 0
      modifies this
      ensures Valid()
      ensures mode == Select && selectedId == old(selectedId)
      ensures annotations == old(annotations) && newAnnotation == old(newAnnotation)
      ensures isDrawing == old(isDrawing) && startPoint == old(startPoint) && inFlight == old(inFlight)
    {
      mode := Select;
    }

    /** A click on the rendered rectangle `annotations[k]`. */
    method ShapeClicked(k: nat)
      requires Valid() && k < |annotations|
      modifies this
      ensures Valid()
      ensures selectedId == if old(mode) == Select then Some(old(annotations)[k].id) else old(selectedId)
      ensures mode == old(mode) && annotations == old(annotations) && newAnnotation == old(newAnnotation)
      ensures isDrawing == old(isDrawing) && startPoint == old(startPoint) && inFlight == old(inFlight)
    {
      if mode == Select {
        selectedId := Some(annotations[k].id);
      }
    }

    // ---------------- Update ----------------

    /** handleChange: the local replacement by id, then the update call. */
    method HandleChange(attrs: Rect)
      requires Valid()
      modifies this
      ensures Valid()
      ensures annotations == ReplaceById(old(annotations), attrs)
      ensures inFlight == old(inFlight) + [UpdateCall(attrs.id, Some(attrs))]
      ensures mode == old(mode) && selectedId == old(selectedId) && newAnnotation == old(newAnnotation)
      ensures isDrawing == old(isDrawing) && startPoint == old(startPoint)
      ensures AllDrawable(old(annotations)) && attrs.width >= MIN_DRAW_SIZE && attrs.height >= MIN_DRAW_SIZE ==>
                AllDrawable(annotations)
    {
      ghost var before := annotations;
      annotations := ReplaceById(annotations, attrs);
      inFlight := inFlight + [UpdateCall(attrs.id, Some(attrs))];
      forall r | r in annotations
        ensures r == attrs || r in before
      {
        var k :| 0 <= k < |annotations| && annotations[k] == r;
      }
    }

    /** onDragEnd of `annotations[k]`, the node left at (x, y). */
    method DragEnd(k: nat, x: real, y: real)
      requires Valid() && k < |annotations|
      modifies this
      ensures Valid()
      ensures annotations == ReplaceById(old(annotations), Dragged(old(annotations)[k], x, y))
      ensures |annotations| == |old(annotations)| && annotations[k].x == x && annotations[k].y == y
      ensures annotations[k].width == old(annotations)[k].width
      ensures annotations[k].height == old(annotations)[k].height
      ensures inFlight == old(inFlight) + [UpdateCall(old(annotations)[k].id, Some(annotations[k]))]
      ensures mode == old(mode) && selectedId == old(selectedId) && newAnnotation == old(newAnnotation)
      ensures isDrawing == old(isDrawing) && startPoint == old(startPoint)
      ensures AllDrawable(old(annotations)) ==> AllDrawable(annotations)
    {
      HandleChange(Dragged(annotations[k], x, y));
    }

    /** onTransformEnd of `annotations[k]`: the node's scale is read and reset to
        1, and the scaled extents are committed. */
    method TransformEnd(k: nat, node: ShapeNode)
      requires Valid() && k < |annotations|
      modifies this, node
      ensures Valid()
      ensures node.scaleX == 1.0 && node.scaleY == 1.0 && node.x == old(node.x) && node.y == old(node.y)
      ensures annotations == ReplaceById(old(annotations),
                Transformed(old(annotations)[k], old(node.x), old(node.y), old(node.scaleX), old(node.scaleY)))
      ensures |annotations| == |old(annotations)|
      ensures annotations[k].width >= MIN_RESIZE_SIZE && annotations[k].height >= MIN_RESIZE_SIZE
      ensures inFlight == old(inFlight) + [UpdateCall(old(annotations)[k].id, Some(annotations[k]))]
      ensures mode == old(mode) && selectedId == old(selectedId) && newAnnotation == old(newAnnotation)
      ensures isDrawing == old(isDrawing) && startPoint == old(startPoint)
      ensures AllDrawable(old(annotations)) ==> AllDrawable(annotations)
    {
      var scaleX := node.scaleX;
      var scaleY := node.scaleY;
      node.scaleX := 1.0;
      node.scaleY := 1.0;
      HandleChange(Transformed(annotations[k], node.x, node.y, scaleX, scaleY));
    }

    // ---------------- Delete ----------------

    method HandleDelete()
      requires Valid()
      modifies this
      ensures Valid()
      ensures !Truthy(old(selectedId)) ==> annotations == old(annotations) && selectedId == old(selectedId) &&
                                           inFlight == old(inFlight)
      ensures Truthy(old(selectedId)) ==>
                selectedId == None && annotations == RemoveId(old(annotations), old(selectedId).value) &&
                inFlight == old(inFlight) + [DeleteCall(old(selectedId).value)]
      ensures mode == old(mode) && newAnnotation == old(newAnnotation)
      ensures isDrawing == old(isDrawing) && startPoint == old(startPoint)
      ensures AllDrawable(old(annotations)) ==> AllDrawable(annotations)
    {
      if !Truthy(selectedId) {
        return;
      }
      var id := selectedId.value;
      selectedId := None;
      annotations := RemoveId(annotations, id);
      inFlight := inFlight + [DeleteCall(id)];
    }

    // ---------------- Color ----------------

    method HandleColorChange(color: string)
      requires Valid()
      modifies this
      ensures Valid()
      ensures !Truthy(old(selectedId)) ==> annotations == old(annotations) && inFlight == old(inFlight)
      ensures Truthy(old(selectedId)) ==>
                Truthy(selectedId) &&
                annotations == Recolor(old(annotations), selectedId.value, color) &&
                inFlight == old(inFlight) + [UpdateCall(selectedId.value, FindById(annotations, selectedId.value))]
      ensures selectedId == old(selectedId) && mode == old(mode) && newAnnotation == old(newAnnotation)
      ensures isDrawing == old(isDrawing) && startPoint == old(startPoint)
      ensures AllDrawable(old(annotations)) ==> AllDrawable(annotations)
    {
      if !Truthy(selectedId) {
        return;
      }
      ghost var before := annotations;
      var updated := Recolor(annotations, selectedId.value, color);
      var updatedRect := FindById(updated, selectedId.value);
      annotations := updated;
      inFlight := inFlight + [UpdateCall(selectedId.value, updatedRect)];
      forall r | r in annotations
        ensures AllDrawable(before) ==> r.width >= MIN_DRAW_SIZE && r.height >= MIN_DRAW_SIZE
      {
        var k :| 0 <= k < |annotations| && annotations[k] == r;
        assert before[k] in before;
      }
    }

    // ---------------- Network outcomes ----------------

    /** The create call `inFlight[i]` returned the saved document. */
    method CreateSucceeded(i: nat, saved: Annotation)
      requires Valid() && i < |inFlight| && inFlight[i].CreateCall?
      modifies this
      ensures Valid()
      ensures annotations == MergeSaved(old(annotations), old(inFlight)[i].rect.id, saved)
      ensures inFlight == Without(old(inFlight), i)
      ensures mode == old(mode) && selectedId == old(selectedId) && newAnnotation == old(newAnnotation)
      ensures isDrawing == old(isDrawing) && startPoint == old(startPoint)
      ensures AllDrawable(old(annotations)) && saved.width >= MIN_DRAW_SIZE && saved.height >= MIN_DRAW_SIZE ==>
                AllDrawable(annotations)
    {
      ghost var before := annotations;
      var rect := inFlight[i].rect;
      annotations := MergeSaved(annotations, rect.id, saved);
      inFlight := Without(inFlight, i);
      forall r | r in annotations
        ensures AllDrawable(before) && saved.width >= MIN_DRAW_SIZE && saved.height >= MIN_DRAW_SIZE ==>
                  r.width >= MIN_DRAW_SIZE && r.height >= MIN_DRAW_SIZE
      {
        var k :| 0 <= k < |annotations| && annotations[k] == r;
        assert before[k] in before;
      }
    }

    /** The create call `inFlight[i]` was rejected: every record with its id goes. */
    method CreateFailed(i: nat)
      requires Valid() && i < |inFlight| && inFlight[i].CreateCall?
      modifies this
      ensures Valid()
      ensures annotations == RemoveId(old(annotations), old(inFlight)[i].rect.id)
      ensures inFlight == Without(old(inFlight), i)
      ensures mode == old(mode) && selectedId == old(selectedId) && newAnnotation == old(newAnnotation)
      ensures isDrawing == old(isDrawing) && startPoint == old(startPoint)
      ensures AllDrawable(old(annotations)) ==> AllDrawable(annotations)
    {
      var rect := inFlight[i].rect;
      annotations := RemoveId(annotations, rect.id);
      inFlight := Without(inFlight, i);
    }

    /** The initial fetch `inFlight[i]` returned the user's documents, which
        replace the list whatever has been drawn meanwhile. */
    method FetchSucceeded(i: nat, records: seq<Annotation>)
      requires Valid() && i < |inFlight| && inFlight[i].Fetch?
      modifies this
      ensures Valid()
      ensures annotations == FromServerAll(records)
      ensures inFlight == Without(old(inFlight), i)
      ensures mode == old(mode) && selectedId == old(selectedId) && newAnnotation == old(newAnnotation)
      ensures isDrawing == old(isDrawing) && startPoint == old(startPoint)
    {
      annotations := FromServerAll(records);
      inFlight := Without(inFlight, i);
    }

    /** Any other outcome (an update or delete settling either way, a failed
        fetch) is only logged. */
    method Settled(i: nat)
      requires Valid() && i < |inFlight| && !inFlight[i].CreateCall?
      modifies this
      ensures Valid()
      ensures inFlight == Without(old(inFlight), i)
      ensures annotations == old(annotations)
      ensures mode == old(mode) && selectedId == old(selectedId) && newAnnotation == old(newAnnotation)
      ensures isDrawing == old(isDrawing) && startPoint == old(startPoint)
    {
      inFlight := Without(inFlight, i);
    }
  }
}
