/** The pure expressions of the canvas component (client/src/components/CanvasBoard.jsx):
    the client-side record, the live-rectangle normalisation, and the `map`/`filter`
    updates the handlers and network continuations apply to the annotation list. */
module CanvasShapes {
  import opened Common
  import opened AnnotationSchema

  datatype Mode = Draw | Select

  datatype Point = Point(x: real, y: real)

  /** A record of the client's list. `name` is the client-only label; `userId` is
      the owner field the server adds (absent until a create is confirmed);
      `fill` is `None` where the server's document has it unset. */
  datatype Rect = Rect(
    id: string,
    name: Option<string>,
    x: real, y: real, width: real, height: real,
    fill: Option<string>,
    stroke: string,
    userId: Option<UserId>)

  /** The box the resize manipulator proposes and keeps. */
  datatype Box = Box(x: real, y: real, width: real, height: real, rotation: real)

  const MIN_DRAW_SIZE: real := 5.0
  const MIN_RESIZE_SIZE: real := 20.0
  const PREVIEW_FILL := "rgba(99,102,241,0.25)"
  const PREVIEW_STROKE := "#6366f1"
  const FILL_ALPHA := "55"
  const ID_PREFIX := "rect-"

  function Min(a: real, b: real): real { if a <= b then a else b }
  function Max(a: real, b: real): real { if a >= b then a else b }
  function Abs(a: real): real { if a >= 0.0 then a else -a }

  /** The 1x1 preview a press puts at the pointer, labelled by the list size. */
  function Preview(now: nat, count: nat, pos: Point): (r: Rect)
    ensures r.x == pos.x && r.y == pos.y && r.width == 1.0 && r.height == 1.0
    ensures r.id == ID_PREFIX + NatToString(now)
    ensures r.name == Some("Rect " + NatToString(count + 1))
    ensures r.userId.None?
  {
    Rect(ID_PREFIX + NatToString(now), Some("Rect " + NatToString(count + 1)),
         pos.x, pos.y, 1.0, 1.0, Some(PREVIEW_FILL), PREVIEW_STROKE, None)
  }

  /** The live rectangle between the anchor and the pointer: its two vertical
      edges are exactly the anchor's and the pointer's x, its two horizontal
      edges their y, so the extents are non-negative whichever way the gesture
      goes. Everything but the geometry is the preview's. */
  function Span(prev: Rect, start: Point, pos: Point): (r: Rect)
    ensures r.width >= 0.0 && r.height >= 0.0
    ensures {r.x, r.x + r.width} == {start.x, pos.x}
    ensures {r.y, r.y + r.height} == {start.y, pos.y}
    ensures r.id == prev.id && r.name == prev.name && r.fill == prev.fill
    ensures r.stroke == prev.stroke && r.userId == prev.userId
  {
    prev.(x := Min(start.x, pos.x), y := Min(start.y, pos.y),
          width := Abs(pos.x - start.x), height := Abs(pos.y - start.y))
  }

  /** The spanned rectangle does not depend on which corner is the anchor. */
  lemma SpanSymmetric(prev: Rect, a: Point, b: Point)
    ensures Span(prev, a, b) == Span(prev, b, a)
  {
  }

  /** The release test: an extent below the threshold marks an accidental click. */
  predicate TooSmall(r: Rect) {
    r.width < MIN_DRAW_SIZE || r.height < MIN_DRAW_SIZE
  }

  /** A press released without moving is always discarded. */
  lemma PreviewIsTooSmall(now: nat, count: nat, pos: Point)
    ensures TooSmall(Preview(now, count, pos))
  {
  }

  predicate HasId(s: seq<Rect>, id: string) {
    exists k :: 0 <= k < |s| && s[k].id == id
  }

  /** `{...r, ...saved, name: r.name}`: the server's fields win, the label stays. */
  function Merge(r: Rect, saved: Annotation): (m: Rect)
    ensures m.id == saved.id && m.name == r.name && m.userId == Some(saved.userId)
    ensures m.x == saved.x && m.y == saved.y && m.width == saved.width && m.height == saved.height
    ensures m.stroke == saved.stroke
    ensures m.fill == (if saved.fill.Some? then saved.fill else r.fill)
  {
    Rect(saved.id, r.name, saved.x, saved.y, saved.width, saved.height,
         if saved.fill.Some? then saved.fill else r.fill, saved.stroke, Some(saved.userId))
  }

  /** A record as the initial fetch delivers it: no label. */
  function FromServer(a: Annotation): Rect {
    Rect(a.id, None, a.x, a.y, a.width, a.height, a.fill, a.stroke, Some(a.userId))
  }

  function FromServerAll(s: seq<Annotation>): (r: seq<Rect>)
    ensures |r| == |s|
    ensures forall k :: 0 <= k < |s| ==> r[k] == FromServer(s[k])
  {
    if s == [] then [] else [FromServer(s[0])] + FromServerAll(s[1..])
  }

  /** The create-success continuation: every record carrying the sent id is
      merged with the saved document; order, length and all other records stay. */
  function MergeSaved(s: seq<Rect>, id: string, saved: Annotation): (r: seq<Rect>)
    ensures |r| == |s|
    ensures forall k :: 0 <= k < |s| && s[k].id == id ==> r[k] == Merge(s[k], saved)
    ensures forall k :: 0 <= k < |s| && s[k].id != id ==> r[k] == s[k]
    ensures !HasId(s, id) ==> r == s
  {
    if s == [] then []
    else [if s[0].id == id then Merge(s[0], saved) else s[0]] + MergeSaved(s[1..], id, saved)
  }

  /** The rollback and delete `filter`: exactly the records without the id
      survive, in their order. */
  function RemoveId(s: seq<Rect>, id: string): (r: seq<Rect>)
    ensures |r| <= |s|
    ensures forall x :: x in r <==> x in s && x.id != id
    ensures !HasId(r, id)
    ensures !HasId(s, id) ==> r == s
  {
    if s == [] then []
    else (if s[0].id == id then [] else [s[0]]) + RemoveId(s[1..], id)
  }

  /** handleChange's `map`: every record with the new attributes' id becomes them. */
  function ReplaceById(s: seq<Rect>, attrs: Rect): (r: seq<Rect>)
    ensures |r| == |s|
    ensures forall k :: 0 <= k < |s| && s[k].id == attrs.id ==> r[k] == attrs
    ensures forall k :: 0 <= k < |s| && s[k].id != attrs.id ==> r[k] == s[k]
    ensures !HasId(s, attrs.id) ==> r == s
  {
    if s == [] then []
    else [if s[0].id == attrs.id then attrs else s[0]] + ReplaceById(s[1..], attrs)
  }

  function Recolored(r: Rect, color: string): Rect {
    r.(fill := Some(color + FILL_ALPHA), stroke := color)
  }

  /** handleColorChange's `map`: records with the id get stroke `color` and
      fill `color + "55"`, nothing else about any record changes. */
  function Recolor(s: seq<Rect>, id: string, color: string): (r: seq<Rect>)
    ensures |r| == |s|
    ensures forall k :: 0 <= k < |s| && s[k].id == id ==>
              r[k].stroke == color && r[k].fill == Some(color + FILL_ALPHA) &&
              r[k] == s[k].(stroke := color, fill := Some(color + FILL_ALPHA))
    ensures forall k :: 0 <= k < |s| && s[k].id != id ==> r[k] == s[k]
    ensures !HasId(s, id) ==> r == s
  {
    if s == [] then []
    else [if s[0].id == id then Recolored(s[0], color) else s[0]] + Recolor(s[1..], id, color)
  }

  /** `find`: the first record with the id, if there is one. */
  function FindById(s: seq<Rect>, id: string): (r: Option<Rect>)
    ensures r.None? <==> !HasId(s, id)
    ensures r.Some? ==> exists k :: 0 <= k < |s| && s[k] == r.value && s[k].id == id && !HasId(s[..k], id)
  {
    if s == [] then None
    else if s[0].id == id then
      assert s[..0] == [];
      Some(s[0])
    else
      var r := FindById(s[1..], id);
      assert HasId(s[1..], id) <==> HasId(s, id) by {
        if HasId(s[1..], id) {
          var k :| 0 <= k < |s| - 1 && s[1..][k].id == id;
          assert s[k + 1].id == id;
        }
        if HasId(s, id) {
          var k :| 0 <= k < |s| && s[k].id == id;
          assert s[1..][k - 1].id == id;
        }
      }
      if r.None? then r
      else
        var k :| 0 <= k < |s| - 1 && s[1..][k] == r.value && s[1..][k].id == id && !HasId(s[1..][..k], id);
        assert s[..k + 1] == [s[0]] + s[1..][..k];
        assert s[k + 1] == r.value;
        r
  }

  /** The Transformer's boundBoxFunc: a proposal with an extent below 20 is
      refused and the previous box kept. */
  function BoundBox(oldBox: Box, newBox: Box): (r: Box)
    ensures r == oldBox || r == newBox
    ensures newBox.width < MIN_RESIZE_SIZE || newBox.height < MIN_RESIZE_SIZE ==> r == oldBox
    ensures newBox.width >= MIN_RESIZE_SIZE && newBox.height >= MIN_RESIZE_SIZE ==> r == newBox
    ensures oldBox.width >= MIN_RESIZE_SIZE && oldBox.height >= MIN_RESIZE_SIZE ==>
              r.width >= MIN_RESIZE_SIZE && r.height >= MIN_RESIZE_SIZE
  {
    if newBox.width < MIN_RESIZE_SIZE || newBox.height < MIN_RESIZE_SIZE then oldBox else newBox
  }

  /** The box after the manipulator has offered each proposal of one resize, in turn. */
  function Track(box: Box, proposals: seq<Box>): Box
    decreases |proposals|
  {
    if proposals == [] then box else Track(BoundBox(box, proposals[0]), proposals[1..])
  }

  /** However a resize runs, starting from a box at least 20 wide and high it
      never leaves one; and when every proposal is too small, nothing moves. */
  lemma {:induction false} TrackKeepsMinimum(box: Box, proposals: seq<Box>)
    requires box.width >= MIN_RESIZE_SIZE && box.height >= MIN_RESIZE_SIZE
    ensures Track(box, proposals).width >= MIN_RESIZE_SIZE
    ensures Track(box, proposals).height >= MIN_RESIZE_SIZE
    decreases |proposals|
  {
    if proposals != [] {
      TrackKeepsMinimum(BoundBox(box, proposals[0]), proposals[1..]);
    }
  }

  lemma {:induction false} TrackRejectsAllSmall(box: Box, proposals: seq<Box>)
    requires forall k :: 0 <= k < |proposals| ==>
               proposals[k].width < MIN_RESIZE_SIZE || proposals[k].height < MIN_RESIZE_SIZE
    ensures Track(box, proposals) == box
    decreases |proposals|
  {
    if proposals != [] {
      TrackRejectsAllSmall(box, proposals[1..]);
    }
  }

  /** onDragEnd's attributes: the shape moved to the node's position, nothing else. */
  function Dragged(shape: Rect, x: real, y: real): (r: Rect)
    ensures r.x == x && r.y == y
    ensures r.(x := shape.x, y := shape.y) == shape
  {
    shape.(x := x, y := y)
  }

  /** onTransformEnd's attributes: the node's position, and each extent the
      scaled original floored at 20 (the smallest value that is at least both). */
  function Transformed(shape: Rect, x: real, y: real, scaleX: real, scaleY: real): (r: Rect)
    ensures r.width >= MIN_RESIZE_SIZE && r.height >= MIN_RESIZE_SIZE
    ensures r.width >= shape.width * scaleX && r.height >= shape.height * scaleY
    ensures r.width == MIN_RESIZE_SIZE || r.width == shape.width * scaleX
    ensures r.height == MIN_RESIZE_SIZE || r.height == shape.height * scaleY
    ensures r.x == x && r.y == y
    ensures r.(x := shape.x, y := shape.y, width := shape.width, height := shape.height) == shape
  {
    shape.(x := x, y := y,
           width := Max(MIN_RESIZE_SIZE, shape.width * scaleX),
           height := Max(MIN_RESIZE_SIZE, shape.height * scaleY))
  }

  // ---------------- Reconciliation lemmas ----------------

  lemma {:induction false} RemoveIdConcat(s: seq<Rect>, t: seq<Rect>, id: string)
    ensures RemoveId(s + t, id) == RemoveId(s, id) + RemoveId(t, id)
  {
    if s == [] {
      assert s + t == t;
    } else {
      assert (s + t)[1..] == s[1..] + t;
      RemoveIdConcat(s[1..], t, id);
    }
  }

  /** A failed create restores the pre-gesture list when the id was fresh. */
  lemma RollbackRestores(s: seq<Rect>, rect: Rect)
    requires !HasId(s, rect.id)
    ensures RemoveId(s + [rect], rect.id) == s
  {
    RemoveIdConcat(s, [rect], rect.id);
    assert RemoveId([rect], rect.id) == [];
  }

  /** Two confirmed creates with distinct ids (each echoed by the server) give
      the same list whichever response arrives first. */
  lemma MergesCommute(s: seq<Rect>, a: string, sa: Annotation, b: string, sb: Annotation)
    requires a != b && sa.id == a && sb.id == b
    ensures MergeSaved(MergeSaved(s, a, sa), b, sb) == MergeSaved(MergeSaved(s, b, sb), a, sa)
  {
  }

  /** A confirmed create and a rolled-back create with distinct ids commute. */
  lemma {:induction false} MergeRollbackCommute(s: seq<Rect>, a: string, sa: Annotation, b: string)
    requires a != b && sa.id == a
    ensures RemoveId(MergeSaved(s, a, sa), b) == MergeSaved(RemoveId(s, b), a, sa)
  {
    if s != [] {
      var h, t := s[0], s[1..];
      var m := MergeSaved(s, a, sa);
      assert m[0] == (if h.id == a then Merge(h, sa) else h);
      assert m[1..] == MergeSaved(t, a, sa);
      assert m[0].id == b <==> h.id == b;
      MergeRollbackCommute(t, a, sa, b);
      if h.id != b {
        var rest := RemoveId(t, b);
        assert RemoveId(s, b) == [h] + rest;
        assert ([h] + rest)[1..] == rest;
      } else {
        assert RemoveId(s, b) == RemoveId(t, b);
      }
    }
  }

  /** A record deleted before its create is confirmed stays deleted: the merge
      finds nothing and changes nothing. */
  lemma DeleteThenConfirmStaysDeleted(s: seq<Rect>, id: string, saved: Annotation)
    ensures MergeSaved(RemoveId(s, id), id, saved) == RemoveId(s, id)
    ensures RemoveId(RemoveId(s, id), id) == RemoveId(s, id)
  {
  }

  /** An edit made while the create is still in flight is overwritten by the
      confirmation: the geometry becomes the saved document's again. */
  lemma EditBeforeConfirmIsOverwritten(s: seq<Rect>, k: nat, attrs: Rect, saved: Annotation)
    requires k < |s| && s[k].id == attrs.id
    ensures var r := MergeSaved(ReplaceById(s, attrs), attrs.id, saved);
            r[k].x == saved.x && r[k].y == saved.y &&
            r[k].width == saved.width && r[k].height == saved.height &&
            r[k].name == attrs.name
  {
  }
}
