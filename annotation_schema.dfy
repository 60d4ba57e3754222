/** The stored annotation document (server/models/Annotation.js) and the parts of
    a request body that the annotation routes read. */
module AnnotationSchema {
  import opened Common

  /** The owner's identity, an opaque token supplied by the authentication layer. */
  type UserId = string

  const DEFAULT_FILL := "transparent"
  const DEFAULT_STROKE := "red"

  /** A stored document. `fill` is `None` when the path is unset: a PUT whose body
      omits `fill` assigns `undefined` to it. Mongo's own `_id` and the
      timestamps are not modelled. */
  datatype Annotation = Annotation(
    x: real, y: real, width: real, height: real,
    fill: Option<string>,
    stroke: string,
    id: string,
    userId: UserId)

  /** The request body fields the routes may read. Bodies missing one of the
      required numeric fields or `id` fail schema validation (a 500 reply), which
      is outside this model, so those fields are mandatory here. */
  datatype Payload = Payload(
    id: string,
    x: real, y: real, width: real, height: real,
    fill: Option<string>,
    stroke: Option<string>)

  /** The document `new Annotation({x, y, width, height, id, fill, userId})` builds:
      only the listed body fields are taken, the schema supplies the defaults. */
  function NewDocument(body: Payload, owner: UserId): (a: Annotation)
    ensures a.id == body.id && a.userId == owner
    ensures a.x == body.x && a.y == body.y && a.width == body.width && a.height == body.height
    ensures a.fill == Some(body.fill.GetOr(DEFAULT_FILL))
    ensures a.stroke == DEFAULT_STROKE
  {
    Annotation(body.x, body.y, body.width, body.height,
               Some(body.fill.GetOr(DEFAULT_FILL)), DEFAULT_STROKE, body.id, owner)
  }

  /** What the PUT handler assigns before saving: geometry and fill from the body,
      nothing else. */
  function Overwrite(a: Annotation, body: Payload): (r: Annotation)
    ensures r.x == body.x && r.y == body.y && r.width == body.width && r.height == body.height
    ensures r.fill == body.fill
    ensures r.stroke == a.stroke && r.id == a.id && r.userId == a.userId
  {
    a.(x := body.x, y := body.y, width := body.width, height := body.height, fill := body.fill)
  }
}
