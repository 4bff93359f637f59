/**
 * What the client can observe of one call to the prediction endpoint: either
 * `fetch` rejects, or a response arrives with its `ok` flag and a body that
 * `response.json()` decodes (or fails to decode).
 */
module Wire {
  import opened Js

  /** One element of the `closeness` array. Reading `d.class` on a `null`
      element throws; any other element yields its `class` and `score`
      properties (`undefined` when absent, as for a number or a string). */
  datatype Entry =
    | NullEntry
    | Item(cls: Scalar, score: Scalar)

  /** The decoded body. `Unparseable`: `response.json()` rejects. `NullBody`:
      the JSON text is `null`, so reading a property throws. `Record`: any
      other value, with its `prediction` property and, when its `closeness`
      property is an array, that array (`None` for a missing or non-array
      `closeness`, whose `.map` throws). A primitive body is a `Record` whose
      properties are all `undefined`. */
  datatype Body =
    | Unparseable
    | NullBody
    | Record(prediction: Scalar, closeness: Option<seq<Entry>>)

  /** The outcome of `fetch`: a transport error, or an HTTP response. */
  datatype Response =
    | NetworkError
    | Http(ok: bool, body: Body)
}
