/**
 * The few JavaScript and browser values the upload client works with: an
 * optional value (`null` / present), the primitive values a JSON response can
 * put where a label is expected, JavaScript truthiness, `String.prototype.startsWith`
 * and the `File` objects a file picker or a drop hands over.
 */
module Js {

  datatype Option<+T> = None | Some(value: T)

  /** A primitive JavaScript value as decoded from JSON, plus `undefined` for a
      missing property. JSON numbers are never NaN, so strict equality (`===`)
      on these values is Dafny's `==` (and `-0 === 0` holds for reals too). */
  datatype Scalar =
    | Undefined
    | Null
    | Bool(b: bool)
    | Num(x: real)
    | Str(s: string)

  /** JavaScript truthiness: `undefined`, `null`, `false`, `0` and `""` are falsy. */
  predicate Truthy(v: Scalar)
  {
    match v
    case Undefined => false
    case Null => false
    case Bool(b) => b
    case Num(x) => x != 0.0
    case Str(s) => s != ""
  }

  /** `s.startsWith(prefix)`, character by character. */
  function StartsWith(s: string, prefix: string): (r: bool)
    ensures r <==> |prefix| <= |s| && s[..|prefix|] == prefix
  {
    if prefix == [] then true
    else if s == [] then false
    else
      assert |prefix| <= |s| ==> s[..|prefix|] == [s[0]] + s[1..][..|prefix| - 1];
      s[0] == prefix[0] && StartsWith(s[1..], prefix[1..])
  }

  /** A browser `File`: its name, its MIME type (`file.type`) and its size in bytes. */
  datatype File = File(name: string, mimeType: string, size: nat)

  /** The pending tasks of a queue with the k-th one taken out. */
  function RemoveAt<T>(q: seq<T>, k: nat): seq<T>
    requires k < |q|
  {
    q[..k] + q[k + 1..]
  }
}
