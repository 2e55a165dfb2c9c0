/** Values shared by every part of the dashboard backend: optional JSON fields,
    route replies and the outcome of an authorization middleware. */
module Common {

  /** A JSON value that may be absent: `undefined` and `null` are both None. */
  datatype Option<T> = None | Some(value: T) {
    function GetOr(default: T): T {
      match this
      case Some(v) => v
      case None => default
    }
  }

  /** JavaScript truthiness of a string field: `!x` holds for undefined, null and "". */
  predicate Truthy(s: Option<string>) {
    s.Some? && s.value != ""
  }

  /** No value occurs twice. */
  predicate Distinct<T(==)>(s: seq<T>) {
    forall i, j :: 0 <= i < j < |s| ==> s[i] != s[j]
  }

  /** Appending a value that is not yet present keeps a sequence free of duplicates. */
  lemma AppendKeepsDistinct<T>(s: seq<T>, x: T)
    requires Distinct(s) && x !in s
    ensures Distinct(s + [x])
  {
    var t := s + [x];
    forall i, j | 0 <= i < j < |t|
      ensures t[i] != t[j]
    {
      if j == |s| {
        assert t[i] == s[i];
      }
    }
  }

  /** The JSON reply of a route: the success body, or an HTTP status with `{ error }`. */
  datatype Reply<T> = Ok(body: T) | Fail(status: int, error: string) {
    /** The same reply with the body replaced by `{ success: true }`. */
    function Ack(): Reply<()> {
      match this
      case Ok(_) => Ok(())
      case Fail(s, e) => Fail(s, e)
    }
  }

  /** What a middleware decides: call `next()`, or answer with a status and `{ error }`. */
  datatype Gate = Pass | Deny(status: int, error: string) {
    function AsReply<T>(): Reply<T>
      requires Deny?
    {
      Fail(status, error)
    }
  }
}
