/** Values shared by the client forms and the server data sources: optional values, results with an
    error message, JavaScript truthiness of optional strings, string length in UTF-16 code units, and
    Array.prototype.find / findIndex. */
module Common {

  /** A MongoDB document id. */
  type ObjectId = nat

  /** A value that may be `undefined` / `null` in the source. */
  datatype Option<+T> = None | Some(value: T)

  /** The outcome of an operation that may throw; `Failure` carries the thrown error's message. */
  datatype Result<+T> = Success(value: T) | Failure(error: string)

  /** JavaScript truthiness of an optional string: `undefined`, `null` and `""` are falsy. */
  predicate Present(s: Option<string>)
  {
    s.Some? && s.value != ""
  }

  /** JavaScript truthiness of an optional boolean. */
  predicate IsTrue(b: Option<bool>)
  {
    b == Some(true)
  }

  /** A character JavaScript stores in one UTF-16 code unit (Basic Multilingual Plane). */
  predicate InBasicPlane(c: char)
  {
    c as int < 0x1_0000
  }

  /** JavaScript's `s.length`: the number of UTF-16 code units, where a character outside the Basic
      Multilingual Plane takes a surrogate pair. */
  function Utf16Length(s: string): (n: nat)
    ensures |s| <= n <= 2 * |s|
    ensures n == |s| <==> forall i :: 0 <= i < |s| ==> InBasicPlane(s[i])
    ensures n == 2 * |s| <==> forall i :: 0 <= i < |s| ==> !InBasicPlane(s[i])
  {
    if s == [] then 0
    else (if InBasicPlane(s[0]) then 1 else 2) + Utf16Length(s[1..])
  }

  /** `s.findIndex(p)`: the index of the first element satisfying `p`, or `None` (JavaScript's -1). */
  function FindIndex<T>(s: seq<T>, p: T -> bool): (r: Option<nat>)
    ensures r.Some? ==> r.value < |s| && p(s[r.value])
    ensures r.Some? ==> forall j :: 0 <= j < r.value ==> !p(s[j])
    ensures r.None? <==> forall i :: 0 <= i < |s| ==> !p(s[i])
  {
    if s == [] then None
    else if p(s[0]) then Some(0)
    else
      match FindIndex(s[1..], p)
      case None => None
      case Some(k) => Some(k + 1)
  }

  /** `s.find(p)`: the first element satisfying `p`, or `None` (JavaScript's `undefined`). */
  function Find<T>(s: seq<T>, p: T -> bool): (r: Option<T>)
    ensures r.Some? ==> r.value in s && p(r.value)
    ensures r.None? <==> forall x :: x in s ==> !p(x)
    ensures r.Some? ==> exists i :: 0 <= i < |s| && s[i] == r.value && forall j :: 0 <= j < i ==> !p(s[j])
  {
    match FindIndex(s, p)
    case None => None
    case Some(k) => Some(s[k])
  }
}
