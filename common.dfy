/** Shared vocabulary of the services: optional values, typed errors, record
    identities, timestamps, and the two JavaScript idioms the services lean on
    (`String.prototype.toUpperCase` and truthiness of optional strings). */
module Common {

  datatype Option<T> = None | Some(value: T) {
    /** The value, or `default` when absent: JavaScript's `x ?? default`. */
    function GetOr(default: T): T {
      match this
      case Some(v) => v
      case None => default
    }

    /** This value when present, else `other`. */
    function Or(other: Option<T>): Option<T> {
      if Some? then this else other
    }
  }

  /** The HTTP exceptions the services throw. */
  datatype Error =
    | NotFound(message: string)
    | Conflict(message: string)
    | BadRequest(message: string)
    | Internal(message: string)

  datatype Result<T> = Ok(value: T) | Err(error: Error)

  /** Primary keys. The store draws them from a counter, which stands for the
      database's uuid generator: a new key differs from every key in use. */
  type Id = nat

  /** The part of a product record the core reads: its identity and unit of measure. */
  datatype Product = Product(id: Id, unitOfMeasure: string)

  /** Points in time, as produced by `new Date()` or a parsed date string. */
  type Timestamp = int

  /** `toUpperCase` on one character, restricted to the ASCII letters. */
  function UpperChar(c: char): (u: char)
    ensures 'a' <= c <= 'z' ==> 'A' <= u <= 'Z'
    ensures !('a' <= c <= 'z') ==> u == c
    ensures !('a' <= u <= 'z')
  {
    if 'a' <= c <= 'z' then (c as int - 'a' as int + 'A' as int) as char else c
  }

  /** `toUpperCase` on a string. */
  function Upper(s: string): (r: string)
    ensures |r| == |s|
    ensures forall i :: 0 <= i < |s| ==> r[i] == UpperChar(s[i])
  {
    if s == [] then [] else [UpperChar(s[0])] + Upper(s[1..])
  }

  /** A string is in canonical (upper) case when no character is a lower-case letter. */
  predicate IsUpper(s: string) {
    forall i :: 0 <= i < |s| ==> !('a' <= s[i] <= 'z')
  }

  /** Upper-casing yields a canonical string, and a canonical string is its own
      upper-cased form; so upper-casing twice is upper-casing once. */
  lemma {:induction false} UpperCanonical(s: string)
    ensures IsUpper(Upper(s))
    ensures IsUpper(s) ==> Upper(s) == s
    ensures Upper(Upper(s)) == Upper(s)
  {
    if s != [] {
      UpperCanonical(s[1..]);
      assert Upper(s) == [UpperChar(s[0])] + Upper(s[1..]);
      assert Upper(Upper(s)) == [UpperChar(UpperChar(s[0]))] + Upper(Upper(s[1..]));
    }
  }

  /** JavaScript truthiness of an optional string: present and not empty. */
  predicate Truthy(s: Option<string>) {
    s.Some? && s.value != ""
  }
}
