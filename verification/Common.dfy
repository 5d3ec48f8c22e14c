/** Result types, instants and the text checks shared by every part of the model. */
module Common {

  datatype Option<+T> = None | Some(value: T)

  datatype Result<+T, +E> = Success(value: T) | Failure(error: E) {
    predicate IsFailure() { Failure? }

    function PropagateFailure<U>(): (r: Result<U, E>)
      requires Failure?
    {
      Failure(error)
    }

    function Extract(): T
      requires Success?
    {
      value
    }
  }

  /** Nanoseconds on the service's time line; the zero value of Go's time.Time is 0. */
  type Time = int

  const ZERO_TIME: Time := 0
  const MILLISECOND: int := 1_000_000
  const SECOND: int := 1_000_000_000
  const DAY: int := 24 * 3600 * SECOND

  const MAX_UINT32: int := 0xFFFF_FFFF
  const MAX_INT32: int := 0x7FFF_FFFF
  const MAX_INT64: int := 0x7FFF_FFFF_FFFF_FFFF

  /** The white space that Go's strings.TrimSpace removes. */
  predicate IsSpace(c: char) {
    || '\t' <= c <= '\r' || c == ' '
    || c == '\U{85}' || c == '\U{A0}' || c == '\U{1680}' || '\U{2000}' <= c <= '\U{200A}'
    || c == '\U{2028}' || c == '\U{2029}' || c == '\U{202F}' || c == '\U{205F}' || c == '\U{3000}'
  }

  /** Nothing is left of s once surrounding white space is trimmed. */
  predicate Blank(s: string) {
    forall i :: 0 <= i < |s| ==> IsSpace(s[i])
  }

  /** Nothing is left of s once PostgreSQL's btrim has removed the surrounding space characters, and only those. */
  predicate OnlySpaces(s: string) {
    forall i :: 0 <= i < |s| ==> s[i] == ' '
  }

  /** s is not blank and neither starts nor ends with white space. */
  predicate Trimmed(s: string) {
    |s| > 0 && !IsSpace(s[0]) && !IsSpace(s[|s| - 1])
  }

  predicate StableChar(c: char) {
    'A' <= c <= 'Z' || 'a' <= c <= 'z' || '0' <= c <= '9' || c == '.' || c == '_' || c == ':' || c == '-'
  }

  /** A stable identifier of 1..128 bytes, as error codes must be. */
  predicate StableCode(s: string) {
    0 < |s| <= 128 && forall i :: 0 <= i < |s| ==> StableChar(s[i])
  }

  predicate NoRepeats<T(==)>(xs: seq<T>) {
    forall i, j :: 0 <= i < j < |xs| ==> xs[i] != xs[j]
  }
}
