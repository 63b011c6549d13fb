/** Failure-carrying wrappers shared by every repository module. */
module Common {

  /** A value that may be absent: JavaScript's `null` / `undefined`. */
  datatype Option<T> = None | Some(value: T)

  /** Why a repository call failed.  NotFound stands for both the explicit
      `throw new Error(...)` of the source and Prisma's "record to update /
      delete does not exist"; MissingReference for a foreign key that names
      no row; Conflict for a row that would break a unique constraint. */
  datatype Failure = NotFound(what: string) | MissingReference(what: string) | Conflict(what: string)

  /** JavaScript truthiness of an optional number: present and not 0. */
  predicate Given(n: Option<int>)
  {
    n.Some? && n.value != 0
  }

  datatype Result<T> = Ok(value: T) | Err(failure: Failure)

  /** A JavaScript number with no fractional part. */
  predicate Whole(x: real) { x == x.Floor as real }

  /** An optional number truncated to an integer (exact when it is whole). */
  function WholeOf(x: Option<real>): (r: Option<int>)
    ensures r.Some? <==> x.Some?
    ensures x.Some? && Whole(x.value) ==> r.value as real == x.value
  {
    if x.Some? then Some(x.value.Floor) else None
  }
}
