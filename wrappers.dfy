/** Optional values and the outcome of a read from the operating system. */
module Wrappers {

  /** A nullable value: Kotlin's `T?`. */
  datatype Option<+T> = None | Some(value: T)

  /** What one read from an Android service produced: its value, or the exception it threw.
      A `SecurityException` is kept apart from every other exception because the plugin
      catches the two differently. `msg` is the exception's message, which may be null. */
  datatype Outcome<+T> = Ok(value: T) | SecEx(msg: Option<string>) | OtherEx(msg: Option<string>)
  {
    predicate IsFailure() {
      !Ok?
    }

    /** An exception propagates unchanged: same kind, same message. */
    function PropagateFailure<U>(): (r: Outcome<U>)
      requires !Ok?
      ensures SameFailure(this, r)
    {
      if SecEx? then SecEx(msg) else OtherEx(msg)
    }

    function Extract(): T
      requires Ok?
    {
      value
    }
  }

  /** Both outcomes are the same exception (kind and message), whatever their value types. */
  predicate SameFailure<A, B>(a: Outcome<A>, b: Outcome<B>) {
    || (a.SecEx? && b.SecEx? && a.msg == b.msg)
    || (a.OtherEx? && b.OtherEx? && a.msg == b.msg)
  }

  /** `try { read } catch (e: SecurityException) { null }`: a security exception becomes
      null, every other exception still propagates. */
  function CatchSecurity<T>(o: Outcome<Option<T>>): (r: Outcome<Option<T>>)
    ensures o.SecEx? ==> r == Ok(None)
    ensures !o.SecEx? ==> r == o
  {
    if o.SecEx? then Ok(None) else o
  }

  /** `try { read } catch (e: Exception) { fallback }`: no exception escapes. */
  function CatchAll<T>(o: Outcome<T>, fallback: T): (r: T)
    ensures o.Ok? ==> r == o.value
    ensures !o.Ok? ==> r == fallback
  {
    if o.Ok? then o.value else fallback
  }
}
