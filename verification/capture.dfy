/** Fault capture: turning a function that may throw into one that returns
    a two-armed result instead. */
module Capture {

  /** The two-armed result: `Left` carries the failure, `Right` the value. */
  datatype Either<+L, +R> = Left(error: L) | Right(value: R)

  /** How a call into foreign code completes: it returns a value or throws one. */
  datatype Completion<+T, +E> = Returned(value: T) | Threw(error: E)

  /** `tryCatch(fn)`: a function that calls `fn` and reports a normal return
      as `Right` and a throw as `Left`. Its result type has no way to throw,
      so nothing thrown by `fn` escapes it. */
  function TryCatch<A(!new), T(==), E(==)>(fn: A -> Completion<T, E>): (g: A -> Either<E, T>)
    ensures forall a :: g(a).Right? <==> fn(a).Returned?
    ensures forall a :: fn(a).Returned? ==> g(a) == Right(fn(a).value)
    ensures forall a :: fn(a).Threw? ==> g(a) == Left(fn(a).error)
  {
    a => match fn(a)
         case Returned(v) => Right(v)
         case Threw(e) => Left(e)
  }

  /** The inverse view: re-throw a `Left`, return a `Right`. */
  function Rethrow<T, E>(e: Either<E, T>): Completion<T, E>
  {
    match e
    case Right(v) => Returned(v)
    case Left(err) => Threw(err)
  }

  /** Capturing loses nothing: re-throwing the captured result gives back
      exactly how the original call completed. */
  lemma TryCatchRoundTrip<A(!new), T, E>(fn: A -> Completion<T, E>, a: A)
    ensures Rethrow(TryCatch(fn)(a)) == fn(a)
  {
  }
}
