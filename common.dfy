// Values shared by every part of the model: optional values, the exceptions
// the Kotlin code throws (as values), and the `Position` data class.

module Common {

  datatype Option<T> = None | Some(value: T)

  /** The kinds of exception the source throws, carried as values. */
  datatype Error =
    | LogParsing(message: string)   // KSLLogParsingException
    | Runtime(message: string)      // RuntimeException and Kotlin's error(...)
    | IndexOutOfBounds              // reading a token past the end of a list
    | NullPointer                   // `!!` applied to a missing registry entry
    | NumberFormat(text: string)    // toInt()/toLong() on a non-number
    | IllegalArgument(message: string)

  datatype Result<T> = Ok(value: T) | Err(error: Error)
  {
    /** Failure members, so that `:-` propagates an exception. */
    predicate IsFailure() { Err? }
    function PropagateFailure<U>(): Result<U> requires Err? { Err(error) }
    function Extract(): T requires Ok? { value }
  }

  /** The outcome of an operation that returns nothing but may throw. */
  datatype Outcome = Done | Failed(error: Error)

  /** util/SerializableClasses.kt: Position(x, y), with doubles read as reals. */
  datatype Position = Position(x: real, y: real)
  {
    function Plus(o: Position): Position { Position(x + o.x, y + o.y) }
    function Minus(o: Position): Position { Position(x - o.x, y - o.y) }
    function Times(k: real): Position { Position(x * k, y * k) }
  }

  const Origin: Position := Position(0.0, 0.0)

  /** `(start + end) * 0.5`, the point a queue is drawn around. */
  function Midpoint(a: Position, b: Position): Position
  {
    a.Plus(b).Times(0.5)
  }

  /** The midpoint is as far from one end as from the other. */
  lemma MidpointIsEquidistant(a: Position, b: Position)
    ensures Midpoint(a, b).Minus(a) == b.Minus(Midpoint(a, b))
  {
  }

  /** Points opposite each other about the origin have it as midpoint. */
  lemma MidpointOfOpposites(a: Position, b: Position)
    requires a.x + b.x == 0.0 && a.y + b.y == 0.0
    ensures Midpoint(a, b) == Origin
  {
  }

  predicate NoDuplicates<T(==)>(s: seq<T>)
  {
    forall i, j :: 0 <= i < j < |s| ==> s[i] != s[j]
  }
}
