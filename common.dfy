/**
 * Values that cross the boundaries of the application: JSON request fields as
 * JavaScript sees them, thrown errors as a `catch` block sees them, and the
 * responses a route handler gives back to Next.js.
 */
module Common {

  datatype Option<+T> = None | Some(value: T)

  /** The outcome of a call into an external service: a value, or the error it reported. */
  datatype Outcome<+T> = Done(value: T) | Failed(error: Thrown)

  /**
   * A request field after `JSON.parse` and destructuring. `Missing` is a field the
   * body does not have (`undefined`). Arrays and objects carry no payload: no
   * handler looks inside them. JSON has no NaN, so a number is falsy only when zero.
   */
  datatype Value = Missing | Null | Bool(b: bool) | Num(x: real) | Str(s: string) | Arr | Obj

  /** JavaScript truthiness, `Boolean(v)`. */
  function Truthy(v: Value): (t: bool)
    ensures v.Missing? || v.Null? ==> !t
    ensures v.Arr? || v.Obj? ==> t
  {
    match v
    case Missing => false
    case Null => false
    case Bool(b) => b
    case Num(x) => x != 0.0
    case Str(s) => s != ""
    case Arr => true
    case Obj => true
  }

  /** `v || fallback`: the value itself when truthy, otherwise the fallback. */
  function OrElse(v: Value, fallback: Value): (r: Value)
    ensures Truthy(r) <==> Truthy(v) || Truthy(fallback)
    ensures r == v || r == fallback
  {
    if Truthy(v) then v else fallback
  }

  /** The message of an `Error` instance, or the value thrown when it is not one. */
  datatype Thrown = ErrorInstance(message: string) | OtherValue

  const UnknownError := "An unknown error occurred"

  /** `error instanceof Error ? error.message : "An unknown error occurred"`. */
  function CaughtMessage(e: Thrown): (m: string)
    ensures e.ErrorInstance? ==> m == e.message
    ensures e.OtherValue? ==> m == UnknownError && m != ""
  {
    match e
    case ErrorInstance(message) => message
    case OtherValue => UnknownError
  }

  /** The identity the server reads from the session cookie. */
  type UserId = string

  /**
   * A route handler's answer: a JSON response with a status code, or an exception
   * that escaped the handler (Next.js then answers 500 without a body of the route's choosing).
   */
  datatype Response<+B> = Json(status: nat, body: B) | Unhandled

  /** A hospital as the nearest-hospital query returns it and the hospital card shows it. */
  datatype NearbyHospital = NearbyHospital(
    id: int, name: string, address: string, phone: string, website: string, distanceMeters: real)
}
