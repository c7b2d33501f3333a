/** How the plugin's operations end: with a value, with a returned Go
    `error`, or with a panic. */
module Errors {
  import Base
  import opened Genkit

  /** The errors the plugin returns, one per `fmt.Errorf` site. */
  datatype Error =
    | UnknownRole(role: string)
    | UnknownPartType(part: Part)
    | UnknownOutputFormat(format: string)
    | NotToolResponse(part: Part)
    | UnknownModel(name: string)
    | InitFailed(message: string)

  /** A Go `(value, error)` pair in which exactly one side matters. */
  datatype Result<+T> = Ok(value: T) | Err(error: Error)

  /** A call that either returns or panics with a message. */
  datatype Outcome<+T> = Done(value: T) | Panicked(reason: string)

  /** Puts `acc` in front of a successful list; an error is kept as is. */
  function Prepend<T>(acc: seq<T>, r: Result<seq<T>>): (p: Result<seq<T>>)
    ensures p.Ok? <==> r.Ok?
    ensures p.Ok? ==> p.value == acc + r.value
    ensures p.Err? ==> p.error == r.error
    ensures acc == [] ==> p == r
  {
    assert r.Ok? ==> [] + r.value == r.value;
    match r
    case Ok(v) => Ok(acc + v)
    case Err(e) => Err(e)
  }

  /** Puts `acc` in front of a completed list; a panic is kept as is. */
  function PrependDone<T>(acc: seq<T>, r: Outcome<seq<T>>): (p: Outcome<seq<T>>)
    ensures p.Done? <==> r.Done?
    ensures p.Done? ==> p.value == acc + r.value
    ensures p.Panicked? ==> p.reason == r.reason
    ensures acc == [] ==> p == r
  {
    assert r.Done? ==> [] + r.value == r.value;
    match r
    case Done(v) => Done(acc + v)
    case Panicked(reason) => Panicked(reason)
  }

  /** Prepending twice is prepending the concatenation. */
  lemma PrependTwice<T>(a: seq<T>, b: seq<T>, r: Result<seq<T>>)
    ensures Prepend(a, Prepend(b, r)) == Prepend(a + b, r)
  {
    if r.Ok? {
      Base.AppendAssoc(a, b, r.value);
    }
  }

  /** Prepending twice to a completed list is prepending the
      concatenation. */
  lemma PrependDoneTwice<T>(a: seq<T>, b: seq<T>, r: Outcome<seq<T>>)
    ensures PrependDone(a, PrependDone(b, r)) == PrependDone(a + b, r)
  {
    if r.Done? {
      Base.AppendAssoc(a, b, r.value);
    }
  }
}
