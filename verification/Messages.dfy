/** The kernel's messages and the metadata its envelope factory puts around them. */
module Messages {

  datatype Option<+T> = None | Some(value: T)

  /** `kind` stands for the payload's class, `body` for its fields. */
  datatype Command = Command(kind: string, body: string)

  datatype Event = Event(kind: string, body: string)

  datatype Envelope<T> = Envelope(
    id: nat,
    payload: T,
    correlation: string,
    causation: Option<nat>,
    origin: string)

  /** The factory: `id` and `correlation` are the fresh identifiers it would draw. */
  function Create<T, C>(id: nat, correlation: string, payload: T, origin: string, cause: Option<Envelope<C>>): (e: Envelope<T>)
    ensures e.id == id && e.payload == payload && e.origin == origin
    ensures cause.None? ==> e.correlation == correlation && e.causation.None?
    ensures cause.Some? ==> e.correlation == cause.value.correlation && e.causation == Some(cause.value.id)
  {
    match cause
    case Some(c) => Envelope(id, payload, c.correlation, Some(c.id), origin)
    case None => Envelope(id, payload, correlation, None, origin)
  }

  /** A message caused by another carries on its run. */
  function Caused<T, C>(id: nat, payload: T, cause: Envelope<C>): (e: Envelope<T>)
    ensures e.id == id && e.payload == payload
    ensures e.correlation == cause.correlation && e.origin == cause.origin && e.causation == Some(cause.id)
  {
    Create(id, "", payload, cause.origin, Some(cause))
  }
}
