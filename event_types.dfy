/** The record shared by every screen (src/types/Event.ts) and the small
    wrappers used to model JavaScript's optional values and failed calls. */
module EventTypes {

  /** `undefined` / `null` versus a present value. */
  datatype Option<T> = None | Some(value: T) {
    /** `x || d` for a value whose only falsy form is the missing one. */
    function GetOr(default: T): T {
      match this
      case Some(v) => v
      case None => default
    }
  }

  /** A remote call that either resolves with a value or rejects. */
  datatype Result<T, E> = Ok(value: T) | Err(error: E)

  /** Why a request to the REST API or the image host was rejected. */
  datatype ApiError = HttpStatus(code: int) | NetworkFailure

  /** Latitude and longitude are JavaScript floats; no operation of the
      model looks inside a position, so it is kept opaque. */
  type Position(==, !new)

  /** One volunteer event as the REST API returns and accepts it. */
  datatype Event = Event(
    id: Option<string>,
    dateTime: string,
    description: string,
    name: string,
    organizerId: string,
    position: Position,
    volunteersNeeded: int,
    volunteersIds: seq<string>,
    imageUrl: Option<string>
  )
}
