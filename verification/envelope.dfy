/** The response envelope every handler writes back to the editor. */
module Envelope {

  const StatusOK := 200
  const StatusSeeOther := 303
  const StatusBadRequest := 400
  const StatusMethodNotAllowed := 405
  const StatusInternalServerError := 500

  /** The JSON body: a success carries endpoint data, a failure a detail string. */
  datatype Response<+D> =
    | Success(status: int, message: string, data: D)
    | Failure(status: int, message: string, details: string)

  /** What a handler leaves on the wire: the header status and the body. */
  datatype Written<+D> = Written(header: int, body: Response<D>)

  /** The header status and the status inside the body agree. */
  predicate Consistent<D>(w: Written<D>) {
    w.header == w.body.status
  }

  /** `handleError`: writes `status` as the header, then a failure body
      holding the same status, the message and the error's text. */
  function HandleError<D>(err: string, message: string, status: int): (w: Written<D>)
    ensures Consistent(w) && w.header == status
    ensures w.body.Failure? && w.body.message == message && w.body.details == err
  {
    Written(status, Failure(status, message, err))
  }

  /** A success envelope with status 200. */
  function Succeed<D>(message: string, data: D): (w: Written<D>)
    ensures Consistent(w) && w.header == StatusOK
    ensures w.body.Success? && w.body.message == message && w.body.data == data
  {
    Written(StatusOK, Success(StatusOK, message, data))
  }
}
