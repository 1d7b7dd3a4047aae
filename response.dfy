/** The JSON envelope every handler answers with, together with its HTTP
    status: code 0 for success, -1 for an error, data only on success. */
module Response {
  import opened Wrappers

  const StatusOK := 200
  const StatusCreated := 201
  const StatusBadRequest := 400
  const StatusUnauthorized := 401
  const StatusForbidden := 403
  const StatusNotFound := 404
  const StatusInternalServerError := 500

  datatype Reply<D> = Reply(status: int, code: int, message: string, data: Option<D>)

  /** The outcome of decoding and validating a request body
      (`ShouldBindJSON`). */
  datatype Bind<T> = Bound(value: T) | BindFailed(reason: string)

  /** `gin.H{"message": …}`. */
  datatype Notice = Notice(message: string)

  predicate IsSuccess<D>(r: Reply<D>) {
    r.code == 0
  }

  function Success<D>(data: D): (r: Reply<D>)
    ensures r.status == StatusOK && IsSuccess(r) && r.message == "success" && r.data == Some(data)
  {
    Reply(StatusOK, 0, "success", Some(data))
  }

  function Created<D>(data: D): (r: Reply<D>)
    ensures r.status == StatusCreated && IsSuccess(r) && r.message == "created" && r.data == Some(data)
  {
    Reply(StatusCreated, 0, "created", Some(data))
  }

  /** An error carries the status and message it is given and no data. */
  function Error<D>(status: int, message: string): (r: Reply<D>)
    ensures r.status == status && r.code == -1 && !IsSuccess(r) && r.message == message && r.data.None?
  {
    Reply(status, -1, message, None)
  }

  function BadRequest<D>(message: string): (r: Reply<D>)
    ensures r == Error(StatusBadRequest, message)
  {
    Error(StatusBadRequest, message)
  }

  function Unauthorized<D>(message: string): (r: Reply<D>)
    ensures r == Error(StatusUnauthorized, message)
  {
    Error(StatusUnauthorized, message)
  }

  function Forbidden<D>(message: string): (r: Reply<D>)
    ensures r == Error(StatusForbidden, message)
  {
    Error(StatusForbidden, message)
  }

  function NotFound<D>(message: string): (r: Reply<D>)
    ensures r == Error(StatusNotFound, message)
  {
    Error(StatusNotFound, message)
  }

  function InternalError<D>(message: string): (r: Reply<D>)
    ensures r == Error(StatusInternalServerError, message)
  {
    Error(StatusInternalServerError, message)
  }

  /** The envelope's code and its data agree: success exactly when there is
      data, and every status helper reports failure. */
  lemma EnvelopeConsistent<D>(data: D, message: string)
    ensures IsSuccess(Success(data)) && IsSuccess(Created(data))
    ensures forall status :: !IsSuccess(Error<D>(status, message))
    ensures BadRequest<D>(message).status == 400 && Unauthorized<D>(message).status == 401
            && Forbidden<D>(message).status == 403 && NotFound<D>(message).status == 404
            && InternalError<D>(message).status == 500
  {
  }
}
