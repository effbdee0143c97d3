/** The terminal error stage (src/common/middleware/errorHandler.ts): turns
    whatever an earlier stage raised into one response. Its log call is
    output only and is not modelled. */
module ErrorHandler {
  import opened Wrappers
  import opened AppCodes
  import opened AppErrors
  import opened Responses

  /** What can reach the handler: an application error, or any other
      JavaScript error, of which only the message matters here. */
  datatype Thrown = App(error: AppError) | Other(message: string)

  /** `errorHandler(error, req, res, next)`. */
  function HandleError<T>(t: Thrown): (r: Response<T>)
    ensures r.body.data == None
    ensures t.App? ==> r.status == t.error.statusCode && r.body.code == t.error.code
                       && r.body.message == t.error.message
    ensures t.Other? ==> r.status == 500 && r.body.code == 1201 && r.body.message == "Lỗi hệ thống"
  {
    match t
    case App(e) => Response(e.statusCode, Envelope(e.code, e.message, None))
    case Other(_) =>
      var generic := Entry(INTERNAL_SERVER_ERROR);
      Response(generic.statusCode, Envelope(generic.code, generic.message, None))
  }

  /** An unrecognised error renders as the INTERNAL_SERVER_ERROR row, whatever
      its own message: the response is the same for any two such errors, so
      nothing of the message reaches the client. */
  lemma OtherErrorsDoNotLeak<T>(m1: string, m2: string)
    ensures HandleError<T>(Other(m1)) == HandleError<T>(Other(m2))
    ensures HandleError<T>(Other(m1)) == Error<T>(INTERNAL_SERVER_ERROR)
  {
  }

  /** An application error built from the table, under any message override,
      renders as a conforming error response whose code reads back to its key. */
  lemma AppErrorConforms<T>(e: AppError)
    requires FromTable(e) && e.codeKey != SUCCESS
    ensures Conforms(HandleError<T>(App(e)))
    ensures KeyOfCode(HandleError<T>(App(e)).body.code) == Some(e.codeKey)
  {
    CodesIdentifyKeys(e.codeKey);
  }

  /** An unmodified application error renders exactly as `ResponseUtil.error`
      at its key. */
  lemma NewAppErrorRendersAsError<T>(k: AppCodeKey)
    ensures HandleError<T>(App(NewAppError(k))) == Error<T>(k)
  {
  }
}
