/** The response envelope `{code, message, data}` and its builders
    (src/common/utils/responseUtil.ts). A builder returns the HTTP status and
    the body instead of writing them to the response object. */
module Responses {
  import opened Wrappers
  import opened AppCodes

  /** The wire body. `data` is `None` for JSON `null`. The three fields are the
      only ones a body can have. */
  datatype Envelope<T> = Envelope(code: int, message: string, data: Option<T>)

  /** An HTTP status together with the body sent with it. */
  datatype Response<T> = Response(status: int, body: Envelope<T>)

  /** `ResponseUtil.okWithCode(res, key, data)`. */
  function OkWithCode<T>(k: AppCodeKey, data: Option<T>): (r: Response<T>)
    ensures KeyOfCode(r.body.code) == Some(k)
    ensures r.status == Entry(k).statusCode && r.body.message == Entry(k).message
    ensures r.body.data == data
  {
    var row := Entry(k);
    CodesIdentifyKeys(k);
    Response(row.statusCode, Envelope(row.code, row.message, data))
  }

  /** `ResponseUtil.ok(res, data)`. */
  function Ok<T>(data: Option<T>): (r: Response<T>)
    ensures r.status == 200 && r.body.code == 0
    ensures r.body.message == "Thành công"
    ensures r.body.data == data
  {
    var row := Entry(SUCCESS);
    Response(row.statusCode, Envelope(row.code, row.message, data))
  }

  /** `ResponseUtil.okWithMessage(res, message, data)`. */
  function OkWithMessage<T>(message: string, data: Option<T>): (r: Response<T>)
    ensures r.status == 200 && r.body.code == 0
    ensures r.body.message == message && r.body.data == data
  {
    var row := Entry(SUCCESS);
    Response(row.statusCode, Envelope(row.code, message, data))
  }

  /** `ResponseUtil.error(res, key, data = null)`. */
  function Error<T>(k: AppCodeKey, data: Option<T> := None): (r: Response<T>)
    ensures KeyOfCode(r.body.code) == Some(k)
    ensures r.status == Entry(k).statusCode && r.body.message == Entry(k).message
    ensures r.body.data == data
  {
    var row := Entry(k);
    CodesIdentifyKeys(k);
    Response(row.statusCode, Envelope(row.code, row.message, data))
  }

  /** `error` and `okWithCode` build the same response from the same key and data. */
  lemma ErrorIsOkWithCode<T>(k: AppCodeKey, data: Option<T>)
    ensures Error(k, data) == OkWithCode(k, data)
  {
  }

  /** `ok` is `okWithCode` at SUCCESS. */
  lemma OkIsOkWithCodeSuccess<T>(data: Option<T>)
    ensures Ok(data) == OkWithCode(SUCCESS, data)
  {
  }

  /** `okWithMessage` differs from `ok` in the message only. */
  lemma OkWithMessageOnlyChangesMessage<T>(message: string, data: Option<T>)
    ensures OkWithMessage(message, data) == Ok(data).(body := Ok(data).body.(message := message))
  {
  }

  /** A response keeps the wire contract: its code belongs to the table; a
      success code goes with status 200 or 201; any other code goes with its
      own table status and a `null` payload. */
  predicate Conforms<T>(r: Response<T>) {
    match KeyOfCode(r.body.code)
    case None => false
    case Some(k) =>
      if k == SUCCESS then r.status == 200 || r.status == 201
      else r.status == Entry(k).statusCode && r.body.data.None?
  }

  /** Every error response built from the table keeps the wire contract, and
      a client reads its key back from the code. */
  lemma ErrorConforms<T>(k: AppCodeKey)
    ensures Conforms(Error<T>(k))
    ensures KeyOfCode(Error<T>(k).body.code) == Some(k)
  {
  }
}
