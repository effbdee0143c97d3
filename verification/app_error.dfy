/** The application error value (src/common/errors/appError.ts): a key of the
    code table together with the code, status and message copied from it. */
module AppErrors {
  import opened AppCodes

  /** An application error. A datatype value, so `code`, `codeKey` and
      `statusCode` cannot change once built; the only derived variant is the
      message override below. */
  datatype AppError = AppError(code: int, codeKey: AppCodeKey, statusCode: int, message: string)

  /** The error's code and status are those of the table row for its key. */
  predicate FromTable(e: AppError) {
    e.code == Entry(e.codeKey).code && e.statusCode == Entry(e.codeKey).statusCode
  }

  /** `new AppError(key)`. */
  function NewAppError(k: AppCodeKey): (e: AppError)
    ensures FromTable(e)
    ensures e.codeKey == k
    ensures e.message == Entry(k).message
  {
    var row := Entry(k);
    AppError(row.code, k, row.statusCode, row.message)
  }

  /** The message override the request validator applies to a fresh error:
      everything but the message is kept. */
  function WithMessage(e: AppError, m: string): (e': AppError)
    ensures e'.code == e.code && e'.codeKey == e.codeKey && e'.statusCode == e.statusCode
    ensures e'.message == m
    ensures FromTable(e) ==> FromTable(e')
  {
    e.(message := m)
  }

  /** An error built from any key but SUCCESS carries an HTTP error status. */
  lemma NewAppErrorStatus(k: AppCodeKey)
    ensures k != SUCCESS ==> NewAppError(k).statusCode >= 400
  {
    ErrorKeysHaveErrorStatus(k);
  }
}
