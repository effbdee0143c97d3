/** The application code table: every outcome the service can report, with its
    numeric wire code, its HTTP status and its default message
    (src/common/constants/appCodes.ts). */
module AppCodes {
  import opened Wrappers

  /** The keys of the table. A closed datatype, so a lookup by key cannot miss. */
  datatype AppCodeKey =
    | SUCCESS
    | USER_NOT_FOUND
    | USER_ALREADY_EXISTS
    | INVALID_INPUT
    | INVALID_USER_ID
    | DATABASE_ERROR
    | INTERNAL_SERVER_ERROR

  /** One row of the table. */
  datatype AppCode = AppCode(code: int, statusCode: int, message: string)

  /** The table itself. */
  function Entry(k: AppCodeKey): AppCode {
    match k
    case SUCCESS               => AppCode(0,    200, "Thành công")
    case USER_NOT_FOUND        => AppCode(1000, 404, "Người dùng không tồn tại")
    case USER_ALREADY_EXISTS   => AppCode(1001, 409, "Người dùng đã tồn tại")
    case INVALID_INPUT         => AppCode(1100, 400, "Dữ liệu đầu vào không hợp lệ")
    case INVALID_USER_ID       => AppCode(1101, 400, "ID người dùng không hợp lệ")
    case DATABASE_ERROR        => AppCode(1200, 500, "Lỗi kết nối cơ sở dữ liệu")
    case INTERNAL_SERVER_ERROR => AppCode(1201, 500, "Lỗi hệ thống")
  }

  /** Reads a wire code back to the key that owns it, as a client of the API would. */
  function KeyOfCode(c: int): (r: Option<AppCodeKey>)
    ensures r.Some? ==> Entry(r.value).code == c
    ensures r.None? ==> forall k :: Entry(k).code != c
  {
    if c == 0 then Some(SUCCESS)
    else if c == 1000 then Some(USER_NOT_FOUND)
    else if c == 1001 then Some(USER_ALREADY_EXISTS)
    else if c == 1100 then Some(INVALID_INPUT)
    else if c == 1101 then Some(INVALID_USER_ID)
    else if c == 1200 then Some(DATABASE_ERROR)
    else if c == 1201 then Some(INTERNAL_SERVER_ERROR)
    else None
  }

  /** Codes are unique: the code of a key always reads back to that same key,
      so no two keys share a code. */
  lemma CodesIdentifyKeys(k: AppCodeKey)
    ensures KeyOfCode(Entry(k).code) == Some(k)
  {
  }

  /** Pairwise form of uniqueness. */
  lemma CodesDistinct(k1: AppCodeKey, k2: AppCodeKey)
    ensures k1 != k2 ==> Entry(k1).code != Entry(k2).code
  {
    CodesIdentifyKeys(k1);
    CodesIdentifyKeys(k2);
  }

  /** SUCCESS is the only key with code 0, and it renders as HTTP 200. */
  lemma SuccessIsCodeZero(k: AppCodeKey)
    ensures Entry(k).code == 0 <==> k == SUCCESS
    ensures Entry(SUCCESS).statusCode == 200
  {
  }

  /** Every key other than SUCCESS is an HTTP error status. */
  lemma ErrorKeysHaveErrorStatus(k: AppCodeKey)
    ensures k != SUCCESS ==> 400 <= Entry(k).statusCode < 600
  {
  }

  /** The numeric ranges the table is grouped by: user errors 1000-1099 are
      client errors, validation errors 1100-1199 are 400, system errors
      1200-1299 are 500. */
  lemma RangesAgreeWithStatus(k: AppCodeKey)
    ensures 1000 <= Entry(k).code < 1100 ==> 400 <= Entry(k).statusCode < 500
    ensures 1100 <= Entry(k).code < 1200 ==> Entry(k).statusCode == 400
    ensures 1200 <= Entry(k).code < 1300 ==> Entry(k).statusCode == 500
    ensures k != SUCCESS ==> 1000 <= Entry(k).code < 1300
  {
  }

  /** The two user-domain entries. */
  lemma UserEntries()
    ensures Entry(USER_NOT_FOUND).code == 1000 && Entry(USER_NOT_FOUND).statusCode == 404
    ensures Entry(USER_ALREADY_EXISTS).code == 1001 && Entry(USER_ALREADY_EXISTS).statusCode == 409
  {
  }
}
