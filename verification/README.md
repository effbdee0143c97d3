# User CRUD service: response and error contract

A Dafny model of how the user service turns the outcome of a request into an
HTTP status and a `{code, message, data}` body. It covers:

- the application code table (`APP_CODES`);
- the `AppError` value and the validator's message override;
- the `ResponseUtil` envelope builders;
- the terminal error handler;
- the request validator and the create/update schemas of the user routes;
- the user service over a repository held as data;
- the five user controller handlers and the route pipeline that joins them;
- the log-level banding and request-id rule of the request logger.

Everything is a pure function over immutable datatypes. A builder or handler
returns the `Response(status, Envelope(code, message, data))` it would write.
A thrown error is a `Failure` value. JSON `null` is `None`.

Modules, one per source file:

| module | file | source |
|---|---|---|
| `Wrappers` | wrappers.dfy | (Option / Result helpers) |
| `AppCodes` | app_codes.dfy | src/common/constants/appCodes.ts |
| `AppErrors` | app_error.dfy | src/common/errors/appError.ts |
| `Responses` | response_util.dfy | src/common/utils/responseUtil.ts |
| `ErrorHandler` | error_handler.dfy | src/common/middleware/errorHandler.ts |
| `Validation` | http_handlers.dfy | src/common/utils/httpHandlers.ts |
| `JsNumbers` | js_parse_int.dfy | `Number.parseInt(s, 10)` as the service uses it |
| `UserSchemas` | user_schemas.dfy | src/api/user/userRouter.ts (schemas) |
| `UserService` | user_service.dfy | src/api/user/userService.ts |
| `UserController` | user_controller.dfy | src/api/user/userController.ts |
| `UserRouter` | user_router.dfy | src/api/user/userRouter.ts (routes) |
| `RequestLogger` | request_logger.dfy | src/common/middleware/requestLogger.ts |

The model keeps these behaviours of the code:

- **Bad id code.** A malformed id is reported with INVALID_INPUT (1100,
  src/common/constants/appCodes.ts:22-26), not with INVALID_USER_ID (1101). The
  OpenAPI block at src/api/user/userRouter.ts:80-90 and the comment at
  src/api/user/userController.ts:37 advertise 1101, but the controller
  (src/api/user/userController.ts:50) and the service
  (src/api/user/userService.ts:61) raise INVALID_INPUT.
- **No coercion.** The validator drops the value the schema parses
  (src/common/utils/httpHandlers.ts:7-8). The request therefore reaches the
  handler exactly as it came.
- **Delete removes nothing.** `deleteUser` (src/api/user/userService.ts:114-121)
  only checks that the user exists. A GET after a successful DELETE still finds
  the user (`UserRouter.DeleteLeavesUserReadable`).
- **No writes at all.** `createUser` and `updateUser`
  (src/api/user/userService.ts:80-111) build a user and return it, but neither
  stores it. `UserRouter.Handle` returns the repository after the request, and
  it is always the one before.
- **Delete checks the id twice.** The DELETE controller first looks up
  `parseInt(id)` (src/api/user/userController.ts:105-106) and only then calls
  the service (line 108), which checks the id. So an absent id of 0 gives 404,
  not 400, while a stored id of 0 gives 400.

## Model

| member | source | states |
|---|---|---|
| `AppCodes.KeyOfCode` | src/common/constants/appCodes.ts:3-44 | a wire code reads back to a key whose table code it is, and an unknown code is no key's code |
| `AppCodes.CodesIdentifyKeys` | src/common/constants/appCodes.ts:3-44 | codes are unique: each key's code reads back to that key |
| `AppCodes.CodesDistinct` | src/common/constants/appCodes.ts:3-44 | two different keys never share a code |
| `AppCodes.SuccessIsCodeZero` | src/common/constants/appCodes.ts:4-8 | SUCCESS is the only key with code 0, and its status is 200 |
| `AppCodes.ErrorKeysHaveErrorStatus` | src/common/constants/appCodes.ts:10-43 | every key other than SUCCESS has an HTTP error status (400..599) |
| `AppCodes.RangesAgreeWithStatus` | src/common/constants/appCodes.ts:9-43 | codes 1000-1099 are 4xx, 1100-1199 are 400, 1200-1299 are 500, and every error code lies in 1000-1299 |
| `AppCodes.UserEntries` | src/common/constants/appCodes.ts:10-19 | USER_NOT_FOUND is 1000/404 and USER_ALREADY_EXISTS is 1001/409 |
| `AppErrors.NewAppError` | src/common/errors/appError.ts:8-17 | the error's code and status come from the table row of its key; its key is the one given; its message is the row's message |
| `AppErrors.WithMessage` | src/common/utils/httpHandlers.ts:15-18 | the override replaces the message and keeps code, key and status |
| `AppErrors.NewAppErrorStatus` | src/common/errors/appError.ts:9-14 | an error built from any non-SUCCESS key has status at least 400 |
| `Responses.OkWithCode` | src/common/utils/responseUtil.ts:6-13 | status and message are the key's row; the body code reads back to the key; data is passed through unchanged |
| `Responses.Ok` | src/common/utils/responseUtil.ts:15-22 | status 200, code 0, the SUCCESS message, data unchanged |
| `Responses.OkWithMessage` | src/common/utils/responseUtil.ts:24-31 | status 200, code 0, the given message, data unchanged |
| `Responses.Error` | src/common/utils/responseUtil.ts:33-40 | status and message from the key's row, the code reads back to the key, data defaults to null |
| `Responses.ErrorIsOkWithCode` | src/common/utils/responseUtil.ts:6-40 | `error` and `okWithCode` give the same status and body |
| `Responses.OkIsOkWithCodeSuccess` | src/common/utils/responseUtil.ts:6-22 | `ok(d)` is `okWithCode(SUCCESS, d)` |
| `Responses.OkWithMessageOnlyChangesMessage` | src/common/utils/responseUtil.ts:15-31 | `okWithMessage` differs from `ok` in the message only |
| `Responses.ErrorConforms` | src/common/utils/responseUtil.ts:33-40 | every error response keeps the wire contract (table status, null data), and a client reads its key back from the code |
| `ErrorHandler.HandleError` | src/common/middleware/errorHandler.ts:22-37 | an AppError renders its own status, code and message; anything else renders 500 / 1201 / 'Lỗi hệ thống'; data is null on both branches |
| `ErrorHandler.OtherErrorsDoNotLeak` | src/common/middleware/errorHandler.ts:31-37 | the response to a non-AppError does not depend on its message and equals `error(INTERNAL_SERVER_ERROR)` |
| `ErrorHandler.AppErrorConforms` | src/common/middleware/errorHandler.ts:22-28 | a table-built AppError, even with an overridden message, renders as a conforming error response whose code reads back to its key |
| `ErrorHandler.NewAppErrorRendersAsError` | src/common/middleware/errorHandler.ts:22-28 | an AppError without override renders exactly as `ResponseUtil.error` at its key |
| `Validation.ValidateRequest` | src/common/utils/httpHandlers.ts:5-22 | accepted iff the schema reports no violation, and then the bundle passes on unchanged; on rejection the error is INVALID_INPUT (1100/400) with message "Invalid input: " followed by the violations joined by ", " |
| `Validation.SplitJoin` | src/common/utils/httpHandlers.ts:12 | when no violation contains ", ", the joined text splits back into exactly the violations, in order |
| `Validation.SplitAtFirstSeparator` | src/common/utils/httpHandlers.ts:12 | the first ", " after a separator-free message is the one the join inserted |
| `Validation.JoinFront` | src/common/utils/httpHandlers.ts:12 | the join read from its first message |
| `Validation.RejectionListsViolations` | src/common/utils/httpHandlers.ts:11-20 | the error passed on begins with "Invalid input: " and the rest splits back into the violations |
| `JsNumbers.Decimal` | src/api/user/userService.ts:57 | the decimal rendering of n is a non-empty digit run without leading zero whose value is n |
| `JsNumbers.TrimStart` | src/api/user/userService.ts:57 | `parseInt` skips exactly the leading white space |
| `JsNumbers.DigitPrefix` | src/api/user/userService.ts:57 | `parseInt` reads the longest run of digits after the sign |
| `JsNumbers.ParseIntOfDecimal` | src/api/user/userService.ts:57 | white space, then the decimal of n, then a tail not starting with a digit, parses to n |
| `JsNumbers.ParseIntOfSignedDecimal` | src/api/user/userController.ts:47 | the same after a sign: `-` gives -n, `+` gives n |
| `JsNumbers.NoDigitIsNaN` | src/api/user/userController.ts:47-48 | a string with no digit parses to NaN |
| `UserService.FindAll` | src/api/user/userService.ts:24-36 | a null listing gives []; any other listing (empty included) is returned unchanged; never an error |
| `UserService.FindById` | src/api/user/userService.ts:39-51 | the stored user when the id is present, otherwise USER_NOT_FOUND |
| `UserService.ValidateUserId` | src/api/user/userService.ts:54-66 | succeeds iff `parseInt` gives a positive integer, and returns it; otherwise INVALID_INPUT |
| `UserService.ValidIdsAreDecimals` | src/api/user/userService.ts:54-66 | the decimal text of every positive n is a valid id that reads back as n |
| `UserService.RandomId` | src/api/user/userService.ts:84 | `floor(random * 1000) + 1` lies in [1, 1000] for a draw in [0, 1) |
| `UserService.CreateUser` | src/api/user/userService.ts:80-94 | id in [1, 1000], name and email copied, age the given age or 0 when absent, timestamps from the two clock readings |
| `UserService.UpdateUser` | src/api/user/userService.ts:97-111 | a bad id gives INVALID_INPUT before any lookup; an absent id gives USER_NOT_FOUND; it succeeds exactly when the id is valid and stored, and then, for a body of name, email and age, each given field overrides the stored one, the others are kept, id and createdAt are kept, and updatedAt is the clock reading |
| `UserService.DeleteUser` | src/api/user/userService.ts:114-121 | INVALID_INPUT, then USER_NOT_FOUND, in that order; succeeds iff the id is valid and present, and then the repository is unchanged |
| `UserService.EmptyUpdateOnlyTouchesUpdatedAt` | src/api/user/userService.ts:103-107 | an update with no fields returns the stored user with only updatedAt changed |
| `UserService.MalformedIdBeforeLookup` | src/api/user/userService.ts:97-118 | a NaN or non-positive id makes update and delete fail with 1100 whatever the repository holds |
| `UserController.GetUsers` | src/api/user/userController.ts:20-28 | always 200 / 0 / 'Users retrieved successfully' with the listing, which is [] for an empty or null store |
| `UserController.GetUser` | src/api/user/userController.ts:41-59 | NaN id: `error(INVALID_INPUT)` (400/1100, null) without a lookup; absent id: USER_NOT_FOUND thrown; present id: 200 / 0 / 'User retrieved successfully' with the stored user |
| `UserController.CreateRequestOf` | src/api/user/userController.ts:68 | the service reads the body's name, email and optional age as given |
| `UserController.CreateUser` | src/api/user/userController.ts:65-77 | 201 / 0 / 'User created successfully' with a user whose id is in [1, 1000], whose name, email and age are the body's (age 0 when absent), and whose createdAt and updatedAt are the two clock readings |
| `UserController.UpdateRequestOf` | src/api/user/userController.ts:88 | for a body of name, email and age, the service reads exactly the fields present in it |
| `UserController.UpdateUser` | src/api/user/userController.ts:83-93 | succeeds iff the id is valid and present, then 200 / 0 / 'User updated successfully' with the merged user; a bad id throws INVALID_INPUT; a valid id absent from the store throws USER_NOT_FOUND |
| `UserController.DeleteUser` | src/api/user/userController.ts:99-113 | the lookup of `parseInt(id)` runs first and its miss throws USER_NOT_FOUND; when it hits, the service's own error (INVALID_INPUT for an id ≤ 0) is thrown; success needs both to pass and answers 200 / 0 / 'User deleted successfully' / null |
| `UserController.DeleteNaNNeverSucceeds` | src/api/user/userController.ts:105-108 | a NaN id never deletes; the error is 1000 or 1100 |
| `UserSchemas.CreateAcceptsExactly` | src/api/user/userRouter.ts:17-23 | the create schema accepts iff name is non-empty, email well formed, and age a number in 1..150, all present |
| `UserSchemas.UpdateAcceptsExactly` | src/api/user/userRouter.ts:26-33 | the update body schema accepts iff each present field has its type and obeys the create bounds |
| `UserSchemas.UpdateSchemaWithId` | src/api/user/userRouter.ts:26-33 | on a path that carries an id, the update schema's violations are exactly the body's |
| `UserSchemas.EmptyUpdatePasses` | src/api/user/userRouter.ts:26-33 | an update with an empty body passes |
| `UserSchemas.CreateAgeRule` | src/api/user/userRouter.ts:21 | age < 1 reports 'Tuổi phải lớn hơn 0', age > 150 reports 'Tuổi không hợp lệ', 1..150 reports nothing |
| `UserSchemas.CreateReportsEveryViolation` | src/api/user/userRouter.ts:18-22 | empty name, bad email and age 0 report all three messages in field order |
| `UserSchemas.CreateRequiresEveryField` | src/api/user/userRouter.ts:18-22 | each missing field is reported on create |
| `UserRouter.Guard` | src/api/user/userRouter.ts:181-185 | GET /users is never validated; GET and DELETE /users/:id pass iff `GetUserSchema` reports nothing; create and update pass exactly the creatable and updatable bodies (the update's path id never fails); a pass returns the bundle unchanged; a failure is INVALID_INPUT whose message is "Invalid input: " followed by the route schema's violations joined by ", " |
| `UserRouter.Dispatch` | src/api/user/userRouter.ts:181-185 | GET / is answered by `getUsers`, GET /:id by `getUser`, POST / by `createUser` with the draw and both clock readings, PUT /:id by `updateUser`, DELETE /:id by `deleteUser`; every error a handler throws is a table-built, non-SUCCESS AppError |
| `UserRouter.Handle` | src/api/user/userRouter.ts:181-185 | every response keeps the wire contract (code 0 with 200/201, or a table code with its own status and null data); the repository is unchanged; a failed validation is answered by the error handler; a passed one by the route's controller, with anything it throws rendered by the error handler |
| `UserRouter.RejectedRequestsSkipHandler` | src/common/utils/httpHandlers.ts:9-20 | a rejected request gets 400 / 1100 / null whatever the store or effects, so its handler is not reached |
| `UserRouter.ListingEmptyStore` | src/api/user/userController.ts:20-28 | GET /users on an empty store is 200 / 0 / [] |
| `UserRouter.NonNumericReadIsInvalidInput` | src/api/user/userController.ts:47-52 | GET /users/:id with a non-numeric id is 400 / 1100 / null whichever stage catches it |
| `UserRouter.AbsentReadIsNotFound` | src/api/user/userService.ts:44-47 | GET of a well-formed absent id is 404 / 1000 / null |
| `UserRouter.InvalidCreateListsViolations` | src/api/user/userRouter.ts:17-23 | POST with empty name, bad email and age 0 is 400 / 1100 / null with the three messages in the text |
| `UserRouter.ThreeViolationsMessage` | src/common/utils/httpHandlers.ts:12 | the exact aggregated text for the three create messages (empty name, bad email, age below 1) |
| `UserRouter.MalformedUpdateIdIsInvalidInput` | src/api/user/userService.ts:57-61 | PUT with a NaN or non-positive id is 400 / 1100 with the default message, even for an absent user |
| `UserRouter.DeleteLeavesUserReadable` | src/api/user/userService.ts:114-121 | DELETE of a stored, valid id answers 200 / 0 / null and leaves the repository as it was, so GET of the same id still returns the stored user |
| `UserRouter.OnlySuccessfulDispatchAnswers200` | src/api/user/userRouter.ts:181-185 | a 200 answer only comes from a request that passed its validator and whose controller did not throw |
| `RequestLogger.GetLogLevel` | src/common/middleware/requestLogger.ts:9-13 | error iff status ≥ 500, warn iff 400 ≤ status < 500, info iff status < 400 |
| `RequestLogger.LevelMonotone` | src/common/middleware/requestLogger.ts:9-13 | severity never decreases as the status grows |
| `RequestLogger.TableLevels` | src/common/middleware/requestLogger.ts:9-13 | over the table only SUCCESS logs at info, and only the two system errors log at error |
| `RequestLogger.AddRequestId` | src/common/middleware/requestLogger.ts:15-24 | a non-empty incoming id is kept, otherwise the generated one is used; request and response carry the same id, the response's replacing any `x-request-id` of any letter case; no other header changes |
| `RequestLogger.AddRequestIdStable` | src/common/middleware/requestLogger.ts:16-17 | applying the step again keeps the id chosen the first time |

## Left out

- Logging: the `logger.*` calls, the pino-http wiring and `captureResponseBody`. They are output only and never change a response.
- The request logger's `next()` call. Every pure step here always continues, so the call carries no information.
- Process start-up and shutdown, and the health-check route. Neither is part of the response contract.
- OpenAPI registrations and `createApiResponse`. They are documentation only; the codes they advertise are not used.
- The user model file, the repository class and `asyncHandler` are not part of this model.
  - The user record has the fields `createUser` builds.
  - The repository is represented by its answers (`UserService.Repository`). The listing for `findAllAsync` and the answer for a NaN id are free inputs, because their behaviour is not fixed here.
  - Repository faults are not modelled. DATABASE_ERROR and USER_ALREADY_EXISTS therefore never arise.
  - A thrown error reaches the error handler as `asyncHandler` would pass it on.
- Zod internals.
  - The email format check is an abstract predicate. `GetUserSchema`, which is defined outside the routes file, is an abstract function from the bundle to violation messages.
  - Messages the schemas do not set are the library's defaults ("Required", "Expected string, received …", "Invalid email", and the number-bound texts).
  - A body is an object with the three user fields. A body that is not an object is not modelled, and neither are unknown keys. Unknown keys would pass validation and then be copied by the update merge.
- Numbers.
  - Ages and ids are unbounded integers. Non-integer ages, which the number schema accepts, are not modelled.
  - `JsNumbers.ParseInt` is exact. JavaScript loses precision on digit runs above 2^53.
  - `Math.random()` is a real in [0, 1). Dates are opaque `Timestamp` values passed in.
- `RequestLogger.AddRequestId`: header maps are keyed by lower-case names, as Node keys them. The case in which a response header was first written, which Node keeps only for output, is not modelled.
- `UserService.UpdateUser`: bodies with keys other than name, email and age are outside the model. In the source such keys pass validation and are spread over the stored user, so they overwrite stored fields, id and createdAt included.
- `UserController.UpdateRequestOf`: bodies with keys other than name, email and age are outside the model. The source passes the whole body on, so such keys reach the merge and overwrite stored fields, id and createdAt included.

## Not about the source

`Wrappers`, `Validation.Split`, `AppCodes.KeyOfCode` and `JsNumbers.Decimal` have no counterpart in the source. They are reference inverses that let the model state round trips:

- `Split` reads the aggregated validation message back into its parts.
- `KeyOfCode` reads a wire code back to its row of the code table.
- `Decimal` renders a number as the digits that `parseInt` reads back to it.

Their rows above cite the source whose behaviour they invert.
