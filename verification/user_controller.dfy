/** The user controller (src/api/user/userController.ts). Each handler maps
    a request and the repository to either a response or the error it throws,
    which the async wrapper hands to the error handler. */
module UserController {
  import opened Wrappers
  import opened AppCodes
  import opened AppErrors
  import opened Responses
  import opened ErrorHandler
  import opened JsNumbers
  import opened UserService
  import opened UserSchemas

  /** The payloads the controller sends: one user or a list of users. */
  datatype Payload = OneUser(user: User) | UserList(users: seq<User>)

  /** What a handler does: respond, or throw. */
  type Outcome = Result<Response<Payload>, Thrown>

  /** A handler keeps the wire contract: what it sends conforms, and what it
      throws is an application error built from a non-SUCCESS row of the table. */
  predicate KeepsContract(r: Outcome) {
    && (r.Success? ==> Conforms(r.value))
    && (r.Failure? ==> r.error.App? && FromTable(r.error.error) && r.error.error.codeKey != SUCCESS)
  }

  /** `getUsers`: always a 200 listing, possibly empty. */
  function GetUsers(repo: Repository): (r: Outcome)
    ensures r.Success? && r.value.status == 200 && r.value.body.code == 0
    ensures r.value.body.message == "Users retrieved successfully"
    ensures r.value.body.data == Some(UserList(FindAll(repo)))
    ensures (repo.listed.None? || repo.listed == Some([])) ==> r.value.body.data == Some(UserList([]))
    ensures KeepsContract(r)
  {
    Success(OkWithMessage("Users retrieved successfully", Some(UserList(FindAll(repo)))))
  }

  /** `getUser`: a NaN id is answered directly with the INVALID_INPUT row and
      the service is not called; otherwise the stored user or USER_NOT_FOUND. */
  function GetUser(repo: Repository, rawId: string): (r: Outcome)
    ensures ParseInt(rawId).NaN? ==> r == Success(Error(INVALID_INPUT))
    ensures ParseInt(rawId).NaN? ==> r.value.status == 400 && r.value.body.code == 1100
    ensures (ParseInt(rawId).Int? && ParseInt(rawId).value !in repo.users)
            ==> r == Failure(App(NewAppError(USER_NOT_FOUND)))
    ensures (ParseInt(rawId).Int? && ParseInt(rawId).value in repo.users)
            ==> r.Success? && r.value.status == 200 && r.value.body.code == 0
                && r.value.body.message == "User retrieved successfully"
                && r.value.body.data == Some(OneUser(repo.users[ParseInt(rawId).value]))
    ensures KeepsContract(r)
  {
    var userId := ParseInt(rawId);
    if userId.NaN? then Success(Error(INVALID_INPUT))
    else
      match FindById(repo, userId)
      case Failure(e) => Failure(App(e))
      case Success(user) => Success(OkWithMessage("User retrieved successfully", Some(OneUser(user))))
  }

  /** The body as `createUser` reads it, once the schema has admitted it. */
  function CreateRequestOf(b: UserBody): (req: CreateUserRequest)
    requires b.name.Given? && b.email.Given? && !b.age.Mistyped?
    ensures req.name == b.name.value && req.email == b.email.value
    ensures b.age.Given? <==> req.age.Some?
    ensures b.age.Given? ==> req.age.value == b.age.value
  {
    CreateUserRequest(b.name.value, b.email.value, if b.age.Given? then Some(b.age.value) else None)
  }

  /** `createUser`: a hand-built 201 response carrying the new user. */
  function CreateUser(b: UserBody, random: real, created: Timestamp, updated: Timestamp): (r: Outcome)
    requires b.name.Given? && b.email.Given? && !b.age.Mistyped?
    requires 0.0 <= random < 1.0
    ensures r.Success? && r.value.status == 201 && r.value.body.code == 0
    ensures r.value.body.message == "User created successfully"
    ensures r.value.body.data.Some? && r.value.body.data.value.OneUser?
    ensures var u := r.value.body.data.value.user;
            && 1 <= u.id <= 1000 && u.name == b.name.value && u.email == b.email.value
            && u.age == (if b.age.Given? then b.age.value else 0)
            && u.createdAt == created && u.updatedAt == updated
    ensures KeepsContract(r)
  {
    var newUser := UserService.CreateUser(CreateRequestOf(b), random, created, updated);
    Success(Response(201, Envelope(0, "User created successfully", Some(OneUser(newUser)))))
  }

  /** The body as `updateUser` reads it. */
  function UpdateRequestOf(b: UserBody): (req: UpdateUserRequest)
    requires !b.name.Mistyped? && !b.email.Mistyped? && !b.age.Mistyped?
    ensures b.name.Given? <==> req.name.Some?
    ensures b.email.Given? <==> req.email.Some?
    ensures b.age.Given? <==> req.age.Some?
    ensures req.name.Some? ==> req.name.value == b.name.value
    ensures req.email.Some? ==> req.email.value == b.email.value
    ensures req.age.Some? ==> req.age.value == b.age.value
  {
    UpdateUserRequest(if b.name.Given? then Some(b.name.value) else None,
                      if b.email.Given? then Some(b.email.value) else None,
                      if b.age.Given? then Some(b.age.value) else None)
  }

  /** `updateUser`: the merged user with 200, or the service's error. */
  function UpdateUser(repo: Repository, rawId: string, b: UserBody, now: Timestamp): (r: Outcome)
    requires !b.name.Mistyped? && !b.email.Mistyped? && !b.age.Mistyped?
    ensures r.Success? <==> ValidateUserId(rawId).Success? && ValidateUserId(rawId).value in repo.users
    ensures ValidateUserId(rawId).Failure? ==> r == Failure(App(NewAppError(INVALID_INPUT)))
    ensures (ValidateUserId(rawId).Success? && ValidateUserId(rawId).value !in repo.users) ==>
              r == Failure(App(NewAppError(USER_NOT_FOUND)))
    ensures r.Success? ==> r.value.status == 200 && r.value.body.code == 0
                           && r.value.body.message == "User updated successfully"
    ensures r.Success? ==> r.value.body.data == Some(OneUser(
              Merge(repo.users[ValidateUserId(rawId).value], UpdateRequestOf(b), now)))
    ensures KeepsContract(r)
  {
    match UserService.UpdateUser(repo, rawId, UpdateRequestOf(b), now)
    case Failure(e) => Failure(App(e))
    case Success(updated) => Success(OkWithMessage("User updated successfully", Some(OneUser(updated))))
  }

  /** `deleteUser`: first the lookup by `parseInt` of the id, then the
      service's delete, which checks the id again; a 200 with `null` data. */
  function DeleteUser(repo: Repository, rawId: string): (r: Outcome)
    ensures FindById(repo, ParseInt(rawId)).Failure? ==> r == Failure(App(NewAppError(USER_NOT_FOUND)))
    ensures r.Success? <==> RepositoryLookup(repo, ParseInt(rawId)).Some? && UserService.DeleteUser(repo, rawId).Success?
    ensures (FindById(repo, ParseInt(rawId)).Success? && UserService.DeleteUser(repo, rawId).Failure?) ==>
              r == Failure(App(UserService.DeleteUser(repo, rawId).error))
    ensures r.Success? ==> ValidateUserId(rawId).Success? && ValidateUserId(rawId).value in repo.users
    ensures r.Success? ==> r.value == OkWithMessage("User deleted successfully", None)
    ensures r.Success? ==> r.value.status == 200 && r.value.body.code == 0 && r.value.body.data == None
    ensures KeepsContract(r)
  {
    var numericUserId := ParseInt(rawId);
    match FindById(repo, numericUserId)
    case Failure(e) => Failure(App(e))
    case Success(_) =>
      match UserService.DeleteUser(repo, rawId)
      case Failure(e) => Failure(App(e))
      case Success(_) => Success(OkWithMessage("User deleted successfully", None))
  }

  /** A NaN id never deletes: either the lookup misses, or the service's own
      id check refuses it. */
  lemma DeleteNaNNeverSucceeds(repo: Repository, rawId: string)
    requires ParseInt(rawId).NaN?
    ensures DeleteUser(repo, rawId).Failure?
    ensures DeleteUser(repo, rawId).error.error.code in {1000, 1100}
  {
  }
}
