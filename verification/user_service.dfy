/** The user service (src/api/user/userService.ts) over a repository held as
    plain data. The repository class itself is not part of this model: it is
    represented by the answers it gives. */
module UserService {
  import opened Wrappers
  import opened AppCodes
  import opened AppErrors
  import opened JsNumbers

  /** A `Date` value, kept opaque. */
  datatype Timestamp = Timestamp(millis: int)

  /** A stored user. */
  datatype User = User(id: int, name: string, email: string, age: int,
                       createdAt: Timestamp, updatedAt: Timestamp)

  /** What the repository answers: `users` for a lookup by integer id,
      `listed` for `findAllAsync` (`None` when it yields null), and `atNaN`
      for a lookup by the NaN id, whose behaviour the service does not fix. */
  datatype Repository = Repository(users: map<int, User>, listed: Option<seq<User>>, atNaN: Option<User>)

  /** `userRepository.findByIdAsync(id)`. */
  function RepositoryLookup(repo: Repository, id: ParsedInt): Option<User> {
    match id
    case NaN => repo.atNaN
    case Int(n) => if n in repo.users then Some(repo.users[n]) else None
  }

  /** `findAll()`: a null or empty listing is an empty list, never an error. */
  function FindAll(repo: Repository): (users: seq<User>)
    ensures repo.listed.None? ==> users == []
    ensures repo.listed.Some? ==> users == repo.listed.value
  {
    if repo.listed.None? || |repo.listed.value| == 0 then [] else repo.listed.value
  }

  /** `findById(id)`: the stored user, or USER_NOT_FOUND. */
  function FindById(repo: Repository, id: ParsedInt): (r: Result<User, AppError>)
    ensures r.Success? <==> RepositoryLookup(repo, id).Some?
    ensures id.Int? ==> (r.Success? <==> id.value in repo.users)
    ensures id.Int? && r.Success? ==> r.value == repo.users[id.value]
    ensures r.Failure? ==> r.error == NewAppError(USER_NOT_FOUND)
  {
    match RepositoryLookup(repo, id)
    case None => Failure(NewAppError(USER_NOT_FOUND))
    case Some(u) => Success(u)
  }

  /** `validateUserId(id)`: a positive integer read by `parseInt`, or
      INVALID_INPUT (not INVALID_USER_ID). */
  function ValidateUserId(id: string): (r: Result<int, AppError>)
    ensures r.Success? <==> ParseInt(id).Int? && ParseInt(id).value > 0
    ensures r.Success? ==> ParseInt(id) == Int(r.value) && r.value >= 1
    ensures r.Failure? ==> r.error == NewAppError(INVALID_INPUT)
  {
    var numericId := ParseInt(id);
    if numericId.NaN? || numericId.value <= 0 then Failure(NewAppError(INVALID_INPUT))
    else Success(numericId.value)
  }

  /** Every decimal rendering of a positive number is a valid id, and reads
      back as that number. */
  lemma ValidIdsAreDecimals(n: nat)
    requires n >= 1
    ensures ValidateUserId(Decimal(n)) == Success(n)
  {
    ParseIntOfDecimal("", n, "");
    assert "" + Decimal(n) + "" == Decimal(n);
  }

  /** `Math.floor(Math.random() * 1000) + 1`, for a draw in [0, 1). */
  function RandomId(random: real): (id: int)
    requires 0.0 <= random < 1.0
    ensures 1 <= id <= 1000
  {
    (random * 1000.0).Floor + 1
  }

  /** JavaScript `x || 0` on an optional number: undefined and 0 give 0. */
  function OrZero(x: Option<int>): int {
    if x.None? || x.value == 0 then 0 else x.value
  }

  /** The body `createUser` reads. */
  datatype CreateUserRequest = CreateUserRequest(name: string, email: string, age: Option<int>)

  /** `createUser(userData)`: a fresh user with a random id and the two
      `new Date()` readings; the repository is not written. */
  function CreateUser(req: CreateUserRequest, random: real, created: Timestamp, updated: Timestamp): (u: User)
    requires 0.0 <= random < 1.0
    ensures 1 <= u.id <= 1000
    ensures u.name == req.name && u.email == req.email
    ensures u.age == req.age.GetOr(0)
    ensures u.createdAt == created && u.updatedAt == updated
  {
    User(RandomId(random), req.name, req.email, OrZero(req.age), created, updated)
  }

  /** The body `updateUser` reads: every field optional. */
  datatype UpdateUserRequest = UpdateUserRequest(name: Option<string>, email: Option<string>, age: Option<int>)

  /** `{...existing, ...update, updatedAt: now}`. */
  function Merge(existing: User, update: UpdateUserRequest, now: Timestamp): User {
    existing.(name := update.name.GetOr(existing.name),
              email := update.email.GetOr(existing.email),
              age := update.age.GetOr(existing.age),
              updatedAt := now)
  }

  /** `updateUser(id, update)`: the id is checked before the lookup; the
      merged user is returned and the repository is not written. */
  function UpdateUser(repo: Repository, id: string, update: UpdateUserRequest, now: Timestamp): (r: Result<User, AppError>)
    ensures ValidateUserId(id).Failure? ==> r == Failure(NewAppError(INVALID_INPUT))
    ensures (ValidateUserId(id).Success? && ValidateUserId(id).value !in repo.users)
            ==> r == Failure(NewAppError(USER_NOT_FOUND))
    ensures r.Success? <==> ValidateUserId(id).Success? && ValidateUserId(id).value in repo.users
    ensures r.Success? ==>
              var before := repo.users[ValidateUserId(id).value];
              && r.value.id == before.id && r.value.createdAt == before.createdAt
              && r.value.updatedAt == now
              && (update.name.Some? ==> r.value.name == update.name.value)
              && (update.name.None? ==> r.value.name == before.name)
              && (update.email.Some? ==> r.value.email == update.email.value)
              && (update.email.None? ==> r.value.email == before.email)
              && (update.age.Some? ==> r.value.age == update.age.value)
              && (update.age.None? ==> r.value.age == before.age)
  {
    var userId :- ValidateUserId(id);
    var existing :- FindById(repo, Int(userId));
    Success(Merge(existing, update, now))
  }

  /** `deleteUser(id)`: the id check, then the lookup; on success the
      repository is returned as it was, since nothing is removed. */
  function DeleteUser(repo: Repository, id: string): (r: Result<Repository, AppError>)
    ensures ValidateUserId(id).Failure? ==> r == Failure(NewAppError(INVALID_INPUT))
    ensures (ValidateUserId(id).Success? && ValidateUserId(id).value !in repo.users)
            ==> r == Failure(NewAppError(USER_NOT_FOUND))
    ensures r.Success? <==> ValidateUserId(id).Success? && ValidateUserId(id).value in repo.users
    ensures r.Success? ==> r.value == repo
  {
    var userId :- ValidateUserId(id);
    var _ :- FindById(repo, Int(userId));
    Success(repo)
  }

  /** An update with an empty body changes nothing but `updatedAt`. */
  lemma EmptyUpdateOnlyTouchesUpdatedAt(repo: Repository, id: string, now: Timestamp)
    requires UpdateUser(repo, id, UpdateUserRequest(None, None, None), now).Success?
    ensures var r := UpdateUser(repo, id, UpdateUserRequest(None, None, None), now);
            r.value == repo.users[ValidateUserId(id).value].(updatedAt := now)
  {
  }

  /** A malformed or non-positive id is reported as invalid input by update
      and delete, whatever the repository holds: the id check comes first. */
  lemma MalformedIdBeforeLookup(repo: Repository, id: string, update: UpdateUserRequest, now: Timestamp)
    requires ParseInt(id).NaN? || ParseInt(id).value <= 0
    ensures UpdateUser(repo, id, update, now).Failure?
    ensures UpdateUser(repo, id, update, now).error.code == 1100
    ensures DeleteUser(repo, id).Failure? && DeleteUser(repo, id).error.code == 1100
  {
  }
}
