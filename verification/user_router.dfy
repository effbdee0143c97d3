/** The user routes (src/api/user/userRouter.ts:181-185) as one pipeline:
    the route's validator, when it has one, then the controller, then, for
    anything raised on the way, the error handler. */
module UserRouter {
  import opened Wrappers
  import opened AppCodes
  import opened AppErrors
  import opened Responses
  import opened ErrorHandler
  import opened Validation
  import opened JsNumbers
  import opened UserService
  import opened UserSchemas
  import opened UserController

  /** The five user routes, with the `:id` path segment where there is one. */
  datatype Route = List | Read(id: string) | Create | Update(id: string) | Delete(id: string)

  /** A request: its route, its JSON body and its query string. */
  datatype Request = Request(route: Route, body: UserBody, query: map<string, string>)

  /** The parts of the validation left open: the email format check, and
      `GetUserSchema`, which is defined outside the routes file. */
  datatype Validators = Validators(isEmail: string -> bool, getUserSchema: Bundle -> seq<string>)

  /** The values the handlers draw from outside: `Math.random()` and the
      first and second `new Date()` of the request. */
  datatype Effects = Effects(random: real, firstDate: Timestamp, secondDate: Timestamp)

  /** `req.params` for a route. */
  function Params(route: Route): map<string, string> {
    match route
    case List => map[]
    case Create => map[]
    case Read(id) => map["id" := id]
    case Update(id) => map["id" := id]
    case Delete(id) => map["id" := id]
  }

  /** What a validator sees: `{ body, query, params }`. */
  function BundleOf(req: Request): Bundle {
    Bundle(req.body, req.query, Params(req.route))
  }

  /** The validation stage of a route: GET /users has none, every other
      route has one. */
  function Guard(req: Request, v: Validators): (r: Result<Bundle, AppError>)
    ensures req.route.List? ==> r == Success(BundleOf(req))
    ensures r.Success? ==> r.value == BundleOf(req)
    ensures r.Failure? ==> !req.route.List? && r.error.code == 1100 && r.error.statusCode == 400
    ensures r.Failure? ==> FromTable(r.error) && r.error.codeKey == INVALID_INPUT
    ensures req.route.Create? ==> (r.Success? <==> CreatableBody(req.body, v.isEmail))
    ensures req.route.Update? ==> (r.Success? <==> UpdatableBody(req.body, v.isEmail))
    ensures (req.route.Read? || req.route.Delete?) ==>
              (r.Success? <==> v.getUserSchema(BundleOf(req)) == [])
    ensures ((req.route.Read? || req.route.Delete?) && r.Failure?) ==>
              r.error.message == Prefix + Join(v.getUserSchema(BundleOf(req)))
    ensures (req.route.Create? && r.Failure?) ==>
              r.error.message == Prefix + Join(CreateViolations(req.body, v.isEmail))
    ensures (req.route.Update? && r.Failure?) ==>
              r.error.message == Prefix + Join(UpdateBodyViolations(req.body, v.isEmail))
  {
    var b := BundleOf(req);
    match req.route
    case List => Success(b)
    case Read(_) => ValidateRequest(v.getUserSchema, b)
    case Create =>
      CreateAcceptsExactly(req.body, v.isEmail);
      ValidateRequest(CreateSchema(v.isEmail), b)
    case Update(_) =>
      UpdateAcceptsExactly(req.body, v.isEmail);
      UpdateSchemaWithId(b, v.isEmail);
      ValidateRequest(UpdateSchema(v.isEmail), b)
    case Delete(_) => ValidateRequest(v.getUserSchema, b)
  }

  /** The controller behind a route, reached only once the guard has passed. */
  function Dispatch(req: Request, repo: Repository, v: Validators, fx: Effects): (r: Outcome)
    requires Guard(req, v).Success?
    requires 0.0 <= fx.random < 1.0
    ensures KeepsContract(r)
    ensures req.route.List? ==> r == GetUsers(repo)
    ensures req.route.Read? ==> r == GetUser(repo, req.route.id)
    ensures req.route.Create? ==> r == UserController.CreateUser(req.body, fx.random, fx.firstDate, fx.secondDate)
    ensures req.route.Update? ==> r == UserController.UpdateUser(repo, req.route.id, req.body, fx.firstDate)
    ensures req.route.Delete? ==> r == UserController.DeleteUser(repo, req.route.id)
  {
    match req.route
    case List => GetUsers(repo)
    case Read(id) => GetUser(repo, id)
    case Create =>
      assert CreatableBody(req.body, v.isEmail);
      UserController.CreateUser(req.body, fx.random, fx.firstDate, fx.secondDate)
    case Update(id) =>
      assert UpdatableBody(req.body, v.isEmail);
      UserController.UpdateUser(repo, id, req.body, fx.firstDate)
    case Delete(id) => UserController.DeleteUser(repo, id)
  }

  /** A handler's outcome, with anything thrown rendered by the error handler. */
  function Settle(r: Outcome): Response<Payload> {
    match r
    case Success(resp) => resp
    case Failure(t) => HandleError(t)
  }

  /** The whole pipeline for one request: the response, and the repository
      as it is afterwards. No route writes the repository. */
  function Handle(req: Request, repo: Repository, v: Validators, fx: Effects): (out: (Response<Payload>, Repository))
    requires 0.0 <= fx.random < 1.0
    ensures Conforms(out.0)
    ensures out.1 == repo
    ensures Guard(req, v).Failure? ==> out.0 == HandleError(App(Guard(req, v).error))
    ensures Guard(req, v).Success? ==> out.0 == Settle(Dispatch(req, repo, v, fx))
  {
    match Guard(req, v)
    case Failure(e) =>
      AppErrorConforms<Payload>(e);
      (HandleError(App(e)), repo)
    case Success(_) =>
      var r := Dispatch(req, repo, v, fx);
      if r.Failure? then AppErrorConforms<Payload>(r.error.error); (Settle(r), repo)
      else (Settle(r), repo)
  }

  /** A rejected request never reaches its handler: the response is the same
      whatever the repository holds and whatever the handler would draw. */
  lemma RejectedRequestsSkipHandler(req: Request, v: Validators,
                                    repo1: Repository, fx1: Effects, repo2: Repository, fx2: Effects)
    requires 0.0 <= fx1.random < 1.0 && 0.0 <= fx2.random < 1.0
    requires Guard(req, v).Failure?
    ensures Handle(req, repo1, v, fx1).0 == Handle(req, repo2, v, fx2).0
    ensures Handle(req, repo1, v, fx1).0.status == 400 && Handle(req, repo1, v, fx1).0.body.code == 1100
    ensures Handle(req, repo1, v, fx1).0.body.data == None
  {
  }

  /** Listing an empty store is a success with an empty list. */
  lemma ListingEmptyStore(req: Request, repo: Repository, v: Validators, fx: Effects)
    requires 0.0 <= fx.random < 1.0
    requires req.route == List
    requires repo.listed.None? || repo.listed == Some([])
    ensures Handle(req, repo, v, fx).0
            == Response(200, Envelope(0, "Users retrieved successfully", Some(UserList([]))))
  {
  }

  /** A non-numeric id on GET /users/:id is a 400 with INVALID_INPUT's code
      (1100, not INVALID_USER_ID's 1101) and `null` data, whether the
      validator or the controller catches it. */
  lemma NonNumericReadIsInvalidInput(req: Request, repo: Repository, v: Validators, fx: Effects)
    requires 0.0 <= fx.random < 1.0
    requires req.route.Read? && ParseInt(req.route.id).NaN?
    ensures var resp := Handle(req, repo, v, fx).0;
            resp.status == 400 && resp.body.code == 1100 && resp.body.data == None
  {
  }

  /** A well-formed id absent from the store, on GET /users/:id that passes
      validation, is a 404 with USER_NOT_FOUND's code and `null` data. */
  lemma AbsentReadIsNotFound(req: Request, repo: Repository, v: Validators, fx: Effects, n: nat)
    requires 0.0 <= fx.random < 1.0
    requires req.route == Read(Decimal(n)) && n !in repo.users
    requires v.getUserSchema(BundleOf(req)) == []
    ensures Handle(req, repo, v, fx).0
            == Response(404, Envelope(1000, "Người dùng không tồn tại", None))
  {
    ParseIntOfDecimal("", n, "");
    assert "" + Decimal(n) + "" == Decimal(n);
    assert Guard(req, v) == Success(BundleOf(req));
    assert GetUser(repo, Decimal(n)) == Failure(App(NewAppError(USER_NOT_FOUND)));
    assert Handle(req, repo, v, fx).0 == HandleError(App(NewAppError(USER_NOT_FOUND)));
  }

  /** POST /users with an empty name, a malformed email and age 0 is a 400
      whose message lists the three violations in field order. */
  lemma InvalidCreateListsViolations(req: Request, repo: Repository, v: Validators, fx: Effects)
    requires 0.0 <= fx.random < 1.0
    requires req.route == Create
    requires req.body.name == Given("") && req.body.age == Given(0)
    requires req.body.email.Given? && !v.isEmail(req.body.email.value)
    ensures Handle(req, repo, v, fx).0
            == Response(400, Envelope(1100,
                 "Invalid input: " + "Tên không được để trống" + ", " + "Email không hợp lệ"
                 + ", " + "Tuổi phải lớn hơn 0", None))
  {
    var msgs := ["Tên không được để trống", "Email không hợp lệ", "Tuổi phải lớn hơn 0"];
    CreateReportsEveryViolation(req.body.email.value, v.isEmail);
    assert CreateSchema(v.isEmail)(BundleOf(req)) == msgs;
    var g := Guard(req, v);
    assert g == ValidateRequest(CreateSchema(v.isEmail), BundleOf(req));
    ThreeViolationsMessage();
  }

  /** The aggregated text of the three create violations. */
  lemma ThreeViolationsMessage()
    ensures Prefix + Join(["Tên không được để trống", "Email không hợp lệ", "Tuổi phải lớn hơn 0"])
            == "Invalid input: " + "Tên không được để trống" + ", " + "Email không hợp lệ" + ", " + "Tuổi phải lớn hơn 0"
  {
    var msgs := ["Tên không được để trống", "Email không hợp lệ", "Tuổi phải lớn hơn 0"];
    assert msgs[..2][..1] == [msgs[0]];
    assert Join(msgs[..2]) == msgs[0] + ", " + msgs[1];
    assert Join(msgs) == msgs[0] + ", " + msgs[1] + ", " + msgs[2];
  }

  /** A malformed or non-positive id on PUT /users/:id that passes validation
      is reported as INVALID_INPUT with its default message, even when the
      store has no such user. */
  lemma MalformedUpdateIdIsInvalidInput(req: Request, repo: Repository, v: Validators, fx: Effects)
    requires 0.0 <= fx.random < 1.0
    requires req.route.Update? && (ParseInt(req.route.id).NaN? || ParseInt(req.route.id).value <= 0)
    requires Guard(req, v).Success?
    ensures Handle(req, repo, v, fx).0 == Response(400, Envelope(1100, "Dữ liệu đầu vào không hợp lệ", None))
  {
    var e := NewAppError(INVALID_INPUT);
    assert ValidateUserId(req.route.id) == Failure(e);
    assert Dispatch(req, repo, v, fx) == Failure(App(e));
    assert Handle(req, repo, v, fx).0 == HandleError(App(e));
  }

  /** DELETE does not remove: a DELETE /users/:id of a stored user (when its
      params pass validation) answers 200, and GET on the same id afterwards
      still returns the user. */
  lemma DeleteLeavesUserReadable(id: string, body: UserBody, query: map<string, string>,
                                 repo: Repository, v: Validators, fx: Effects)
    requires 0.0 <= fx.random < 1.0
    requires ValidateUserId(id).Success? && ValidateUserId(id).value in repo.users
    requires v.getUserSchema(Bundle(body, query, map["id" := id])) == []
    ensures var del := Handle(Request(Delete(id), body, query), repo, v, fx);
            var resp := Handle(Request(Read(id), body, query), del.1, v, fx).0;
            && del.0.status == 200 && del.0.body.code == 0 && del.0.body.data == None
            && del.1 == repo
            && resp.status == 200 && resp.body.code == 0
            && resp.body.data == Some(OneUser(repo.users[ValidateUserId(id).value]))
  {
    var del := Request(Delete(id), body, query);
    var read := Request(Read(id), body, query);
    var n := ValidateUserId(id).value;
    assert ParseInt(id) == Int(n);
    assert Guard(del, v) == Success(BundleOf(del));
    assert Guard(read, v) == Success(BundleOf(read));
    assert UserController.DeleteUser(repo, id).Success?;
    assert Handle(del, repo, v, fx).0 == OkWithMessage("User deleted successfully", None);
    assert Handle(read, repo, v, fx).0 == Settle(GetUser(repo, id));
  }

  /** A 200 answer means the guard passed and the handler responded. */
  lemma OnlySuccessfulDispatchAnswers200(req: Request, repo: Repository, v: Validators, fx: Effects)
    requires 0.0 <= fx.random < 1.0
    ensures Handle(req, repo, v, fx).0.status == 200
            ==> Guard(req, v).Success? && Dispatch(req, repo, v, fx).Success?
  {
    var g := Guard(req, v);
    if g.Success? {
      var r := Dispatch(req, repo, v, fx);
      if r.Failure? {
        ErrorKeysHaveErrorStatus(r.error.error.codeKey);
      }
    }
  }
}
