/** The request schemas of the user routes (src/api/user/userRouter.ts,
    `CreateUserSchema` and `UpdateUserSchema`), each read as the ordered list
    of violation messages it reports for a request bundle. Fields are checked
    in declaration order; a field of the wrong type reports that alone; the
    messages a schema does not set are the schema library's defaults. */
module UserSchemas {

  /** One property of a JSON body: absent, present with the expected type,
      or present with another type (named as the library names it). */
  datatype Field<T> = Missing | Given(value: T) | Mistyped(received: string)

  /** The user properties of a request body. */
  datatype UserBody = UserBody(name: Field<string>, email: Field<string>, age: Field<int>)

  /** What a schema is applied to: `{ body, query, params }`. */
  datatype Bundle = Bundle(body: UserBody, query: map<string, string>, params: map<string, string>)

  const RequiredMessage := "Required"

  function TypeMessage(expected: string, received: string): string {
    "Expected " + expected + ", received " + received
  }

  /** A string field with a minimum length of 1. */
  function NameViolations(f: Field<string>, optional: bool, tooShort: string): seq<string> {
    match f
    case Missing => if optional then [] else [RequiredMessage]
    case Mistyped(t) => [TypeMessage("string", t)]
    case Given(s) => if |s| < 1 then [tooShort] else []
  }

  /** A string field with the email format check. */
  function EmailViolations(f: Field<string>, optional: bool, isEmail: string -> bool, invalid: string): seq<string> {
    match f
    case Missing => if optional then [] else [RequiredMessage]
    case Mistyped(t) => [TypeMessage("string", t)]
    case Given(s) => if isEmail(s) then [] else [invalid]
  }

  /** A number field with bounds 1 and 150; both checks run. */
  function AgeViolations(f: Field<int>, optional: bool, tooSmall: string, tooBig: string): seq<string> {
    match f
    case Missing => if optional then [] else [RequiredMessage]
    case Mistyped(t) => [TypeMessage("number", t)]
    case Given(n) => (if n < 1 then [tooSmall] else []) + (if n > 150 then [tooBig] else [])
  }

  /** `CreateUserSchema` on a body: every field required. */
  function CreateViolations(b: UserBody, isEmail: string -> bool): seq<string> {
    NameViolations(b.name, false, "Tên không được để trống")
    + EmailViolations(b.email, false, isEmail, "Email không hợp lệ")
    + AgeViolations(b.age, false, "Tuổi phải lớn hơn 0", "Tuổi không hợp lệ")
  }

  /** `UpdateUserSchema`'s body part: every field optional, default messages. */
  function UpdateBodyViolations(b: UserBody, isEmail: string -> bool): seq<string> {
    NameViolations(b.name, true, "String must contain at least 1 character(s)")
    + EmailViolations(b.email, true, isEmail, "Invalid email")
    + AgeViolations(b.age, true, "Number must be greater than or equal to 1",
                    "Number must be less than or equal to 150")
  }

  /** `UpdateUserSchema`'s params part: `id` must be a string. */
  function ParamsViolations(params: map<string, string>): seq<string> {
    if "id" in params then [] else [RequiredMessage]
  }

  /** `CreateUserSchema` on the bundle; other parts are not checked. */
  function CreateSchema(isEmail: string -> bool): Bundle -> seq<string> {
    (b: Bundle) => CreateViolations(b.body, isEmail)
  }

  /** `UpdateUserSchema` on the bundle: params first, then body. */
  function UpdateSchema(isEmail: string -> bool): Bundle -> seq<string> {
    (b: Bundle) => ParamsViolations(b.params) + UpdateBodyViolations(b.body, isEmail)
  }

  /** A body a create request needs: name non-empty, email well formed, age in 1..150. */
  predicate CreatableBody(b: UserBody, isEmail: string -> bool) {
    && b.name.Given? && |b.name.value| >= 1
    && b.email.Given? && isEmail(b.email.value)
    && b.age.Given? && 1 <= b.age.value <= 150
  }

  /** A body an update request needs: each present field has the right type
      and obeys the same bounds as on create. */
  predicate UpdatableBody(b: UserBody, isEmail: string -> bool) {
    && (b.name.Missing? || (b.name.Given? && |b.name.value| >= 1))
    && (b.email.Missing? || (b.email.Given? && isEmail(b.email.value)))
    && (b.age.Missing? || (b.age.Given? && 1 <= b.age.value <= 150))
  }

  /** The create schema accepts exactly the creatable bodies. */
  lemma CreateAcceptsExactly(b: UserBody, isEmail: string -> bool)
    ensures CreateViolations(b, isEmail) == [] <==> CreatableBody(b, isEmail)
  {
  }

  /** The update schema accepts exactly the updatable bodies (the route
      always supplies `id`). */
  lemma UpdateAcceptsExactly(b: UserBody, isEmail: string -> bool)
    ensures UpdateBodyViolations(b, isEmail) == [] <==> UpdatableBody(b, isEmail)
  {
  }

  /** On a path that carries an id, the update schema reports exactly the
      body's violations. */
  lemma UpdateSchemaWithId(bundle: Bundle, isEmail: string -> bool)
    requires "id" in bundle.params
    ensures UpdateSchema(isEmail)(bundle) == UpdateBodyViolations(bundle.body, isEmail)
  {
    assert ParamsViolations(bundle.params) == [];
  }

  /** An empty update body passes. */
  lemma EmptyUpdatePasses(isEmail: string -> bool, query: map<string, string>, id: string)
    ensures UpdateSchema(isEmail)(Bundle(UserBody(Missing, Missing, Missing), query, map["id" := id])) == []
  {
  }

  /** The age rule of the create schema: below 1 and above 150 have their own
      messages, and 1..150 reports nothing. */
  lemma CreateAgeRule(n: int)
    ensures n < 1 ==> AgeViolations(Given(n), false, "Tuổi phải lớn hơn 0", "Tuổi không hợp lệ") == ["Tuổi phải lớn hơn 0"]
    ensures n > 150 ==> AgeViolations(Given(n), false, "Tuổi phải lớn hơn 0", "Tuổi không hợp lệ") == ["Tuổi không hợp lệ"]
    ensures 1 <= n <= 150 ==> AgeViolations(Given(n), false, "Tuổi phải lớn hơn 0", "Tuổi không hợp lệ") == []
  {
  }

  /** A body with an empty name, a malformed email and age 0 reports all
      three violations, in field order. */
  lemma CreateReportsEveryViolation(email: string, isEmail: string -> bool)
    requires !isEmail(email)
    ensures CreateViolations(UserBody(Given(""), Given(email), Given(0)), isEmail)
            == ["Tên không được để trống", "Email không hợp lệ", "Tuổi phải lớn hơn 0"]
  {
  }

  /** Missing fields are each reported on create. */
  lemma CreateRequiresEveryField(isEmail: string -> bool)
    ensures CreateViolations(UserBody(Missing, Missing, Missing), isEmail)
            == [RequiredMessage, RequiredMessage, RequiredMessage]
  {
  }
}
