/** The pydantic request bodies of the admin endpoints: `min_length=8` on the password,
    then a `strong_password` validator that asks for a digit and an uppercase letter. */
module AuthSchemas {
  import opened Common
  import opened Strings
  import opened UserSchemas

  /** The `strong_password` validator of `AdminCreate`: it has no length rule of its own. */
  function AdminPasswordRule(v: string): (m: Option<string>)
    ensures m.None? <==> (exists i :: 0 <= i < |v| && IsDigit(v[i])) && (exists i :: 0 <= i < |v| && IsUpper(v[i]))
    ensures m.Some? ==> m.value in {NoDigit, NoUppercase}
  {
    if !AnyChar(v, IsDigit) then Some(NoDigit)
    else if !AnyChar(v, IsUpper) then Some(NoUppercase)
    else None
  }

  /** The `password` field of `AdminCreate`. */
  function AdminPasswordProblems(v: string): (r: seq<Problem>)
    ensures r == [] <==> |v| >= 8 && (exists i :: 0 <= i < |v| && IsDigit(v[i]))
                                  && (exists i :: 0 <= i < |v| && IsUpper(v[i]))
  {
    if |v| < 8 then [Problem("password", MinLength(8))]
    else
      match AdminPasswordRule(v)
      case None => []
      case Some(m) => [Problem("password", Rule(m))]
  }

  /** Admin and user passwords are held to the same rules, with the same messages. */
  lemma SamePasswordRules(v: string)
    ensures AdminPasswordProblems(v) == UserPasswordProblems(v)
  {
    if |v| >= 8 {
      assert AdminPasswordRule(v) == StrongPasswordRule(v);
    }
  }

  datatype AdminCreate = AdminCreate(email: string, password: string)

  /** An accepted body carries `EmailStr`'s normalised address and the password as sent. */
  function ValidateAdminCreate(a: AdminCreate, isEmail: string -> bool, normalize: string -> string): (r: Result<AdminCreate>)
    ensures r.Ok? <==> isEmail(a.email) && |a.password| >= 8
                       && (exists i :: 0 <= i < |a.password| && IsDigit(a.password[i]))
                       && (exists i :: 0 <= i < |a.password| && IsUpper(a.password[i]))
    ensures r.Ok? ==> r.value == a.(email := normalize(a.email))
  {
    Validated(a.(email := normalize(a.email)), EmailField("email", a.email, isEmail) + AdminPasswordProblems(a.password))
  }

  datatype LoginAdmin = LoginAdmin(email: string, password: string)

  function ValidateLoginAdmin(l: LoginAdmin, isEmail: string -> bool, normalize: string -> string): (r: Result<LoginAdmin>)
    ensures r.Ok? <==> isEmail(l.email) && |l.password| >= 8
    ensures r.Ok? ==> r.value == l.(email := normalize(l.email))
  {
    Validated(l.(email := normalize(l.email)), EmailField("email", l.email, isEmail)
                 + (if |l.password| < 8 then [Problem("password", MinLength(8))] else []))
  }
}
