/** The pydantic request bodies of the user endpoints: the length bounds of `Field(...)`,
    the `strong_password` validator and the phone normalisation of an enquiry.

    Pydantic checks every field and reports all the fields that fail; a field's own
    validator runs only once its `Field` constraints hold. `EmailStr` is an outside
    library and is two parameters here: `isEmail`, its syntax check, and `normalize`, the
    address it hands on once the check passes (display name dropped, blanks stripped,
    domain lower-cased). */
module UserSchemas {
  import opened Common
  import opened Strings

  /** A constraint a field value broke. */
  datatype Constraint = MinLength(n: nat) | MaxLength(n: nat) | EmailFormat | Rule(message: string)

  datatype Problem = Problem(field: string, broken: Constraint)

  /** `any(p(c) for c in v)`. */
  function AnyChar(v: string, p: char -> bool): (b: bool)
    ensures b <==> exists i :: 0 <= i < |v| && p(v[i])
    decreases |v|
  {
    if v == [] then false
    else if p(v[0]) then true
    else
      var b := AnyChar(v[1..], p);
      assert forall i :: 1 <= i < |v| ==> v[i] == v[1..][i - 1];
      b
  }

  const ShortPassword := "Password must be at least 8 characters"
  const NoDigit := "Password must contain a number"
  const NoUppercase := "Password must contain an uppercase letter"

  /** The `strong_password` validator of `UserCreate`: the message of the first rule the
      password breaks, or `None` when it returns the password. */
  function StrongPasswordRule(v: string): (m: Option<string>)
    ensures m.None? <==> |v| >= 8 && (exists i :: 0 <= i < |v| && IsDigit(v[i]))
                                   && (exists i :: 0 <= i < |v| && IsUpper(v[i]))
    ensures m.Some? ==> m.value in {ShortPassword, NoDigit, NoUppercase}
  {
    if |v| < 8 then Some(ShortPassword)
    else if !AnyChar(v, IsDigit) then Some(NoDigit)
    else if !AnyChar(v, IsUpper) then Some(NoUppercase)
    else None
  }

  /** A string field with `min_length=lo` and `max_length=hi`. */
  function Bounded(field: string, s: string, lo: nat, hi: nat): (r: seq<Problem>)
    ensures r == [] <==> lo <= |s| <= hi
    ensures forall k :: 0 <= k < |r| ==> r[k].field == field
  {
    if |s| < lo then [Problem(field, MinLength(lo))]
    else if |s| > hi then [Problem(field, MaxLength(hi))]
    else []
  }

  function EmailField(field: string, s: string, isEmail: string -> bool): (r: seq<Problem>)
    ensures r == [] <==> isEmail(s)
  {
    if isEmail(s) then [] else [Problem(field, EmailFormat)]
  }

  /** The `password` field of `UserCreate`: `min_length=8`, then `strong_password`. */
  function UserPasswordProblems(v: string): (r: seq<Problem>)
    ensures r == [] <==> |v| >= 8 && (exists i :: 0 <= i < |v| && IsDigit(v[i]))
                                  && (exists i :: 0 <= i < |v| && IsUpper(v[i]))
    ensures |r| <= 1 && forall k :: 0 <= k < |r| ==> r[k].field == "password"
  {
    if |v| < 8 then [Problem("password", MinLength(8))]
    else
      match StrongPasswordRule(v)
      case None => []
      case Some(m) => [Problem("password", Rule(m))]
  }

  /** The validator's own length rule never fires: `min_length=8` has refused every
      password it would refuse. */
  lemma ValidatorLengthRuleUnreachable(v: string)
    ensures Problem("password", Rule(ShortPassword)) !in UserPasswordProblems(v)
  {
  }

  /** The names of the fields that failed, as the 422 response lists them. */
  function FieldsOf(problems: seq<Problem>): (r: seq<string>)
    ensures |r| == |problems|
    ensures forall k :: 0 <= k < |r| ==> r[k] == problems[k].field
  {
    seq(|problems|, k requires 0 <= k < |problems| => problems[k].field)
  }

  /** A body that passes every check is accepted as it was sent; otherwise the request
      ends with 422 and the failing fields. */
  function Validated<T>(body: T, problems: seq<Problem>): (r: Result<T>)
    ensures r.Ok? <==> problems == []
    ensures r.Ok? ==> r.value == body
    ensures r.Err? ==> r.error == ValidationFailed(FieldsOf(problems))
  {
    if problems == [] then Ok(body) else Err(ValidationFailed(FieldsOf(problems)))
  }

  // ---------------------------------------------------------------- UserCreate

  datatype UserCreate = UserCreate(name: string, phone: string, email: string, password: string)

  function UserCreateProblems(u: UserCreate, isEmail: string -> bool): (r: seq<Problem>)
    ensures r == [] <==>
      3 <= |u.name| <= 50 && 10 <= |u.phone| <= 12 && isEmail(u.email)
      && |u.password| >= 8 && (exists i :: 0 <= i < |u.password| && IsDigit(u.password[i]))
      && (exists i :: 0 <= i < |u.password| && IsUpper(u.password[i]))
  {
    Bounded("name", u.name, 3, 50) + Bounded("phone", u.phone, 10, 12)
    + EmailField("email", u.email, isEmail) + UserPasswordProblems(u.password)
  }

  /** An accepted body carries the normalised address; every other field is as sent. */
  function ValidateUserCreate(u: UserCreate, isEmail: string -> bool, normalize: string -> string): (r: Result<UserCreate>)
    ensures r.Ok? <==> UserCreateProblems(u, isEmail) == []
    ensures r.Ok? ==> r.value == u.(email := normalize(u.email))
  {
    Validated(u.(email := normalize(u.email)), UserCreateProblems(u, isEmail))
  }

  // ---------------------------------------------------------------- UserLogin

  datatype UserLogin = UserLogin(email: string, password: string)

  function ValidateUserLogin(l: UserLogin, isEmail: string -> bool, normalize: string -> string): (r: Result<UserLogin>)
    ensures r.Ok? <==> isEmail(l.email) && |l.password| >= 8
    ensures r.Ok? ==> r.value == l.(email := normalize(l.email))
  {
    Validated(l.(email := normalize(l.email)), EmailField("email", l.email, isEmail)
                 + (if |l.password| < 8 then [Problem("password", MinLength(8))] else []))
  }

  // ---------------------------------------------------------------- EnquiryCreate

  /** The `phone` of an enquiry arrives as a string or as a JSON number. */
  datatype PhoneInput = PhoneText(text: string) | PhoneNumber(number: int)

  /** The `normalize_phone` pre-validator: `str(v)`. */
  function NormalizePhone(p: PhoneInput): (s: string)
    ensures p.PhoneText? ==> s == p.text
    ensures p.PhoneNumber? ==> |s| >= 1 && ParseIntJs(s) == Some(p.number)
  {
    match p
    case PhoneText(t) => t
    case PhoneNumber(n) => ParseIntOfIntToString(n); IntToString(n)
  }

  /** Distinct phone numbers stay distinct once written out. */
  lemma NormalizePhoneInjective(a: int, b: int)
    requires NormalizePhone(PhoneNumber(a)) == NormalizePhone(PhoneNumber(b))
    ensures a == b
  {
    assert ParseIntJs(NormalizePhone(PhoneNumber(a))) == Some(a);
  }

  datatype EnquiryBody = EnquiryBody(
    name: string, phone: PhoneInput, email: string, company: Option<string>, message: string)

  datatype EnquiryCreate = EnquiryCreate(
    name: string, phone: string, email: string, company: Option<string>, message: string)

  function EnquiryProblems(e: EnquiryBody, isEmail: string -> bool): (r: seq<Problem>)
    ensures r == [] <==> 3 <= |e.name| <= 100 && isEmail(e.email) && 10 <= |e.message| <= 1000
  {
    Bounded("name", e.name, 3, 100) + EmailField("email", e.email, isEmail)
    + Bounded("message", e.message, 10, 1000)
  }

  /** `EnquiryCreate`: the phone is normalised before anything is checked, and the
      company is optional. */
  function ValidateEnquiry(e: EnquiryBody, isEmail: string -> bool, normalize: string -> string): (r: Result<EnquiryCreate>)
    ensures r.Ok? <==> 3 <= |e.name| <= 100 && isEmail(e.email) && 10 <= |e.message| <= 1000
    ensures r.Ok? ==> r.value.phone == NormalizePhone(e.phone) && r.value.email == normalize(e.email)
    ensures r.Ok? ==> r.value.name == e.name && r.value.company == e.company && r.value.message == e.message
  {
    Validated(EnquiryCreate(e.name, NormalizePhone(e.phone), normalize(e.email), e.company, e.message),
              EnquiryProblems(e, isEmail))
  }
}
