/** The user endpoints: registration with a unique e-mail, login, and the enquiry form.
    bcrypt (`Hash.hash`, `Hash.verify`) and token signing are parameters: `hash` and
    `verify` stand for the password hashing, `sign` for `create_access_token`. */
module UserRouter {
  import opened Common
  import opened Tables
  import opened Models
  import opened UserSchemas

  const EmailTaken := BadRequest("Email already registered")
  const BadCredentials := Unauthorized("Invalid email or password")

  /** The row `register_user` inserts: the password is stored hashed. */
  function NewUser(id: int, u: UserCreate, hash: string -> string): User {
    User(id, u.name, u.phone, u.email, hash(u.password))
  }

  /** A new user with an unused e-mail under the next id keeps the database consistent;
      orders that name a user keep naming one. */
  lemma RegisterUserKeepsConsistent(st: Store, x: User)
    requires Consistent(st) && x.id == st.nextUserId && x.email !in Keys(st.users, UserEmail)
    ensures Consistent(st.(users := st.users + [x], nextUserId := st.nextUserId + 1))
  {
    AppendFreshKey(st.users, UserKey, st.nextUserId, x);
    AppendFreshUnique(st.users, UserEmail, x);
    var users := st.users + [x];
    forall k | 0 <= k < |st.orders| ensures OrderRefsOk(st.orders[k], users, st.products, st.readymade) {
      assert OrderRefsOk(st.orders[k], st.users, st.products, st.readymade);
    }
  }

  /** `register_user`. */
  method RegisterUser(db: Session, u: UserCreate, hash: string -> string) returns (r: Result<string>)
    requires db.Valid()
    modifies db
    ensures db.Valid()
    ensures u.email in Keys(old(db.store.users), UserEmail) ==>
      r == Err(EmailTaken) && db.store == old(db.store)
    ensures u.email !in Keys(old(db.store.users), UserEmail) ==>
      var st := old(db.store);
      r == Ok("User registered successfully")
      && db.store == st.(users := st.users + [NewUser(st.nextUserId, u, hash)], nextUserId := st.nextUserId + 1)
  {
    var st := db.store;
    if Find(st.users, UserEmail, u.email).Some? {
      return Err(EmailTaken);
    }
    var x := NewUser(st.nextUserId, u, hash);
    RegisterUserKeepsConsistent(st, x);
    db.store := st.(users := st.users + [x], nextUserId := st.nextUserId + 1);
    r := Ok("User registered successfully");
  }

  /** `login_user`: the first user with that e-mail, if its stored hash verifies. */
  function LoginUser(users: seq<User>, l: UserLogin, verify: (string, string) -> bool,
                     sign: Claims -> string): (r: Result<Token>)
    ensures l.email !in Keys(users, UserEmail) ==> r == Err(BadCredentials)
    ensures r.Err? ==> r.error == BadCredentials
    ensures r.Ok? ==> r.value == Token(sign(Claims(l.email, "user")), "bearer")
    ensures r.Ok? ==> exists i :: 0 <= i < |users| && users[i].email == l.email && verify(users[i].password, l.password)
  {
    match Find(users, UserEmail, l.email)
    case None => Err(BadCredentials)
    case Some(i) =>
      if verify(users[i].password, l.password)
      then Ok(Token(sign(Claims(users[i].email, "user")), "bearer"))
      else Err(BadCredentials)
  }

  /** With unique e-mails, login succeeds exactly for a user whose stored hash verifies
      the given password. */
  lemma LoginUserIff(users: seq<User>, l: UserLogin, verify: (string, string) -> bool, sign: Claims -> string)
    requires KeysDistinct(users, UserEmail)
    ensures LoginUser(users, l, verify, sign).Ok? <==>
      exists i :: 0 <= i < |users| && users[i].email == l.email && verify(users[i].password, l.password)
  {
    if i :| 0 <= i < |users| && users[i].email == l.email && verify(users[i].password, l.password) {
      FindUnique(users, UserEmail, l.email, i);
    }
  }

  /** A user who has just registered can log in with the same password, provided the
      hash verifies the password it was made from. */
  lemma RegisterThenLogin(users: seq<User>, id: int, u: UserCreate, hash: string -> string,
                          verify: (string, string) -> bool, sign: Claims -> string)
    requires KeysDistinct(users, UserEmail) && u.email !in Keys(users, UserEmail)
    requires verify(hash(u.password), u.password)
    ensures LoginUser(users + [NewUser(id, u, hash)], UserLogin(u.email, u.password), verify, sign)
            == Ok(Token(sign(Claims(u.email, "user")), "bearer"))
  {
    var x := NewUser(id, u, hash);
    AppendFreshUnique(users, UserEmail, x);
    FindUnique(users + [x], UserEmail, u.email, |users|);
  }

  /** The row `submit_enquiry` inserts; `created_at` takes its column default, now. */
  function NewEnquiry(id: int, e: EnquiryCreate, now: Timestamp): Enquiry {
    Enquiry(id, now, e.name, e.phone, e.company, e.email, e.message)
  }

  datatype EnquirySubmitted = EnquirySubmitted(message: string, mails: seq<Mail>)

  lemma SubmitEnquiryKeepsConsistent(st: Store, x: Enquiry)
    requires Consistent(st) && x.id == st.nextEnquiryId
    ensures Consistent(st.(enquiries := st.enquiries + [x], nextEnquiryId := st.nextEnquiryId + 1))
  {
    AppendFreshKey(st.enquiries, EnquiryKey, st.nextEnquiryId, x);
  }

  /** `submit_enquiry`: one new enquiry carrying every submitted field, a confirmation to
      the sender and a notification to the address in `ADMIN_EMAIL` (`None` when unset). */
  method SubmitEnquiry(db: Session, e: EnquiryCreate, adminEmail: Option<string>, now: Timestamp)
    returns (r: EnquirySubmitted)
    requires db.Valid()
    modifies db
    ensures db.Valid()
    ensures var st := old(db.store);
      db.store == st.(enquiries := st.enquiries + [NewEnquiry(st.nextEnquiryId, e, now)],
                      nextEnquiryId := st.nextEnquiryId + 1)
    ensures r.message == "Enquiry submitted successfully"
    ensures r.mails == [Mail(Some(e.email), EnquiryReceived), Mail(adminEmail, EnquiryNotification)]
  {
    var st := db.store;
    var x := NewEnquiry(st.nextEnquiryId, e, now);
    SubmitEnquiryKeepsConsistent(st, x);
    db.store := st.(enquiries := st.enquiries + [x], nextEnquiryId := st.nextEnquiryId + 1);
    var mails := [Mail(Some(e.email), EnquiryReceived)];
    mails := mails + [Mail(adminEmail, EnquiryNotification)];
    r := EnquirySubmitted("Enquiry submitted successfully", mails);
  }
}
