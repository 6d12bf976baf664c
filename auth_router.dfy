/** The admin account endpoints: registration with a unique e-mail and login. As for
    users, `hash`, `verify` and `sign` stand for bcrypt and token signing. */
module AuthRouter {
  import opened Common
  import opened Tables
  import opened Models
  import opened AuthSchemas

  const AdminExists := BadRequest("Admin already exists")
  const BadCredentials := Unauthorized("Invalid email or password")

  function NewAdmin(id: int, a: AdminCreate, hash: string -> string): Admin {
    Admin(id, a.email, hash(a.password))
  }

  lemma RegisterAdminKeepsConsistent(st: Store, x: Admin)
    requires Consistent(st) && x.id == st.nextAdminId && x.email !in Keys(st.admins, AdminEmail)
    ensures Consistent(st.(admins := st.admins + [x], nextAdminId := st.nextAdminId + 1))
  {
    AppendFreshKey(st.admins, AdminKey, st.nextAdminId, x);
    AppendFreshUnique(st.admins, AdminEmail, x);
  }

  /** `register_admin`. */
  method RegisterAdmin(db: Session, a: AdminCreate, hash: string -> string) returns (r: Result<string>)
    requires db.Valid()
    modifies db
    ensures db.Valid()
    ensures a.email in Keys(old(db.store.admins), AdminEmail) ==>
      r == Err(AdminExists) && db.store == old(db.store)
    ensures a.email !in Keys(old(db.store.admins), AdminEmail) ==>
      var st := old(db.store);
      r == Ok("Admin registered successfully")
      && db.store == st.(admins := st.admins + [NewAdmin(st.nextAdminId, a, hash)], nextAdminId := st.nextAdminId + 1)
  {
    var st := db.store;
    if Find(st.admins, AdminEmail, a.email).Some? {
      return Err(AdminExists);
    }
    var x := NewAdmin(st.nextAdminId, a, hash);
    RegisterAdminKeepsConsistent(st, x);
    db.store := st.(admins := st.admins + [x], nextAdminId := st.nextAdminId + 1);
    r := Ok("Admin registered successfully");
  }

  /** `login_admin`. */
  function LoginAdminUser(admins: seq<Admin>, l: LoginAdmin, verify: (string, string) -> bool,
                          sign: Claims -> string): (r: Result<Token>)
    ensures l.email !in Keys(admins, AdminEmail) ==> r == Err(BadCredentials)
    ensures r.Err? ==> r.error == BadCredentials
    ensures r.Ok? ==> r.value == Token(sign(Claims(l.email, "admin")), "bearer")
    ensures r.Ok? ==> exists i :: 0 <= i < |admins| && admins[i].email == l.email && verify(admins[i].password, l.password)
  {
    match Find(admins, AdminEmail, l.email)
    case None => Err(BadCredentials)
    case Some(i) =>
      if verify(admins[i].password, l.password)
      then Ok(Token(sign(Claims(admins[i].email, "admin")), "bearer"))
      else Err(BadCredentials)
  }

  /** With unique e-mails, login succeeds exactly for an admin whose stored hash
      verifies the given password. */
  lemma LoginAdminIff(admins: seq<Admin>, l: LoginAdmin, verify: (string, string) -> bool, sign: Claims -> string)
    requires KeysDistinct(admins, AdminEmail)
    ensures LoginAdminUser(admins, l, verify, sign).Ok? <==>
      exists i :: 0 <= i < |admins| && admins[i].email == l.email && verify(admins[i].password, l.password)
  {
    if i :| 0 <= i < |admins| && admins[i].email == l.email && verify(admins[i].password, l.password) {
      FindUnique(admins, AdminEmail, l.email, i);
    }
  }

  /** An admin who has just registered can log in with the same password. */
  lemma RegisterThenLoginAdmin(admins: seq<Admin>, id: int, a: AdminCreate, hash: string -> string,
                               verify: (string, string) -> bool, sign: Claims -> string)
    requires KeysDistinct(admins, AdminEmail) && a.email !in Keys(admins, AdminEmail)
    requires verify(hash(a.password), a.password)
    ensures LoginAdminUser(admins + [NewAdmin(id, a, hash)], LoginAdmin(a.email, a.password), verify, sign)
            == Ok(Token(sign(Claims(a.email, "admin")), "bearer"))
  {
    var x := NewAdmin(id, a, hash);
    AppendFreshUnique(admins, AdminEmail, x);
    FindUnique(admins + [x], AdminEmail, a.email, |admins|);
  }
}
