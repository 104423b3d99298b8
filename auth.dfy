/** The `/auth` router: registration, login with a signed role-bearing token, and
    the caller's own profile. Password hashing and token signing live in a
    security module that is not part of this model: they are parameters here. */
module AuthRouter {
  import opened Common
  import opened Models

  datatype RegisterRequest = RegisterRequest(smartId: string, fullName: string, password: string, role: string,
                                             bloodGroup: Option<string>)

  datatype LoginRequest = LoginRequest(smartId: string, password: string)

  /** The claims the access token carries: the subject's smart id and role. */
  datatype TokenPayload = TokenPayload(sub: string, role: string)

  datatype LoginResponse = LoginResponse(accessToken: TokenPayload, tokenType: string, role: string)

  const InvalidCredentials := HttpError(401, "Invalid credentials")

  /** `User(...)` as built by register: the password is stored only as its hash. */
  function NewUser(req: RegisterRequest, hash: string -> string, now: Timestamp): (u: User)
    ensures u.smartId == req.smartId && u.passwordHash == hash(req.password)
  {
    User(req.smartId, req.fullName, hash(req.password), req.role, req.bloodGroup, now)
  }

  /** A user found by smart id after appending `u` is the earlier one of that id, if any, else `u`. */
  lemma {:induction false} FindUserAppend(users: seq<User>, u: User, sid: string)
    ensures FindUser(users + [u], sid)
         == if FindUser(users, sid).Some? then FindUser(users, sid) else if u.smartId == sid then Some(u) else None
  {
    if users != [] {
      assert (users + [u])[1..] == users[1..] + [u];
      FindUserAppend(users[1..], u, sid);
    } else {
      assert (users + [u])[1..] == [];
    }
  }

  /** POST /auth/register. */
  method Register(db: Database, req: RegisterRequest, hash: string -> string, now: Timestamp) returns (r: Result<string>)
    requires db.Valid()
    modifies db`users
    ensures db.Valid()
    ensures FindUser(old(db.users), req.smartId).Some? ==>
      r == Err(HttpError(400, "Smart Identifier already registered")) && db.users == old(db.users)
    ensures FindUser(old(db.users), req.smartId).None? ==>
      r == Ok("User registered successfully") && db.users == old(db.users) + [NewUser(req, hash, now)]
  {
    var existing := FindUser(db.users, req.smartId);
    if existing.Some? {
      return Err(HttpError(400, "Smart Identifier already registered"));
    }
    db.users := db.users + [NewUser(req, hash, now)];
    r := Ok("User registered successfully");
  }

  /** POST /auth/login: an unknown id and a wrong password give the same 401. */
  function Login(users: seq<User>, req: LoginRequest, verify: (string, string) -> bool): (r: Result<LoginResponse>)
    ensures r.Err? <==> FindUser(users, req.smartId).None? || !verify(req.password, FindUser(users, req.smartId).value.passwordHash)
    ensures r.Err? ==> r.error == InvalidCredentials
    ensures r.Ok? ==> exists u :: u in users && u.smartId == req.smartId && verify(req.password, u.passwordHash)
                                   && r.value == LoginResponse(TokenPayload(u.smartId, u.role), "bearer", u.role)
  {
    match FindUser(users, req.smartId)
    case None => Err(InvalidCredentials)
    case Some(u) =>
      if !verify(req.password, u.passwordHash) then Err(InvalidCredentials)
      else Ok(LoginResponse(TokenPayload(u.smartId, u.role), "bearer", u.role))
  }

  /** GET /auth/me for the holder of a token with subject `token.sub`. */
  function Me(users: seq<User>, token: TokenPayload): (r: Result<Profile>)
    ensures FindUser(users, token.sub).None? <==> r == Err(HttpError(404, "User not found"))
    ensures r.Err? <==> FindUser(users, token.sub).None?
    ensures FindUser(users, token.sub).Some? ==>
      var u := FindUser(users, token.sub).value;
      r == Ok(Profile(u.fullName, token.sub, u.role, u.bloodGroup, u.createdAt))
    ensures r.Ok? ==> exists u :: u in users && u.smartId == token.sub
                                   && r.value == Profile(u.fullName, u.smartId, u.role, u.bloodGroup, u.createdAt)
  {
    match FindUser(users, token.sub)
    case None => Err(HttpError(404, "User not found"))
    case Some(u) => Ok(Profile(u.fullName, u.smartId, u.role, u.bloodGroup, u.createdAt))
  }

  /** Registering a new smart id and then logging in with the same password yields a
      token for that id and the registered role, whenever `verify` accepts the hash
      `hash` made of the password. */
  lemma RegisterThenLogin(users: seq<User>, req: RegisterRequest, hash: string -> string, verify: (string, string) -> bool,
                          now: Timestamp)
    requires FindUser(users, req.smartId).None?
    requires verify(req.password, hash(req.password))
    ensures Login(users + [NewUser(req, hash, now)], LoginRequest(req.smartId, req.password), verify)
         == Ok(LoginResponse(TokenPayload(req.smartId, req.role), "bearer", req.role))
  {
    FindUserAppend(users, NewUser(req, hash, now), req.smartId);
  }

  /** The token issued at login leads `me` back to the same user's profile. */
  lemma LoginThenMe(users: seq<User>, req: LoginRequest, verify: (string, string) -> bool)
    requires Login(users, req, verify).Ok?
    ensures Me(users, Login(users, req, verify).value.accessToken)
         == Ok(Profile(FindUser(users, req.smartId).value.fullName, req.smartId, Login(users, req, verify).value.role,
                       FindUser(users, req.smartId).value.bloodGroup, FindUser(users, req.smartId).value.createdAt))
  {
  }

  /** Registering one smart id changes the lookup of no other smart id. */
  lemma RegisterLeavesOtherIds(users: seq<User>, req: RegisterRequest, hash: string -> string, now: Timestamp, sid: string)
    requires FindUser(users, req.smartId).None?
    requires sid != req.smartId
    ensures FindUser(users + [NewUser(req, hash, now)], sid) == FindUser(users, sid)
  {
    FindUserAppend(users, NewUser(req, hash, now), sid);
  }
}
