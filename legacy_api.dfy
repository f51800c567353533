/** The older Flask server of backend/app.py, over the same `users` collection as app.py.
    Its routes index the request body without checking it first: a missing field raises
    KeyError, which no handler catches, and Flask answers 500. */
module LegacyApi {
  import opened Shared
  import opened Validators
  import opened Api

  const InternalError := "Internal Server Error"

  datatype LegacyRegistration = LegacyRegistration(message: string, token: AccessToken, tokenType: string)

  /** The document the older register inserts (backend/app.py:47-52): no name, no onboarding flag. */
  function LegacyUser(body: Body, hashed: Hash, id: Id): (u: UserDoc)
    requires "email" in body && "role" in body
    ensures u.name.None? && u.onboardingComplete.None?
    ensures u.email == body["email"] && u.role == body["role"] && u.password == hashed && u.id == id
  {
    UserDoc(id, None, body["email"], hashed, body["role"], None)
  }

  /** register (backend/app.py:34-64). `hashed` is bcrypt's hash of the password and `newId`
      the ObjectId the driver assigns. */
  method Register(db: Database, body: Body, hashed: Hash, newId: Id) returns (r: Reply<LegacyRegistration>)
    requires db.Valid()
    requires FindUser(db.users, ById(newId)).None?
    modifies db
    ensures db.Valid() && db.appointments == old(db.appointments)
    ensures r.Fail? ==> db.users == old(db.users)
    ensures "email" !in body ==> r == Fail(500, InternalError)
    ensures "email" in body && FindUser(old(db.users), ByEmail(body["email"])).Some? ==>
      r == Fail(400, "Email already registered")
    ensures "email" in body && FindUser(old(db.users), ByEmail(body["email"])).None? ==>
      if "password" in body && "role" in body then
        && r == Ok(201, LegacyRegistration("User registered successfully", AccessToken(body["email"]), "bearer"))
        && db.users == old(db.users) + [LegacyUser(body, hashed, newId)]
      else r == Fail(500, InternalError)
  {
    if "email" !in body {
      return Fail(500, InternalError);
    }
    if FindUser(db.users, ByEmail(body["email"])).Some? {
      return Fail(400, "Email already registered");
    }
    if "password" !in body || "role" !in body {
      return Fail(500, InternalError);
    }
    db.users := db.users + [LegacyUser(body, hashed, newId)];
    r := Ok(201, LegacyRegistration("User registered successfully", AccessToken(body["email"]), "bearer"));
  }

  datatype LegacyLoginUser = LegacyLoginUser(email: string, role: string)
  datatype LegacyGrant = LegacyGrant(token: AccessToken, tokenType: string, user: LegacyLoginUser)

  /** login (backend/app.py:66-89): the e-mail and the password decide; the role is not asked for. */
  function Login(users: seq<UserDoc>, body: Body, checkpw: PasswordCheck): (r: Reply<LegacyGrant>)
    ensures r.status == 500 <==>
      "email" !in body || (FindUser(users, ByEmail(body["email"])).Some? && "password" !in body)
    ensures r.status == 401 ==> r == Fail(401, "Invalid credentials")
    ensures r.status == 401 <==>
      && "email" in body
      && match FindUser(users, ByEmail(body["email"]))
         case None => true
         case Some(k) => "password" in body && !checkpw(body["password"], users[k].password)
    ensures r.Ok? ==>
      && "email" in body && "password" in body
      && var k := FindUser(users, ByEmail(body["email"])).value;
      && checkpw(body["password"], users[k].password)
      && r == Ok(200, LegacyGrant(AccessToken(users[k].email), "bearer", LegacyLoginUser(users[k].email, users[k].role)))
    ensures r.status == 500 ==> r == Fail(500, InternalError)
    ensures r.Fail? ==> r.status in {401, 500}
  {
    if "email" !in body then Fail(500, InternalError)
    else match FindUser(users, ByEmail(body["email"]))
      case None => Fail(401, "Invalid credentials")
      case Some(k) =>
        if "password" !in body then Fail(500, InternalError)
        else if !checkpw(body["password"], users[k].password) then Fail(401, "Invalid credentials")
        else
          var u := users[k];
          Ok(200, LegacyGrant(AccessToken(u.email), "bearer", LegacyLoginUser(u.email, u.role)))
  }

  /** The older login lets a user in under any requested role. */
  lemma LoginIgnoresRole(users: seq<UserDoc>, body: Body, checkpw: PasswordCheck, role: string)
    ensures Login(users, body, checkpw) == Login(users, body["role" := role], checkpw)
  {
  }

  /** get_profile (backend/app.py:91-113). The route hands the stored document, with its
      password removed but its ObjectId `_id` left as it is, to `jsonify`, which cannot encode
      an ObjectId and raises TypeError. Only JWTError is caught, so Flask answers 500 for
      every user the route finds: it never returns a profile. */
  function GetProfile(users: seq<UserDoc>, header: Option<string>, decode: Decoder): (r: Reply<Profile>)
    ensures r.Fail?
    ensures r.status == 401 <==> BearerToken(header).None? || decode(BearerToken(header).value).None?
    ensures r.status == 401 ==> r == Fail(401, "Invalid token")
    ensures r.status == 404 <==>
      && BearerToken(header).Some? && decode(BearerToken(header).value).Some?
      && var sub := decode(BearerToken(header).value).value.sub;
      && (sub.None? || FindUser(users, ByEmail(sub.value)).None?)
    ensures r.status == 404 ==> r == Fail(404, "User not found")
    ensures r.status == 500 <==>
      && BearerToken(header).Some? && decode(BearerToken(header).value).Some?
      && var sub := decode(BearerToken(header).value).value.sub;
      && sub.Some? && FindUser(users, ByEmail(sub.value)).Some?
    ensures r.status == 500 ==> r == Fail(500, InternalError)
  {
    match BearerToken(header)
    case None => Fail(401, "Invalid token")
    case Some(token) =>
      match decode(token)
      case None => Fail(401, "Invalid token")
      case Some(payload) =>
        match payload.sub
        case None => Fail(404, "User not found")
        case Some(email) =>
          match FindUser(users, ByEmail(email))
          case None => Fail(404, "User not found")
          case Some(_) => Fail(500, InternalError)
  }

  /** A user the older server registered has no name, so app.py's login, once the password
      and the role check out, fails building its answer and replies 500. */
  lemma {:induction false} LegacyUserCannotLogInToApp(
    users: seq<UserDoc>, body: Body, hashed: Hash, id: Id, checkpw: PasswordCheck)
    requires HasFields(body, LoginFields)
    requires FindUser(users, ByEmail(body["email"])).None?
    requires checkpw(body["password"], hashed)
    ensures Api.Login(users + [LegacyUser(body, hashed, id)], body, checkpw) == Fail(500, "'name'")
  {
    FindUserAppend(users, LegacyUser(body, hashed, id), ByEmail(body["email"]));
  }
}
