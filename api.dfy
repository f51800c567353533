/** The Flask server of app.py: its `users` and `appointments` collections and the routes over them.
    MongoDB is two sequences of documents in insertion order, so `find_one` returns the first
    match. bcrypt and the JWT library are parameters: `checkpw` and `decode`. */
module Api {
  import opened Shared
  import opened Validators

  type Id = string
  type Hash = string

  /** A request's JSON object: the keys present are the fields the client sent. */
  type Body = map<string, string>

  /** The claims of a decoded token. */
  datatype Payload = Payload(sub: Option<string>)

  /** `jwt.decode` with the server secret: None when the token is malformed, forged or expired. */
  type Decoder = string -> Option<Payload>

  /** `bcrypt.checkpw`. */
  type PasswordCheck = (string, Hash) -> bool

  /** An access token issued by `create_access_token`, by its subject. */
  datatype AccessToken = AccessToken(sub: string)

  /** A document of `db.users`. The older server inserts users without `name` and
      without `onboarding_complete`, hence the two options. */
  datatype UserDoc = UserDoc(
    id: Id, name: Option<string>, email: string, password: Hash, role: string,
    onboardingComplete: Option<bool>)

  /** A user as the profile and user-list routes return it: no password hash. */
  datatype Profile = Profile(
    id: Id, name: Option<string>, email: string, role: string, onboardingComplete: Option<bool>)

  function ProfileOf(u: UserDoc): Profile {
    Profile(u.id, u.name, u.email, u.role, u.onboardingComplete)
  }

  /** A document of `db.appointments`. */
  datatype Appointment = Appointment(
    id: Id, patientId: Id, doctorId: Id, date: string, time: string, reason: string,
    status: string, doctorNotes: Option<string>)

  /** A route's answer: a JSON value with a success status, or `{"error": ...}` with an error status. */
  datatype Reply<T> = Ok(status: int, value: T) | Fail(status: int, error: string)

  /** An early return of a route, before anything is written. */
  datatype Rejection = Rejection(status: int, message: string)

  const Roles: set<string> := {"admin", "doctor", "nurse", "patient"}

  predicate HasFields(body: Body, fields: seq<string>) {
    forall f :: f in fields ==> f in body
  }

  // ---------------------------------------------------------------- tokens

  /** The subject `verify_token` returns, when it is one `if not user_id` lets through. */
  predicate NamesUser(p: Option<Payload>) {
    p.Some? && p.value.sub.Some? && p.value.sub.value != ""
  }

  /** The bearer check every protected route starts with (app.py:153-161, 179-187, ...):
      the user id the token names, or 401 "Invalid token". */
  function Authenticate(header: Option<string>, decode: Decoder): (r: Reply<Id>)
    ensures r.Fail? ==> r.status == 401 && r.error == "Invalid token"
    ensures r.Ok? <==> BearerToken(header).Some? && NamesUser(decode(BearerToken(header).value))
    ensures r.Ok? ==> r.status == 200 && decode(BearerToken(header).value) == Some(Payload(Some(r.value)))
  {
    match BearerToken(header)
    case None => Fail(401, "Invalid token")
    case Some(token) =>
      match decode(token)
      case None => Fail(401, "Invalid token")
      case Some(payload) =>
        match payload.sub
        case None => Fail(401, "Invalid token")
        case Some(sub) => if sub == "" then Fail(401, "Invalid token") else Ok(200, sub)
  }

  // ---------------------------------------------------------------- lookups

  datatype UserKey = ById(id: Id) | ByEmail(email: string)

  predicate Matches(u: UserDoc, key: UserKey) {
    match key
    case ById(id) => u.id == id
    case ByEmail(email) => u.email == email
  }

  /** `db.users.find_one(filter)`: the index of the first matching document. */
  function FindUser(users: seq<UserDoc>, key: UserKey): (r: Option<nat>)
    ensures r.Some? ==> r.value < |users| && Matches(users[r.value], key)
    ensures r.Some? ==> forall k :: 0 <= k < r.value ==> !Matches(users[k], key)
    ensures r.None? ==> forall k :: 0 <= k < |users| ==> !Matches(users[k], key)
  {
    if |users| == 0 then None
    else if Matches(users[0], key) then Some(0)
    else match FindUser(users[1..], key)
      case None => None
      case Some(k) => Some(k + 1)
  }

  /** `db.appointments.find_one({"_id": id})`: the index of the first appointment with that id. */
  function FindAppointment(appointments: seq<Appointment>, id: Id): (r: Option<nat>)
    ensures r.Some? ==> r.value < |appointments| && appointments[r.value].id == id
    ensures r.Some? ==> forall k :: 0 <= k < r.value ==> appointments[k].id != id
    ensures r.None? ==> forall k :: 0 <= k < |appointments| ==> appointments[k].id != id
  {
    if |appointments| == 0 then None
    else if appointments[0].id == id then Some(0)
    else match FindAppointment(appointments[1..], id)
      case None => None
      case Some(k) => Some(k + 1)
  }

  /** The `_id` index of both collections. */
  ghost predicate UniqueUserIds(users: seq<UserDoc>) {
    forall i, j :: 0 <= i < j < |users| ==> users[i].id != users[j].id
  }

  ghost predicate UniqueAppointmentIds(appointments: seq<Appointment>) {
    forall i, j :: 0 <= i < j < |appointments| ==> appointments[i].id != appointments[j].id
  }

  ghost predicate UniqueEmails(users: seq<UserDoc>) {
    forall i, j :: 0 <= i < j < |users| ==> users[i].email != users[j].email
  }

  // ---------------------------------------------------------------- register

  const RegisterFields := ["name", "email", "password", "role"]
  const PasswordRule := "Password must be at least 8 characters long and contain at least one number and one letter"

  /** The first of register's checks (app.py:57-78) that the request fails, with its message. */
  function RegistrationError(users: seq<UserDoc>, body: Body): (err: Option<string>)
    ensures err.None? <==>
      && HasFields(body, RegisterFields)
      && ValidateEmail(body["email"])
      && ValidatePassword(body["password"])
      && body["role"] in Roles
      && FindUser(users, ByEmail(body["email"])).None?
    ensures err == Some("Email already registered") <==>
      && HasFields(body, RegisterFields)
      && ValidateEmail(body["email"])
      && ValidatePassword(body["password"])
      && body["role"] in Roles
      && FindUser(users, ByEmail(body["email"])).Some?
    ensures err == Some("Missing required fields") <==> !HasFields(body, RegisterFields)
    ensures err == Some("Invalid email format") <==>
      HasFields(body, RegisterFields) && !ValidateEmail(body["email"])
    ensures err == Some(PasswordRule) <==>
      HasFields(body, RegisterFields) && ValidateEmail(body["email"]) && !ValidatePassword(body["password"])
    ensures err == Some("Invalid role") <==>
      && HasFields(body, RegisterFields)
      && ValidateEmail(body["email"])
      && ValidatePassword(body["password"])
      && body["role"] !in Roles
  {
    if !HasFields(body, RegisterFields) then Some("Missing required fields")
    else if !ValidateEmail(body["email"]) then Some("Invalid email format")
    else if !ValidatePassword(body["password"]) then Some(PasswordRule)
    else if body["role"] !in Roles then Some("Invalid role")
    else if FindUser(users, ByEmail(body["email"])).Some? then Some("Email already registered")
    else None
  }

  /** The document register inserts (app.py:85-92). */
  function NewUser(body: Body, hashed: Hash, id: Id): UserDoc
    requires HasFields(body, RegisterFields)
  {
    UserDoc(id, Some(body["name"]), body["email"], hashed, body["role"], Some(false))
  }

  datatype UserSummary = UserSummary(id: Id, name: string, email: string, role: string)
  datatype Registration = Registration(message: string, token: AccessToken, tokenType: string, user: UserSummary)

  // ---------------------------------------------------------------- login

  const LoginFields := ["email", "password", "role"]

  /** The user login finds and accepts: stored under the e-mail, the password checks out
      against the stored hash, and the stored role is the requested one (app.py:126-129). */
  predicate CredentialsMatch(users: seq<UserDoc>, body: Body, checkpw: PasswordCheck)
    requires HasFields(body, LoginFields)
  {
    match FindUser(users, ByEmail(body["email"]))
    case None => false
    case Some(k) => checkpw(body["password"], users[k].password) && users[k].role == body["role"]
  }

  datatype LoginUser = LoginUser(id: Id, name: string, email: string, role: string, onboardingComplete: bool)
  datatype LoginGrant = LoginGrant(token: AccessToken, tokenType: string, user: LoginUser)

  /** login (app.py:115-148). A document without `name` makes building the answer raise
      KeyError('name'), which the route's handler turns into 500. */
  function Login(users: seq<UserDoc>, body: Body, checkpw: PasswordCheck): (r: Reply<LoginGrant>)
    ensures r.status == 400 <==> !HasFields(body, LoginFields)
    ensures r.status == 401 <==> HasFields(body, LoginFields) && !CredentialsMatch(users, body, checkpw)
    ensures r.status == 401 ==> r == Fail(401, "Invalid credentials")
    ensures r.Ok? ==>
      && r.status == 200
      && HasFields(body, LoginFields) && CredentialsMatch(users, body, checkpw)
      && var u := users[FindUser(users, ByEmail(body["email"])).value];
      && u.name.Some?
      && r.value == LoginGrant(AccessToken(u.id), "bearer",
           LoginUser(u.id, u.name.value, u.email, u.role, u.onboardingComplete == Some(true)))
    ensures r.Ok? <==>
      && HasFields(body, LoginFields) && CredentialsMatch(users, body, checkpw)
      && users[FindUser(users, ByEmail(body["email"])).value].name.Some?
    ensures r.status == 400 ==> r == Fail(400, "Missing required fields")
    ensures r.status == 500 ==> r == Fail(500, "'name'")
    ensures r.Fail? ==> r.status in {400, 401, 500}
  {
    if !HasFields(body, LoginFields) then Fail(400, "Missing required fields")
    else if !CredentialsMatch(users, body, checkpw) then Fail(401, "Invalid credentials")
    else
      var u := users[FindUser(users, ByEmail(body["email"])).value];
      match u.name
      case None => Fail(500, "'name'")
      case Some(name) =>
        Ok(200, LoginGrant(AccessToken(u.id), "bearer",
          LoginUser(u.id, name, u.email, u.role, u.onboardingComplete.Some? && u.onboardingComplete.value)))
  }

  /** A user the older server registered has no `onboarding_complete`: login reports false. */
  lemma LoginDefaultsOnboarding(users: seq<UserDoc>, body: Body, checkpw: PasswordCheck)
    requires Login(users, body, checkpw).Ok?
    requires users[FindUser(users, ByEmail(body["email"])).value].onboardingComplete.None?
    ensures !Login(users, body, checkpw).value.user.onboardingComplete
  {
  }

  /** Registering and then logging in with the same e-mail, password and role succeeds,
      names the new user and reports onboarding as not complete. */
  lemma {:induction false} RegisterThenLogin(
    users: seq<UserDoc>, body: Body, hashed: Hash, id: Id, checkpw: PasswordCheck)
    requires RegistrationError(users, body).None?
    requires checkpw(body["password"], hashed)
    ensures var after := users + [NewUser(body, hashed, id)];
      var login := map["email" := body["email"], "password" := body["password"], "role" := body["role"]];
      && Login(after, login, checkpw).Ok?
      && Login(after, login, checkpw).value.user == LoginUser(id, body["name"], body["email"], body["role"], false)
  {
    var after := users + [NewUser(body, hashed, id)];
    var email := body["email"];
    FindUserAppend(users, NewUser(body, hashed, id), ByEmail(email));
    assert FindUser(after, ByEmail(email)) == Some(|users|);
  }

  /** find_one on a collection that grew by one document. */
  lemma {:induction false} FindUserAppend(users: seq<UserDoc>, u: UserDoc, key: UserKey)
    ensures FindUser(users + [u], key) ==
      match FindUser(users, key)
      case Some(k) => Some(k)
      case None => if Matches(u, key) then Some(|users|) else None
  {
    if |users| > 0 {
      assert (users + [u])[1..] == users[1..] + [u];
      FindUserAppend(users[1..], u, key);
    }
  }

  // ---------------------------------------------------------------- profile

  /** get_profile (app.py:150-174): the caller's own document, without the password hash. */
  function GetProfile(users: seq<UserDoc>, header: Option<string>, decode: Decoder): (r: Reply<Profile>)
    ensures r.status == 401 <==> Authenticate(header, decode).Fail?
    ensures r.status == 404 <==>
      Authenticate(header, decode).Ok? && FindUser(users, ById(Authenticate(header, decode).value)).None?
    ensures r.status == 401 ==> r == Fail(401, "Invalid token")
    ensures r.status == 404 ==> r == Fail(404, "User not found")
    ensures r.Fail? ==> r.status in {401, 404}
    ensures r.Ok? ==>
      && r.status == 200
      && r.value == ProfileOf(users[FindUser(users, ById(Authenticate(header, decode).value)).value])
      && r.value.id == Authenticate(header, decode).value
  {
    var auth := Authenticate(header, decode);
    if auth.Fail? then Fail(401, auth.error)
    else match FindUser(users, ById(auth.value))
      case None => Fail(404, "User not found")
      case Some(k) => Ok(200, ProfileOf(users[k]))
  }

  // ---------------------------------------------------------------- onboarding

  /** The effect of `update_one({"_id": id}, {"$set": {"onboarding_complete": True}})`. */
  function MarkOnboarded(users: seq<UserDoc>, id: Id): (r: seq<UserDoc>)
    ensures |r| == |users|
    ensures forall k :: 0 <= k < |users| ==>
      r[k].(onboardingComplete := users[k].onboardingComplete) == users[k]
    ensures forall k :: 0 <= k < |users| && users[k].id != id ==> r[k] == users[k]
    ensures forall k :: 0 <= k < |users| && FindUser(users, ById(id)) != Some(k) ==> r[k] == users[k]
    ensures FindUser(users, ById(id)).Some? ==>
      r[FindUser(users, ById(id)).value].onboardingComplete == Some(true)
  {
    match FindUser(users, ById(id))
    case None => users
    case Some(k) => users[k := users[k].(onboardingComplete := Some(true))]
  }

  /** find_one by a key depends only on the fields the key reads. */
  lemma FindUserSameIds(a: seq<UserDoc>, b: seq<UserDoc>, id: Id)
    requires |a| == |b|
    requires forall k :: 0 <= k < |a| ==> a[k].id == b[k].id
    ensures FindUser(a, ById(id)) == FindUser(b, ById(id))
  {
  }

  /** Completing onboarding twice has the effect of completing it once: the second
      `update_one` modifies nothing, so the route answers 404. */
  lemma MarkOnboardedIdempotent(users: seq<UserDoc>, id: Id)
    ensures MarkOnboarded(MarkOnboarded(users, id), id) == MarkOnboarded(users, id)
  {
  }

  // ---------------------------------------------------------------- appointments

  const AppointmentFields := ["doctor_id", "date", "time", "reason"]

  /** A non-cancelled appointment occupies its doctor's slot at its date and time. */
  predicate Occupies(a: Appointment, doctorId: Id, date: string, time: string) {
    a.doctorId == doctorId && a.date == date && a.time == time && a.status != "cancelled"
  }

  predicate SlotTaken(appointments: seq<Appointment>, doctorId: Id, date: string, time: string) {
    exists k :: 0 <= k < |appointments| && Occupies(appointments[k], doctorId, date, time)
  }

  /** No two non-cancelled appointments share a (doctor, date, time) slot. */
  ghost predicate SlotsUnique(appointments: seq<Appointment>) {
    forall i, j :: 0 <= i < j < |appointments| && appointments[i].status != "cancelled" ==>
      !Occupies(appointments[j], appointments[i].doctorId, appointments[i].date, appointments[i].time)
  }

  predicate IsDoctor(users: seq<UserDoc>, id: Id) {
    exists k :: 0 <= k < |users| && users[k].id == id && users[k].role == "doctor"
  }

  /** The first of create_appointment's checks (app.py:218-243) that the caller `uid` fails. */
  function BookingError(users: seq<UserDoc>, appointments: seq<Appointment>, uid: Id, body: Body): (err: Option<Rejection>)
    ensures err.None? <==>
      && FindUser(users, ById(uid)).Some? && users[FindUser(users, ById(uid)).value].role == "patient"
      && HasFields(body, AppointmentFields)
      && IsDoctor(users, body["doctor_id"])
      && !SlotTaken(appointments, body["doctor_id"], body["date"], body["time"])
    ensures err.Some? && err.value.status == 409 <==>
      && FindUser(users, ById(uid)).Some? && users[FindUser(users, ById(uid)).value].role == "patient"
      && HasFields(body, AppointmentFields)
      && IsDoctor(users, body["doctor_id"])
      && SlotTaken(appointments, body["doctor_id"], body["date"], body["time"])
    ensures err.Some? && err.value.status == 403 <==>
      FindUser(users, ById(uid)).None? || users[FindUser(users, ById(uid)).value].role != "patient"
    ensures err.Some? && err.value.status == 403 ==>
      err.value == Rejection(403, "Only patients can schedule appointments")
    ensures err == Some(Rejection(400, "Missing required fields")) <==>
      && FindUser(users, ById(uid)).Some? && users[FindUser(users, ById(uid)).value].role == "patient"
      && !HasFields(body, AppointmentFields)
    ensures err == Some(Rejection(404, "Doctor not found")) <==>
      && FindUser(users, ById(uid)).Some? && users[FindUser(users, ById(uid)).value].role == "patient"
      && HasFields(body, AppointmentFields)
      && !IsDoctor(users, body["doctor_id"])
    ensures err.Some? && err.value.status == 409 ==>
      err.value == Rejection(409, "This time slot is already booked")
    ensures err.Some? ==> err.value.status in {400, 403, 404, 409}
  {
    var me := FindUser(users, ById(uid));
    if me.None? || users[me.value].role != "patient" then
      Some(Rejection(403, "Only patients can schedule appointments"))
    else if !HasFields(body, AppointmentFields) then Some(Rejection(400, "Missing required fields"))
    else if !IsDoctor(users, body["doctor_id"]) then Some(Rejection(404, "Doctor not found"))
    else if SlotTaken(appointments, body["doctor_id"], body["date"], body["time"]) then
      Some(Rejection(409, "This time slot is already booked"))
    else None
  }

  /** The appointment create_appointment inserts (app.py:246-254). */
  function NewAppointment(uid: Id, body: Body, id: Id): Appointment
    requires HasFields(body, AppointmentFields)
  {
    Appointment(id, uid, body["doctor_id"], body["date"], body["time"], body["reason"], "scheduled", None)
  }

  /** A booking that passes the checks keeps every slot held at most once. */
  lemma BookingKeepsSlotsUnique(
    users: seq<UserDoc>, appointments: seq<Appointment>, uid: Id, body: Body, id: Id)
    requires SlotsUnique(appointments)
    requires BookingError(users, appointments, uid, body).None?
    ensures SlotsUnique(appointments + [NewAppointment(uid, body, id)])
  {
  }

  /** The fields update_appointment_status copies from the request (app.py:438-445). */
  datatype Changes = Changes(status: Option<string>, doctorNotes: Option<string>)

  function ChangesOf(body: Body): Changes {
    Changes(
      if "status" in body then Some(body["status"]) else None,
      if "doctor_notes" in body then Some(body["doctor_notes"]) else None)
  }

  /** `$set` of the update fields: only `status` and `doctor_notes` can change. */
  function Apply(a: Appointment, changes: Changes): (r: Appointment)
    ensures r.(status := a.status, doctorNotes := a.doctorNotes) == a
    ensures r.status == if changes.status.Some? then changes.status.value else a.status
    ensures r.doctorNotes == if changes.doctorNotes.Some? then changes.doctorNotes else a.doctorNotes
  {
    var withStatus := if changes.status.Some? then a.(status := changes.status.value) else a;
    if changes.doctorNotes.Some? then withStatus.(doctorNotes := changes.doctorNotes) else withStatus
  }

  /** Whether the caller may touch an appointment: a doctor only their own, a patient only
      their own, any other role every appointment (app.py:458-464). */
  predicate Owns(role: string, uid: Id, a: Appointment) {
    (role == "doctor" ==> a.doctorId == uid) && (role == "patient" ==> a.patientId == uid)
  }

  /** The first of update_appointment_status's checks (app.py:447-468) that the caller `uid` fails. */
  function UpdateError(
    users: seq<UserDoc>, appointments: seq<Appointment>, uid: Id, appointmentId: Id, changes: Changes)
    : (err: Option<Rejection>)
    ensures err == Some(Rejection(400, "No fields to update provided")) <==> changes == Changes(None, None)
    ensures err == Some(Rejection(404, "Appointment not found")) <==>
      changes != Changes(None, None) && FindAppointment(appointments, appointmentId).None?
    ensures err == Some(Rejection(404, "User not found")) <==>
      && changes != Changes(None, None)
      && FindAppointment(appointments, appointmentId).Some?
      && FindUser(users, ById(uid)).None?
    ensures err == Some(Rejection(403, "Unauthorized")) <==>
      && changes != Changes(None, None)
      && FindAppointment(appointments, appointmentId).Some?
      && FindUser(users, ById(uid)).Some?
      && !Owns(users[FindUser(users, ById(uid)).value].role, uid,
               appointments[FindAppointment(appointments, appointmentId).value])
    ensures err == Some(Rejection(403, "Patients cannot add doctor notes")) <==>
      && changes != Changes(None, None)
      && FindAppointment(appointments, appointmentId).Some?
      && FindUser(users, ById(uid)).Some?
      && var role := users[FindUser(users, ById(uid)).value].role;
      && Owns(role, uid, appointments[FindAppointment(appointments, appointmentId).value])
      && role == "patient" && changes.doctorNotes.Some?
    ensures err.None? <==>
      && changes != Changes(None, None)
      && FindAppointment(appointments, appointmentId).Some?
      && FindUser(users, ById(uid)).Some?
      && var role := users[FindUser(users, ById(uid)).value].role;
      && Owns(role, uid, appointments[FindAppointment(appointments, appointmentId).value])
      && (role == "patient" ==> changes.doctorNotes.None?)
  {
    if changes == Changes(None, None) then Some(Rejection(400, "No fields to update provided"))
    else match FindAppointment(appointments, appointmentId)
      case None => Some(Rejection(404, "Appointment not found"))
      case Some(i) =>
        match FindUser(users, ById(uid))
        case None => Some(Rejection(404, "User not found"))
        case Some(k) =>
          var a := appointments[i];
          var role := users[k].role;
          if role == "doctor" && a.doctorId != uid then Some(Rejection(403, "Unauthorized"))
          else if role == "patient" && a.patientId != uid then Some(Rejection(403, "Unauthorized"))
          else if role == "patient" && changes.doctorNotes.Some? then
            Some(Rejection(403, "Patients cannot add doctor notes"))
          else None
  }

  /** A caller may update exactly the appointments the listing route shows it. */
  lemma OwnsIffSees(role: string, uid: Id, a: Appointment)
    ensures Owns(role, uid, a) <==> Sees(role, uid, a)
  {
  }

  /** A status update may reopen a cancelled appointment whose slot has been booked again:
      unlike create_appointment, the update route does not look for a conflicting booking,
      so the slot invariant holds of bookings only. */
  lemma StatusUpdateCanDoubleBook()
    ensures
      var patient := UserDoc("p1", Some("Pat"), "pat@x.org", "h", "patient", Some(true));
      var first := Appointment("a1", "p1", "d1", "2025-01-01", "09:00", "checkup", "cancelled", None);
      var second := Appointment("a2", "p2", "d1", "2025-01-01", "09:00", "checkup", "scheduled", None);
      var reopen := Changes(Some("scheduled"), None);
      && SlotsUnique([first, second])
      && UpdateError([patient], [first, second], "p1", "a1", reopen).None?
      && !SlotsUnique([first, second][0 := Apply(first, reopen)])
  {
    var first := Appointment("a1", "p1", "d1", "2025-01-01", "09:00", "checkup", "cancelled", None);
    var second := Appointment("a2", "p2", "d1", "2025-01-01", "09:00", "checkup", "scheduled", None);
    var after := [first, second][0 := Apply(first, Changes(Some("scheduled"), None))];
    assert after[0].status != "cancelled" && Occupies(after[1], after[0].doctorId, after[0].date, after[0].time);
  }

  /** Which appointments get_appointments lists for a caller (app.py:385-392). */
  predicate Sees(role: string, uid: Id, a: Appointment) {
    if role == "patient" then a.patientId == uid
    else if role == "doctor" then a.doctorId == uid
    else true
  }

  /** `db.appointments.find(query)`: a patient's own, a doctor's own, everyone else all of them,
      in insertion order. */
  function VisibleTo(appointments: seq<Appointment>, role: string, uid: Id): (r: seq<Appointment>)
    ensures |r| <= |appointments|
    ensures forall a :: a in r <==> a in appointments && Sees(role, uid, a)
    ensures role != "patient" && role != "doctor" ==> r == appointments
  {
    if |appointments| == 0 then []
    else
      var rest := VisibleTo(appointments[1..], role, uid);
      assert forall a :: a in appointments <==> a == appointments[0] || a in appointments[1..];
      if Sees(role, uid, appointments[0]) then [appointments[0]] + rest else rest
  }

  /** A user summary as get_appointments attaches it. */
  datatype Party = Party(id: Id, name: string, email: string)

  /** The lookup of a patient or doctor: not found, found, or found without a name
      (the KeyError that turns the whole answer into 500). */
  datatype PartyLookup = Absent | Found(party: Party) | Nameless

  function PartyFor(users: seq<UserDoc>, id: Id): (r: PartyLookup)
    ensures r.Absent? <==> FindUser(users, ById(id)).None?
    ensures r.Nameless? <==>
      FindUser(users, ById(id)).Some? && users[FindUser(users, ById(id)).value].name.None?
    ensures r.Found? ==>
      && var u := users[FindUser(users, ById(id)).value];
      && r.party == Party(id, u.name.value, u.email)
  {
    match FindUser(users, ById(id))
    case None => Absent
    case Some(k) =>
      match users[k].name
      case None => Nameless
      case Some(name) => Found(Party(users[k].id, name, users[k].email))
  }

  datatype AppointmentView = AppointmentView(appointment: Appointment, patient: Option<Party>, doctor: Option<Party>)

  /** One appointment with its patient and doctor attached (app.py:395-417); None for the KeyError. */
  function ViewOf(users: seq<UserDoc>, a: Appointment): (r: Option<AppointmentView>)
    ensures r.Some? ==> r.value.appointment == a
    ensures r.Some? ==> (r.value.patient.Some? <==> FindUser(users, ById(a.patientId)).Some?)
    ensures r.Some? ==> (r.value.doctor.Some? <==> FindUser(users, ById(a.doctorId)).Some?)
    ensures r.Some? && r.value.patient.Some? ==> PartyFor(users, a.patientId) == Found(r.value.patient.value)
    ensures r.Some? && r.value.doctor.Some? ==> PartyFor(users, a.doctorId) == Found(r.value.doctor.value)
    ensures r.None? <==> PartyFor(users, a.patientId).Nameless? || PartyFor(users, a.doctorId).Nameless?
  {
    var p := PartyFor(users, a.patientId);
    var d := PartyFor(users, a.doctorId);
    if p.Nameless? || d.Nameless? then None
    else Some(AppointmentView(a,
      if p.Found? then Some(p.party) else None,
      if d.Found? then Some(d.party) else None))
  }

  // ---------------------------------------------------------------- the server

  /** The two collections the routes read and write. */
  class Database {
    var users: seq<UserDoc>
    var appointments: seq<Appointment>

    ghost predicate Valid()
      reads this
    {
      UniqueUserIds(users) && UniqueAppointmentIds(appointments)
    }

    constructor ()
      ensures Valid() && users == [] && appointments == []
    {
      users := [];
      appointments := [];
    }

    /** register (app.py:51-113). `hashed` is bcrypt's hash of the password and `newId`
        the ObjectId the driver assigns, fresh by the `_id` index. */
    method Register(body: Body, hashed: Hash, newId: Id) returns (r: Reply<Registration>)
      requires Valid()
      requires FindUser(users, ById(newId)).None?
      modifies this
      ensures Valid() && appointments == old(appointments)
      ensures r.Fail? <==> RegistrationError(old(users), body).Some?
      ensures r.Fail? ==> r.status == 400 && Some(r.error) == RegistrationError(old(users), body) && users == old(users)
      ensures r.Ok? ==>
        && users == old(users) + [NewUser(body, hashed, newId)]
        && r == Ok(201, Registration("User registered successfully", AccessToken(newId), "bearer",
             UserSummary(newId, body["name"], body["email"], body["role"])))
      ensures UniqueEmails(old(users)) ==> UniqueEmails(users)
    {
      var err := RegistrationError(users, body);
      if err.Some? {
        return Fail(400, err.value);
      }
      var user := NewUser(body, hashed, newId);
      users := users + [user];
      r := Ok(201, Registration("User registered successfully", AccessToken(newId), "bearer",
        UserSummary(newId, user.name.value, user.email, user.role)));
    }

    /** complete_onboarding (app.py:176-201): `modified_count == 0`, for an unknown user or one
        already onboarded, answers 404. */
    method CompleteOnboarding(header: Option<string>, decode: Decoder) returns (r: Reply<string>)
      requires Valid()
      modifies this
      ensures Valid() && appointments == old(appointments)
      ensures r.status == 401 <==> Authenticate(header, decode).Fail?
      ensures r.status == 401 ==> users == old(users)
      ensures Authenticate(header, decode).Ok? ==>
        && var uid := Authenticate(header, decode).value;
        && users == MarkOnboarded(old(users), uid)
        && (r.Fail? <==> users == old(users))
        && (r.Fail? ==> r == Fail(404, "User not found"))
        && (r.Ok? ==> r == Ok(200, "Onboarding completed successfully"))
    {
      var auth := Authenticate(header, decode);
      if auth.Fail? {
        return Fail(401, auth.error);
      }
      var before := users;
      users := MarkOnboarded(users, auth.value);
      FindUserSameIds(before, users, auth.value);
      if users == before {
        r := Fail(404, "User not found");
      } else {
        r := Ok(200, "Onboarding completed successfully");
      }
    }

    /** create_appointment (app.py:204-272). `newId` is the ObjectId the driver assigns. */
    method CreateAppointment(header: Option<string>, decode: Decoder, body: Body, newId: Id)
      returns (r: Reply<Appointment>)
      requires Valid()
      requires FindAppointment(appointments, newId).None?
      modifies this
      ensures Valid() && users == old(users)
      ensures r.status == 401 <==> Authenticate(header, decode).Fail?
      ensures r.Fail? ==> appointments == old(appointments)
      ensures Authenticate(header, decode).Ok? ==>
        && var uid := Authenticate(header, decode).value;
        && var err := BookingError(users, old(appointments), uid, body);
        && (r.Fail? <==> err.Some?)
        && (r.Fail? ==> r == Fail(err.value.status, err.value.message))
        && (r.Ok? ==> r == Ok(201, NewAppointment(uid, body, newId)) && appointments == old(appointments) + [r.value])
      ensures SlotsUnique(old(appointments)) ==> SlotsUnique(appointments)
    {
      var auth := Authenticate(header, decode);
      if auth.Fail? {
        return Fail(401, auth.error);
      }
      var err := BookingError(users, appointments, auth.value, body);
      if err.Some? {
        return Fail(err.value.status, err.value.message);
      }
      var a := NewAppointment(auth.value, body, newId);
      if SlotsUnique(appointments) {
        BookingKeepsSlotsUnique(users, appointments, auth.value, body, newId);
      }
      appointments := appointments + [a];
      r := Ok(201, a);
    }

    /** Users with the given role, as `find({"role": role})` returns them. */
    function UsersWithRole(role: string): (r: seq<UserDoc>)
      reads this
      ensures forall u :: u in r <==> u in users && u.role == role
    {
      WithRole(users, role)
    }

    /** get_users (app.py:334-364): the users with the requested role, each without its password. */
    method GetUsers(header: Option<string>, decode: Decoder, roleArg: Option<string>)
      returns (r: Reply<seq<Profile>>)
      ensures r.status == 401 <==> Authenticate(header, decode).Fail?
      ensures r.status == 400 <==> Authenticate(header, decode).Ok? && (roleArg.None? || roleArg.value == "")
      ensures r.status == 401 ==> r == Fail(401, "Invalid token")
      ensures r.status == 400 ==> r == Fail(400, "Role parameter is required")
      ensures r.Fail? ==> r.status in {400, 401}
      ensures r.Ok? ==>
        && r.status == 200 && roleArg.Some?
        && var found := UsersWithRole(roleArg.value);
        && |r.value| == |found|
        && forall k :: 0 <= k < |found| ==> r.value[k] == ProfileOf(found[k])
    {
      var auth := Authenticate(header, decode);
      if auth.Fail? {
        return Fail(401, auth.error);
      }
      if roleArg.None? || roleArg.value == "" {
        return Fail(400, "Role parameter is required");
      }
      var found := UsersWithRole(roleArg.value);
      var out: seq<Profile> := [];
      var i := 0;
      while i < |found|
        invariant 0 <= i <= |found| && |out| == i
        invariant forall k :: 0 <= k < i ==> out[k] == ProfileOf(found[k])
      {
        out := out + [ProfileOf(found[i])];
        i := i + 1;
      }
      r := Ok(200, out);
    }

    /** get_appointments (app.py:366-422). */
    method GetAppointments(header: Option<string>, decode: Decoder) returns (r: Reply<seq<AppointmentView>>)
      ensures r.status == 401 <==> Authenticate(header, decode).Fail?
      ensures Authenticate(header, decode).Ok? ==>
        && var uid := Authenticate(header, decode).value;
        && (r.status == 404 <==> FindUser(users, ById(uid)).None?)
        && (r.Ok? ==>
          && r.status == 200
          && var found := VisibleTo(appointments, users[FindUser(users, ById(uid)).value].role, uid);
          && |r.value| == |found|
          && (forall k :: 0 <= k < |found| ==> ViewOf(users, found[k]) == Some(r.value[k])))
        && (r.status == 500 <==>
              && FindUser(users, ById(uid)).Some?
              && var role := users[FindUser(users, ById(uid)).value].role;
              && exists a :: a in VisibleTo(appointments, role, uid) && ViewOf(users, a).None?)
      ensures r.status == 401 ==> r == Fail(401, "Invalid token")
      ensures r.status == 404 ==> r == Fail(404, "User not found")
      ensures r.status == 500 ==> r == Fail(500, "'name'")
      ensures r.Fail? ==> r.status in {401, 404, 500}
    {
      var auth := Authenticate(header, decode);
      if auth.Fail? {
        return Fail(401, auth.error);
      }
      var me := FindUser(users, ById(auth.value));
      if me.None? {
        return Fail(404, "User not found");
      }
      var found := VisibleTo(appointments, users[me.value].role, auth.value);
      var out: seq<AppointmentView> := [];
      var i := 0;
      while i < |found|
        invariant 0 <= i <= |found| && |out| == i
        invariant forall k :: 0 <= k < i ==> ViewOf(users, found[k]) == Some(out[k])
      {
        var view := ViewOf(users, found[i]);
        if view.None? {
          assert found[i] in found;
          return Fail(500, "'name'");
        }
        out := out + [view.value];
        i := i + 1;
      }
      r := Ok(200, out);
    }

    /** update_appointment_status (app.py:424-482): `modified_count == 0`, when the fields
        already hold the requested values, answers 500. */
    method UpdateAppointmentStatus(header: Option<string>, decode: Decoder, appointmentId: Id, body: Body)
      returns (r: Reply<string>)
      requires Valid()
      modifies this
      ensures Valid() && users == old(users)
      ensures r.status == 401 <==> Authenticate(header, decode).Fail?
      ensures r.Fail? && r.status != 500 ==> appointments == old(appointments)
      ensures Authenticate(header, decode).Ok? ==>
        && var uid := Authenticate(header, decode).value;
        && var err := UpdateError(users, old(appointments), uid, appointmentId, ChangesOf(body));
        && (err.Some? ==> r == Fail(err.value.status, err.value.message))
        && (err.None? ==>
          && var i := FindAppointment(old(appointments), appointmentId).value;
          && var updated := Apply(old(appointments)[i], ChangesOf(body));
          && appointments == old(appointments)[i := updated]
          && (r.Ok? <==> updated != old(appointments)[i])
          && (r.Fail? ==> r == Fail(500, "Failed to update appointment"))
          && (r.Ok? ==> r == Ok(200, "Appointment updated successfully")))
    {
      var auth := Authenticate(header, decode);
      if auth.Fail? {
        return Fail(401, auth.error);
      }
      var changes := ChangesOf(body);
      var err := UpdateError(users, appointments, auth.value, appointmentId, changes);
      if err.Some? {
        return Fail(err.value.status, err.value.message);
      }
      var i := FindAppointment(appointments, appointmentId).value;
      var updated := Apply(appointments[i], changes);
      var before := appointments;
      appointments := appointments[i := updated];
      assert forall k :: 0 <= k < |appointments| ==> appointments[k].id == before[k].id;
      if updated == before[i] {
        r := Fail(500, "Failed to update appointment");
      } else {
        r := Ok(200, "Appointment updated successfully");
      }
    }
  }

  /** The users of a collection with the given role, in insertion order. */
  function WithRole(users: seq<UserDoc>, role: string): (r: seq<UserDoc>)
    ensures forall u :: u in r <==> u in users && u.role == role
  {
    if |users| == 0 then []
    else
      var rest := WithRole(users[1..], role);
      assert forall u :: u in users <==> u == users[0] || u in users[1..];
      if users[0].role == role then [users[0]] + rest else rest
  }
}
