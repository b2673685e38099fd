/**
 * Registration and login (backend/controllers/authController.go). The
 * bcrypt hash and compare and the JWT generator are parameters: their
 * internals are not modelled, only their success or failure.
 */
module AuthController {
  import opened Wrappers
  import opened ObjectIds
  import opened Text
  import opened Models

  datatype SignUpRequest = SignUpRequest(firstName: string, lastName: string, email: string, password: string, phone: string)

  datatype Tokens = Tokens(token: string, refreshToken: string)

  /** `TokenGenerator(email, firstName, lastName, uid)`: a pair of tokens, or None when signing fails. */
  type TokenGenerator = (string, string, string, string) -> Option<Tokens>

  /** `binding:"required"` rejects a missing or empty string field. */
  predicate HasAllFields(req: SignUpRequest) {
    req.firstName != "" && req.lastName != "" && req.email != "" && req.password != "" && req.phone != ""
  }

  /** The name check counts bytes, as `len` does: "é" is two bytes long. */
  predicate NameLengthOk(name: string) {
    2 <= ByteLength(name) <= 30
  }

  /** The checks made on the request alone, in order; the first that fails decides the reply. */
  function RequestError(req: SignUpRequest): (e: Option<string>)
    ensures e.None? <==> HasAllFields(req) && NameLengthOk(req.firstName) && NameLengthOk(req.lastName) && ByteLength(req.password) >= 6
    ensures !HasAllFields(req) ==> e == Some("All fields are required")
    ensures (HasAllFields(req) && !NameLengthOk(req.firstName)) ==> e == Some("First name must be between 2 and 30 characters")
    ensures (HasAllFields(req) && NameLengthOk(req.firstName) && !NameLengthOk(req.lastName)) ==>
      e == Some("Last name must be between 2 and 30 characters")
    ensures (HasAllFields(req) && NameLengthOk(req.firstName) && NameLengthOk(req.lastName) && ByteLength(req.password) < 6) ==>
      e == Some("Password must be at least 6 characters")
  {
    if !HasAllFields(req) then Some("All fields are required")
    else if !NameLengthOk(req.firstName) then Some("First name must be between 2 and 30 characters")
    else if !NameLengthOk(req.lastName) then Some("Last name must be between 2 and 30 characters")
    else if ByteLength(req.password) < 6 then Some("Password must be at least 6 characters")
    else None
  }

  /** Lengths are in bytes: a one-letter "é" passes the name check, sixteen of them fail it, and ASCII counts per letter. */
  lemma NameLengthCountsBytes(name: string)
    ensures NameLengthOk("é")
    ensures !NameLengthOk(seq(16, _ => 'é'))
    ensures (forall i :: 0 <= i < |name| ==> name[i] as int < 0x80) ==> (NameLengthOk(name) <==> 2 <= |name| <= 30)
  {
    UniformByteLength("é", 'é');
    UniformByteLength(seq(16, _ => 'é'), 'é');
    if forall i :: 0 <= i < |name| ==> name[i] as int < 0x80 {
      AsciiByteLength(name);
    }
  }

  predicate EmailTaken(db: Store, email: string) {
    exists k :: k in db.users && db.users[k].email == email
  }

  predicate PhoneTaken(db: Store, phone: string) {
    exists k :: k in db.users && db.users[k].phone == phone
  }

  /** The record a registration inserts: empty cart, addresses and orders, the lower-cased email, `user_id` the hex of the drawn id. */
  function NewUser(req: SignUpRequest, recordId: ObjectId, userId: string, hash: string, tokens: Tokens, now: Time): User {
    User(recordId, req.firstName, req.lastName, hash, ToLower(req.email), req.phone,
         tokens.token, tokens.refreshToken, userId, [], [], [], now, now)
  }

  datatype Outcome = Outcome(db: Store, response: Response)

  /**
   * POST /api/auth/register. `hashed` is bcrypt's result (None when it
   * fails), `userKey` the id drawn for `user_id` and `recordId` the `_id`
   * the store assigns.
   */
  function SignUp(db: Store, req: SignUpRequest, hashed: Option<string>, generate: TokenGenerator,
                  userKey: ObjectId, recordId: ObjectId, now: Time): (r: Outcome)
    requires Hex(userKey) !in db.users
    ensures r.response.Message? <==> r.db != db
    ensures RequestError(req).Some? ==> r == Outcome(db, Error(400, RequestError(req).value))
    ensures (RequestError(req).None? && EmailTaken(db, ToLower(req.email))) ==>
      r == Outcome(db, Error(400, "User already exists"))
    ensures (RequestError(req).None? && !EmailTaken(db, ToLower(req.email)) && PhoneTaken(db, req.phone)) ==>
      r == Outcome(db, Error(400, "Phone is already in use"))
    ensures r.response.Message? ==>
      RequestError(req).None? && !EmailTaken(db, ToLower(req.email)) && !PhoneTaken(db, req.phone) &&
      hashed.Some? && generate(ToLower(req.email), req.firstName, req.lastName, Hex(userKey)).Some? &&
      r.response == Message(201, "Successfully Signed Up!!") &&
      r.db == db.(users := db.users[Hex(userKey) := NewUser(req, recordId, Hex(userKey), hashed.value,
                  generate(ToLower(req.email), req.firstName, req.lastName, Hex(userKey)).value, now)])
  {
    var emailLower := ToLower(req.email);
    var userId := Hex(userKey);
    if RequestError(req).Some? then Outcome(db, Error(400, RequestError(req).value))
    else if EmailTaken(db, emailLower) then Outcome(db, Error(400, "User already exists"))
    else if PhoneTaken(db, req.phone) then Outcome(db, Error(400, "Phone is already in use"))
    else if hashed.None? then Outcome(db, Error(500, "Failed to hash password"))
    else match generate(emailLower, req.firstName, req.lastName, userId)
      case None => Outcome(db, Error(500, "Failed to generate token"))
      case Some(tokens) =>
        var u := NewUser(req, recordId, userId, hashed.value, tokens, now);
        assert db.users[userId := u] != db.users by { assert userId in db.users[userId := u]; }
        Outcome(db.(users := db.users[userId := u]), Message(201, "Successfully Signed Up!!"))
  }

  /** The length checks come before any lookup: for a bad request the reply does not depend on the store. */
  lemma RequestChecksFirst(db1: Store, db2: Store, req: SignUpRequest, hashed: Option<string>, generate: TokenGenerator,
                           userKey: ObjectId, recordId: ObjectId, now: Time)
    requires Hex(userKey) !in db1.users && Hex(userKey) !in db2.users
    requires RequestError(req).Some?
    ensures SignUp(db1, req, hashed, generate, userKey, recordId, now).response
         == SignUp(db2, req, hashed, generate, userKey, recordId, now).response
  {
  }

  /** A duplicate email is reported even when the phone is taken too. */
  lemma EmailCheckedBeforePhone(db: Store, req: SignUpRequest, hashed: Option<string>, generate: TokenGenerator,
                                userKey: ObjectId, recordId: ObjectId, now: Time)
    requires Hex(userKey) !in db.users
    requires RequestError(req).None? && EmailTaken(db, ToLower(req.email)) && PhoneTaken(db, req.phone)
    ensures SignUp(db, req, hashed, generate, userKey, recordId, now).response == Error(400, "User already exists")
  {
  }

  /** No two records share an email. */
  predicate EmailsUnique(db: Store) {
    forall k1, k2 :: k1 in db.users && k2 in db.users && db.users[k1].email == db.users[k2].email ==> k1 == k2
  }

  /** Registration keeps emails unique. */
  lemma SignUpKeepsEmailsUnique(db: Store, req: SignUpRequest, hashed: Option<string>, generate: TokenGenerator,
                                userKey: ObjectId, recordId: ObjectId, now: Time)
    requires Hex(userKey) !in db.users
    requires EmailsUnique(db)
    ensures EmailsUnique(SignUp(db, req, hashed, generate, userKey, recordId, now).db)
  {
    var r := SignUp(db, req, hashed, generate, userKey, recordId, now);
    if r.db != db {
      var users := r.db.users;
      var key := Hex(userKey);
      forall k1, k2 | k1 in users && k2 in users && users[k1].email == users[k2].email
        ensures k1 == k2
      {
        if k1 != key && k2 != key {
          assert db.users[k1].email == db.users[k2].email;
        }
      }
    }
  }

  /** Once registered, the same address in any letter case is refused. */
  lemma SecondSignUpRefused(db: Store, req: SignUpRequest, req2: SignUpRequest, hashed: Option<string>, hashed2: Option<string>,
                            generate: TokenGenerator, userKey: ObjectId, userKey2: ObjectId, recordId: ObjectId, now: Time)
    requires Hex(userKey) !in db.users
    requires SignUp(db, req, hashed, generate, userKey, recordId, now).response.Message?
    requires Hex(userKey2) !in SignUp(db, req, hashed, generate, userKey, recordId, now).db.users
    requires RequestError(req2).None? && ToLower(req2.email) == ToLower(req.email)
    ensures SignUp(SignUp(db, req, hashed, generate, userKey, recordId, now).db, req2, hashed2, generate, userKey2, recordId, now).response
         == Error(400, "User already exists")
  {
    var db1 := SignUp(db, req, hashed, generate, userKey, recordId, now).db;
    assert db1.users[Hex(userKey)].email == ToLower(req2.email);
  }

  /** Registration files the new record under its own `user_id`. */
  lemma SignUpKeepsKeying(db: Store, req: SignUpRequest, hashed: Option<string>, generate: TokenGenerator,
                          userKey: ObjectId, recordId: ObjectId, now: Time)
    requires Hex(userKey) !in db.users && KeyedByUserId(db)
    ensures KeyedByUserId(SignUp(db, req, hashed, generate, userKey, recordId, now).db)
  {
    var r := SignUp(db, req, hashed, generate, userKey, recordId, now);
    if r.response.Message? {
      var t := generate(ToLower(req.email), req.firstName, req.lastName, Hex(userKey)).value;
      WithUserKeepsKeying(db, Hex(userKey), NewUser(req, recordId, Hex(userKey), hashed.value, t, now));
    }
  }

  datatype LoginRequest = LoginRequest(email: string, password: string)

  datatype LoginOutcome = LoginOutcome(db: Store, response: Response, profile: Option<User>)

  /**
   * POST /api/auth/login. `found` is the key of the record `FindOne` returns
   * for the lower-cased email (None when no record has it) and `compare` is
   * bcrypt's check of a stored hash against a password.
   */
  function Login(db: Store, req: LoginRequest, found: Option<string>, compare: (string, string) -> bool,
                 generate: TokenGenerator, now: Time): (r: LoginOutcome)
    requires found.Some? ==> found.value in db.users && db.users[found.value].email == ToLower(req.email)
    requires found.None? ==> !EmailTaken(db, ToLower(req.email))
    ensures (req.email == "" || req.password == "") ==> r == LoginOutcome(db, Error(400, "Email and password are required"), None)
    ensures (req.email != "" && req.password != "" && found.None?) ==>
      r == LoginOutcome(db, Error(401, "login or password incorrect"), None)
    ensures (req.email != "" && req.password != "" && found.Some? &&
             !compare(db.users[found.value].password, req.password)) ==>
      r == LoginOutcome(db, Error(401, "Login Or Password is Incorrect"), None)
    ensures r.profile.Some? <==> r.response == Payload(200)
    ensures r.profile.Some? ==>
      var u := db.users[found.value];
      var t := generate(u.email, u.firstName, u.lastName, u.userId);
      found.Some? && compare(u.password, req.password) && t.Some? &&
      r.profile == Some(u.(password := "", token := t.value.token, refreshToken := t.value.refreshToken)) &&
      r.db == if u.userId in db.users
              then WithUser(db, u.userId, db.users[u.userId].(token := t.value.token, refreshToken := t.value.refreshToken, updatedAt := now))
              else db
    ensures r.profile.Some? ==> r.profile.value.password == ""
    ensures r.profile.None? ==> r.db == db
  {
    if req.email == "" || req.password == "" then LoginOutcome(db, Error(400, "Email and password are required"), None)
    else if found.None? then LoginOutcome(db, Error(401, "login or password incorrect"), None)
    else
      var u := db.users[found.value];
      if !compare(u.password, req.password) then LoginOutcome(db, Error(401, "Login Or Password is Incorrect"), None)
      else match generate(u.email, u.firstName, u.lastName, u.userId)
        case None => LoginOutcome(db, Error(500, "Failed to generate token"), None)
        case Some(t) =>
          var db' := if u.userId in db.users
                     then WithUser(db, u.userId, db.users[u.userId].(token := t.token, refreshToken := t.refreshToken, updatedAt := now))
                     else db;
          LoginOutcome(db', Payload(200), Some(u.(password := "", token := t.token, refreshToken := t.refreshToken)))
  }

  /** A login changes at most the token fields and the update time of one record. */
  lemma LoginTouchesOnlyTokens(db: Store, req: LoginRequest, found: Option<string>, compare: (string, string) -> bool,
                               generate: TokenGenerator, now: Time, k: string)
    requires found.Some? ==> found.value in db.users && db.users[found.value].email == ToLower(req.email)
    requires found.None? ==> !EmailTaken(db, ToLower(req.email))
    requires k in db.users
    ensures var r := Login(db, req, found, compare, generate, now);
      k in r.db.users &&
      r.db.users[k] == db.users[k].(token := r.db.users[k].token, refreshToken := r.db.users[k].refreshToken,
                                    updatedAt := r.db.users[k].updatedAt)
  {
  }

  /** In a store keyed by `user_id`, a login writes its tokens into the very record `FindOne` returned, and no record moves. */
  lemma LoginWritesFoundRecord(db: Store, req: LoginRequest, found: Option<string>, compare: (string, string) -> bool,
                               generate: TokenGenerator, now: Time)
    requires found.Some? ==> found.value in db.users && db.users[found.value].email == ToLower(req.email)
    requires found.None? ==> !EmailTaken(db, ToLower(req.email))
    requires KeyedByUserId(db)
    ensures var r := Login(db, req, found, compare, generate, now);
      KeyedByUserId(r.db) && r.db.users.Keys == db.users.Keys &&
      (r.profile.Some? ==>
         found.Some? &&
         r.db.users[found.value] == db.users[found.value].(token := r.profile.value.token,
                                                          refreshToken := r.profile.value.refreshToken, updatedAt := now))
  {
    var r := Login(db, req, found, compare, generate, now);
    if r.profile.Some? {
      var u := db.users[found.value];
      assert u.userId == found.value;
      var t := generate(u.email, u.firstName, u.lastName, u.userId).value;
      WithUserKeepsKeying(db, u.userId, db.users[u.userId].(token := t.token, refreshToken := t.refreshToken, updatedAt := now));
    }
  }
}
