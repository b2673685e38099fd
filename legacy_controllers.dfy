/**
 * The account handlers of the legacy generation
 * (backend/controllers/controllers.go): password check, profile update,
 * registration, and the id given to admin-added products.
 */
module LegacyControllers {
  import opened Wrappers
  import opened ObjectIds
  import opened LegacyModels

  /**
   * `VerifyPassword(userPassword, storedHash)`; `compare(hash, password)`
   * stands for bcrypt's comparison.
   */
  function VerifyPassword(userPassword: string, storedHash: string, compare: (string, string) -> bool): (r: (bool, string))
    ensures r.0 <==> compare(storedHash, userPassword)
    ensures r.0 ==> r.1 == ""
    ensures !r.0 ==> r.1 == "Login Or Passowrd is Incorerct"
  {
    if compare(storedHash, userPassword) then (true, "") else (false, "Login Or Passowrd is Incorerct")
  }

  datatype ProfileRequest = ProfileRequest(firstName: string, lastName: string, email: string, phone: string)

  predicate IsEmptyRequest(req: ProfileRequest) {
    req.firstName == "" && req.lastName == "" && req.email == "" && req.phone == ""
  }

  /** The `$set` document: only the non-empty fields, the email as given, and no timestamp. */
  method BuildUpdate(req: ProfileRequest) returns (update: map<string, string>)
    ensures update.Keys <= {"first_name", "last_name", "email", "phone"}
    ensures ("first_name" in update <==> req.firstName != "") && ("first_name" in update ==> update["first_name"] == req.firstName)
    ensures ("last_name" in update <==> req.lastName != "") && ("last_name" in update ==> update["last_name"] == req.lastName)
    ensures ("email" in update <==> req.email != "") && ("email" in update ==> update["email"] == req.email)
    ensures ("phone" in update <==> req.phone != "") && ("phone" in update ==> update["phone"] == req.phone)
    ensures |update| == 0 <==> IsEmptyRequest(req)
  {
    update := map[];
    if req.firstName != "" {
      update := update["first_name" := req.firstName];
    }
    if req.lastName != "" {
      update := update["last_name" := req.lastName];
    }
    if req.email != "" {
      update := update["email" := req.email];
    }
    if req.phone != "" {
      update := update["phone" := req.phone];
    }
    assert "first_name" in update ==> |update| > 0;
  }

  function Field(update: map<string, string>, key: string, previous: string): string {
    if key in update then update[key] else previous
  }

  /** The profile after a request: each non-empty field replaces the old one; nothing else changes. */
  function Profiled(u: User, req: ProfileRequest): (u': User)
    ensures u'.email == (if req.email != "" then req.email else u.email)
    ensures u'.userCart == u.userCart && u'.addressDetails == u.addressDetails && u'.orderStatus == u.orderStatus
    ensures u'.updatedAt == u.updatedAt && u'.password == u.password
  {
    u.(firstName := if req.firstName != "" then req.firstName else u.firstName,
       lastName := if req.lastName != "" then req.lastName else u.lastName,
       email := if req.email != "" then req.email else u.email,
       phone := if req.phone != "" then req.phone else u.phone)
  }

  lemma ProfiledIdempotent(u: User, req: ProfileRequest)
    ensures Profiled(Profiled(u, req), req) == Profiled(u, req)
  {
  }

  /** `UpdateUserProfile`. */
  method UpdateUserProfile(db: Store, uid: string, req: ProfileRequest) returns (db': Store, reply: Reply)
    ensures uid == "" ==> db' == db && reply == NotAuthenticated
    ensures uid != "" && FromHex(uid).None? ==> db' == db && reply == Json(400, "error", "Invalid user ID format")
    ensures (uid != "" && FromHex(uid).Some? && IsEmptyRequest(req)) ==>
      db' == db && reply == Json(400, "error", "No fields to update")
    ensures (uid != "" && FromHex(uid).Some? && !IsEmptyRequest(req)) ==>
      var id := FromHex(uid).value;
      reply == Json(200, "message", "Profile updated successfully") &&
      db' == if id in db.users then WithUser(db, id, Profiled(db.users[id], req)) else db
  {
    if uid == "" {
      return db, NotAuthenticated;
    }
    var objectID := FromHex(uid);
    if objectID.None? {
      return db, Json(400, "error", "Invalid user ID format");
    }
    var update := BuildUpdate(req);
    if |update| == 0 {
      return db, Json(400, "error", "No fields to update");
    }
    db' := db;
    if objectID.value in db.users {
      var u := db.users[objectID.value];
      var u' := u.(firstName := Field(update, "first_name", u.firstName), lastName := Field(update, "last_name", u.lastName),
                   email := Field(update, "email", u.email), phone := Field(update, "phone", u.phone));
      assert u' == Profiled(u, req);
      db' := WithUser(db, objectID.value, u');
    }
    reply := Json(200, "message", "Profile updated successfully");
  }

  /** The registration body (the validator's rules are not modelled: `valid` is its verdict). */
  datatype SignUpRequest = SignUpRequest(firstName: string, lastName: string, email: string, password: string, phone: string)

  predicate EmailTaken(db: Store, email: string) {
    exists k :: k in db.users && db.users[k].email == email
  }

  predicate PhoneTaken(db: Store, phone: string) {
    exists k :: k in db.users && db.users[k].phone == phone
  }

  /** The record inserted: `_id` the drawn id, `User_ID` its hex, empty cart, addresses and orders. */
  function NewUser(req: SignUpRequest, id: ObjectId, hash: string, tokens: (string, string), now: Time): (u: User)
    ensures u.id == id && u.userId == Hex(id)
    ensures u.userCart == [] && u.addressDetails == [] && u.orderStatus == []
    ensures u.email == req.email && u.password == hash
  {
    User(id, req.firstName, req.lastName, hash, req.email, req.phone, tokens.0, tokens.1, now, now, Hex(id), [], [], [])
  }

  /** No two records share an email. */
  predicate EmailsUnique(db: Store) {
    forall k1, k2 :: k1 in db.users && k2 in db.users && db.users[k1].email == db.users[k2].email ==> k1 == k2
  }

  /**
   * The legacy `SignUp`, as written. `hash` is the bcrypt hash of the password
   * and `generate` the token generator, whose error is ignored. A taken email
   * writes "User already exists" and carries on; a taken phone stops it.
   */
  method SignUp(db: Store, req: SignUpRequest, valid: bool, hash: string, generate: (string, string, string, string) -> (string, string),
                newId: ObjectId, now: Time) returns (db': Store, writes: seq<Reply>)
    requires newId !in db.users
    ensures !valid ==> db' == db && writes == [Opaque(400)]
    ensures valid && PhoneTaken(db, req.phone) ==>
      db' == db &&
      writes == (if EmailTaken(db, req.email) then [Json(400, "error", "User already exists")] else []) + [Json(400, "error", "Phone is already in use")]
    ensures valid && !PhoneTaken(db, req.phone) ==>
      writes == (if EmailTaken(db, req.email) then [Json(400, "error", "User already exists")] else []) + [Text(201, "Successfully Signed Up!!")] &&
      db' == db.(users := db.users[newId := NewUser(req, newId, hash, generate(req.email, req.firstName, req.lastName, Hex(newId)), now)])
  {
    if !valid {
      return db, [Opaque(400)];
    }
    writes := [];
    if EmailTaken(db, req.email) {
      writes := writes + [Json(400, "error", "User already exists")];
    }
    if PhoneTaken(db, req.phone) {
      return db, writes + [Json(400, "error", "Phone is already in use")];
    }
    var userId := Hex(newId);
    var tokens := generate(req.email, req.firstName, req.lastName, userId);
    var user := NewUser(req, newId, hash, tokens, now);
    db' := db.(users := db.users[newId := user]);
    writes := writes + [Text(201, "Successfully Signed Up!!")];
  }

  /** As written, registering a taken email (with a free phone) yields two records with that email. */
  lemma DuplicateEmailAdmitted(db: Store, req: SignUpRequest, hash: string, tokens: (string, string), newId: ObjectId, now: Time)
    requires newId !in db.users
    requires EmailTaken(db, req.email)
    ensures !EmailsUnique(db.(users := db.users[newId := NewUser(req, newId, hash, tokens, now)]))
  {
    var k :| k in db.users && db.users[k].email == req.email;
    var db' := db.(users := db.users[newId := NewUser(req, newId, hash, tokens, now)]);
    assert k in db'.users && newId in db'.users && db'.users[k].email == db'.users[newId].email && k != newId;
  }

  /** `SignUp` with the `return` after "User already exists" that it evidently lacks. */
  method SignUpIntended(db: Store, req: SignUpRequest, valid: bool, hash: string, generate: (string, string, string, string) -> (string, string),
                        newId: ObjectId, now: Time) returns (db': Store, writes: seq<Reply>)
    requires newId !in db.users
    ensures |writes| == 1
    ensures !valid ==> db' == db && writes == [Opaque(400)]
    ensures valid && EmailTaken(db, req.email) ==> db' == db && writes == [Json(400, "error", "User already exists")]
    ensures valid && !EmailTaken(db, req.email) && PhoneTaken(db, req.phone) ==>
      db' == db && writes == [Json(400, "error", "Phone is already in use")]
    ensures (valid && !EmailTaken(db, req.email) && !PhoneTaken(db, req.phone)) ==>
      writes == [Text(201, "Successfully Signed Up!!")] &&
      db' == db.(users := db.users[newId := NewUser(req, newId, hash, generate(req.email, req.firstName, req.lastName, Hex(newId)), now)])
    ensures writes[0].Text? <==> db' != db
    ensures EmailsUnique(db) ==> EmailsUnique(db')
  {
    if !valid {
      return db, [Opaque(400)];
    }
    if EmailTaken(db, req.email) {
      return db, [Json(400, "error", "User already exists")];
    }
    if PhoneTaken(db, req.phone) {
      return db, [Json(400, "error", "Phone is already in use")];
    }
    var userId := Hex(newId);
    var tokens := generate(req.email, req.firstName, req.lastName, userId);
    var user := NewUser(req, newId, hash, tokens, now);
    db' := db.(users := db.users[newId := user]);
    assert newId in db'.users;
    writes := [Text(201, "Successfully Signed Up!!")];
    if EmailsUnique(db) {
      forall k1, k2 | k1 in db'.users && k2 in db'.users && db'.users[k1].email == db'.users[k2].email
        ensures k1 == k2
      {
        if k1 != newId && k2 != newId {
          assert db.users[k1].email == db.users[k2].email;
        }
      }
    }
  }

  /** `ProductViewerAdmin` names a new product `product_` followed by the hex of a fresh id. */
  function AdminProductId(id: ObjectId): (s: string)
    ensures |s| == 32 && s[..8] == "product_"
  {
    "product_" + Hex(id)
  }

  /** Distinct drawn ids give distinct product ids. */
  lemma AdminProductIdInjective(a: ObjectId, b: ObjectId)
    ensures AdminProductId(a) == AdminProductId(b) <==> a == b
  {
    if AdminProductId(a) == AdminProductId(b) {
      assert AdminProductId(a)[8..] == Hex(a);
      assert AdminProductId(b)[8..] == Hex(b);
      HexInjective(a, b);
    }
  }
}
