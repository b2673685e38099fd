/**
 * PUT /api/user/profile (backend/controllers/userController.go): builds a
 * `$set` document from the non-empty request fields and writes it to the
 * caller's record.
 */
module UserController {
  import opened Wrappers
  import opened Text
  import opened Models

  datatype ProfileRequest = ProfileRequest(firstName: string, lastName: string, email: string, phone: string)

  /** A value in the `$set` document. */
  datatype FieldValue = Str(s: string) | At(t: Time)

  predicate IsEmptyRequest(req: ProfileRequest) {
    req.firstName == "" && req.lastName == "" && req.email == "" && req.phone == ""
  }

  /** Fills the `$set` document key by key: `updatedAt` always, each profile field only when non-empty, the email lower-cased. */
  method BuildProfileSet(req: ProfileRequest, now: Time) returns (update: map<string, FieldValue>)
    ensures update.Keys <= {"updatedAt", "first_name", "last_name", "email", "phone"}
    ensures "updatedAt" in update && update["updatedAt"] == At(now)
    ensures ("first_name" in update <==> req.firstName != "") && ("first_name" in update ==> update["first_name"] == Str(req.firstName))
    ensures ("last_name" in update <==> req.lastName != "") && ("last_name" in update ==> update["last_name"] == Str(req.lastName))
    ensures ("email" in update <==> req.email != "") && ("email" in update ==> update["email"] == Str(ToLower(req.email)))
    ensures ("phone" in update <==> req.phone != "") && ("phone" in update ==> update["phone"] == Str(req.phone))
    ensures |update| == 1 <==> IsEmptyRequest(req)
  {
    update := map["updatedAt" := At(now)];
    if req.firstName != "" {
      update := update["first_name" := Str(req.firstName)];
    }
    if req.lastName != "" {
      update := update["last_name" := Str(req.lastName)];
    }
    if req.email != "" {
      update := update["email" := Str(ToLower(req.email))];
    }
    if req.phone != "" {
      update := update["phone" := Str(req.phone)];
    }
  }

  function TextField(update: map<string, FieldValue>, key: string, previous: string): string {
    if key in update && update[key].Str? then update[key].s else previous
  }

  /** What `$set` does to a record: the named fields take the new values, every other field keeps its old one. */
  function ApplyProfileSet(u: User, update: map<string, FieldValue>): (u': User)
    ensures u'.userCart == u.userCart && u'.address == u.address && u'.orders == u.orders
    ensures u'.password == u.password && u'.userId == u.userId && u'.id == u.id
    ensures "first_name" !in update ==> u'.firstName == u.firstName
    ensures "last_name" !in update ==> u'.lastName == u.lastName
    ensures "email" !in update ==> u'.email == u.email
    ensures "phone" !in update ==> u'.phone == u.phone
    ensures "updatedAt" !in update ==> u'.updatedAt == u.updatedAt
    ensures u'.createdAt == u.createdAt && u'.token == u.token && u'.refreshToken == u.refreshToken
  {
    u.(firstName := TextField(update, "first_name", u.firstName),
       lastName := TextField(update, "last_name", u.lastName),
       email := TextField(update, "email", u.email),
       phone := TextField(update, "phone", u.phone),
       updatedAt := if "updatedAt" in update && update["updatedAt"].At? then update["updatedAt"].t else u.updatedAt)
  }

  /** The profile after a request: each non-empty field replaces the old one (the email lower-cased), and the update time is stamped. */
  function Profiled(u: User, req: ProfileRequest, now: Time): User {
    u.(firstName := if req.firstName != "" then req.firstName else u.firstName,
       lastName := if req.lastName != "" then req.lastName else u.lastName,
       email := if req.email != "" then ToLower(req.email) else u.email,
       phone := if req.phone != "" then req.phone else u.phone,
       updatedAt := now)
  }

  /** Repeating the same profile update changes nothing more. */
  lemma ProfiledIdempotent(u: User, req: ProfileRequest, now: Time)
    ensures Profiled(Profiled(u, req, now), req, now) == Profiled(u, req, now)
  {
  }

  /** The stored email is always lower-case when the request gave one. */
  lemma ProfiledEmailIsLower(u: User, req: ProfileRequest, now: Time)
    requires req.email != ""
    ensures ToLower(Profiled(u, req, now).email) == Profiled(u, req, now).email
  {
    ToLowerIdempotent(req.email);
  }

  method UpdateProfile(db: Store, caller: Option<string>, req: ProfileRequest, now: Time) returns (db': Store, response: Response)
    ensures caller.None? ==> db' == db && response == NotAuthenticated
    ensures caller.Some? && IsEmptyRequest(req) ==> db' == db && response == Error(400, "No fields to update")
    ensures caller.Some? && !IsEmptyRequest(req) ==>
      response == Message(200, "Profile updated successfully") &&
      db' == if caller.value in db.users
             then WithUser(db, caller.value, Profiled(db.users[caller.value], req, now))
             else db
  {
    if caller.None? {
      return db, NotAuthenticated;
    }
    var update := BuildProfileSet(req, now);
    if |update| == 1 {
      return db, Error(400, "No fields to update");
    }
    db' := db;
    if caller.value in db.users {
      var u := db.users[caller.value];
      assert ApplyProfileSet(u, update) == Profiled(u, req, now);
      db' := WithUser(db, caller.value, ApplyProfileSet(u, update));
    }
    response := Message(200, "Profile updated successfully");
  }
}
