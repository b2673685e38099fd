/**
 * The legacy address handlers (backend/controllers/address.go): the
 * query-string handlers with their two-address limit and fixed slots, and the
 * `*Modern` handlers that push, update by id and pull.
 */
module LegacyAddress {
  import opened Wrappers
  import opened ObjectIds
  import opened Seqs
  import opened LegacyModels

  /** The address an address body becomes, under the id `newId`. */
  function NewAddress(newId: ObjectId, f: AddressFields): Address {
    Address(newId, f.house, f.street, f.city, f.pincode)
  }

  /**
   * The rows the counting pipeline yields for one user: none when the user
   * is unknown or has no address, otherwise one row holding the count.
   */
  function CountRows(db: Store, id: ObjectId): seq<int> {
    if id in db.users && |db.users[id].addressDetails| > 0 then [|db.users[id].addressDetails|] else []
  }

  /** No user holds more than two addresses. */
  predicate AtMostTwoAddresses(db: Store) {
    forall k :: k in db.users ==> |db.users[k].addressDetails| <= 2
  }

  /**
   * `AddAddress`: an id that does not parse writes an error and carries on
   * with the zero id; the push happens only while the user has fewer than
   * two addresses, and "Not Allowed " is the only reply otherwise.
   */
  method AddAddress(db: Store, userQueryID: string, body: AddressFields, newId: ObjectId) returns (db': Store, writes: seq<Reply>)
    ensures userQueryID == "" ==> db' == db && writes == [Json(404, "error", "Invalid code")]
    ensures userQueryID != "" ==>
      var id := FromHexOrZero(userQueryID);
      var before := if FromHex(userQueryID).None? then [Text(500, "Internal Server Error")] else [];
      (id in db.users && |db.users[id].addressDetails| >= 2 ==> db' == db && writes == before + [Text(400, "Not Allowed ")]) &&
      (id in db.users && |db.users[id].addressDetails| < 2 ==>
         writes == before &&
         db' == WithUser(db, id, db.users[id].(addressDetails := db.users[id].addressDetails + [NewAddress(newId, body)]))) &&
      (id !in db.users ==> db' == db && writes == before)
    ensures AtMostTwoAddresses(db) ==> AtMostTwoAddresses(db')
  {
    if userQueryID == "" {
      return db, [Json(404, "error", "Invalid code")];
    }
    writes := [];
    var parsed := FromHex(userQueryID);
    if parsed.None? {
      writes := writes + [Text(500, "Internal Server Error")];
    }
    var id := FromHexOrZero(userQueryID);
    var addresses := NewAddress(newId, body);
    var rows := CountRows(db, id);
    var size := 0;
    for i := 0 to |rows|
      invariant size == if i == 0 then 0 else rows[i - 1]
    {
      size := rows[i];
    }
    assert size == if id in db.users then |db.users[id].addressDetails| else 0;
    db' := db;
    if size < 2 {
      if id in db.users {
        db' := WithUser(db, id, db.users[id].(addressDetails := db.users[id].addressDetails + [addresses]));
      }
    } else {
      writes := writes + [Text(400, "Not Allowed ")];
    }
  }

  /** `$set` of the four fields of one slot: that slot changes, keeping its id, the others do not. */
  function EditSlot(addresses: seq<Address>, slot: nat, f: AddressFields): (r: seq<Address>)
    requires slot < |addresses|
    ensures |r| == |addresses|
    ensures r[slot] == Address(addresses[slot].addressId, f.house, f.street, f.city, f.pincode)
    ensures forall j :: 0 <= j < |addresses| && j != slot ==> r[j] == addresses[j]
  {
    addresses[slot := addresses[slot].(house := f.house, street := f.street, city := f.city, pincode := f.pincode)]
  }

  /** An edit of a slot leaves the number of addresses as it was, so the two-address limit is kept. */
  lemma EditSlotKeepsLimit(db: Store, id: ObjectId, slot: nat, f: AddressFields)
    requires id in db.users && slot < |db.users[id].addressDetails|
    requires AtMostTwoAddresses(db)
    ensures AtMostTwoAddresses(WithUser(db, id, db.users[id].(addressDetails := EditSlot(db.users[id].addressDetails, slot, f))))
  {
  }

  /**
   * The shared body of `EditHomeAddress` (slot 0) and `EditWorkAddress`
   * (slot 1); the user, when it exists, must already have that slot.
   */
  method EditAddressSlot(db: Store, userQueryID: string, body: AddressFields, slot: nat, missingId: string, success: string)
    returns (db': Store, writes: seq<Reply>)
    requires FromHexOrZero(userQueryID) in db.users ==> slot < |db.users[FromHexOrZero(userQueryID)].addressDetails|
    ensures userQueryID == "" ==> db' == db && writes == [Json(404, "Error", missingId)]
    ensures userQueryID != "" ==>
      var id := FromHexOrZero(userQueryID);
      writes == (if FromHex(userQueryID).None? then [Opaque(500)] else []) + [Text(200, success)] &&
      db' == if id in db.users
             then WithUser(db, id, db.users[id].(addressDetails := EditSlot(db.users[id].addressDetails, slot, body)))
             else db
  {
    if userQueryID == "" {
      return db, [Json(404, "Error", missingId)];
    }
    writes := [];
    if FromHex(userQueryID).None? {
      writes := writes + [Opaque(500)];
    }
    var id := FromHexOrZero(userQueryID);
    db' := db;
    if id in db.users {
      db' := WithUser(db, id, db.users[id].(addressDetails := EditSlot(db.users[id].addressDetails, slot, body)));
    }
    writes := writes + [Text(200, success)];
  }

  method EditHomeAddress(db: Store, userQueryID: string, body: AddressFields) returns (db': Store, writes: seq<Reply>)
    requires FromHexOrZero(userQueryID) in db.users ==> |db.users[FromHexOrZero(userQueryID)].addressDetails| >= 1
    ensures userQueryID == "" ==> db' == db && writes == [Json(404, "Error", "Invalid")]
    ensures userQueryID != "" ==>
      var id := FromHexOrZero(userQueryID);
      writes == (if FromHex(userQueryID).None? then [Opaque(500)] else []) + [Text(200, "Successfully Updated the Home address")] &&
      db' == if id in db.users
             then WithUser(db, id, db.users[id].(addressDetails := EditSlot(db.users[id].addressDetails, 0, body)))
             else db
  {
    db', writes := EditAddressSlot(db, userQueryID, body, 0, "Invalid", "Successfully Updated the Home address");
  }

  method EditWorkAddress(db: Store, userQueryID: string, body: AddressFields) returns (db': Store, writes: seq<Reply>)
    requires FromHexOrZero(userQueryID) in db.users ==> |db.users[FromHexOrZero(userQueryID)].addressDetails| >= 2
    ensures userQueryID == "" ==> db' == db && writes == [Json(404, "Error", "Wrong id not provided")]
    ensures userQueryID != "" ==>
      var id := FromHexOrZero(userQueryID);
      writes == (if FromHex(userQueryID).None? then [Opaque(500)] else []) + [Text(200, "Successfully updated the Work Address")] &&
      db' == if id in db.users
             then WithUser(db, id, db.users[id].(addressDetails := EditSlot(db.users[id].addressDetails, 1, body)))
             else db
  {
    db', writes := EditAddressSlot(db, userQueryID, body, 1, "Wrong id not provided", "Successfully updated the Work Address");
  }

  /** The legacy `DeleteAddress` empties the whole list. */
  method DeleteAddress(db: Store, userQueryID: string) returns (db': Store, writes: seq<Reply>)
    ensures userQueryID == "" ==> db' == db && writes == [Json(404, "Error", "Invalid Search Index")]
    ensures userQueryID != "" ==>
      var id := FromHexOrZero(userQueryID);
      writes == (if FromHex(userQueryID).None? then [Text(500, "Internal Server Error")] else []) + [Text(200, "Successfully Deleted!")] &&
      db' == if id in db.users then WithUser(db, id, db.users[id].(addressDetails := [])) else db
    ensures AtMostTwoAddresses(db) ==> AtMostTwoAddresses(db')
  {
    if userQueryID == "" {
      return db, [Json(404, "Error", "Invalid Search Index")];
    }
    writes := [];
    if FromHex(userQueryID).None? {
      writes := writes + [Text(500, "Internal Server Error")];
    }
    var id := FromHexOrZero(userQueryID);
    db' := db;
    if id in db.users {
      db' := WithUser(db, id, db.users[id].(addressDetails := []));
    }
    writes := writes + [Text(200, "Successfully Deleted!")];
  }

  /** GET: the addresses and their count. */
  method GetAddressesModern(db: Store, uid: string) returns (reply: Reply, addresses: seq<Address>, count: nat)
    ensures uid == "" ==> reply == NotAuthenticated
    ensures uid != "" && FromHex(uid).None? ==> reply == Json(400, "error", "Invalid user ID format")
    ensures uid != "" && FromHex(uid).Some? && FromHex(uid).value !in db.users ==>
      reply == Json(500, "error", "Failed to get user addresses")
    ensures (uid != "" && FromHex(uid).Some? && FromHex(uid).value in db.users) ==>
      reply == Payload(200) && addresses == db.users[FromHex(uid).value].addressDetails && count == |addresses|
  {
    addresses, count := [], 0;
    if uid == "" {
      return NotAuthenticated, addresses, count;
    }
    var userObjectID := FromHex(uid);
    if userObjectID.None? {
      return Json(400, "error", "Invalid user ID format"), addresses, count;
    }
    if userObjectID.value !in db.users {
      return Json(500, "error", "Failed to get user addresses"), addresses, count;
    }
    addresses := db.users[userObjectID.value].addressDetails;
    reply, count := Payload(200), |addresses|;
  }

  /** POST: `$push` under a newId id, with no limit; an unknown user is not an error. */
  method AddAddressModern(db: Store, uid: string, body: AddressFields, newId: ObjectId) returns (db': Store, reply: Reply, added: Address)
    ensures added == NewAddress(newId, body)
    ensures uid == "" ==> db' == db && reply == NotAuthenticated
    ensures uid != "" && FromHex(uid).None? ==> db' == db && reply == Json(400, "error", "Invalid user ID format")
    ensures (uid != "" && FromHex(uid).Some?) ==>
      var id := FromHex(uid).value;
      reply == Json(200, "message", "Address added successfully") &&
      db' == if id in db.users then WithUser(db, id, db.users[id].(addressDetails := db.users[id].addressDetails + [added])) else db
  {
    added := NewAddress(newId, body);
    if uid == "" {
      return db, NotAuthenticated, added;
    }
    var userObjectID := FromHex(uid);
    if userObjectID.None? {
      return db, Json(400, "error", "Invalid user ID format"), added;
    }
    db' := db;
    if userObjectID.value in db.users {
      var user := db.users[userObjectID.value];
      db' := WithUser(db, userObjectID.value, user.(addressDetails := user.addressDetails + [added]));
    }
    reply := Json(200, "message", "Address added successfully");
  }

  predicate HasAddressId(a: Address, id: ObjectId) {
    a.addressId == id
  }

  function AddressWithId(id: ObjectId): Address -> bool {
    (a: Address) => HasAddressId(a, id)
  }

  function KeepOtherAddresses(id: ObjectId): Address -> bool {
    (a: Address) => !HasAddressId(a, id)
  }

  /**
   * PUT: the positional `$set` writes all four fields, empty ones included,
   * into the first address with that id; the filter matches only when one has it.
   */
  method UpdateAddressModern(db: Store, uid: string, addressParam: string, body: AddressFields) returns (db': Store, reply: Reply)
    ensures uid == "" ==> db' == db && reply == NotAuthenticated
    ensures uid != "" && addressParam == "" ==> db' == db && reply == Json(400, "error", "Address ID is required")
    ensures (uid != "" && addressParam != "" && FromHex(addressParam).None?) ==>
      db' == db && reply == Json(400, "error", "Invalid address ID format")
    ensures (uid != "" && addressParam != "" && FromHex(addressParam).Some?) ==>
      var id := FromHexOrZero(uid);
      var aid := FromHex(addressParam).value;
      var i := if id in db.users then IndexOfFirst(db.users[id].addressDetails, AddressWithId(aid)) else -1;
      (i == -1 ==> db' == db && reply == Json(404, "error", "Address not found")) &&
      (i >= 0 ==>
         reply == Json(200, "message", "Address updated successfully") &&
         db' == WithUser(db, id, db.users[id].(addressDetails := EditSlot(db.users[id].addressDetails, i, body))))
  {
    if uid == "" {
      return db, NotAuthenticated;
    }
    if addressParam == "" {
      return db, Json(400, "error", "Address ID is required");
    }
    var addressObjectID := FromHex(addressParam);
    if addressObjectID.None? {
      return db, Json(400, "error", "Invalid address ID format");
    }
    var id := FromHexOrZero(uid);
    if id !in db.users {
      return db, Json(404, "error", "Address not found");
    }
    var user := db.users[id];
    var i := IndexOfFirst(user.addressDetails, AddressWithId(addressObjectID.value));
    if i == -1 {
      return db, Json(404, "error", "Address not found");
    }
    db' := WithUser(db, id, user.(addressDetails := EditSlot(user.addressDetails, i, body)));
    reply := Json(200, "message", "Address updated successfully");
  }

  /** DELETE: `$pull` of every address with that id; 404 only when the user is unknown. */
  method DeleteAddressModern(db: Store, uid: string, addressParam: string) returns (db': Store, reply: Reply)
    ensures uid == "" ==> db' == db && reply == NotAuthenticated
    ensures uid != "" && addressParam == "" ==> db' == db && reply == Json(400, "error", "Address ID is required")
    ensures (uid != "" && addressParam != "" && FromHex(addressParam).None?) ==>
      db' == db && reply == Json(400, "error", "Invalid address ID format")
    ensures (uid != "" && addressParam != "" && FromHex(addressParam).Some?) ==>
      var id := FromHexOrZero(uid);
      var aid := FromHex(addressParam).value;
      (id !in db.users ==> db' == db && reply == Json(404, "error", "User not found")) &&
      (id in db.users ==>
         reply == Json(200, "message", "Address deleted successfully") &&
         db' == WithUser(db, id, db.users[id].(addressDetails := Filter(db.users[id].addressDetails, KeepOtherAddresses(aid)))))
  {
    if uid == "" {
      return db, NotAuthenticated;
    }
    if addressParam == "" {
      return db, Json(400, "error", "Address ID is required");
    }
    var addressObjectID := FromHex(addressParam);
    if addressObjectID.None? {
      return db, Json(400, "error", "Invalid address ID format");
    }
    var id := FromHexOrZero(uid);
    if id !in db.users {
      return db, Json(404, "error", "User not found");
    }
    var user := db.users[id];
    db' := WithUser(db, id, user.(addressDetails := Filter(user.addressDetails, KeepOtherAddresses(addressObjectID.value))));
    reply := Json(200, "message", "Address deleted successfully");
  }

  /** The pull leaves no address with the id, keeps every other one, and never lengthens the list. */
  lemma PullRemovesExactly(addresses: seq<Address>, id: ObjectId)
    ensures var r := Filter(addresses, KeepOtherAddresses(id));
      |r| <= |addresses| &&
      (forall j :: 0 <= j < |r| ==> r[j].addressId != id) &&
      (forall j :: 0 <= j < |addresses| && addresses[j].addressId != id ==> addresses[j] in r)
  {
    var r := Filter(addresses, KeepOtherAddresses(id));
    assert forall j :: 0 <= j < |r| ==> KeepOtherAddresses(id)(r[j]);
  }

  /** An address id no address has leaves the list unchanged. */
  lemma PullUnknownKeepsAll(addresses: seq<Address>, id: ObjectId)
    requires forall j :: 0 <= j < |addresses| ==> addresses[j].addressId != id
    ensures Filter(addresses, KeepOtherAddresses(id)) == addresses
  {
    FilterAllKept(addresses, KeepOtherAddresses(id));
  }
}
