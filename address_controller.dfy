/**
 * The address book handlers of backend/controllers/addressController.go,
 * over the user's embedded `address` array.
 */
module AddressController {
  import opened Wrappers
  import opened ObjectIds
  import opened Seqs
  import opened Models

  datatype AddressRequest = AddressRequest(houseName: string, streetName: string, cityName: string, pinCode: string)

  /** GET /api/address. */
  method GetAddresses(db: Store, caller: Option<string>) returns (response: Response, addresses: seq<Address>)
    ensures caller.None? ==> response == NotAuthenticated
    ensures caller.Some? && caller.value !in db.users ==> response == Error(404, "User not found")
    ensures caller.Some? && caller.value in db.users ==>
      response == Payload(200) && addresses == db.users[caller.value].address
  {
    addresses := [];
    if caller.None? {
      return NotAuthenticated, addresses;
    }
    if caller.value !in db.users {
      return Error(404, "User not found"), addresses;
    }
    response, addresses := Payload(200), db.users[caller.value].address;
  }

  /** Every field is required: binding rejects an absent or empty one. */
  predicate IsComplete(req: AddressRequest) {
    req.houseName != "" && req.streetName != "" && req.cityName != "" && req.pinCode != ""
  }

  /**
   * POST /api/address: appends one address with the fresh id `newId`, with no
   * limit on the count. The update filters on `user_id` without loading the
   * user, so an unknown user changes nothing and still gets the success reply.
   */
  method AddAddress(db: Store, caller: Option<string>, req: AddressRequest, newId: ObjectId, now: Time)
    returns (db': Store, response: Response, added: Address)
    ensures caller.None? ==> db' == db && response == NotAuthenticated
    ensures caller.Some? && !IsComplete(req) ==> db' == db && response == Error(400, "All address fields are required")
    ensures caller.Some? && IsComplete(req) ==>
      response == Message(200, "Address added successfully") &&
      added == Address(newId, req.houseName, req.streetName, req.cityName, req.pinCode) &&
      db' == if caller.value in db.users
             then WithUser(db, caller.value,
                    db.users[caller.value].(address := db.users[caller.value].address + [added], updatedAt := now))
             else db
  {
    added := Address(newId, req.houseName, req.streetName, req.cityName, req.pinCode);
    if caller.None? {
      return db, NotAuthenticated, added;
    }
    if !IsComplete(req) {
      return db, Error(400, "All address fields are required"), added;
    }
    db' := db;
    if caller.value in db.users {
      var user := db.users[caller.value];
      db' := WithUser(db, caller.value, user.(address := user.address + [added], updatedAt := now));
    }
    response := Message(200, "Address added successfully");
  }

  /** The partial update: a field is overwritten only when the request gives it as a non-empty string. */
  function Patch(a: Address, req: AddressRequest): Address {
    a.(houseName := if req.houseName != "" then req.houseName else a.houseName,
       streetName := if req.streetName != "" then req.streetName else a.streetName,
       cityName := if req.cityName != "" then req.cityName else a.cityName,
       pinCode := if req.pinCode != "" then req.pinCode else a.pinCode)
  }

  /** A request with every field empty leaves the address as it was. */
  lemma PatchWithNothing(a: Address, req: AddressRequest)
    requires req.houseName == "" && req.streetName == "" && req.cityName == "" && req.pinCode == ""
    ensures Patch(a, req) == a
  {
  }

  /** Applying the same request twice is applying it once, and the id never changes. */
  lemma PatchIdempotent(a: Address, req: AddressRequest)
    ensures Patch(Patch(a, req), req) == Patch(a, req)
    ensures Patch(a, req).id == a.id
  {
  }

  predicate HasHex(a: Address, id: string) {
    Hex(a.id) == id
  }

  function AddressWithHex(id: string): Address -> bool {
    (a: Address) => HasHex(a, id)
  }

  /** PUT /api/address/:id: patches the first address whose id's hex form is the given id; the others and the order are kept. */
  method UpdateAddress(db: Store, caller: Option<string>, addressId: string, req: AddressRequest, now: Time)
    returns (db': Store, response: Response)
    ensures caller.None? ==> db' == db && response == NotAuthenticated
    ensures caller.Some? && caller.value !in db.users ==> db' == db && response == Error(404, "User not found")
    ensures caller.Some? && caller.value in db.users ==>
      var user := db.users[caller.value];
      var i := IndexOfFirst(user.address, AddressWithHex(addressId));
      (i == -1 ==> db' == db && response == Error(404, "Address not found")) &&
      (i >= 0 ==>
         response == Message(200, "Address updated successfully") &&
         db' == WithUser(db, caller.value,
           user.(address := user.address[i := Patch(user.address[i], req)], updatedAt := now)))
  {
    if caller.None? {
      return db, NotAuthenticated;
    }
    var uid := caller.value;
    if uid !in db.users {
      return db, Error(404, "User not found");
    }
    var user := db.users[uid];
    var addresses := user.address;
    var addressIndex := -1;
    var i := 0;
    while i < |addresses|
      invariant 0 <= i <= |addresses|
      invariant forall j :: 0 <= j < i ==> !HasHex(addresses[j], addressId)
    {
      if HasHex(addresses[i], addressId) {
        addressIndex := i;
        break;
      }
      i := i + 1;
    }
    IndexOfFirstIsFirst(addresses, AddressWithHex(addressId), addressIndex);
    if addressIndex == -1 {
      return db, Error(404, "Address not found");
    }
    var a := addresses[addressIndex];
    if req.houseName != "" {
      a := a.(houseName := req.houseName);
    }
    if req.streetName != "" {
      a := a.(streetName := req.streetName);
    }
    if req.cityName != "" {
      a := a.(cityName := req.cityName);
    }
    if req.pinCode != "" {
      a := a.(pinCode := req.pinCode);
    }
    addresses := addresses[addressIndex := a];
    db' := WithUser(db, uid, user.(address := addresses, updatedAt := now));
    response := Message(200, "Address updated successfully");
  }

  function KeepAddress(id: string): Address -> bool {
    (a: Address) => !HasHex(a, id)
  }

  /** An id no address has leaves the list unchanged. */
  lemma DeleteUnknownKeepsAll(addresses: seq<Address>, id: string)
    requires forall j :: 0 <= j < |addresses| ==> Hex(addresses[j].id) != id
    ensures Filter(addresses, KeepAddress(id)) == addresses
  {
    FilterAllKept(addresses, KeepAddress(id));
  }

  /** DELETE /api/address/:id: keeps exactly the addresses with another id, in order; succeeds for an unknown id too. */
  method DeleteAddress(db: Store, caller: Option<string>, addressId: string, now: Time)
    returns (db': Store, response: Response)
    ensures caller.None? ==> db' == db && response == NotAuthenticated
    ensures caller.Some? && caller.value !in db.users ==> db' == db && response == Error(404, "User not found")
    ensures caller.Some? && caller.value in db.users ==>
      var user := db.users[caller.value];
      response == Message(200, "Address deleted successfully") &&
      db' == WithUser(db, caller.value, user.(address := Filter(user.address, KeepAddress(addressId)), updatedAt := now))
  {
    if caller.None? {
      return db, NotAuthenticated;
    }
    var uid := caller.value;
    if uid !in db.users {
      return db, Error(404, "User not found");
    }
    var user := db.users[uid];
    var addresses := user.address;
    var filteredAddresses := [];
    for i := 0 to |addresses|
      invariant filteredAddresses == Filter(addresses[..i], KeepAddress(addressId))
    {
      FilterSnoc(addresses[..i], addresses[i], KeepAddress(addressId));
      assert addresses[..i + 1] == addresses[..i] + [addresses[i]];
      if !HasHex(addresses[i], addressId) {
        filteredAddresses := filteredAddresses + [addresses[i]];
      }
    }
    assert addresses[..|addresses|] == addresses;
    db' := WithUser(db, uid, user.(address := filteredAddresses, updatedAt := now));
    response := Message(200, "Address deleted successfully");
  }
}
