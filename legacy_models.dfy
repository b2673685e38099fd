/**
 * The records of the older generation (its `models` package is not part of
 * this model; the fields are those the legacy handlers use). Users are keyed
 * by their `_id`, products too.
 */
module LegacyModels {
  import opened Wrappers
  import opened ObjectIds

  type Time = int

  /** A catalogue entry; its price is an unsigned integer. */
  datatype Product = Product(productId: string, productName: string, price: nat, rating: Option<nat>, image: string)

  /** A cart line: the product snapshot, its quantity, and `ID` holding the product's `_id`. */
  datatype ProductUser = ProductUser(
    id: ObjectId,
    productId: string,
    productName: string,
    price: int,
    rating: Option<nat>,
    image: string,
    quantity: int)

  datatype Address = Address(addressId: ObjectId, house: string, street: string, city: string, pincode: string)

  /** The four editable fields of an address, as a request body gives them. */
  datatype AddressFields = AddressFields(house: string, street: string, city: string, pincode: string)

  datatype Payment = Payment(digital: bool, cod: bool)

  datatype Order = Order(orderId: ObjectId, orderCart: seq<ProductUser>, orderedAt: Time, price: int,
                         discount: Option<int>, paymentMethod: Payment)

  datatype User = User(
    id: ObjectId,
    firstName: string,
    lastName: string,
    password: string,
    email: string,
    phone: string,
    token: string,
    refreshToken: string,
    createdAt: Time,
    updatedAt: Time,
    userId: string,
    userCart: seq<ProductUser>,
    addressDetails: seq<Address>,
    orderStatus: seq<Order>)

  datatype Store = Store(users: map<ObjectId, User>, products: map<ObjectId, Product>)

  /** The one user document an `UpdateOne` filtered on `_id` replaces. */
  function WithUser(db: Store, id: ObjectId, u: User): (db': Store)
    ensures db'.products == db.products
    ensures db'.users.Keys == db.users.Keys + {id} && db'.users[id] == u
    ensures forall k :: k in db.users && k != id ==> db'.users[k] == db.users[k]
  {
    db.(users := db.users[id := u])
  }

  /** The error values of the legacy database layer. */
  datatype DbError =
    | ErrCantFindProduct
    | ErrCantDecodeProducts
    | ErrUserIDIsNotValid
    | ErrCantUpdateUser
    | ErrCantRemoveItem
    | ErrCantGetItem
    | ErrCantBuyCartItem
    | ErrProductNotFound

  function ErrorText(e: DbError): string {
    match e
    case ErrCantFindProduct => "can't find product"
    case ErrCantDecodeProducts => "can't find product"
    case ErrUserIDIsNotValid => "user is not valid"
    case ErrCantUpdateUser => "cannot add product to cart"
    case ErrCantRemoveItem => "cannot remove item from cart"
    case ErrCantGetItem => "cannot get item from cart "
    case ErrCantBuyCartItem => "cannot update the purchase"
    case ErrProductNotFound => "product not found"
  }

  /**
   * One write to the response. The legacy handlers often write more than once
   * (an error, then carry on), so they return the sequence of their writes.
   */
  datatype Reply =
    | Json(status: int, key: string, value: string)  // a one-entry JSON object
    | Text(status: int, text: string)                // a JSON string
    | Failure(status: int, err: DbError)             // a database error value
    | Opaque(status: int)                            // a library error value, shape not modelled
    | Abort(status: int, reason: string)             // status set, no body, reason attached
    | Payload(status: int)                           // data returned beside the reply

  const NotAuthenticated: Reply := Json(401, "error", "User not authenticated")
}
