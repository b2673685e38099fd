/**
 * The records of the current generation (backend/models): a user document
 * embeds its cart, its addresses and its order history. The store holds the
 * user collection, keyed by the `user_id` field every handler filters on, and
 * the product collection in storage order (a `FindOne` returns the first match).
 */
module Models {
  import opened Wrappers
  import opened ObjectIds

  /** A timestamp, supplied by the caller (the clock is not modelled). */
  type Time = int

  datatype Address = Address(
    id: ObjectId,
    houseName: string,
    streetName: string,
    cityName: string,
    pinCode: string)

  /** A cart line or order line: a snapshot of a product plus a quantity. */
  datatype ProductUser = ProductUser(
    id: ObjectId,
    productId: string,
    productName: string,
    price: int,
    rating: Option<int>,
    image: string,
    quantity: int)

  datatype Payment = Payment(digital: bool, cod: bool)

  datatype Order = Order(
    id: ObjectId,
    orderList: seq<ProductUser>,
    orderedOn: Time,
    totalPrice: int,
    discount: Option<int>,
    paymentMethod: Payment,
    razorpayOrderId: string,
    razorpayPaymentId: string,
    status: string,
    deliveryAddress: Option<Address>)

  datatype User = User(
    id: ObjectId,
    firstName: string,
    lastName: string,
    password: string,
    email: string,
    phone: string,
    token: string,
    refreshToken: string,
    userId: string,
    userCart: seq<ProductUser>,
    address: seq<Address>,
    orders: seq<Order>,
    createdAt: Time,
    updatedAt: Time)

  /** The catalogue fields the cart copies (backend/models/product.go). */
  datatype Product = Product(
    id: ObjectId,
    productId: string,
    productName: string,
    price: int,
    rating: Option<int>,
    image: string)

  datatype Store = Store(users: map<string, User>, products: seq<Product>)

  /** The one user document an `UpdateOne` filtered on `user_id` replaces. */
  function WithUser(db: Store, uid: string, u: User): (db': Store)
    ensures db'.products == db.products
    ensures db'.users.Keys == db.users.Keys + {uid} && db'.users[uid] == u
    ensures forall k :: k in db.users && k != uid ==> db'.users[k] == db.users[k]
  {
    db.(users := db.users[uid := u])
  }

  /** Every record sits under its own `user_id`: the key a `{"user_id": ...}` filter selects is the record's field. */
  predicate KeyedByUserId(db: Store) {
    forall k :: k in db.users ==> db.users[k].userId == k
  }

  /** Writing a record under its own `user_id` keeps the store keyed that way. */
  lemma WithUserKeepsKeying(db: Store, uid: string, u: User)
    requires KeyedByUserId(db) && u.userId == uid
    ensures KeyedByUserId(WithUser(db, uid, u))
  {
  }

  /** What a handler writes back: `{"message": ...}`, `{"error": ...}`, or a body of data returned beside it. */
  datatype Response =
    | Message(status: int, message: string)
    | Error(status: int, error: string)
    | Payload(status: int)

  /** The reply every handler gives when the middleware left no claims in the context. */
  const NotAuthenticated: Response := Error(401, "User not authenticated")
}
