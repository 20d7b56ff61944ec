/** The records the front end exchanges with the restaurant's REST service,
    and the shape of a service reply as the stores see it. */
module ShopTypes {

  datatype Option<+T> = None | Some(value: T)

  /** Prices are whole cents: the model does not follow floating-point `number`s. */
  type Cents = int

  datatype Role = Admin | Customer

  /** A signed-in user. `id` is the declared identifier; `serviceId` is the `_id` property that
      the cart page reads instead, which the declared type does not have, so it may be missing. */
  datatype User = User(id: string, name: string, email: string, role: Role, serviceId: Option<string>)

  datatype MenuItem = MenuItem(
    id: string,
    name: string,
    description: string,
    price: Cents,
    category: string,
    image: Option<string>,
    createdAt: string,
    updatedAt: string)

  /** One cart line: a snapshot of the menu item taken when it was first added. */
  datatype CartItem = CartItem(menuItem: MenuItem, quantity: int)

  /** The five order states, in the order the kitchen moves through them. */
  datatype Status = Ordered | Preparing | Ready | Delivered | Cancelled

  /** A line of a placed order; the referenced menu item may since have been deleted. */
  datatype OrderItem = OrderItem(menuItem: Option<MenuItem>, quantity: int, price: Cents)

  datatype Order = Order(
    id: string,
    customer: User,
    items: seq<OrderItem>,
    totalAmount: Cents,
    status: Status,
    deliveryAddress: string,
    phoneNumber: string,
    createdAt: string,
    updatedAt: string)

  /** A failed request: `message` is the server's `response.data.message`, when it sent one. */
  datatype HttpError = HttpError(message: Option<string>)

  /** What an awaited request produced: the response body, or the error it threw. */
  datatype Reply<+T> = Ok(data: T) | Err(error: HttpError)

  /** What a page shows in a blocking `alert`: a fixed text, or the caught error itself. */
  datatype Alert = Message(text: string) | Shown(error: HttpError)

  /** `error.response?.data?.message || fallback`: an absent or empty message gives the fallback. */
  function ErrorText(e: HttpError, fallback: string): (t: string)
    ensures fallback != "" ==> t != ""
    ensures e.message.Some? && e.message.value != "" ==> t == e.message.value
    ensures (e.message.None? || e.message.value == "") ==> t == fallback
  {
    match e.message
    case Some(m) => if m != "" then m else fallback
    case None => fallback
  }
}
