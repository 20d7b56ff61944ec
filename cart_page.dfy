/** The cart page: placing an order from the cart (check the delivery details,
    post one line per cart entry, clear the cart only once the post went
    through) and the per-entry "−", "+" and remove buttons. */
module CartPage {
  import opened ShopTypes
  import CartStore

  const MissingDetails := "Please fill in delivery address and phone number"
  const Placed := "Order placed successfully!"

  /** One line of the `POST /orders` body. */
  datatype LineRequest = LineRequest(menuItem: string, quantity: int)

  /** The `POST /orders` body. */
  datatype OrderPayload = OrderPayload(
    customer: Option<string>,
    items: seq<LineRequest>,
    deliveryAddress: string,
    phoneNumber: string)

  /** `items.map(item => ({ menuItem: item.menuItem._id, quantity: item.quantity }))`:
      one line per entry, same order, same id and quantity. */
  function PayloadLines(items: seq<CartItem>): (r: seq<LineRequest>)
    ensures |r| == |items|
    ensures forall i :: 0 <= i < |items| ==>
      r[i].menuItem == items[i].menuItem.id && r[i].quantity == items[i].quantity
  {
    if items == [] then []
    else [LineRequest(items[0].menuItem.id, items[0].quantity)] + PayloadLines(items[1..])
  }

  /** How many units the order asks for in all. */
  function RequestedUnits(lines: seq<LineRequest>): int
  {
    if lines == [] then 0 else RequestedUnits(lines[..|lines| - 1]) + lines[|lines| - 1].quantity
  }

  /** The posted lines ask for exactly the cart's item count, name each menu item once, and ask
      for at least one of each. */
  lemma {:induction false} PayloadMatchesCart(items: seq<CartItem>)
    requires CartStore.WellFormed(items)
    ensures RequestedUnits(PayloadLines(items)) == CartStore.TotalItems(items)
    ensures forall i, j :: 0 <= i < j < |items| ==>
      PayloadLines(items)[i].menuItem != PayloadLines(items)[j].menuItem
    ensures forall i :: 0 <= i < |items| ==> PayloadLines(items)[i].quantity > 0
  {
    UnitsMatchTotal(items);
  }

  lemma {:induction false} UnitsMatchTotal(items: seq<CartItem>)
    ensures RequestedUnits(PayloadLines(items)) == CartStore.TotalItems(items)
  {
    if items != [] {
      var n := |items|;
      var lines := PayloadLines(items);
      assert PayloadLines(items[..n - 1]) == lines[..n - 1] by {
        var prefix := PayloadLines(items[..n - 1]);
        forall i | 0 <= i < n - 1 ensures prefix[i] == lines[i] {
          assert items[..n - 1][i] == items[i];
        }
      }
      UnitsMatchTotal(items[..n - 1]);
    }
  }

  /** `user?._id`: the `_id` property of the signed-in user, if anyone is signed in and the user
      object carries one. A signed-in user with only the declared `id` posts no customer. */
  function CustomerId(user: Option<User>): (r: Option<string>)
    ensures user.None? ==> r.None?
    ensures user.Some? ==> r == user.value.serviceId
    ensures r.Some? ==> user.Some? && user.value.serviceId == r
  {
    match user
    case Some(u) => u.serviceId
    case None => None
  }

  /** `Cart`'s state, and the cart store it works on. */
  class CartPage {
    const cart: CartStore.Cart
    var user: Option<User>
    var isLoading: bool
    var deliveryAddress: string
    var phoneNumber: string

    ghost predicate Valid()
      reads this, cart
    {
      cart.Valid()
    }

    constructor (cart: CartStore.Cart, user: Option<User>)
      requires cart.Valid()
      ensures Valid() && this.cart == cart && this.user == user
      ensures !isLoading && deliveryAddress == "" && phoneNumber == ""
    {
      this.cart := cart;
      this.user := user;
      isLoading := false;
      deliveryAddress, phoneNumber := "", "";
    }

    /** `handlePlaceOrder` up to the `await`: with an empty address or phone number it only alerts;
        otherwise it turns loading on and builds the body to post. The cart is not touched. */
    method BeginPlaceOrder() returns (payload: Option<OrderPayload>, alert: Option<Alert>)
      modifies `isLoading
      ensures deliveryAddress == "" || phoneNumber == "" ==>
        payload == None && alert == Some(Message(MissingDetails)) && isLoading == old(isLoading)
      ensures deliveryAddress != "" && phoneNumber != "" ==>
        && isLoading && alert == None
        && payload == Some(OrderPayload(CustomerId(user), PayloadLines(cart.items), deliveryAddress, phoneNumber))
    {
      if deliveryAddress == "" || phoneNumber == "" {
        return None, Some(Message(MissingDetails));
      }
      isLoading := true;
      payload := Some(OrderPayload(CustomerId(user), PayloadLines(cart.items), deliveryAddress, phoneNumber));
      alert := None;
    }

    /** `handlePlaceOrder` after the `await`: a successful post clears the cart, a failed one leaves
        it; both stop loading. */
    method FinishPlaceOrder(reply: Reply<Order>) returns (alert: Alert)
      requires Valid()
      modifies `isLoading, cart
      ensures Valid() && !isLoading
      ensures reply.Ok? ==> cart.items == [] && alert == Message(Placed)
      ensures reply.Err? ==> cart.items == old(cart.items) && alert == Shown(reply.error)
    {
      match reply {
        case Ok(_) =>
          cart.ClearCart();
          alert := Message(Placed);
        case Err(e) =>
          alert := Shown(e);
      }
      isLoading := false;
    }

    /** `handlePlaceOrder`, whole: `posted` is the body sent (none when the details are missing). The
        body is built from the cart as it was before, and the cart is emptied only by a successful
        post. */
    method HandlePlaceOrder(reply: Reply<Order>) returns (posted: Option<OrderPayload>, alerts: seq<Alert>)
      requires Valid()
      modifies `isLoading, cart
      ensures Valid()
      ensures posted.None? <==> deliveryAddress == "" || phoneNumber == ""
      ensures posted.None? ==>
        cart.items == old(cart.items) && isLoading == old(isLoading) && alerts == [Message(MissingDetails)]
      ensures posted.Some? ==>
        && posted.value.items == PayloadLines(old(cart.items))
        && posted.value.customer == CustomerId(user)
        && posted.value.deliveryAddress == deliveryAddress
        && posted.value.phoneNumber == phoneNumber
        && !isLoading
      ensures posted.Some? && reply.Ok? ==> cart.items == [] && alerts == [Message(Placed)]
      ensures posted.Some? && reply.Err? ==> cart.items == old(cart.items) && alerts == [Shown(reply.error)]
    {
      var alert;
      posted, alert := BeginPlaceOrder();
      if posted.None? {
        alerts := [alert.value];
        return;
      }
      var done := FinishPlaceOrder(reply);
      alerts := [done];
    }

    /** The "−" button of entry `i`: `updateQuantity(id, quantity - 1)`, which removes an entry
        that had quantity 1. */
    method Decrement(i: int)
      requires Valid() && 0 <= i < |cart.items|
      modifies cart
      ensures Valid()
      ensures old(cart.items[i].quantity) == 1 ==> cart.items == old(cart.items[..i] + cart.items[i + 1..])
      ensures old(cart.items[i].quantity) > 1 ==>
        cart.items == old(cart.items[i := cart.items[i].(quantity := cart.items[i].quantity - 1)])
    {
      var before := cart.items;
      var e := before[i];
      var after := CartStore.QuantityUpdated(before, e.menuItem.id, e.quantity - 1);
      if e.quantity > 1 {
        CartStore.UpdatePositive(before, e.menuItem.id, e.quantity - 1, i);
        assert after == before[i := e.(quantity := e.quantity - 1)];
      } else {
        CartStore.UpdateNonPositive(before, e.menuItem.id, e.quantity - 1, i);
        assert after == before[..i] + before[i + 1..];
      }
      cart.UpdateQuantity(e.menuItem.id, e.quantity - 1);
      assert cart.items == after;
    }

    /** The "+" button of entry `i`: `updateQuantity(id, quantity + 1)`, one more of that entry. */
    method Increment(i: int)
      requires Valid() && 0 <= i < |cart.items|
      modifies cart
      ensures Valid()
      ensures cart.items == old(cart.items[i := cart.items[i].(quantity := cart.items[i].quantity + 1)])
    {
      var e := cart.items[i];
      CartStore.UpdatePositive(cart.items, e.menuItem.id, e.quantity + 1, i);
      cart.UpdateQuantity(e.menuItem.id, e.quantity + 1);
    }

    /** The remove button of entry `i`: `removeItem(id)`, which drops just that entry. */
    method Remove(i: int)
      requires Valid() && 0 <= i < |cart.items|
      modifies cart
      ensures Valid()
      ensures cart.items == old(cart.items[..i] + cart.items[i + 1..])
    {
      var e := cart.items[i];
      CartStore.RemovePresent(cart.items, e.menuItem.id, i);
      cart.RemoveItem(e.menuItem.id);
    }
  }
}
