/** The cart, order and favourites controllers of server/controllers/User.js.
    Each controller receives the user document that `User.findById` loaded
    (null when no user has the id) and edits its lists in place; a single
    call is one sequential step. */
module UserController {
  import opened Base
  import opened Ledger

  /** What a controller hands to `next(...)`: an HTTP error made by
      `createError`, or the exception thrown by the database. */
  datatype ControllerError = HttpError(status: nat, message: string) | StoreFailure

  /** A user document: its id, its cart lines and its favourite product ids. */
  class User {
    const id: UserId
    var cart: seq<CartLine>
    var favourites: seq<ProductId>

    constructor (id: UserId, cart: seq<CartLine>, favourites: seq<ProductId>)
      ensures this.id == id && this.cart == cart && this.favourites == favourites
    {
      this.id := id;
      this.cart := cart;
      this.favourites := favourites;
    }
  }

  /** The orders collection. Only what was saved matters here, so it is a
      ghost log of the saved order documents. */
  class OrderStore {
    ghost var orders: seq<Order>

    constructor ()
      ensures orders == []
    {
      orders := [];
    }

    /** `order.save()`: whether the database accepts the write is decided
        outside the model and passed in as `succeeds`. */
    method Save(order: Order, succeeds: bool) returns (ok: bool)
      modifies this
      ensures ok == succeeds
      ensures orders == if ok then old(orders) + [order] else old(orders)
    {
      ok := succeeds;
      if ok {
        orders := orders + [order];
      }
    }
  }

  /** `addToCart`: the source reads `user.cart` without a null check, so a
      loaded user is required. */
  method AddToCart(user: User, productId: ProductId, quantity: int)
    modifies user
    ensures user.cart == AddLine(old(user.cart), productId, quantity)
    ensures user.favourites == old(user.favourites)
  {
    var i := IndexOf(user.cart, productId);
    if i != -1 {
      user.cart := user.cart[i := user.cart[i].(quantity := user.cart[i].quantity + quantity)];
    } else {
      user.cart := user.cart + [CartLine(Some(productId), quantity)];
    }
  }

  /** `removeFromCart`: 404 for a missing user or a product with no line;
      otherwise decrement or drop the line and answer with the new cart. */
  method RemoveFromCart(user: User?, productId: ProductId, quantity: Option<int>)
    returns (r: Result<seq<CartLine>, ControllerError>)
    modifies user
    ensures user == null ==> r == Failure(HttpError(404, "User not found"))
    ensures user != null && RemoveLine(old(user.cart), productId, quantity).None? ==>
              r == Failure(HttpError(404, "Product not found in cart")) && user.cart == old(user.cart)
    ensures user != null && RemoveLine(old(user.cart), productId, quantity).Some? ==>
              r == Success(user.cart) && user.cart == RemoveLine(old(user.cart), productId, quantity).value
    ensures user != null ==> user.favourites == old(user.favourites)
  {
    if user == null {
      return Failure(HttpError(404, "User not found"));
    }
    var i := IndexOf(user.cart, productId);
    if i == -1 {
      return Failure(HttpError(404, "Product not found in cart"));
    }
    if quantity.Some? && quantity.value > 0 {
      user.cart := user.cart[i := user.cart[i].(quantity := user.cart[i].quantity - quantity.value)];
      if user.cart[i].quantity <= 0 {
        user.cart := user.cart[..i] + user.cart[i + 1..];
      }
    } else {
      user.cart := user.cart[..i] + user.cart[i + 1..];
    }
    r := Success(user.cart);
  }

  /** `placeOrder`: build the order from the submitted products, save it,
      and only once the save went through empty the cart. A failed save
      leaves both the cart and the orders collection as they were. */
  method PlaceOrder(user: User, store: OrderStore, products: seq<CartLine>, address: string,
                    totalAmount: int, saveSucceeds: bool)
    returns (r: Result<Order, ControllerError>)
    modifies user, store
    ensures var order := Order(products, user.id, totalAmount, address);
            if saveSucceeds then
              && r == Success(order)
              && store.orders == old(store.orders) + [order]
              && user.cart == []
            else
              && r == Failure(StoreFailure)
              && store.orders == old(store.orders)
              && user.cart == old(user.cart)
    ensures user.favourites == old(user.favourites)
  {
    var order := Order(products, user.id, totalAmount, address);
    var saved := store.Save(order, saveSucceeds);
    if !saved {
      return Failure(StoreFailure);
    }
    user.cart := [];
    r := Success(order);
  }

  /** `addToFavorites`: 404 for a missing user; push the id only if absent. */
  method AddToFavorites(user: User?, productId: ProductId) returns (r: Result<seq<ProductId>, ControllerError>)
    modifies user
    ensures user == null ==> r == Failure(HttpError(404, "User not found"))
    ensures user != null ==>
              && user.favourites == AddFavourite(old(user.favourites), productId)
              && r == Success(user.favourites)
              && user.cart == old(user.cart)
  {
    if user == null {
      return Failure(HttpError(404, "User not found"));
    }
    if productId !in user.favourites {
      user.favourites := user.favourites + [productId];
    }
    r := Success(user.favourites);
  }

  /** `removeFromFavorites`: the source reads `user.favourites` without a
      null check, so a loaded user is required. */
  method RemoveFromFavorites(user: User, productId: ProductId)
    modifies user
    ensures user.favourites == RemoveFavourite(old(user.favourites), productId)
    ensures user.cart == old(user.cart)
  {
    user.favourites := RemoveFavourite(user.favourites, productId);
  }

  /** A request sequence a client relies on: a failed checkout can be
      retried with the same cart, and the retry empties it. */
  method RetryAfterFailedSave(user: User, store: OrderStore, products: seq<CartLine>, address: string, total: int)
    modifies user, store
    ensures store.orders == old(store.orders) + [Order(products, user.id, total, address)]
    ensures user.cart == []
  {
    var first := PlaceOrder(user, store, products, address, total, false);
    assert user.cart == old(user.cart);
    var second := PlaceOrder(user, store, products, address, total, true);
    assert second.Success?;
  }
}
