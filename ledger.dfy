/** The user's cart and favourites lists as values, and what each controller
    of server/controllers/User.js does to them. The controllers themselves
    (which edit a user document in place) are in module UserController. */
module Ledger {
  import opened Base

  /** One entry of `user.cart`. The product reference may be missing; both
      searches skip such lines. Quantities are JS numbers the server never
      checks, so they may be zero or negative. */
  datatype CartLine = CartLine(product: Option<ProductId>, quantity: int)

  /** The order document built by `placeOrder`: the submitted products, the
      owner's id, `total_amount` and the address string. */
  datatype Order = Order(products: seq<CartLine>, user: UserId, totalAmount: int, address: string)

  /** The test inside both `findIndex` callbacks: the line has a product and
      it equals `pid`. */
  predicate Matches(line: CartLine, pid: ProductId)
  {
    line.product == Some(pid)
  }

  /** `user.cart.findIndex(...)`: the first matching index, or -1. */
  function IndexOf(cart: seq<CartLine>, pid: ProductId): (r: int)
    ensures -1 <= r < |cart|
    ensures r >= 0 ==> Matches(cart[r], pid)
    ensures r >= 0 ==> forall k :: 0 <= k < r ==> !Matches(cart[k], pid)
    ensures r == -1 <==> forall k :: 0 <= k < |cart| ==> !Matches(cart[k], pid)
  {
    if cart == [] then -1
    else if Matches(cart[0], pid) then 0
    else
      var i := IndexOf(cart[1..], pid);
      if i == -1 then -1 else i + 1
  }

  /** Total quantity of `pid` held over all lines: the cart read as a bag. */
  function Held(cart: seq<CartLine>, pid: ProductId): int
  {
    if cart == [] then 0
    else (if Matches(cart[0], pid) then cart[0].quantity else 0) + Held(cart[1..], pid)
  }

  /** At most one line per product id (lines without a product are ignored). */
  predicate UniqueProducts(cart: seq<CartLine>)
  {
    forall i, j :: 0 <= i < j < |cart| && cart[i].product.Some? ==> cart[i].product != cart[j].product
  }

  /** Every line holds a positive quantity. */
  predicate PositiveQuantities(cart: seq<CartLine>)
  {
    forall i :: 0 <= i < |cart| ==> cart[i].quantity > 0
  }

  // ---------------------------------------------------------------- addToCart

  /** The cart after `addToCart(productId, quantity)`: merge into the first
      matching line, or append a new line at the end. */
  function AddLine(cart: seq<CartLine>, pid: ProductId, quantity: int): (r: seq<CartLine>)
    ensures IndexOf(cart, pid) >= 0 ==>
              && |r| == |cart|
              && r[IndexOf(cart, pid)] == CartLine(Some(pid), cart[IndexOf(cart, pid)].quantity + quantity)
              && forall k :: 0 <= k < |cart| && k != IndexOf(cart, pid) ==> r[k] == cart[k]
    ensures IndexOf(cart, pid) == -1 ==> |r| == |cart| + 1 && r[..|cart|] == cart && r[|cart|..] == [CartLine(Some(pid), quantity)]
  {
    var i := IndexOf(cart, pid);
    if i >= 0 then cart[i := cart[i].(quantity := cart[i].quantity + quantity)]
    else cart + [CartLine(Some(pid), quantity)]
  }

  // ----------------------------------------------------------- removeFromCart

  /** The cart after `removeFromCart(productId, quantity)`, or None when no
      line matches ("Product not found in cart"). A present positive quantity
      is subtracted and the line dropped when nothing positive is left; a
      missing, zero or negative quantity drops the line outright. */
  function RemoveLine(cart: seq<CartLine>, pid: ProductId, quantity: Option<int>): (r: Option<seq<CartLine>>)
    ensures r.None? <==> forall k :: 0 <= k < |cart| ==> !Matches(cart[k], pid)
    ensures r.Some? && Decrements(cart, pid, quantity) ==>
              var i := IndexOf(cart, pid);
              && |r.value| == |cart|
              && r.value[i].product == cart[i].product
              && r.value[i].quantity == cart[i].quantity - quantity.value > 0
              && forall k :: 0 <= k < |cart| && k != i ==> r.value[k] == cart[k]
    ensures r.Some? && !Decrements(cart, pid, quantity) ==>
              var i := IndexOf(cart, pid);
              r.value == cart[..i] + cart[i + 1..]
  {
    var i := IndexOf(cart, pid);
    if i == -1 then None
    else if quantity.Some? && quantity.value > 0 then
      var left := cart[i].quantity - quantity.value;
      if left <= 0 then Some(cart[..i] + cart[i + 1..])
      else Some(cart[i := cart[i].(quantity := left)])
    else Some(cart[..i] + cart[i + 1..])
  }

  /** Whether a removal keeps the matched line: a positive quantity was given
      and something positive is left after subtracting it. */
  predicate Decrements(cart: seq<CartLine>, pid: ProductId, quantity: Option<int>)
  {
    var i := IndexOf(cart, pid);
    i >= 0 && quantity.Some? && quantity.value > 0 && cart[i].quantity - quantity.value > 0
  }

  // --------------------------------------------------------------- favourites

  /** `addToFavorites`: push the id only when it is not already there. */
  function AddFavourite(favs: seq<ProductId>, pid: ProductId): (r: seq<ProductId>)
    ensures pid in r
    ensures pid in favs ==> r == favs
    ensures pid !in favs ==> |r| == |favs| + 1 && r[..|favs|] == favs
  {
    if pid in favs then favs else favs + [pid]
  }

  /** `removeFromFavorites`: keep every id that differs from `pid`. */
  function RemoveFavourite(favs: seq<ProductId>, pid: ProductId): (r: seq<ProductId>)
    ensures pid !in r
    ensures forall x :: x in r <==> x in favs && x != pid
    ensures forall x :: x != pid ==> multiset(r)[x] == multiset(favs)[x]
  {
    if favs == [] then []
    else
      assert favs == [favs[0]] + favs[1..];
      if favs[0] == pid then RemoveFavourite(favs[1..], pid)
      else [favs[0]] + RemoveFavourite(favs[1..], pid)
  }

  // ------------------------------------------------------------------ lemmas

  lemma {:induction false} HeldConcat(a: seq<CartLine>, b: seq<CartLine>, pid: ProductId)
    ensures Held(a + b, pid) == Held(a, pid) + Held(b, pid)
  {
    if a == [] {
      assert a + b == b;
    } else {
      assert (a + b)[1..] == a[1..] + b;
      HeldConcat(a[1..], b, pid);
    }
  }

  lemma {:induction false} HeldNoMatch(cart: seq<CartLine>, pid: ProductId)
    requires forall k :: 0 <= k < |cart| ==> !Matches(cart[k], pid)
    ensures Held(cart, pid) == 0
  {
    if cart != [] {
      HeldNoMatch(cart[1..], pid);
    }
  }

  /** Held of a cart split around index `i`. */
  lemma HeldAround(cart: seq<CartLine>, i: nat, pid: ProductId)
    requires i < |cart|
    ensures Held(cart, pid) == Held(cart[..i], pid) + (if Matches(cart[i], pid) then cart[i].quantity else 0) + Held(cart[i + 1..], pid)
  {
    assert cart == cart[..i] + ([cart[i]] + cart[i + 1..]);
    HeldConcat(cart[..i], [cart[i]] + cart[i + 1..], pid);
    HeldConcat([cart[i]], cart[i + 1..], pid);
  }

  /** In a cart with one line per product, the bag count of `pid` is the
      quantity of its line, or 0 when it has none. */
  lemma HeldUnique(cart: seq<CartLine>, pid: ProductId)
    requires UniqueProducts(cart)
    ensures Held(cart, pid) == (if IndexOf(cart, pid) == -1 then 0 else cart[IndexOf(cart, pid)].quantity)
  {
    var i := IndexOf(cart, pid);
    if i == -1 {
      HeldNoMatch(cart, pid);
    } else {
      HeldAround(cart, i, pid);
      HeldNoMatch(cart[..i], pid);
      HeldNoMatch(cart[i + 1..], pid);
    }
  }

  /** addToCart adds exactly `quantity` units of `pid` to the bag and leaves
      every other product's count alone. */
  lemma AddLineHeld(cart: seq<CartLine>, pid: ProductId, quantity: int, other: ProductId)
    ensures Held(AddLine(cart, pid, quantity), pid) == Held(cart, pid) + quantity
    ensures other != pid ==> Held(AddLine(cart, pid, quantity), other) == Held(cart, other)
  {
    var r := AddLine(cart, pid, quantity);
    var i := IndexOf(cart, pid);
    if i >= 0 {
      HeldAround(cart, i, pid);
      HeldAround(r, i, pid);
      HeldAround(cart, i, other);
      HeldAround(r, i, other);
      assert r[..i] == cart[..i];
      assert r[i + 1..] == cart[i + 1..];
    } else {
      assert r == cart + [CartLine(Some(pid), quantity)];
      HeldConcat(cart, [CartLine(Some(pid), quantity)], pid);
      HeldConcat(cart, [CartLine(Some(pid), quantity)], other);
    }
  }

  /** addToCart never creates a second line for a product. */
  lemma AddLineKeepsUnique(cart: seq<CartLine>, pid: ProductId, quantity: int)
    requires UniqueProducts(cart)
    ensures UniqueProducts(AddLine(cart, pid, quantity))
  {
    var r := AddLine(cart, pid, quantity);
    if IndexOf(cart, pid) == -1 {
      forall i, j | 0 <= i < j < |r| && r[i].product.Some?
        ensures r[i].product != r[j].product
      {
        if j == |cart| {
          assert !Matches(cart[i], pid);
        } else {
          assert r[i] == cart[i] && r[j] == cart[j];
        }
      }
    }
  }

  /** Adding to a product the cart lacks, twice, gives one merged line. */
  lemma AddTwiceMerges(cart: seq<CartLine>, pid: ProductId, q1: int, q2: int)
    requires IndexOf(cart, pid) == -1
    ensures AddLine(AddLine(cart, pid, q1), pid, q2) == cart + [CartLine(Some(pid), q1 + q2)]
  {
    var c1 := AddLine(cart, pid, q1);
    assert c1 == cart + [CartLine(Some(pid), q1)];
    assert IndexOf(c1, pid) == |cart| by {
      assert forall k :: 0 <= k < |cart| ==> c1[k] == cart[k];
    }
  }

  /** removeFromCart on a one-line-per-product cart: the bag count of `pid`
      drops by the positive quantity given, or to 0 when the quantity is
      missing or not positive or would leave nothing; other products keep
      their counts. */
  lemma RemoveLineHeld(cart: seq<CartLine>, pid: ProductId, quantity: Option<int>, other: ProductId)
    requires UniqueProducts(cart)
    requires RemoveLine(cart, pid, quantity).Some?
    ensures var r := RemoveLine(cart, pid, quantity).value;
            Held(r, pid) == if quantity.Some? && quantity.value > 0 && Held(cart, pid) - quantity.value > 0
                            then Held(cart, pid) - quantity.value else 0
    ensures other != pid ==> Held(RemoveLine(cart, pid, quantity).value, other) == Held(cart, other)
  {
    var r := RemoveLine(cart, pid, quantity).value;
    var i := IndexOf(cart, pid);
    HeldUnique(cart, pid);
    HeldAround(cart, i, pid);
    HeldAround(cart, i, other);
    if Decrements(cart, pid, quantity) {
      HeldAround(r, i, pid);
      HeldAround(r, i, other);
      assert r[..i] == cart[..i];
      assert r[i + 1..] == cart[i + 1..];
    } else {
      HeldConcat(cart[..i], cart[i + 1..], pid);
      HeldConcat(cart[..i], cart[i + 1..], other);
    }
  }

  /** Removing a line (or one of its units) keeps one line per product. */
  lemma RemoveLineKeepsUnique(cart: seq<CartLine>, pid: ProductId, quantity: Option<int>)
    requires UniqueProducts(cart)
    requires RemoveLine(cart, pid, quantity).Some?
    ensures UniqueProducts(RemoveLine(cart, pid, quantity).value)
  {
    var r := RemoveLine(cart, pid, quantity).value;
    var i := IndexOf(cart, pid);
    if !Decrements(cart, pid, quantity) {
      forall a, b | 0 <= a < b < |r| && r[a].product.Some?
        ensures r[a].product != r[b].product
      {
        var a' := if a < i then a else a + 1;
        var b' := if b < i then b else b + 1;
        assert r[a] == cart[a'] && r[b] == cart[b'];
      }
    }
  }

  /** No line is ever left holding zero or fewer units by a removal. */
  lemma RemoveLineKeepsPositive(cart: seq<CartLine>, pid: ProductId, quantity: Option<int>)
    requires PositiveQuantities(cart)
    requires RemoveLine(cart, pid, quantity).Some?
    ensures PositiveQuantities(RemoveLine(cart, pid, quantity).value)
  {
    var r := RemoveLine(cart, pid, quantity).value;
    var i := IndexOf(cart, pid);
    if !Decrements(cart, pid, quantity) {
      forall a | 0 <= a < |r|
        ensures r[a].quantity > 0
      {
        assert r[a] == cart[if a < i then a else a + 1];
      }
    }
  }

  /** addToFavorites repeated with the same id changes nothing more. */
  lemma AddFavouriteIdempotent(favs: seq<ProductId>, pid: ProductId)
    ensures AddFavourite(AddFavourite(favs, pid), pid) == AddFavourite(favs, pid)
  {
  }

  /** removeFromFavorites keeps the other ids in their order: it filters a
      concatenation piece by piece. */
  lemma {:induction false} RemoveFavouriteConcat(a: seq<ProductId>, b: seq<ProductId>, pid: ProductId)
    ensures RemoveFavourite(a + b, pid) == RemoveFavourite(a, pid) + RemoveFavourite(b, pid)
  {
    if a == [] {
      assert a + b == b;
    } else {
      assert (a + b)[1..] == a[1..] + b;
      RemoveFavouriteConcat(a[1..], b, pid);
    }
  }

  lemma {:induction false} RemoveFavouriteAbsent(favs: seq<ProductId>, pid: ProductId)
    requires pid !in favs
    ensures RemoveFavourite(favs, pid) == favs
  {
    if favs != [] {
      assert favs == [favs[0]] + favs[1..];
      RemoveFavouriteAbsent(favs[1..], pid);
    }
  }

  /** Adding an absent favourite and then removing it restores the list. */
  lemma AddThenRemoveFavourite(favs: seq<ProductId>, pid: ProductId)
    requires pid !in favs
    ensures RemoveFavourite(AddFavourite(favs, pid), pid) == favs
  {
    RemoveFavouriteConcat(favs, [pid], pid);
    RemoveFavouriteAbsent(favs, pid);
    assert RemoveFavourite([pid], pid) == [];
  }
}
