/** What the cart page's requests do to the server-side cart: the requests
    built in client/src/pages/Cart.jsx, applied by the controllers of
    server/controllers/User.js. Both cart requests are posted to the same
    route, and which controller receives them is not part of this model:
    each lemma below names the controller it assumes a request reaches.
    The page shows the server's quantities after each reload, so a
    control's quantity is the matching cart line's quantity. */
module Lifecycle {
  import opened Base
  import opened Ledger
  import opened Checkout

  /** The "+" request and the "−" request for an item holding more than
      one unit are the same request: same route, same body. */
  lemma PlusAndPartialMinusIdentical(id: ProductId, quantity: int)
    requires quantity > 1
    ensures AddCartRequest(id) == RemoveCartRequest(id, MinusControl(quantity))
  {
  }

  /** So whichever controller receives them applies one edit twice: on a
      line of three units, `addToCart` twice gives five and
      `removeFromCart` twice gives one; neither gives three back. */
  lemma OneHandlerNeverRestores()
    ensures var cart := [CartLine(Some(7), 3)];
            var req := AddCartRequest(7);
            && AddLine(AddLine(cart, 7, req.quantity.value), 7, req.quantity.value) == [CartLine(Some(7), 5)]
            && RemoveLine(RemoveLine(cart, 7, req.quantity).value, 7, req.quantity) == Some([CartLine(Some(7), 1)])
  {
    var cart := [CartLine(Some(7), 3)];
    assert IndexOf(cart, 7) == 0;
    var added := AddLine(cart, 7, 1);
    assert added == [CartLine(Some(7), 4)];
    assert IndexOf(added, 7) == 0;
    assert AddLine(added, 7, 1) == [CartLine(Some(7), 5)];
    var removed := RemoveLine(cart, 7, Some(1)).value;
    assert removed == [CartLine(Some(7), 2)];
    assert IndexOf(removed, 7) == 0;
    assert RemoveLine(removed, 7, Some(1)).value == [CartLine(Some(7), 1)];
  }

  /** The server law the "+"/"−" pair relies on, with the removal sent on a
      route of its own: the two requests differ, and `removeFromCart` with
      the quantity the "−" control picks undoes `addToCart` of one unit,
      whether or not the product had a line (holding at least one unit). */
  lemma RemoveOneUndoesAddOne(cart: seq<CartLine>, pid: ProductId)
    requires IndexOf(cart, pid) == -1 || cart[IndexOf(cart, pid)].quantity >= 1
    ensures var added := AddLine(cart, pid, AddCartRequest(pid).quantity.value);
            && IndexOf(added, pid) >= 0
            && var minus := RemoveCartRequestIntended(pid, MinusControl(added[IndexOf(added, pid)].quantity));
               && minus != AddCartRequest(pid)
               && RemoveLine(added, pid, minus.quantity) == Some(cart)
  {
    var added := AddLine(cart, pid, PlusQuantity);
    var i := IndexOf(cart, pid);
    if i >= 0 {
      assert IndexOf(added, pid) == i by {
        assert forall k :: 0 <= k < i ==> added[k] == cart[k];
      }
      assert added[i].quantity == cart[i].quantity + 1 > 1;
      var r := RemoveLine(added, pid, Some(1)).value;
      assert r == cart;
    } else {
      assert added == cart + [CartLine(Some(pid), 1)];
      assert Matches(added[|cart|], pid);
      var j := IndexOf(added, pid);
      assert added[j].quantity == 1;
      assert added[..j] + added[j + 1..] == cart;
    }
  }

  /** The trash control as written, its request received by
      `removeFromCart`, on a line holding two or more units: the line stays,
      one unit lighter. */
  lemma TrashKeepsLine(cart: seq<CartLine>, pid: ProductId)
    requires IndexOf(cart, pid) >= 0 && cart[IndexOf(cart, pid)].quantity >= 2
    ensures var i := IndexOf(cart, pid);
            RemoveLine(cart, pid, RemovalQuantity(TrashControl(cart[i].quantity)))
              == Some(cart[i := cart[i].(quantity := cart[i].quantity - 1)])
  {
    var i := IndexOf(cart, pid);
    var r := RemoveLine(cart, pid, Some(1)).value;
    assert r == cart[i := cart[i].(quantity := cart[i].quantity - 1)];
  }

  /** A concrete input: the trash request asks for one unit, and
      `removeFromCart` turns a line of three units into a line of two. */
  lemma TrashOnThreeUnitsLeavesTwo()
    ensures RemoveLine([CartLine(Some(7), 3)], 7, RemovalQuantity(TrashControl(3))) == Some([CartLine(Some(7), 2)])
  {
    var cart := [CartLine(Some(7), 3)];
    assert IndexOf(cart, 7) == 0;
    TrashKeepsLine(cart, 7);
    assert cart[0 := cart[0].(quantity := 2)] == [CartLine(Some(7), 2)];
  }

  /** The trash control as intended, its request received by
      `removeFromCart`, drops the product from a cart with one line per
      product, whatever its quantity. */
  lemma TrashIntendedRemovesProduct(cart: seq<CartLine>, pid: ProductId)
    requires UniqueProducts(cart)
    requires IndexOf(cart, pid) >= 0
    ensures var r := RemoveLine(cart, pid, RemovalQuantity(TrashControlIntended(cart[IndexOf(cart, pid)].quantity)));
            && r.Some?
            && (forall k :: 0 <= k < |r.value| ==> !Matches(r.value[k], pid))
            && Held(r.value, pid) == 0
  {
    var i := IndexOf(cart, pid);
    var r := RemoveLine(cart, pid, None);
    RemoveLineHeld(cart, pid, None, pid);
    forall k | 0 <= k < |r.value|
      ensures !Matches(r.value[k], pid)
    {
      var k' := if k < i then k else k + 1;
      assert r.value[k] == cart[k'];
    }
  }
}
