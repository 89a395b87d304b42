/** How the checkout page and the order service agree: the subtotal the
    page shows is the subtotal the service computes for the request the
    page posts, whenever the cart's prices are the menu's prices. */
module EndToEnd {
  import opened Common
  import opened OrderRequest
  import opened OrderService
  import opened PaymentPage

  /** Every cart line's item is on the menu, at the price the cart shows. */
  predicate PricesAgree(cart: seq<CartItem>, found: map<Option<int>, real>)
  {
    forall i :: 0 <= i < |cart| ==> Some(cart[i].itemId) in found && found[Some(cart[i].itemId)] == cart[i].price
  }

  /** Summing from the end gives the same total as summing from the front. */
  lemma {:induction false} SumOfLinesSnoc(cart: seq<CartItem>)
    requires cart != []
    ensures SumOfLines(cart) == SumOfLines(cart[..|cart| - 1]) + cart[|cart| - 1].price * cart[|cart| - 1].quantity as real
  {
    if |cart| > 1 {
      var rest := cart[1..];
      SumOfLinesSnoc(rest);
      assert rest[..|rest| - 1] == cart[..|cart| - 1][1..];
      assert cart[..|cart| - 1][0] == cart[0];
    } else {
      assert cart[..0] == [];
    }
  }

  /** The service's subtotal for the posted items equals the page's
      subtotal for the cart. */
  lemma {:induction false} ClientServerSubtotalAgree(cart: seq<CartItem>, found: map<Option<int>, real>)
    requires PricesAgree(cart, found)
    ensures AllFound(found, RequestItems(cart))
    ensures OrderSubtotal(found, RequestItems(cart)) == Subtotal(cart)
  {
    var items := RequestItems(cart);
    SubtotalIsSum(cart);
    if cart != [] {
      var front := cart[..|cart| - 1];
      assert PricesAgree(front, found) by {
        forall i | 0 <= i < |front| ensures Some(front[i].itemId) in found && found[Some(front[i].itemId)] == front[i].price {
          assert front[i] == cart[i];
        }
      }
      ClientServerSubtotalAgree(front, found);
      SubtotalIsSum(front);
      assert items[..|items| - 1] == RequestItems(front);
      SumOfLinesSnoc(cart);
    }
  }
}
