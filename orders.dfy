/**
  The order page: a cart of lines (a product and a quantity) that the page
  replaces on every add, quantity change and removal, the item and price
  totals, the empty-cart checkout guard and the barcode form.
  Prices are integer cents.
 */
module Orders {
  import opened Wrappers

  datatype Product = Product(id: int, name: string, price: int)

  /** A cart line: the product's fields spread into the line, plus a quantity. */
  datatype CartItem = CartItem(product: Product, quantity: int)

  predicate UniqueIds(lines: seq<CartItem>) {
    forall i, j :: 0 <= i < j < |lines| ==> lines[i].product.id != lines[j].product.id
  }

  predicate PositiveQuantities(lines: seq<CartItem>) {
    forall i :: 0 <= i < |lines| ==> lines[i].quantity >= 1
  }

  /** What every cart the page builds satisfies: one line per product id, each at least 1. */
  predicate WellFormed(lines: seq<CartItem>) {
    UniqueIds(lines) && PositiveQuantities(lines)
  }

  predicate InCart(lines: seq<CartItem>, id: int) {
    exists i :: 0 <= i < |lines| && lines[i].product.id == id
  }

  predicate NonNegativePrices(lines: seq<CartItem>) {
    forall i :: 0 <= i < |lines| ==> lines[i].product.price >= 0
  }

  /** `cart.find(item => item.id === id)`: the first line with that id. */
  function Find(lines: seq<CartItem>, id: int): (r: Option<CartItem>)
    ensures r.Some? <==> InCart(lines, id)
    ensures r.Some? ==> r.value in lines && r.value.product.id == id
  {
    if lines == [] then None
    else if lines[0].product.id == id then Some(lines[0])
    else
      var r := Find(lines[1..], id);
      assert forall i :: 1 <= i < |lines| ==> lines[i] == lines[1..][i - 1];
      r
  }

  /** The `map` of `addToCart`: every line with the id gets one more. */
  function Incremented(lines: seq<CartItem>, id: int): (r: seq<CartItem>)
    ensures |r| == |lines|
    ensures forall i :: 0 <= i < |lines| && lines[i].product.id != id ==> r[i] == lines[i]
    ensures forall i :: 0 <= i < |lines| && lines[i].product.id == id ==>
              r[i] == CartItem(lines[i].product, lines[i].quantity + 1)
  {
    if lines == [] then []
    else
      var head := lines[0];
      [if head.product.id == id then head.(quantity := head.quantity + 1) else head]
        + Incremented(lines[1..], id)
  }

  /**
    The cart `addToCart(p)` builds: one more of an existing line, or a new
    line with quantity 1 at the end.
   */
  function AddedToCart(lines: seq<CartItem>, p: Product): (r: seq<CartItem>)
    ensures InCart(lines, p.id) ==> |r| == |lines|
    ensures InCart(lines, p.id) ==>
              forall i :: 0 <= i < |lines| && lines[i].product.id != p.id ==> r[i] == lines[i]
    ensures InCart(lines, p.id) ==>
              forall i :: 0 <= i < |lines| && lines[i].product.id == p.id ==>
                r[i] == CartItem(lines[i].product, lines[i].quantity + 1)
    ensures !InCart(lines, p.id) ==> r == lines + [CartItem(p, 1)]
    ensures WellFormed(lines) ==> WellFormed(r)
  {
    if Find(lines, p.id).Some? then Incremented(lines, p.id) else lines + [CartItem(p, 1)]
  }

  /** The `map` of `updateQuantity`: a line with the id takes `q + change` only when that is positive. */
  function Changed(lines: seq<CartItem>, id: int, change: int): (r: seq<CartItem>)
    ensures |r| == |lines|
    ensures forall i :: 0 <= i < |lines| ==>
              r[i] == if lines[i].product.id == id && lines[i].quantity + change > 0
                      then CartItem(lines[i].product, lines[i].quantity + change)
                      else lines[i]
  {
    if lines == [] then []
    else
      var head := lines[0];
      var newQuantity := head.quantity + change;
      [if head.product.id == id && newQuantity > 0 then head.(quantity := newQuantity) else head]
        + Changed(lines[1..], id, change)
  }

  /** The `filter(item => item.quantity > 0)` of `updateQuantity`. */
  function KeepPositive(lines: seq<CartItem>): (r: seq<CartItem>)
    ensures forall x :: x in r <==> x in lines && x.quantity > 0
  {
    if lines == [] then []
    else if lines[0].quantity > 0 then [lines[0]] + KeepPositive(lines[1..])
    else KeepPositive(lines[1..])
  }

  /** On a cart whose quantities are all positive the filter removes nothing. */
  lemma {:induction false} KeepPositiveIdentity(lines: seq<CartItem>)
    requires PositiveQuantities(lines)
    ensures KeepPositive(lines) == lines
  {
    if lines != [] {
      KeepPositiveIdentity(lines[1..]);
    }
  }

  /**
    The cart `updateQuantity(id, change)` builds. The line is never removed:
    when `q + change <= 0` the old line stays, so the filter is dead on every
    cart the page builds.
   */
  function UpdatedQuantity(lines: seq<CartItem>, id: int, change: int): (r: seq<CartItem>)
    ensures PositiveQuantities(lines) ==> |r| == |lines|
    ensures PositiveQuantities(lines) ==>
              forall i :: 0 <= i < |lines| ==>
                r[i] == if lines[i].product.id == id && lines[i].quantity + change > 0
                        then CartItem(lines[i].product, lines[i].quantity + change)
                        else lines[i]
    ensures PositiveQuantities(lines) && !InCart(lines, id) ==> r == lines
    ensures WellFormed(lines) ==> WellFormed(r)
  {
    var mapped := Changed(lines, id, change);
    if PositiveQuantities(lines) then
      KeepPositiveIdentity(mapped);
      assert !InCart(lines, id) ==> mapped == lines;
      KeepPositive(mapped)
    else
      KeepPositive(mapped)
  }

  /** "−" on a line holding one unit does nothing. */
  lemma DecrementAtOneKeepsLine(lines: seq<CartItem>, k: int)
    requires WellFormed(lines) && 0 <= k < |lines| && lines[k].quantity == 1
    ensures UpdatedQuantity(lines, lines[k].product.id, -1) == lines
  {
  }

  /** The `filter(item => item.id !== id)` of `removeFromCart`. */
  function Without(lines: seq<CartItem>, id: int): (r: seq<CartItem>)
    ensures forall x :: x in r <==> x in lines && x.product.id != id
    ensures |r| <= |lines|
  {
    if lines == [] then []
    else if lines[0].product.id != id then [lines[0]] + Without(lines[1..], id)
    else Without(lines[1..], id)
  }

  /** Removing an id that is not in the cart changes nothing. */
  lemma {:induction false} WithoutAbsent(lines: seq<CartItem>, id: int)
    requires !InCart(lines, id)
    ensures Without(lines, id) == lines
  {
    if lines != [] {
      WithoutAbsent(lines[1..], id);
    }
  }

  lemma UniqueCons(head: CartItem, rest: seq<CartItem>)
    requires UniqueIds(rest)
    requires forall x :: x in rest ==> x.product.id != head.product.id
    ensures UniqueIds([head] + rest)
  {
    var s := [head] + rest;
    forall i, j | 0 <= i < j < |s| ensures s[i].product.id != s[j].product.id {
      assert s[j] == rest[j - 1];
      if i > 0 {
        assert s[i] == rest[i - 1];
      }
    }
  }

  /** Removal keeps a well-formed cart well-formed. */
  lemma {:induction false} WithoutWellFormed(lines: seq<CartItem>, id: int)
    requires WellFormed(lines)
    ensures WellFormed(Without(lines, id))
  {
    if lines != [] {
      var rest := Without(lines[1..], id);
      assert WellFormed(lines[1..]) by {
        forall i, j | 0 <= i < j < |lines[1..]|
          ensures lines[1..][i].product.id != lines[1..][j].product.id
        {
          assert lines[1..][i] == lines[i + 1] && lines[1..][j] == lines[j + 1];
        }
      }
      WithoutWellFormed(lines[1..], id);
      if lines[0].product.id != id {
        forall x | x in rest ensures x.product.id != lines[0].product.id {
          var j :| 0 <= j < |lines[1..]| && lines[1..][j] == x;
          assert lines[j + 1] == x;
        }
        UniqueCons(lines[0], rest);
      }
    }
  }

  lemma {:induction false} WithoutAppend(a: seq<CartItem>, b: seq<CartItem>, id: int)
    ensures Without(a + b, id) == Without(a, id) + Without(b, id)
  {
    if a == [] {
      assert a + b == b;
    } else {
      assert (a + b)[1..] == a[1..] + b;
      WithoutAppend(a[1..], b, id);
    }
  }

  /** The tail of a cart with unique ids has unique ids and lacks the head's id. */
  lemma UniqueTail(lines: seq<CartItem>)
    requires UniqueIds(lines) && lines != []
    ensures UniqueIds(lines[1..])
    ensures !InCart(lines[1..], lines[0].product.id)
  {
    var tail := lines[1..];
    forall i, j | 0 <= i < j < |tail| ensures tail[i].product.id != tail[j].product.id {
      assert tail[i] == lines[i + 1] && tail[j] == lines[j + 1];
    }
  }

  /** A first line with another id survives removal. */
  lemma WithoutKeepsHead(lines: seq<CartItem>, id: int)
    requires lines != [] && lines[0].product.id != id
    ensures Without(lines, id) == [lines[0]] + Without(lines[1..], id)
  {
  }

  lemma CutAround(lines: seq<CartItem>, k: int)
    requires 0 < k < |lines|
    ensures lines[..k] + lines[k + 1..] == [lines[0]] + (lines[1..][..k - 1] + lines[1..][k..])
  {
    assert lines[..k] == [lines[0]] + lines[1..][..k - 1];
    assert lines[k + 1..] == lines[1..][k..];
  }

  /** With unique ids, removal takes out exactly the one line with the id and keeps the order. */
  lemma {:induction false} RemovesExactlyOne(lines: seq<CartItem>, k: int)
    requires UniqueIds(lines) && 0 <= k < |lines|
    ensures Without(lines, lines[k].product.id) == lines[..k] + lines[k + 1..]
  {
    var id := lines[k].product.id;
    UniqueTail(lines);
    if k == 0 {
      WithoutAbsent(lines[1..], id);
    } else {
      var tail := lines[1..];
      assert tail[k - 1] == lines[k];
      RemovesExactlyOne(tail, k - 1);
      WithoutKeepsHead(lines, id);
      CutAround(lines, k);
    }
  }

  /** `getTotalItems`: the sum of the quantities. */
  function TotalItems(lines: seq<CartItem>): (n: int)
    ensures lines == [] ==> n == 0
    ensures PositiveQuantities(lines) ==> n >= |lines|
  {
    if lines == [] then 0 else lines[0].quantity + TotalItems(lines[1..])
  }

  /** One line's share of the total: price × quantity. */
  function LineTotal(item: CartItem): int {
    item.product.price * item.quantity
  }

  /** `getTotalPrice`: the sum of price × quantity, in cents. */
  function TotalPrice(lines: seq<CartItem>): (t: int)
    ensures lines == [] ==> t == 0
  {
    if lines == [] then 0 else LineTotal(lines[0]) + TotalPrice(lines[1..])
  }

  /** With prices not negative, the total is not negative. */
  lemma {:induction false} TotalPriceNonNegative(lines: seq<CartItem>)
    requires PositiveQuantities(lines) && NonNegativePrices(lines)
    ensures TotalPrice(lines) >= 0
  {
    if lines != [] {
      TotalPriceNonNegative(lines[1..]);
      var x := lines[0];
      assert x.product.price * x.quantity >= 0;
    }
  }

  lemma TotalsCons(x: CartItem, rest: seq<CartItem>)
    ensures TotalItems([x] + rest) == x.quantity + TotalItems(rest)
    ensures TotalPrice([x] + rest) == LineTotal(x) + TotalPrice(rest)
  {
    assert ([x] + rest)[1..] == rest;
  }

  lemma {:induction false} TotalsAppend(a: seq<CartItem>, b: seq<CartItem>)
    ensures TotalItems(a + b) == TotalItems(a) + TotalItems(b)
    ensures TotalPrice(a + b) == TotalPrice(a) + TotalPrice(b)
  {
    if a == [] {
      assert a + b == b;
    } else {
      assert (a + b)[1..] == a[1..] + b;
      TotalsAppend(a[1..], b);
    }
  }

  /** Adding one unit of a product raises the item count by one and the total by that line's price. */
  lemma AddToCartTotals(lines: seq<CartItem>, p: Product)
    requires WellFormed(lines)
    ensures TotalItems(AddedToCart(lines, p)) == TotalItems(lines) + 1
    ensures TotalPrice(AddedToCart(lines, p)) ==
              TotalPrice(lines) + (if InCart(lines, p.id) then Find(lines, p.id).value.product.price else p.price)
  {
    if InCart(lines, p.id) {
      var found := Find(lines, p.id);
      assert found.Some? && found.value in lines && found.value.product.id == p.id;
      var k :| 0 <= k < |lines| && lines[k] == found.value;
      IncrementedTotals(lines, p.id, k);
    } else {
      TotalsAppend(lines, [CartItem(p, 1)]);
    }
  }

  lemma {:induction false} IncrementedAbsent(lines: seq<CartItem>, id: int)
    requires !InCart(lines, id)
    ensures Incremented(lines, id) == lines
  {
    if lines != [] {
      IncrementedAbsent(lines[1..], id);
    }
  }

  lemma {:induction false} IncrementedTotals(lines: seq<CartItem>, id: int, k: int)
    requires UniqueIds(lines) && 0 <= k < |lines| && lines[k].product.id == id
    ensures TotalItems(Incremented(lines, id)) == TotalItems(lines) + 1
    ensures TotalPrice(Incremented(lines, id)) == TotalPrice(lines) + lines[k].product.price
  {
    var head := lines[0];
    var tail := lines[1..];
    UniqueTail(lines);
    if k == 0 {
      IncrementedAbsent(tail, id);
      var bumped := head.(quantity := head.quantity + 1);
      assert LineTotal(bumped) == LineTotal(head) + head.product.price;
      TotalsCons(bumped, tail);
    } else {
      assert tail[k - 1] == lines[k];
      IncrementedTotals(tail, id, k - 1);
      TotalsCons(head, Incremented(tail, id));
    }
  }

  /** Removing the line at `k` lowers the totals by exactly that line's share. */
  lemma {:induction false} RemoveTotals(lines: seq<CartItem>, k: int)
    requires UniqueIds(lines) && 0 <= k < |lines|
    ensures TotalItems(Without(lines, lines[k].product.id)) == TotalItems(lines) - lines[k].quantity
    ensures TotalPrice(Without(lines, lines[k].product.id)) == TotalPrice(lines) - LineTotal(lines[k])
  {
    var id := lines[k].product.id;
    var tail := lines[1..];
    UniqueTail(lines);
    assert TotalPrice(lines) == LineTotal(lines[0]) + TotalPrice(tail);
    if k == 0 {
      WithoutAbsent(tail, id);
      assert Without(lines, id) == tail;
    } else {
      assert tail[k - 1] == lines[k];
      RemoveTotals(tail, k - 1);
      var rest := Without(tail, id);
      assert Without(lines, id) == [lines[0]] + rest;
      TotalsCons(lines[0], rest);
    }
  }

  /** Two red wines at 89.90 and one IPA at 18.50: three items, 198.30. */
  lemma TotalsExample()
    ensures var lines := [CartItem(Product(1, "Vinho Tinto Reserva", 8990), 2),
                          CartItem(Product(6, "Cerveja Artesanal IPA", 1850), 1)];
            TotalItems(lines) == 3 && TotalPrice(lines) == 19830
  {
  }

  /** What checkout hands to the payment page. */
  datatype Handoff = Handoff(cart: seq<CartItem>, total: int)

  datatype CheckoutError = EmptyCart

  class OrderPage {
    var cart: seq<CartItem>
    var searchCode: string

    ghost predicate Valid()
      reads this
    {
      WellFormed(cart)
    }

    constructor ()
      ensures Valid() && cart == [] && searchCode == []
    {
      cart := [];
      searchCode := [];
    }

    /** `addToCart`. */
    method AddToCart(p: Product)
      requires Valid()
      modifies this
      ensures Valid()
      ensures cart == AddedToCart(old(cart), p) && searchCode == old(searchCode)
    {
      if Find(cart, p.id).Some? {
        cart := Incremented(cart, p.id);
      } else {
        cart := cart + [CartItem(p, 1)];
      }
      assert cart == AddedToCart(old(cart), p);
    }

    /** `updateQuantity`. */
    method UpdateQuantity(id: int, change: int)
      requires Valid()
      modifies this
      ensures Valid()
      ensures cart == UpdatedQuantity(old(cart), id, change) && searchCode == old(searchCode)
      ensures |cart| == |old(cart)|
    {
      cart := KeepPositive(Changed(cart, id, change));
      assert cart == UpdatedQuantity(old(cart), id, change);
    }

    /** `removeFromCart`. */
    method RemoveFromCart(id: int)
      requires Valid()
      modifies this
      ensures Valid()
      ensures cart == Without(old(cart), id) && searchCode == old(searchCode)
    {
      WithoutWellFormed(cart, id);
      cart := Without(cart, id);
    }

    /** `handleCheckout`: an empty cart is refused, otherwise the cart goes on with its total. */
    method Checkout() returns (r: Result<Handoff, CheckoutError>)
      ensures r.Failure? <==> cart == []
      ensures r.Success? ==> r.value.cart == cart && r.value.total == TotalPrice(cart)
    {
      if |cart| == 0 {
        return Failure(EmptyCart);
      }
      return Success(Handoff(cart, TotalPrice(cart)));
    }

    /** The barcode field's `onChange`. */
    method SetSearchCode(code: string)
      modifies this
      ensures searchCode == code && cart == old(cart)
    {
      searchCode := code;
    }

    /**
      `handleBarcodeScan`: with a code entered, the product the lookup
      produced (`pick`) is added and the field cleared; an empty code does nothing.
     */
    method ScanBarcode(pick: Product)
      requires Valid()
      modifies this
      ensures Valid()
      ensures old(searchCode) == [] ==> cart == old(cart) && searchCode == []
      ensures old(searchCode) != [] ==> cart == AddedToCart(old(cart), pick) && searchCode == []
    {
      if searchCode != [] {
        AddToCart(pick);
        searchCode := [];
      }
    }
  }
}
