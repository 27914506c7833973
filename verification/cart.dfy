/** The cart and its line items (components/Cart.js; CartProduct as in script.js). */
module Carts {
  import opened Wrappers
  import opened Sums
  import opened AmountWidgets
  import opened Products

  const DefaultDeliveryFee: int := 20

  /** A line item: a frozen snapshot of a priced product with its own amount
      widget. Only the line price follows the widget; the other fields are
      set once, so `amount` keeps the quantity the item was added with. */
  class CartProduct {
    const id: string
    const name: string
    const amount: int
    const priceSingle: int
    const params: map<string, ParamSummary>
    const amountWidget: AmountWidget
    var price: int

    ghost predicate Valid()
      reads this, amountWidget
    {
      amountWidget.Valid()
    }

    /** Copies the snapshot and creates the amount widget from its rendered input. */
    constructor (menuProduct: ProductSummary, widgetInput: Option<int>)
      ensures Valid() && fresh(amountWidget)
      ensures GetData() == menuProduct
      ensures amountWidget.value == Resolve(DefaultValue, widgetInput)
    {
      id := menuProduct.id;
      amount := menuProduct.amount;
      name := menuProduct.name;
      price := menuProduct.price;
      priceSingle := menuProduct.priceSingle;
      params := menuProduct.params;
      amountWidget := new AmountWidget(widgetInput);
    }

    /** getData (src/js/script.js:315-328): the payload entry for this line item. */
    function GetData(): ProductSummary
      reads this
    {
      ProductSummary(id, name, amount, priceSingle, price, params)
    }

    /** The widget's 'updated' listener: the line price follows the widget's value. */
    method OnAmountUpdated()
      modifies this`price
      ensures price == amountWidget.value * priceSingle
    {
      price := amountWidget.value * priceSingle;
    }
  }

  /** Array.prototype.indexOf: the first index holding x, or -1. */
  function IndexOf<T(==)>(s: seq<T>, x: T): (i: int)
    ensures -1 <= i < |s|
    ensures i == -1 <==> x !in s
    ensures 0 <= i ==> s[i] == x && x !in s[..i]
  {
    if |s| == 0 then -1
    else if s[0] == x then 0
    else
      var k := IndexOf(s[1..], x);
      assert k >= 0 ==> s[..k + 1] == [s[0]] + s[1..][..k];
      if k == -1 then -1 else k + 1
  }

  /** Array.prototype.splice(start, 1): a negative start counts from the end. */
  function SpliceOne<T>(s: seq<T>, start: int): (r: seq<T>)
    ensures 0 <= start < |s| ==> r == s[..start] + s[start + 1..]
    ensures start >= |s| ==> r == s
  {
    var k := if start >= 0 then start else if |s| + start >= 0 then |s| + start else 0;
    if k >= |s| then s else s[..k] + s[k + 1..]
  }

  /** Removing an item that is present deletes its first occurrence and keeps the rest in order. */
  lemma RemovePresent<T>(s: seq<T>, x: T)
    requires x in s
    ensures var i := IndexOf(s, x);
      SpliceOne(s, i) == s[..i] + s[i + 1..] && x !in s[..i]
      && multiset(SpliceOne(s, i)) == multiset(s) - multiset{x}
  {
    var i := IndexOf(s, x);
    var before, after := s[..i], s[i + 1..];
    assert SpliceOne(s, i) == before + after;
    assert s == before + [x] + after;
    calc {
      multiset(s);
      multiset(before) + multiset{x} + multiset(after);
      multiset(before + after) + multiset{x};
    }
  }

  /** Removing an item that is absent runs splice(-1, 1), which drops the last item. */
  lemma RemoveAbsentDropsLast<T>(s: seq<T>, x: T)
    requires x !in s
    ensures SpliceOne(s, IndexOf(s, x)) == if |s| == 0 then s else s[..|s| - 1]
  {
  }

  function AmountOf(p: CartProduct): int
  {
    p.amount
  }

  function SumAmounts(ps: seq<CartProduct>): int
  {
    Sum(ps, AmountOf)
  }

  function Prices(ps: seq<CartProduct>): seq<int>
    reads ps
  {
    seq(|ps|, i requires 0 <= i < |ps| reads ps => ps[i].price)
  }

  function Itself(x: int): int
  {
    x
  }

  function SumPrices(ps: seq<CartProduct>): int
    reads ps
  {
    Sum(Prices(ps), Itself)
  }

  /** The delivery fee is charged only on a cart with a non-zero item count. */
  function TotalPrice(totalNumber: int, subTotalPrice: int): int
  {
    if totalNumber != 0 then subTotalPrice + DefaultDeliveryFee else 0
  }

  /** Appending an item adds its amount and its price to the sums. */
  lemma AddedItemTotals(ps: seq<CartProduct>, p: CartProduct)
    ensures SumAmounts(ps + [p]) == SumAmounts(ps) + p.amount
    ensures SumPrices(ps + [p]) == SumPrices(ps) + p.price
  {
    assert (ps + [p])[..|ps|] == ps;
    assert Prices(ps + [p]) == Prices(ps) + [p.price];
    assert (Prices(ps) + [p.price])[..|ps|] == Prices(ps);
  }

  /** Removing a present item takes exactly its amount and its price out of the sums. */
  lemma {:induction false} RemovedItemTotals(ps: seq<CartProduct>, x: CartProduct)
    requires x in ps
    ensures var r := SpliceOne(ps, IndexOf(ps, x));
      SumAmounts(r) == SumAmounts(ps) - x.amount && SumPrices(r) == SumPrices(ps) - x.price
  {
    var i := IndexOf(ps, x);
    var r := ps[..i] + ps[i + 1..];
    assert SpliceOne(ps, i) == r;
    SumRemoveAt(ps, i, AmountOf);
    var prices := Prices(ps);
    assert Prices(r) == prices[..i] + prices[i + 1..];
    SumRemoveAt(prices, i, Itself);
  }

  datatype OrderPayload = OrderPayload(
    address: string, phone: string, totalPrice: int, subTotalPrice: int,
    totalNumber: int, deliveryFee: int, products: seq<ProductSummary>)

  class Cart {
    var products: seq<CartProduct>
    var totalNumber: int
    var subTotalPrice: int
    var totalPrice: int
    /** The order form's address and phone inputs. */
    var address: string
    var phone: string

    /** The totals are those of the current items. */
    ghost predicate TotalsCurrent()
      reads this, products
    {
      totalNumber == SumAmounts(products) && subTotalPrice == SumPrices(products)
      && totalPrice == TotalPrice(totalNumber, subTotalPrice)
    }

    constructor ()
      ensures products == [] && address == "" && phone == ""
      ensures TotalsCurrent()
    {
      products := [];
      totalNumber, subTotalPrice, totalPrice := 0, 0, 0;
      address, phone := "", "";
    }

    /** Appends a new line item built from the snapshot, then recomputes the totals. */
    method Add(menuProduct: ProductSummary)
      modifies this
      ensures |products| == |old(products)| + 1
      ensures products[..|old(products)|] == old(products)
      ensures var added := products[|products| - 1];
        fresh(added) && fresh(added.amountWidget) && added.Valid() && added.GetData() == menuProduct
        && added.amountWidget.value == Resolve(DefaultValue, Some(menuProduct.amount))
      ensures address == old(address) && phone == old(phone)
      ensures TotalsCurrent()
    {
      var added := new CartProduct(menuProduct, Some(menuProduct.amount));
      products := products + [added];
      Update();
    }

    /** Zeroes the totals, accumulates the items' amounts and prices, and adds
        the delivery fee when the item count is not zero. */
    method Update()
      modifies this`totalNumber, this`subTotalPrice, this`totalPrice
      ensures TotalsCurrent()
    {
      var deliveryFee := DefaultDeliveryFee;
      totalNumber := 0;
      subTotalPrice := 0;
      totalPrice := 0;
      // The sums are accumulated in locals and stored after the loop; nothing
      // observes the fields in between.
      var number, subTotal := SumLines();
      totalNumber, subTotalPrice := number, subTotal;
      if totalNumber != 0 {
        totalPrice := subTotalPrice + deliveryFee;
      }
    }

    /** update's loop over the items: the running item count and subtotal. */
    method SumLines() returns (number: int, subTotal: int)
      ensures number == SumAmounts(products) && subTotal == SumPrices(products)
    {
      number, subTotal := 0, 0;
      var i := 0;
      while i < |products|
        invariant 0 <= i <= |products|
        invariant number == SumAmounts(products[..i])
        invariant subTotal == SumPrices(products[..i])
      {
        var product := products[i];
        AddedItemTotals(products[..i], product);
        assert products[..i + 1] == products[..i] + [product];
        number := number + product.amount;
        subTotal := subTotal + product.price;
        i := i + 1;
      }
      assert products[..i] == products;
    }

    /** Splices out the entry indexOf finds (the last entry when it finds none),
        then recomputes the totals. */
    method Remove(removedProduct: CartProduct)
      modifies this
      ensures products == SpliceOne(old(products), IndexOf(old(products), removedProduct))
      ensures address == old(address) && phone == old(phone)
      ensures TotalsCurrent()
    {
      var productIndex := IndexOf(products, removedProduct);
      products := SpliceOne(products, productIndex);
      Update();
    }

    /** The order payload: the contact fields, the current totals, the fixed
        delivery fee and every item's data in cart order. */
    method SendOrder() returns (payload: OrderPayload)
      ensures payload.address == address && payload.phone == phone
      ensures payload.totalPrice == totalPrice && payload.subTotalPrice == subTotalPrice
      ensures payload.totalNumber == totalNumber && payload.deliveryFee == DefaultDeliveryFee
      ensures |payload.products| == |products|
      ensures forall i :: 0 <= i < |products| ==> payload.products[i] == products[i].GetData()
    {
      payload := OrderPayload(address, phone, totalPrice, subTotalPrice, totalNumber, DefaultDeliveryFee, []);
      var i := 0;
      while i < |products|
        invariant 0 <= i <= |products|
        invariant payload.address == address && payload.phone == phone
        invariant payload.totalPrice == totalPrice && payload.subTotalPrice == subTotalPrice
        invariant payload.totalNumber == totalNumber && payload.deliveryFee == DefaultDeliveryFee
        invariant |payload.products| == i
        invariant forall k :: 0 <= k < i ==> payload.products[k] == products[k].GetData()
      {
        var prod := products[i];
        payload := payload.(products := payload.products + [prod.GetData()]);
        i := i + 1;
      }
    }

    /** Empties the cart and the contact fields, then recomputes the totals. */
    method ClearCart()
      modifies this
      ensures products == [] && address == "" && phone == ""
      ensures totalNumber == 0 && subTotalPrice == 0 && totalPrice == 0
    {
      products := [];
      address := "";
      phone := "";
      Update();
    }

    /** The order form's submit listener: send the order, then clear the cart. */
    method Submit() returns (payload: OrderPayload)
      modifies this
      ensures payload.address == old(address) && payload.phone == old(phone)
      ensures payload.totalPrice == old(totalPrice) && payload.subTotalPrice == old(subTotalPrice)
      ensures payload.totalNumber == old(totalNumber) && payload.deliveryFee == DefaultDeliveryFee
      ensures |payload.products| == |old(products)|
      ensures forall i :: 0 <= i < |old(products)| ==> payload.products[i] == old(products)[i].GetData()
      ensures products == [] && address == "" && phone == ""
      ensures totalNumber == 0 && subTotalPrice == 0 && totalPrice == 0
    {
      payload := SendOrder();
      ClearCart();
    }

    /** A quantity change in a line item: its widget takes the input, the
        item's listener recomputes the line price, and the cart's listener
        recomputes the totals. The item count does not follow. */
    method ChangeQuantity(item: CartProduct, typed: Option<int>)
      requires item.Valid()
      modifies this`totalNumber, this`subTotalPrice, this`totalPrice, item`price, item.amountWidget
      ensures item.Valid()
      ensures item.amountWidget.value == Resolve(old(item.amountWidget.value), typed)
      ensures item.price == item.amountWidget.value * item.priceSingle
      ensures TotalsCurrent()
      ensures old(TotalsCurrent()) ==> totalNumber == old(totalNumber)
    {
      item.amountWidget.Change(typed);
      item.OnAmountUpdated();
      Update();
    }
  }
}
