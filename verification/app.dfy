/** The wiring of script.js, where a product hands its snapshot straight to
    the application's cart instead of dispatching an event. */
module App {
  import opened Wrappers
  import opened Sums
  import opened AmountWidgets
  import opened Products
  import opened Carts

  /** script.js's addToCart: the cart appends a line item built from the product's snapshot. */
  method AddToCart(product: Product, cart: Cart, form: FormData)
    modifies cart
    ensures |cart.products| == |old(cart.products)| + 1
    ensures cart.products[..|old(cart.products)|] == old(cart.products)
    ensures var added := cart.products[|cart.products| - 1];
      fresh(added) && added.id == product.id && added.name == product.data.name
      && added.amount == product.amountWidget.value && added.priceSingle == product.priceSingle
      && added.price == product.priceSingle * product.amountWidget.value
      && added.params == CartParams(product.data.params, form)
    ensures cart.TotalsCurrent()
  {
    var summary := product.PrepareCartProduct(form);
    cart.Add(summary);
  }

  /** A product priced 20 with one extra at 5 chosen, ordered twice: the unit
      price is 25, the line 50, and the order adds the delivery fee. */
  method OrderExample() returns (payload: OrderPayload)
    ensures payload.totalNumber == 2 && payload.subTotalPrice == 50 && payload.totalPrice == 70
    ensures payload.deliveryFee == DefaultDeliveryFee && |payload.products| == 1
    ensures payload.products[0].priceSingle == 25 && payload.products[0].price == 50
  {
    var extra := ProductOption("olives", "Olives", 5, false);
    var toppings := Param("toppings", "Toppings", [extra]);
    var data := ProductData("Pizza", 20, [toppings]);
    var form: FormData := p => if p == "toppings" then {"olives"} else {};
    assert ParamDelta(toppings, form) == 5 by {
      assert extra.id in form(toppings.id);
      assert Contribution(extra, true) == 5;
      assert OptionTerm(toppings.id, form)(extra) == Contribution(extra, extra.id in form(toppings.id));
      var term := OptionTerm(toppings.id, form);
      assert Sum(toppings.options[..0], term) == 0;
      assert Sum(toppings.options, term) == Sum(toppings.options[..0], term) + term(extra);
    }
    assert UnitPrice(data, form) == 25 by {
      assert ParamTerm(form)(toppings) == 5;
      var term := ParamTerm(form);
      assert Sum(data.params[..0], term) == 0;
      assert Sum(data.params, term) == Sum(data.params[..0], term) + term(toppings);
    }
    var product := new Product("pizza", data, Some(2), form);
    var cart := new Cart();
    AddToCart(product, cart, form);
    var added := cart.products[0];
    assert cart.products == [added];
    assert SumAmounts(cart.products) == 2 by {
      assert cart.products[..0] == [];
    }
    assert SumPrices(cart.products) == 50 by {
      assert Prices(cart.products) == [50];
      assert Prices(cart.products)[..0] == [];
    }
    payload := cart.SendOrder();
  }

  /** update resets the totals before summing, so a second call in a row changes nothing. */
  method UpdateTwice(cart: Cart) returns (once: (int, int, int))
    modifies cart
    ensures once == (cart.totalNumber, cart.subTotalPrice, cart.totalPrice)
  {
    cart.Update();
    once := (cart.totalNumber, cart.subTotalPrice, cart.totalPrice);
    cart.Update();
  }
}
