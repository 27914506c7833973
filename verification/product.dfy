/** A menu product: option pricing and the line-item snapshot it hands to the
    cart (components/Product.js, copied in script.js). */
module Products {
  import opened Wrappers
  import opened Sums
  import opened AmountWidgets

  // The source's `label` fields are called `title` here: `label` is a reserved word in Dafny.
  datatype ProductOption = ProductOption(id: string, title: string, price: int, isDefault: bool)
  datatype Param = Param(id: string, title: string, options: seq<ProductOption>)
  datatype ProductData = ProductData(name: string, price: int, params: seq<Param>)

  /** The serialised order form: the option ids chosen for every parameter id. */
  type FormData = string -> set<string>

  /** One parameter of a cart snapshot: its label and the labels of its chosen options. */
  datatype ParamSummary = ParamSummary(title: string, options: map<string, string>)

  /** The line-item snapshot passed to the cart. */
  datatype ProductSummary = ProductSummary(
    id: string, name: string, amount: int, priceSingle: int, price: int,
    params: map<string, ParamSummary>)

  /** What one option adds to the base price: a chosen extra adds its price, a
      dropped default subtracts it, anything else is neutral. */
  function Contribution(o: ProductOption, chosen: bool): int
  {
    if chosen && !o.isDefault then o.price
    else if !chosen && o.isDefault then -o.price
    else 0
  }

  function OptionTerm(paramId: string, form: FormData): ProductOption -> int
  {
    (o: ProductOption) => Contribution(o, o.id in form(paramId))
  }

  function ParamDelta(p: Param, form: FormData): int
  {
    Sum(p.options, OptionTerm(p.id, form))
  }

  function ParamTerm(form: FormData): Param -> int
  {
    (p: Param) => ParamDelta(p, form)
  }

  /** The unit price processOrder stores as priceSingle. */
  function UnitPrice(data: ProductData, form: FormData): int
  {
    data.price + Sum(data.params, ParamTerm(form))
  }

  // An independent statement of the pricing rule: the base price, plus the
  // prices of the chosen options that are not defaults, minus the prices of
  // the defaults that are not chosen.

  function ChosenExtras(paramId: string, os: seq<ProductOption>, form: FormData): (r: seq<ProductOption>)
    ensures forall o :: o in r <==> o in os && o.id in form(paramId) && !o.isDefault
  {
    if |os| == 0 then []
    else
      var o := os[|os| - 1];
      ChosenExtras(paramId, os[..|os| - 1], form) + (if o.id in form(paramId) && !o.isDefault then [o] else [])
  }

  function DroppedDefaults(paramId: string, os: seq<ProductOption>, form: FormData): (r: seq<ProductOption>)
    ensures forall o :: o in r <==> o in os && o.id !in form(paramId) && o.isDefault
  {
    if |os| == 0 then []
    else
      var o := os[|os| - 1];
      DroppedDefaults(paramId, os[..|os| - 1], form) + (if o.id !in form(paramId) && o.isDefault then [o] else [])
  }

  function PriceOf(o: ProductOption): int
  {
    o.price
  }

  function ExtrasTerm(form: FormData): Param -> int
  {
    (p: Param) => Sum(ChosenExtras(p.id, p.options, form), PriceOf)
  }

  function DroppedTerm(form: FormData): Param -> int
  {
    (p: Param) => Sum(DroppedDefaults(p.id, p.options, form), PriceOf)
  }

  lemma SumOfOne(o: ProductOption)
    ensures Sum([o], PriceOf) == o.price
  {
    assert [o][..0] == [];
  }

  lemma {:induction false} ParamDeltaRule(paramId: string, os: seq<ProductOption>, form: FormData)
    ensures Sum(os, OptionTerm(paramId, form))
         == Sum(ChosenExtras(paramId, os, form), PriceOf) - Sum(DroppedDefaults(paramId, os, form), PriceOf)
    decreases |os|
  {
    if |os| > 0 {
      var init, o := os[..|os| - 1], os[|os| - 1];
      ParamDeltaRule(paramId, init, form);
      var chosen := o.id in form(paramId);
      var e: seq<ProductOption> := if chosen && !o.isDefault then [o] else [];
      var d: seq<ProductOption> := if !chosen && o.isDefault then [o] else [];
      assert ChosenExtras(paramId, os, form) == ChosenExtras(paramId, init, form) + e;
      assert DroppedDefaults(paramId, os, form) == DroppedDefaults(paramId, init, form) + d;
      SumConcat(ChosenExtras(paramId, init, form), e, PriceOf);
      SumConcat(DroppedDefaults(paramId, init, form), d, PriceOf);
      SumOfOne(o);
      assert Sum(e, PriceOf) - Sum(d, PriceOf) == Contribution(o, chosen);
      assert Sum(os, OptionTerm(paramId, form)) == Sum(init, OptionTerm(paramId, form)) + Contribution(o, chosen);
    }
  }

  lemma {:induction false} ParamsDeltaRule(ps: seq<Param>, form: FormData)
    ensures Sum(ps, ParamTerm(form)) == Sum(ps, ExtrasTerm(form)) - Sum(ps, DroppedTerm(form))
    decreases |ps|
  {
    if |ps| > 0 {
      var p := ps[|ps| - 1];
      ParamsDeltaRule(ps[..|ps| - 1], form);
      ParamDeltaRule(p.id, p.options, form);
    }
  }

  /** priceSingle = base + sum of chosen non-default option prices - sum of unchosen default option prices. */
  lemma UnitPriceRule(data: ProductData, form: FormData)
    ensures UnitPrice(data, form)
         == data.price + Sum(data.params, ExtrasTerm(form)) - Sum(data.params, DroppedTerm(form))
  {
    ParamsDeltaRule(data.params, form);
  }

  /** The form chooses, in every parameter, exactly the default options. */
  predicate ChoosesExactlyDefaults(data: ProductData, form: FormData)
  {
    forall i, j :: 0 <= i < |data.params| && 0 <= j < |data.params[i].options| ==>
      (data.params[i].options[j].id in form(data.params[i].id) <==> data.params[i].options[j].isDefault)
  }

  /** With exactly the defaults chosen, the unit price is the base price. */
  lemma DefaultsKeepBasePrice(data: ProductData, form: FormData)
    requires ChoosesExactlyDefaults(data, form)
    ensures UnitPrice(data, form) == data.price
  {
    forall i | 0 <= i < |data.params|
      ensures ParamTerm(form)(data.params[i]) == 0
    {
      var p := data.params[i];
      forall j | 0 <= j < |p.options|
        ensures OptionTerm(p.id, form)(p.options[j]) == 0
      {
        assert data.params[i].options[j] == p.options[j];
      }
      SumOfZeros(p.options, OptionTerm(p.id, form));
    }
    SumOfZeros(data.params, ParamTerm(form));
  }

  /** Visiting the parameters in another order gives the same unit price. */
  lemma ParamOrderIrrelevant(data: ProductData, reordered: seq<Param>, form: FormData)
    requires multiset(reordered) == multiset(data.params)
    ensures UnitPrice(data.(params := reordered), form) == UnitPrice(data, form)
  {
    SumPermutation(reordered, data.params, ParamTerm(form));
  }

  /** Visiting the options of a parameter in another order gives the same contribution. */
  lemma OptionOrderIrrelevant(p: Param, reordered: seq<ProductOption>, form: FormData)
    requires multiset(reordered) == multiset(p.options)
    ensures ParamDelta(p.(options := reordered), form) == ParamDelta(p, form)
  {
    SumPermutation(reordered, p.options, OptionTerm(p.id, form));
  }

  // The params snapshot of prepareCartProductParams.

  function OptionIds(os: seq<ProductOption>): set<string>
  {
    set o | o in os :: o.id
  }

  /** The chosen options of one parameter, each mapped to its label. */
  function ChosenLabels(paramId: string, os: seq<ProductOption>, form: FormData): (r: map<string, string>)
    ensures r.Keys == OptionIds(os) * form(paramId)
  {
    if |os| == 0 then map[]
    else
      var o := os[|os| - 1];
      var earlier := ChosenLabels(paramId, os[..|os| - 1], form);
      assert OptionIds(os) == OptionIds(os[..|os| - 1]) + {o.id} by {
        assert os == os[..|os| - 1] + [o];
      }
      if o.id in form(paramId) then earlier[o.id := o.title] else earlier
  }

  function ParamIds(ps: seq<Param>): set<string>
  {
    set p | p in ps :: p.id
  }

  /** One entry per parameter with its label and its chosen options. */
  function CartParams(ps: seq<Param>, form: FormData): (r: map<string, ParamSummary>)
    ensures r.Keys == ParamIds(ps)
  {
    if |ps| == 0 then map[]
    else
      var p := ps[|ps| - 1];
      assert ParamIds(ps) == ParamIds(ps[..|ps| - 1]) + {p.id} by {
        assert ps == ps[..|ps| - 1] + [p];
      }
      CartParams(ps[..|ps| - 1], form)[p.id := ParamSummary(p.title, ChosenLabels(p.id, p.options, form))]
  }

  predicate DistinctOptionIds(os: seq<ProductOption>)
  {
    forall i, j :: 0 <= i < j < |os| ==> os[i].id != os[j].id
  }

  predicate DistinctParamIds(ps: seq<Param>)
  {
    forall i, j :: 0 <= i < j < |ps| ==> ps[i].id != ps[j].id
  }

  /** With distinct option ids (the keys of a JSON object), each chosen option
      is mapped to its own label. */
  lemma {:induction false} ChosenLabelsExact(paramId: string, os: seq<ProductOption>, form: FormData, j: int)
    requires DistinctOptionIds(os) && 0 <= j < |os|
    ensures os[j].id in ChosenLabels(paramId, os, form) <==> os[j].id in form(paramId)
    ensures os[j].id in form(paramId) ==> ChosenLabels(paramId, os, form)[os[j].id] == os[j].title
    decreases |os|
  {
    assert os[j] in os;
    if j < |os| - 1 {
      ChosenLabelsExact(paramId, os[..|os| - 1], form, j);
    }
  }

  /** With distinct parameter ids, every parameter's entry carries its label and
      exactly its chosen options, each with its label. */
  lemma {:induction false} CartParamsExact(ps: seq<Param>, form: FormData, i: int)
    requires DistinctParamIds(ps) && 0 <= i < |ps|
    ensures ps[i].id in CartParams(ps, form)
    ensures CartParams(ps, form)[ps[i].id] == ParamSummary(ps[i].title, ChosenLabels(ps[i].id, ps[i].options, form))
    decreases |ps|
  {
    assert ps[i] in ps;
    if i < |ps| - 1 {
      CartParamsExact(ps[..|ps| - 1], form, i);
    }
  }

  class Product {
    const id: string
    const data: ProductData
    const amountWidget: AmountWidget
    var priceSingle: int
    /** The price element's content. */
    var displayedPrice: int
    /** The add-to-cart events dispatched so far, by their detail. */
    var dispatched: seq<ProductSummary>

    ghost predicate Valid()
      reads this, amountWidget
    {
      amountWidget.Valid()
    }

    /** Creates the amount widget from its input's initial content, then prices the form. */
    constructor (id: string, data: ProductData, widgetInput: Option<int>, form: FormData)
      ensures Valid() && fresh(amountWidget)
      ensures this.id == id && this.data == data && dispatched == []
      ensures amountWidget.value == Resolve(DefaultValue, widgetInput)
      ensures priceSingle == UnitPrice(data, form)
      ensures displayedPrice == priceSingle * amountWidget.value
    {
      this.id := id;
      this.data := data;
      amountWidget := new AmountWidget(widgetInput);
      dispatched := [];
      new;
      ProcessOrder(form);
    }

    /** Accumulates the price over every parameter and option, stores it as
        priceSingle and shows it times the amount. */
    method ProcessOrder(form: FormData)
      modifies this`priceSingle, this`displayedPrice
      ensures priceSingle == UnitPrice(data, form)
      ensures displayedPrice == priceSingle * amountWidget.value
    {
      var price := data.price;
      var i := 0;
      while i < |data.params|
        invariant 0 <= i <= |data.params|
        invariant price == data.price + Sum(data.params[..i], ParamTerm(form))
      {
        var param := data.params[i];
        ghost var before := price;
        var j := 0;
        while j < |param.options|
          invariant 0 <= j <= |param.options|
          invariant price == before + Sum(param.options[..j], OptionTerm(param.id, form))
        {
          var option := param.options[j];
          var isOptionChosen := option.id in form(param.id);
          if isOptionChosen && !option.isDefault {
            price := price + option.price;
          } else if !isOptionChosen && option.isDefault {
            price := price - option.price;
          }
          assert param.options[..j + 1][..j] == param.options[..j];
          j := j + 1;
        }
        assert param.options[..j] == param.options;
        assert data.params[..i + 1][..i] == data.params[..i];
        i := i + 1;
      }
      assert data.params[..i] == data.params;
      priceSingle := price;
      price := price * amountWidget.value;
      displayedPrice := price;
    }

    /** Builds one entry per parameter with its label and the labels of its chosen options. */
    method PrepareCartProductParams(form: FormData) returns (params: map<string, ParamSummary>)
      ensures params == CartParams(data.params, form)
    {
      params := map[];
      var i := 0;
      while i < |data.params|
        invariant 0 <= i <= |data.params|
        invariant params == CartParams(data.params[..i], form)
      {
        var param := data.params[i];
        ghost var earlier := params;
        params := params[param.id := ParamSummary(param.title, map[])];
        var j := 0;
        while j < |param.options|
          invariant 0 <= j <= |param.options|
          invariant params == earlier[param.id := ParamSummary(param.title, ChosenLabels(param.id, param.options[..j], form))]
        {
          var option := param.options[j];
          var isOptionChosen := option.id in form(param.id);
          if isOptionChosen {
            params := params[param.id := params[param.id].(options := params[param.id].options[option.id := option.title])];
          }
          assert param.options[..j + 1][..j] == param.options[..j];
          j := j + 1;
        }
        assert param.options[..j] == param.options;
        assert data.params[..i + 1][..i] == data.params[..i];
        i := i + 1;
      }
      assert data.params[..i] == data.params;
    }

    /** The widget's 'updated' listener: a quantity change in the product form re-prices it. */
    method ChangeAmount(typed: Option<int>, form: FormData)
      requires Valid()
      modifies amountWidget, this`priceSingle, this`displayedPrice
      ensures Valid()
      ensures amountWidget.value == Resolve(old(amountWidget.value), typed)
      ensures priceSingle == UnitPrice(data, form)
      ensures displayedPrice == priceSingle * amountWidget.value
    {
      amountWidget.Change(typed);
      ProcessOrder(form);
    }

    /** The snapshot handed to the cart: the current amount, the stored unit
        price, the line price and the params snapshot. */
    method PrepareCartProduct(form: FormData) returns (s: ProductSummary)
      ensures s.id == id && s.name == data.name
      ensures s.amount == amountWidget.value && s.priceSingle == priceSingle
      ensures s.price == s.priceSingle * s.amount
      ensures s.params == CartParams(data.params, form)
    {
      var params := PrepareCartProductParams(form);
      s := ProductSummary(id, data.name, amountWidget.value, priceSingle, priceSingle * amountWidget.value, params);
    }

    /** Dispatches one add-to-cart event whose detail is the snapshot. */
    method AddToCart(form: FormData)
      modifies this`dispatched
      ensures |dispatched| == |old(dispatched)| + 1
      ensures dispatched[..|old(dispatched)|] == old(dispatched)
      ensures var s := dispatched[|dispatched| - 1];
        s.id == id && s.name == data.name && s.amount == amountWidget.value
        && s.priceSingle == priceSingle && s.price == priceSingle * amountWidget.value
        && s.params == CartParams(data.params, form)
    {
      var summary := PrepareCartProduct(form);
      dispatched := dispatched + [summary];
    }
  }
}
