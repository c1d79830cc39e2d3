/** product.js: the product detail page. It prices the product with its
    checked add-ons and quantity, steps the quantity, offers add-on amounts
    1..max, and appends the configured product and the checked recommended
    products to the stored cart. */
module ProductPage {
  import opened Js
  import opened CartData
  import opened Browser
  import ShoppingCart
  import Home

  /** A customization offered by the product, as the back end sends it;
      `maxQuantity` 0 stands for a missing value. */
  datatype Customization = Customization(
    ingredientId: string,
    ingredientName: string,
    extraCost: real,
    removable: bool,
    addable: bool,
    maxQuantity: int)

  /** A "further options" row: a checkbox and the amount chosen in its select. */
  datatype Addon = Addon(ingredientId: string, name: string, extraCost: real, checked: bool, amount: int)

  /** A "without" row: a checkbox only. */
  datatype Removal = Removal(ingredientId: string, name: string, checked: bool)

  /** A recommended product as the product request returns it. */
  datatype RelatedProduct = RelatedProduct(id: string, name: string, image: string, price: real)

  /** A recommended product with its checkbox. */
  datatype Recommended = Recommended(id: string, name: string, image: string, price: real, checked: bool)

  /** The product as loaded. */
  datatype ProductInfo = ProductInfo(
    name: string, image: string, price: real,
    customizations: seq<Customization>, recommended: seq<RelatedProduct>)

  // ---------------------------------------------------------------------------
  // Quantity box

  /** `parseInt(text, 10) || 1`: NaN and 0 read as 1. */
  function QtyOr1(text: string): int {
    match ParseInt(text)
    case None => 1
    case Some(n) => if n == 0 then 1 else n
  }

  /** The minus button: the box goes down by one while it reads above 1. */
  function Decreased(text: string): string {
    var v := QtyOr1(text);
    if v > 1 then IntToString(v - 1) else text
  }

  /** The plus button. */
  function Increased(text: string): string {
    IntToString(QtyOr1(text) + 1)
  }

  /** Typing: anything that is not a number of at least 1 becomes "1". */
  function Sanitized(text: string): string {
    match ParseInt(text)
    case None => "1"
    case Some(n) => if n < 1 then "1" else text
  }

  /** The plus button raises a quantity of at least 1 by exactly one. */
  lemma IncreaseAddsOne(text: string)
    requires QtyOr1(text) >= 1
    ensures QtyOr1(Increased(text)) == QtyOr1(text) + 1
  {
    ParseIntOfIntToString(QtyOr1(text) + 1);
  }

  /** The minus button lowers the quantity by exactly one, and leaves the box
      alone once it reads 1 or less. */
  lemma DecreaseSubtractsOne(text: string)
    ensures QtyOr1(text) > 1 ==> QtyOr1(Decreased(text)) == QtyOr1(text) - 1
    ensures QtyOr1(text) <= 1 ==> Decreased(text) == text
    ensures QtyOr1(text) >= 1 ==> QtyOr1(Decreased(text)) >= 1
  {
    if QtyOr1(text) > 1 {
      ParseIntOfIntToString(QtyOr1(text) - 1);
    }
  }

  /** A sanitized box always reads as a number of at least 1, and a box that
      already does is left as typed. */
  lemma SanitizedIsPositive(text: string)
    ensures ParseInt(Sanitized(text)).Some? && ParseInt(Sanitized(text)).value >= 1
    ensures QtyOr1(Sanitized(text)) >= 1
    ensures ParseInt(text).Some? && ParseInt(text).value >= 1 ==> Sanitized(text) == text
  {
    ParseIntOneDigit('1');
  }

  // ---------------------------------------------------------------------------
  // Price

  /** What one add-on row adds: its amount (or 1 when it reads as 0) times its
      cost, when checked. */
  function Contribution(a: Addon): real {
    if a.checked then (if a.amount == 0 then 1 else a.amount) as real * a.extraCost else 0.0
  }

  function AddedPrice(addons: seq<Addon>): real {
    if addons == [] then 0.0 else AddedPrice(addons[..|addons| - 1]) + Contribution(addons[|addons| - 1])
  }

  /** The price the page shows, before rounding to cents, for the quantity
      the box reads as. */
  function DisplayedPrice(basePrice: real, addons: seq<Addon>, quantity: int): real {
    (basePrice + AddedPrice(addons)) * quantity as real
  }

  /** The price of a running add-on sum `added` that has reached the whole
      list. */
  lemma DisplayedPriceOfSum(basePrice: real, addons: seq<Addon>, quantity: int, added: real)
    requires added == AddedPrice(addons)
    ensures DisplayedPrice(basePrice, addons, quantity) == (basePrice + added) * quantity as real
  {
  }

  lemma {:induction false} AddedPriceConcat(a: seq<Addon>, b: seq<Addon>)
    ensures AddedPrice(a + b) == AddedPrice(a) + AddedPrice(b)
    decreases |b|
  {
    if b == [] {
      assert a + b == a;
    } else {
      assert (a + b)[..|a + b| - 1] == a + b[..|b| - 1];
      AddedPriceConcat(a, b[..|b| - 1]);
    }
  }

  /** Toggling one add-on changes the added price by exactly that add-on's
      share: unchecked rows cost nothing. */
  lemma ToggleChangesPriceByContribution(addons: seq<Addon>, k: nat, checked: bool)
    requires k < |addons|
    ensures AddedPrice(addons[k := addons[k].(checked := checked)])
         == AddedPrice(addons) - Contribution(addons[k]) + Contribution(addons[k].(checked := checked))
    ensures !checked ==> Contribution(addons[k].(checked := checked)) == 0.0
  {
    var x := addons[k].(checked := checked);
    assert addons == addons[..k] + [addons[k]] + addons[k + 1..];
    assert addons[k := x] == addons[..k] + [x] + addons[k + 1..];
    AddedPriceConcat(addons[..k] + [addons[k]], addons[k + 1..]);
    AddedPriceConcat(addons[..k], [addons[k]]);
    AddedPriceConcat(addons[..k] + [x], addons[k + 1..]);
    AddedPriceConcat(addons[..k], [x]);
    assert [addons[k]][..0] == [] && [x][..0] == [];
  }

  /** With no add-on checked, the price is the base price times the quantity. */
  lemma {:induction false} NoAddonsNoExtra(addons: seq<Addon>)
    requires forall i :: 0 <= i < |addons| ==> !addons[i].checked
    ensures AddedPrice(addons) == 0.0
  {
    if addons != [] {
      NoAddonsNoExtra(addons[..|addons| - 1]);
    }
  }

  /** The loop of `updatePrice()` over the add-on rows: each checked row adds
      its amount (1 when it reads 0) times its cost. */
  method SumAddons(addons: seq<Addon>) returns (added: real)
    ensures added == AddedPrice(addons)
  {
    added := 0.0;
    var i := 0;
    while i < |addons|
      invariant 0 <= i <= |addons|
      invariant added == AddedPrice(addons[..i])
    {
      assert addons[..i + 1][..i] == addons[..i];
      if addons[i].checked {
        var amount := if addons[i].amount == 0 then 1 else addons[i].amount;
        added := added + amount as real * addons[i].extraCost;
      }
      i := i + 1;
    }
    assert addons[..|addons|] == addons;
  }

  /** The body of `updatePrice()` without the page: the add-on sum, then the
      quantity factor. */
  method PriceOf(basePrice: real, addons: seq<Addon>, quantityText: string) returns (price: real)
    ensures price == DisplayedPrice(basePrice, addons, QtyOr1(quantityText))
  {
    var added := SumAddons(addons);
    var quantity := QtyOr1(quantityText);
    DisplayedPriceOfSum(basePrice, addons, quantity, added);
    price := (basePrice + added) * quantity as real;
  }

  // ---------------------------------------------------------------------------
  // Building the rows

  /** The add-on row built for a customization: unchecked, first amount selected. */
  function AddonRow(c: Customization): Addon {
    Addon(c.ingredientId, c.ingredientName, c.extraCost, false, 1)
  }

  predicate IsAddable(c: Customization) {
    c.addable
  }

  /** The add-on rows are exactly the addable customizations, in order. */
  function AddonsOf(cs: seq<Customization>): (r: seq<Addon>)
    ensures |r| == |Filter(cs, IsAddable)|
    ensures forall j :: 0 <= j < |r| ==> r[j] == AddonRow(Filter(cs, IsAddable)[j])
  {
    if cs == [] then []
    else
      var rest := AddonsOf(cs[1..]);
      if cs[0].addable then [AddonRow(cs[0])] + rest else rest
  }

  /** The removal row built for a customization: unchecked. */
  function RemovalRow(c: Customization): Removal {
    Removal(c.ingredientId, c.ingredientName, false)
  }

  predicate IsRemovable(c: Customization) {
    c.removable
  }

  /** The removal rows are exactly the removable customizations, in order. */
  function RemovalsOf(cs: seq<Customization>): (r: seq<Removal>)
    ensures |r| == |Filter(cs, IsRemovable)|
    ensures forall j :: 0 <= j < |r| ==> r[j] == RemovalRow(Filter(cs, IsRemovable)[j])
  {
    if cs == [] then []
    else
      var rest := RemovalsOf(cs[1..]);
      if cs[0].removable then [RemovalRow(cs[0])] + rest else rest
  }

  /** The options of an add-on's amount select: 1 up to `maxQuantity || 1`. */
  method AmountChoices(maxQuantity: int) returns (choices: seq<int>)
    ensures var top := if maxQuantity == 0 then 1 else maxQuantity;
      && |choices| == (if top < 1 then 0 else top)
      && forall k :: 0 <= k < |choices| ==> choices[k] == k + 1
  {
    var top := if maxQuantity == 0 then 1 else maxQuantity;
    choices := [];
    var i := 1;
    while i <= top
      invariant 1 <= i <= (if top < 1 then 1 else top + 1)
      invariant |choices| == i - 1
      invariant forall k :: 0 <= k < |choices| ==> choices[k] == k + 1
      decreases top - i
    {
      choices := choices + [i];
      i := i + 1;
    }
  }

  // ---------------------------------------------------------------------------
  // Add to cart

  /** The cart line for the configured product: its price is the shown total,
      its quantity the box's value, and its customizations those chosen on
      the page. */
  function MainLine(productId: string, info: ProductInfo, shownPrice: real, quantityText: string,
                    custom: Customizations): Entry
  {
    Entry(productId, info.name, info.image, shownPrice, QtyOr1(quantityText), Some(custom))
  }

  /** The customizations recorded for the checked add-on and removal rows. */
  function Chosen(addons: seq<Addon>, removals: seq<Removal>): Customizations {
    Customizations(AddedChoices(addons), RemovedChoices(removals))
  }

  /** The added option an add-on row records: its id, its name and the
      amount chosen in its select. */
  function ChoiceOf(a: Addon): Choice {
    Choice(a.ingredientId, a.name, a.amount)
  }

  predicate IsChecked(a: Addon) {
    a.checked
  }

  /** The added options are exactly the checked add-on rows, in order. */
  function AddedChoices(addons: seq<Addon>): (r: seq<Choice>)
    ensures |r| == |Filter(addons, IsChecked)|
    ensures forall j :: 0 <= j < |r| ==> r[j] == ChoiceOf(Filter(addons, IsChecked)[j])
  {
    if addons == [] then []
    else
      var rest := AddedChoices(addons[1..]);
      if addons[0].checked then [ChoiceOf(addons[0])] + rest else rest
  }

  /** The removed option a checked removal row records: its id, its name and
      quantity 1. */
  function RemovedChoice(x: Removal): Choice {
    Choice(x.ingredientId, x.name, 1)
  }

  predicate IsRemoved(x: Removal) {
    x.checked
  }

  /** The removed options are exactly the checked removal rows, in order,
      each with quantity 1. */
  function RemovedChoices(removals: seq<Removal>): (r: seq<Choice>)
    ensures |r| == |Filter(removals, IsRemoved)|
    ensures forall j :: 0 <= j < |r| ==> r[j] == RemovedChoice(Filter(removals, IsRemoved)[j])
    ensures forall c :: c in r ==> c.quantity == 1
  {
    if removals == [] then []
    else
      var rest := RemovedChoices(removals[1..]);
      if removals[0].checked then [RemovedChoice(removals[0])] + rest else rest
  }

  /** `renderRecommendedProducts(recommended)`: one row per recommended
      product, in order, its checkbox written without `checked`. */
  function RecommendedRows(items: seq<RelatedProduct>): (r: seq<Recommended>)
    ensures |r| == |items|
    ensures forall i :: 0 <= i < |items| ==>
      r[i] == Recommended(items[i].id, items[i].name, items[i].image, items[i].price, false)
  {
    if items == [] then []
    else [Recommended(items[0].id, items[0].name, items[0].image, items[0].price, false)] + RecommendedRows(items[1..])
  }

  /** One line per checked recommended product, one item each. */
  function RecommendedLines(recs: seq<Recommended>): (r: seq<Entry>)
    ensures |r| <= |recs|
    ensures forall e :: e in r ==> e.quantity == 1 && e.customizations == Some(NoCustomizations)
  {
    if recs == [] then []
    else
      var rest := RecommendedLines(recs[1..]);
      if recs[0].checked then [Entry(recs[0].id, recs[0].name, recs[0].image, recs[0].price, 1, Some(NoCustomizations))] + rest
      else rest
  }

  /** The recommended lines are exactly the checked recommendations, in order. */
  lemma {:induction false} RecommendedLinesAreChecked(recs: seq<Recommended>)
    ensures |RecommendedLines(recs)| == |Filter(recs, (r: Recommended) => r.checked)|
    ensures forall e :: e in RecommendedLines(recs) <==>
      exists r :: r in recs && r.checked && e == Entry(r.id, r.name, r.image, r.price, 1, Some(NoCustomizations))
  {
    if recs != [] {
      RecommendedLinesAreChecked(recs[1..]);
      assert forall r :: r in recs <==> r == recs[0] || r in recs[1..];
    }
  }

  /** Right after loading, no recommendation is checked, so adding to the
      cart adds no recommended line. */
  lemma {:induction false} NoRecommendationAtLoad(items: seq<RelatedProduct>)
    ensures RecommendedLines(RecommendedRows(items)) == []
  {
    if items != [] {
      NoRecommendationAtLoad(items[1..]);
    }
  }

  /** The cart after the add-to-cart click: the old cart unchanged, then the
      main line, then the checked recommendations; no line is merged. */
  function CartAfterAdd(cart: seq<Entry>, main: Entry, recs: seq<Recommended>): seq<Entry> {
    cart + [main] + RecommendedLines(recs)
  }

  /** Adding never merges: the old cart is a prefix, the main line follows
      it, and the item count grows by the box's quantity plus one per checked
      recommendation. */
  lemma CartAfterAddContract(cart: seq<Entry>, main: Entry, recs: seq<Recommended>)
    ensures var r := CartAfterAdd(cart, main, recs);
      && r[..|cart|] == cart && r[|cart|] == main
      && |r| == |cart| + 1 + |RecommendedLines(recs)|
      && QuantityTotal(r) == QuantityTotal(cart) + main.quantity + |RecommendedLines(recs)|
  {
    var r := CartAfterAdd(cart, main, recs);
    assert r[..|cart|] == cart;
    SubtotalConcat(cart + [main], RecommendedLines(recs));
    SubtotalConcat(cart, [main]);
    assert [main][..0] == [];
    OnesCount(RecommendedLines(recs));
  }

  lemma {:induction false} OnesCount(s: seq<Entry>)
    requires forall e :: e in s ==> e.quantity == 1
    ensures QuantityTotal(s) == |s|
  {
    if s != [] {
      assert s[|s| - 1] in s;
      OnesCount(s[..|s| - 1]);
    }
  }

  /** The main line's price already holds the quantity factor, and the cart
      multiplies by the quantity again: whatever the product, the add-ons, the
      recorded customizations and the box, the line counts (base + added)
      times the quantity squared in the cart sum. */
  lemma MainLineCountsQuantityTwice(productId: string, info: ProductInfo, q: string,
                                    addons: seq<Addon>, custom: Customizations)
    ensures var main := MainLine(productId, info, DisplayedPrice(info.price, addons, QtyOr1(q)), q, custom);
      main.quantity == QtyOr1(q)
      && Subtotal([main]) == (info.price + AddedPrice(addons)) * (QtyOr1(q) as real) * (QtyOr1(q) as real)
  {
    PricedForQuantity(MainLine(productId, info, DisplayedPrice(info.price, addons, QtyOr1(q)), q, custom),
                      info.price, addons, QtyOr1(q));
  }

  /** A line priced at the displayed price for `n` items and holding `n`
      items counts that price `n` times. */
  lemma PricedForQuantity(e: Entry, basePrice: real, addons: seq<Addon>, n: int)
    requires e.price == DisplayedPrice(basePrice, addons, n) && e.quantity == n
    ensures Subtotal([e]) == (basePrice + AddedPrice(addons)) * (n as real) * (n as real)
  {
    SubtotalSingle(e);
    DisplayedTimesQuantity(basePrice, addons, n, Subtotal([e]));
  }

  /** Two items of a 10.00 product with no add-ons count 40.00 in the cart sum. */
  lemma TwoOfTenCountForty(productId: string, info: ProductInfo, custom: Customizations)
    requires info.price == 10.0
    ensures var shown := DisplayedPrice(info.price, [], QtyOr1("2"));
      var main := MainLine(productId, info, shown, "2", custom);
      shown == 20.0 && main.quantity == 2 && Subtotal([main]) == 40.0
  {
    ParseIntOneDigit('2');
    SubtotalSingle(MainLine(productId, info, DisplayedPrice(info.price, [], 2), "2", custom));
  }

  lemma DisplayedTimesQuantity(basePrice: real, addons: seq<Addon>, n: int, amount: real)
    requires amount == DisplayedPrice(basePrice, addons, n) * n as real
    ensures amount == (basePrice + AddedPrice(addons)) * (n as real) * (n as real)
  {
  }

  // ---------------------------------------------------------------------------
  // The page

  class ProductPage {
    const productId: string
    const window: Window
    var info: ProductInfo
    var addons: seq<Addon>
    var removals: seq<Removal>
    var recommended: seq<Recommended>
    var quantityText: string
    /** The total shown on the page, unrounded. */
    var shownPrice: real

    constructor (w: Window, productId: string)
      ensures window == w && this.productId == productId
      ensures info == ProductInfo("", "", 0.0, [], []) && addons == [] && removals == [] && recommended == []
      ensures quantityText == "1" && shownPrice == 0.0
    {
      window := w;
      this.productId := productId;
      info := ProductInfo("", "", 0.0, [], []);
      addons := [];
      removals := [];
      recommended := [];
      quantityText := "1";
      shownPrice := 0.0;
    }

    /** `loadProduct()` then `updatePrice()`, with `loaded` the product the
      request returned (`None`: the request failed and the page stays blank). */
    method Load(loaded: Option<ProductInfo>)
      modifies this
      ensures loaded.Some? ==> info == loaded.value && addons == AddonsOf(info.customizations)
                               && removals == RemovalsOf(info.customizations)
                               && recommended == RecommendedRows(info.recommended)
      ensures loaded.None? ==> info == old(info) && addons == old(addons) && removals == old(removals)
                               && recommended == old(recommended)
      ensures quantityText == old(quantityText)
      ensures shownPrice == DisplayedPrice(info.price, addons, QtyOr1(quantityText))
    {
      if loaded.Some? {
        info := loaded.value;
        addons := AddonsOf(info.customizations);
        removals := RemovalsOf(info.customizations);
        recommended := RecommendedRows(info.recommended);
      }
      UpdatePrice();
    }

    /** `updatePrice()`: the add-on sum, then the quantity factor. */
    method UpdatePrice()
      modifies this
      ensures shownPrice == DisplayedPrice(info.price, addons, QtyOr1(quantityText))
      ensures info == old(info) && addons == old(addons) && removals == old(removals)
      ensures recommended == old(recommended) && quantityText == old(quantityText)
    {
      shownPrice := PriceOf(info.price, addons, quantityText);
    }

    method Decrease()
      modifies this
      ensures quantityText == Decreased(old(quantityText))
      ensures shownPrice == DisplayedPrice(info.price, addons, QtyOr1(quantityText))
      ensures info == old(info) && addons == old(addons) && removals == old(removals) && recommended == old(recommended)
    {
      var v := QtyOr1(quantityText);
      if v > 1 {
        quantityText := IntToString(v - 1);
      }
      UpdatePrice();
    }

    method Increase()
      modifies this
      ensures quantityText == Increased(old(quantityText))
      ensures shownPrice == DisplayedPrice(info.price, addons, QtyOr1(quantityText))
      ensures info == old(info) && addons == old(addons) && removals == old(removals) && recommended == old(recommended)
    {
      quantityText := IntToString(QtyOr1(quantityText) + 1);
      UpdatePrice();
    }

    /** The user typed `text` into the quantity box. */
    method Type(text: string)
      modifies this
      ensures quantityText == Sanitized(text)
      ensures shownPrice == DisplayedPrice(info.price, addons, QtyOr1(quantityText))
      ensures info == old(info) && addons == old(addons) && removals == old(removals) && recommended == old(recommended)
    {
      quantityText := Sanitized(text);
      UpdatePrice();
    }

    /** An add-on checkbox changed. */
    method ToggleAddon(k: nat, checked: bool)
      requires k < |addons|
      modifies this
      ensures addons == old(addons)[k := old(addons)[k].(checked := checked)]
      ensures shownPrice == DisplayedPrice(info.price, addons, QtyOr1(quantityText))
      ensures info == old(info) && removals == old(removals) && recommended == old(recommended)
      ensures quantityText == old(quantityText)
    {
      addons := addons[k := addons[k].(checked := checked)];
      UpdatePrice();
    }

    /** An add-on's amount select changed to one of its options. */
    method ChooseAmount(k: nat, amount: int)
      requires k < |addons|
      modifies this
      ensures addons == old(addons)[k := old(addons)[k].(amount := amount)]
      ensures shownPrice == DisplayedPrice(info.price, addons, QtyOr1(quantityText))
      ensures info == old(info) && removals == old(removals) && recommended == old(recommended)
      ensures quantityText == old(quantityText)
    {
      addons := addons[k := addons[k].(amount := amount)];
      UpdatePrice();
    }

    /** A removal checkbox changed: the price is not recomputed from it, since
      only the add-on rows are priced. */
    method ToggleRemoval(k: nat, checked: bool)
      requires k < |removals|
      modifies this
      ensures removals == old(removals)[k := old(removals)[k].(checked := checked)]
      ensures shownPrice == DisplayedPrice(info.price, addons, QtyOr1(quantityText)) && shownPrice == old(DisplayedPrice(info.price, addons, QtyOr1(quantityText)))
      ensures info == old(info) && addons == old(addons) && recommended == old(recommended)
      ensures quantityText == old(quantityText)
    {
      removals := removals[k := removals[k].(checked := checked)];
      UpdatePrice();
    }

    method ToggleRecommended(k: nat, checked: bool)
      requires k < |recommended|
      modifies this
      ensures recommended == old(recommended)[k := old(recommended)[k].(checked := checked)]
      ensures info == old(info) && addons == old(addons) && removals == old(removals)
      ensures quantityText == old(quantityText) && shownPrice == old(shownPrice)
    {
      recommended := recommended[k := recommended[k].(checked := checked)];
    }

    /** The add-to-cart button. */
    method AddToCart()
      modifies window
      ensures window.storage == old(window.storage)[ShoppingCart.CartKey :=
        CartDoc(CartAfterAdd(Home.StoredCart(old(window.storage)),
                             MainLine(productId, info, shownPrice, quantityText, Chosen(addons, removals)), recommended))]
      ensures OnlyStorageChanged(window)
    {
      var cart := Home.StoredCart(window.storage);
      cart := cart + [MainLine(productId, info, shownPrice, quantityText, Chosen(addons, removals))];
      cart := cart + RecommendedLines(recommended);
      window.SetItem(ShoppingCart.CartKey, CartDoc(cart));
    }
  }

  /** The page starts only with a non-empty `id` parameter in its URL. */
  method Open(w: Window, urlId: Option<string>) returns (page: Option<ProductPage>)
    ensures page.Some? <==> urlId.Some? && urlId.value != ""
    ensures page.Some? ==> fresh(page.value) && page.value.productId == urlId.value && page.value.window == w
  {
    if urlId.None? || urlId.value == "" {
      return None;
    }
    var p := new ProductPage(w, urlId.value);
    return Some(p);
  }
}
