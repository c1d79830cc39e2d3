/** shopping-cart.js: the cart page. It edits the cart buffer (minus, plus,
    typed quantity, remove), keeps the extras panel in storage, applies the
    promo code, computes the total, and builds the order payload. */
module ShoppingCart {
  import opened Js
  import opened CartData
  import opened Browser
  import JwtFetch

  const CartKey := "cartProducts"
  const ExtrasKey := "cartExtras"
  const BaseDeliveryFee: real := 5.0
  const PromoDiscount: real := 0.15
  const PromoCode := "DISCOUNT15"
  const CutleryFee: real := 1.0
  const StickSetPrice: real := 0.10

  // ---------------------------------------------------------------------------
  // Edits of the cart buffer

  /** The minus button: the first line with `id` loses one item, but only
      while it has more than one. */
  function DecrementFirst(s: seq<Entry>, id: string): seq<Entry> {
    var i := IndexOf(s, id);
    if i >= 0 && s[i].quantity > 1 then Bump(s, i, -1) else s
  }

  /** The plus button: the first line with `id` gains one item. */
  function IncrementFirst(s: seq<Entry>, id: string): seq<Entry> {
    var i := IndexOf(s, id);
    if i >= 0 then Bump(s, i, 1) else s
  }

  /** The value a typed quantity settles on: the parsed integer, or 1 when it
      does not parse or is below 1. */
  function ClampQuantity(text: string): (q: int)
    ensures q >= 1
    ensures ParseInt(text).Some? && ParseInt(text).value >= 1 ==> q == ParseInt(text).value
    ensures ParseInt(text).None? || ParseInt(text).value < 1 ==> q == 1
  {
    match ParseInt(text)
    case None => 1
    case Some(n) => if n < 1 then 1 else n
  }

  /** The remove button: the first line with `id` is cut out. */
  function RemoveFirst(s: seq<Entry>, id: string): seq<Entry> {
    var i := IndexOf(s, id);
    if i >= 0 then s[..i] + s[i + 1..] else s
  }

  /** Minus keeps the cart's shape and ids, touches at most the first line
      with `id`, never takes a line below one item, and removes exactly one
      item (and that line's price) when it acts. */
  lemma DecrementFirstContract(s: seq<Entry>, id: string)
    ensures var r := DecrementFirst(s, id);
      var i := IndexOf(s, id);
      && |r| == |s|
      && (forall j :: 0 <= j < |s| && j != i ==> r[j] == s[j])
      && (forall j :: 0 <= j < |s| ==> r[j].id == s[j].id && (s[j].quantity >= 1 ==> r[j].quantity >= 1))
      && (if i >= 0 && s[i].quantity > 1
          then QuantityTotal(r) == QuantityTotal(s) - 1 && Subtotal(r) == Subtotal(s) - s[i].price
          else r == s)
  {
    var i := IndexOf(s, id);
    if i >= 0 && s[i].quantity > 1 {
      BumpSums(s, i, -1);
    }
  }

  /** Plus adds exactly one item to the first line with `id` and nothing
      else; an unknown id changes nothing. */
  lemma IncrementFirstContract(s: seq<Entry>, id: string)
    ensures var r := IncrementFirst(s, id);
      var i := IndexOf(s, id);
      && |r| == |s|
      && (forall j :: 0 <= j < |s| && j != i ==> r[j] == s[j])
      && (i >= 0 ==> r[i] == s[i].(quantity := s[i].quantity + 1)
                     && QuantityTotal(r) == QuantityTotal(s) + 1 && Subtotal(r) == Subtotal(s) + s[i].price)
      && (i == -1 ==> r == s)
  {
    var i := IndexOf(s, id);
    if i >= 0 {
      BumpSums(s, i, 1);
    }
  }

  /** A typed quantity that is the decimal form of a positive number is kept
      as is; anything else becomes 1. */
  lemma ClampQuantityOfNumber(n: int)
    ensures ClampQuantity(IntToString(n)) == if n >= 1 then n else 1
  {
    ParseIntOfIntToString(n);
  }

  /** Remove deletes exactly one line, the first with `id`, and keeps the
      others in order (the result is a subsequence of the cart); a later line
      with the same id stays. */
  lemma RemoveFirstContract(s: seq<Entry>, id: string)
    ensures var r := RemoveFirst(s, id);
      var i := IndexOf(s, id);
      && Subsequence(r, s)
      && (i == -1 ==> r == s)
      && (i >= 0 ==> |r| == |s| - 1 && multiset(r) + multiset{s[i]} == multiset(s)
                     && r[..i] == s[..i] && r[i..] == s[i + 1..]
                     && QuantityTotal(r) == QuantityTotal(s) - s[i].quantity
                     && Subtotal(r) == Subtotal(s) - LineAmount(s[i]))
  {
    var i := IndexOf(s, id);
    if i >= 0 {
      RemoveLineAt(s, i);
    } else {
      SubsequenceRefl(s);
    }
  }

  /** Cutting out the line at `i`, whatever its id. */
  lemma RemoveLineAt(s: seq<Entry>, i: nat)
    requires i < |s|
    ensures var r := s[..i] + s[i + 1..];
      && Subsequence(r, s)
      && |r| == |s| - 1 && multiset(r) + multiset{s[i]} == multiset(s)
      && r[..i] == s[..i] && r[i..] == s[i + 1..]
      && QuantityTotal(r) == QuantityTotal(s) - s[i].quantity
      && Subtotal(r) == Subtotal(s) - LineAmount(s[i])
  {
    SubtotalRemove(s, i);
    DropOneIsSubsequence(s, i);
    RemoveAtParts(s, i);
  }

  lemma RemoveAtParts<T>(s: seq<T>, i: nat)
    requires i < |s|
    ensures var r := s[..i] + s[i + 1..];
      && multiset(r) + multiset{s[i]} == multiset(s)
      && r[..i] == s[..i] && r[i..] == s[i + 1..]
  {
    SplitAt(s, i);
    var r := s[..i] + s[i + 1..];
    assert r[..i] == s[..i];
    assert r[i..] == s[i + 1..];
  }

  lemma {:induction false} DropOneIsSubsequence<T>(s: seq<T>, i: nat)
    requires i < |s|
    ensures Subsequence(s[..i] + s[i + 1..], s)
  {
    if i == 0 {
      assert s[..0] + s[1..] == s[1..];
      SubsequenceRefl(s[1..]);
      assert s == [s[0]] + s[1..];
    } else {
      DropOneIsSubsequence(s[1..], i - 1);
      assert s[1..][..i - 1] + s[1..][i..] == (s[..i] + s[i + 1..])[1..];
      assert (s[..i] + s[i + 1..])[0] == s[0];
    }
  }

  // ---------------------------------------------------------------------------
  // Total

  /** What the chopsticks add: 0.10 per set when the box is checked and the
      count is non-empty, not "0", and parses. */
  function SticksCharge(checked: bool, count: string): real {
    if checked && count != "" && count != "0" then
      match ParseInt(count)
      case Some(n) => n as real * StickSetPrice
      case None => 0.0
    else 0.0
  }

  /** `updateTotal()`, computed exactly. */
  function CartTotal(products: seq<Entry>, cutlery: bool, sticks: bool, count: string, fee: real, promo: bool): real {
    var sum := Subtotal(products) + (if cutlery then CutleryFee else 0.0) + SticksCharge(sticks, count) + fee;
    if promo then sum - sum * PromoDiscount else sum
  }

  /** The promo takes 15 % off everything, extras and delivery included. */
  lemma PromoCoversEverything(products: seq<Entry>, cutlery: bool, sticks: bool, count: string, fee: real)
    ensures CartTotal(products, cutlery, sticks, count, fee, true)
         == 0.85 * CartTotal(products, cutlery, sticks, count, fee, false)
    ensures CartTotal(products, cutlery, sticks, count, fee, false)
         == Subtotal(products) + (if cutlery then 1.0 else 0.0) + SticksCharge(sticks, count) + fee
  {
  }

  /** Unchecked chopsticks cost nothing whatever the count says; three
      checked sets cost 0.30. */
  lemma SticksChargeCases(count: string)
    ensures SticksCharge(false, count) == 0.0
    ensures SticksCharge(true, "0") == 0.0 && SticksCharge(true, "") == 0.0
    ensures SticksCharge(true, "3") == 0.3
  {
    ParseIntOfIntToString(3);
    assert IntToString(3) == "3";
  }

  /** The plus button raises the total by the line's price, discounted when
      the promo is on. */
  lemma IncrementRaisesTotal(s: seq<Entry>, id: string, cutlery: bool, sticks: bool, count: string, fee: real, promo: bool)
    requires IndexOf(s, id) >= 0
    ensures CartTotal(IncrementFirst(s, id), cutlery, sticks, count, fee, promo)
         == CartTotal(s, cutlery, sticks, count, fee, promo) + (if promo then 0.85 else 1.0) * s[IndexOf(s, id)].price
  {
    IncrementFirstContract(s, id);
  }

  /** Whether the promo box holds the code: trimmed, in any ASCII letter case. */
  predicate PromoAccepted(input: string) {
    ToUpper(Trim(input)) == PromoCode
  }

  /** Any white space around the code, and any letter case of it, is
      accepted. */
  lemma PromoIgnoresPaddingAndCase(pre: string, core: string, post: string)
    requires forall k :: 0 <= k < |pre| ==> IsSpace(pre[k])
    requires forall k :: 0 <= k < |post| ==> IsSpace(post[k])
    requires ToUpper(core) == PromoCode
    ensures PromoAccepted(pre + core + post)
  {
    assert Upper(core[0]) == 'D' && Upper(core[|core| - 1]) == '5';
    TrimSurrounded(pre, core, post);
  }

  /** `s[i..j]` is the code in some letter case, with only white space
      around it. */
  predicate PaddedCode(s: string, i: int, j: int) {
    0 <= i <= j <= |s|
    && (forall k :: 0 <= k < i ==> IsSpace(s[k]))
    && (forall k :: j <= k < |s| ==> IsSpace(s[k]))
    && ToUpper(s[i..j]) == PromoCode
  }

  /** The box is accepted exactly when it holds the code, in any letter
      case, with only white space around it. */
  lemma PromoAcceptedExactly(s: string)
    ensures PromoAccepted(s) <==> exists i, j :: PaddedCode(s, i, j)
  {
    if PromoAccepted(s) {
      TrimIsSlice(s);
      var i, j :| TrimmedAt(s, Trim(s), i, j);
      assert PaddedCode(s, i, j);
    }
    if exists i, j :: PaddedCode(s, i, j) {
      var i, j :| PaddedCode(s, i, j);
      var pre, core, post := s[..i], s[i..j], s[j..];
      assert s == pre + core + post;
      PromoIgnoresPaddingAndCase(pre, core, post);
    }
  }

  /** White space left inside the trimmed text, such as a space between the
      word and the number, makes the code invalid whatever the letter case. */
  lemma PromoRejectsInnerSpace(s: string, k: int)
    requires 0 <= k < |Trim(s)| && IsSpace(Trim(s)[k])
    ensures !PromoAccepted(s)
  {
    var up := ToUpper(Trim(s));
    assert IsSpace(up[k]);
    assert forall m :: 0 <= m < |PromoCode| ==> !IsSpace(PromoCode[m]);
  }

  // ---------------------------------------------------------------------------
  // Extras

  /** What `loadExtras` makes of a saved record: an empty count reads as "0". */
  function Restored(saved: Extras): Extras {
    saved.(sushiSticksCount := if saved.sushiSticksCount == "" then "0" else saved.sushiSticksCount)
  }

  /** Saving and loading the extras gives them back, except that an empty
      count comes back as "0"; loading twice is loading once. */
  lemma ExtrasRoundTrip(x: Extras)
    ensures Restored(x) == x <==> x.sushiSticksCount != ""
    ensures Restored(Restored(x)) == Restored(x)
    ensures SticksCharge(Restored(x).sushiSticks, Restored(x).sushiSticksCount)
         == SticksCharge(x.sushiSticks, x.sushiSticksCount)
  {
  }

  // ---------------------------------------------------------------------------
  // Order payload

  /** One line of the order payload. */
  datatype OrderLine = OrderLine(id: string, name: string, quantity: int, price: real, customizations: Customizations)

  datatype OrderPayload = OrderPayload(
    products: seq<OrderLine>,
    cutleryNapkins: bool,
    sushiSticks: bool,
    sushiSticksCount: Option<string>,
    promoCode: string,
    total: real)

  function OrderLineOf(e: Entry): OrderLine {
    OrderLine(e.id, e.name, e.quantity, e.price, e.customizations.GetOr(NoCustomizations))
  }

  function OrderLines(s: seq<Entry>): (r: seq<OrderLine>)
    ensures |r| == |s|
    ensures forall i :: 0 <= i < |s| ==> r[i] == OrderLineOf(s[i])
  {
    seq(|s|, i requires 0 <= i < |s| => OrderLineOf(s[i]))
  }

  /** The payload lists the cart in order with its ids, quantities and prices,
      and with empty customizations where the entry has none. */
  lemma OrderLinesFaithful(s: seq<Entry>)
    ensures var r := OrderLines(s);
      && |r| == |s|
      && (forall i :: 0 <= i < |s| ==> r[i].id == s[i].id && r[i].quantity == s[i].quantity && r[i].price == s[i].price)
      && (forall i :: 0 <= i < |s| && s[i].customizations.None? ==> r[i].customizations == Customizations([], []))
      && (forall i :: 0 <= i < |s| && s[i].customizations.Some? ==> r[i].customizations == s[i].customizations.value)
  {
  }

  // ---------------------------------------------------------------------------
  // The page

  class CartPage {
    /** The module's `products` array. */
    var products: seq<Entry>
    var deliveryFee: real
    var promoApplied: bool
    /** The checkboxes, the chopstick count and the promo box. */
    var cutleryChecked: bool
    var sticksChecked: bool
    var sticksCount: string
    var promoInput: string
    /** The total that `#totalPrice` shows. Only `updateTotal()` writes it,
        and rendering an empty cart returns before calling it, so on an
        emptied cart it keeps its last value. */
    var shownTotal: real
    const window: Window

    /** Loads the saved extras and then renders the cart (an absent key reads
        as empty). Without saved extras the boxes keep the markup's
        `markupExtras`; an empty cart leaves the markup's `markupTotal` shown. */
    constructor (w: Window, markupTotal: real, markupExtras: Extras)
      ensures window == w
      ensures products == (if CartKey in w.storage && w.storage[CartKey].CartDoc? then w.storage[CartKey].entries else [])
      ensures deliveryFee == BaseDeliveryFee && !promoApplied && promoInput == ""
      ensures var shown := if ExtrasKey in w.storage && w.storage[ExtrasKey].ExtrasDoc?
                           then Restored(w.storage[ExtrasKey].extras) else markupExtras;
        Extras(cutleryChecked, sticksChecked, sticksCount) == shown
      ensures shownTotal == if products == [] then markupTotal else Total()
      ensures ShownIsCurrent()
    {
      window := w;
      products := if CartKey in w.storage && w.storage[CartKey].CartDoc? then w.storage[CartKey].entries else [];
      deliveryFee := BaseDeliveryFee;
      promoApplied := false;
      promoInput := "";
      var shown := if ExtrasKey in w.storage && w.storage[ExtrasKey].ExtrasDoc?
                   then Restored(w.storage[ExtrasKey].extras) else markupExtras;
      cutleryChecked := shown.cutleryNapkins;
      sticksChecked := shown.sushiSticks;
      sticksCount := shown.sushiSticksCount;
      shownTotal := markupTotal;
      new;
      Render();
    }

    function CurrentExtras(): Extras
      reads this
    {
      Extras(cutleryChecked, sticksChecked, sticksCount)
    }

    /** What `updateTotal()` computes from the current state. */
    function Total(): real
      reads this
    {
      CartTotal(products, cutleryChecked, sticksChecked, sticksCount, deliveryFee, promoApplied)
    }

    /** While the cart holds a line, the shown total is the current one. */
    predicate ShownIsCurrent()
      reads this
    {
      products != [] ==> shownTotal == Total()
    }

    /** `renderCart()`'s effect on the shown total. */
    method Render()
      modifies this
      ensures shownTotal == if products == [] then old(shownTotal) else Total()
      ensures products == old(products) && deliveryFee == old(deliveryFee) && promoApplied == old(promoApplied)
      ensures CurrentExtras() == old(CurrentExtras()) && promoInput == old(promoInput)
      ensures ShownIsCurrent()
    {
      if products != [] {
        shownTotal := Total();
      }
    }

    method Minus(id: string)
      modifies this, window
      ensures products == DecrementFirst(old(products), id)
      ensures window.storage == if products == old(products) then old(window.storage)
                                else old(window.storage)[CartKey := CartDoc(products)]
      ensures OnlyStorageChanged(window)
      ensures deliveryFee == old(deliveryFee) && promoApplied == old(promoApplied) && CurrentExtras() == old(CurrentExtras())
      ensures promoInput == old(promoInput)
      ensures shownTotal == if products == old(products) then old(shownTotal) else Total()
      ensures old(ShownIsCurrent()) ==> ShownIsCurrent()
    {
      var i := IndexOf(products, id);
      if i == -1 {
        // `prod.quantity` of undefined throws
        return;
      }
      if products[i].quantity > 1 {
        products := Bump(products, i, -1);
        assert products[i] != old(products)[i];
        window.SetItem(CartKey, CartDoc(products));
        Render();
      }
    }

    method Plus(id: string)
      modifies this, window
      ensures products == IncrementFirst(old(products), id)
      ensures window.storage == if IndexOf(old(products), id) == -1 then old(window.storage)
                                else old(window.storage)[CartKey := CartDoc(products)]
      ensures OnlyStorageChanged(window)
      ensures deliveryFee == old(deliveryFee) && promoApplied == old(promoApplied) && CurrentExtras() == old(CurrentExtras())
      ensures promoInput == old(promoInput)
      ensures shownTotal == if IndexOf(old(products), id) == -1 then old(shownTotal) else Total()
      ensures old(ShownIsCurrent()) ==> ShownIsCurrent()
    {
      var i := IndexOf(products, id);
      if i == -1 {
        return;
      }
      products := Bump(products, i, 1);
      window.SetItem(CartKey, CartDoc(products));
      Render();
    }

    /** The quantity box of the line `id` changed to `text`. */
    method SetTyped(id: string, text: string)
      modifies this, window
      ensures var i := IndexOf(old(products), id);
        && products == (if i == -1 then old(products) else old(products)[i := old(products)[i].(quantity := ClampQuantity(text))])
        && window.storage == (if i == -1 then old(window.storage) else old(window.storage)[CartKey := CartDoc(products)])
      ensures OnlyStorageChanged(window)
      ensures deliveryFee == old(deliveryFee) && promoApplied == old(promoApplied) && CurrentExtras() == old(CurrentExtras())
      ensures promoInput == old(promoInput)
      ensures shownTotal == if IndexOf(old(products), id) == -1 then old(shownTotal) else Total()
      ensures old(ShownIsCurrent()) ==> ShownIsCurrent()
    {
      var q := ClampQuantity(text);
      var i := IndexOf(products, id);
      if i == -1 {
        return;
      }
      products := products[i := products[i].(quantity := q)];
      window.SetItem(CartKey, CartDoc(products));
      shownTotal := Total();
    }

    method Remove(id: string)
      modifies this, window
      ensures products == RemoveFirst(old(products), id)
      ensures window.storage == if IndexOf(old(products), id) == -1 then old(window.storage)
                                else old(window.storage)[CartKey := CartDoc(products)]
      ensures OnlyStorageChanged(window)
      ensures deliveryFee == old(deliveryFee) && promoApplied == old(promoApplied) && CurrentExtras() == old(CurrentExtras())
      ensures promoInput == old(promoInput)
      ensures shownTotal == if IndexOf(old(products), id) == -1 || products == [] then old(shownTotal) else Total()
      ensures old(ShownIsCurrent()) ==> ShownIsCurrent()
    {
      var i := IndexOf(products, id);
      if i != -1 {
        products := products[..i] + products[i + 1..];
        window.SetItem(CartKey, CartDoc(products));
        Render();
      }
    }

    /** The user types into the promo box. */
    method EnterPromo(text: string)
      modifies this
      ensures promoInput == text
      ensures products == old(products) && deliveryFee == old(deliveryFee) && promoApplied == old(promoApplied)
      ensures CurrentExtras() == old(CurrentExtras()) && shownTotal == old(shownTotal)
      ensures old(ShownIsCurrent()) ==> ShownIsCurrent()
    {
      promoInput := text;
    }

    /** The apply button: the promo is on exactly when the box holds the code;
      any other text switches an earlier promo off. */
    method ApplyPromo()
      modifies this
      ensures promoApplied == PromoAccepted(promoInput)
      ensures products == old(products) && deliveryFee == old(deliveryFee) && promoInput == old(promoInput)
      ensures CurrentExtras() == old(CurrentExtras())
      ensures shownTotal == Total() && ShownIsCurrent()
    {
      promoApplied := PromoAccepted(promoInput);
      shownTotal := Total();
    }

    /** `saveExtras()` */
    method SaveExtras()
      modifies window
      ensures window.storage == old(window.storage)[ExtrasKey := ExtrasDoc(CurrentExtras())]
      ensures OnlyStorageChanged(window)
    {
      window.SetItem(ExtrasKey, ExtrasDoc(CurrentExtras()));
    }

    /** The chopsticks box was (un)checked: checking turns a "0" count into
      "1", unchecking sets it to "0"; then the extras are saved. */
    method ToggleSticks(checked: bool)
      modifies this, window
      ensures sticksChecked == checked && cutleryChecked == old(cutleryChecked)
      ensures sticksCount == if !checked then "0" else if old(sticksCount) == "0" then "1" else old(sticksCount)
      ensures window.storage == old(window.storage)[ExtrasKey := ExtrasDoc(CurrentExtras())]
      ensures OnlyStorageChanged(window)
      ensures products == old(products) && deliveryFee == old(deliveryFee) && promoApplied == old(promoApplied)
      ensures promoInput == old(promoInput)
      ensures shownTotal == Total() && ShownIsCurrent()
    {
      sticksChecked := checked;
      if checked {
        if sticksCount == "0" {
          sticksCount := "1";
        }
      } else {
        sticksCount := "0";
      }
      SaveExtras();
      shownTotal := Total();
    }

    /** The chopstick count changed; the extras are saved. */
    method SetSticksCount(text: string)
      modifies this, window
      ensures sticksCount == text && sticksChecked == old(sticksChecked) && cutleryChecked == old(cutleryChecked)
      ensures window.storage == old(window.storage)[ExtrasKey := ExtrasDoc(CurrentExtras())]
      ensures OnlyStorageChanged(window)
      ensures products == old(products) && deliveryFee == old(deliveryFee) && promoApplied == old(promoApplied)
      ensures promoInput == old(promoInput)
      ensures shownTotal == Total() && ShownIsCurrent()
    {
      sticksCount := text;
      SaveExtras();
      shownTotal := Total();
    }

    /** The cutlery box was (un)checked; the extras are saved. */
    method SetCutlery(checked: bool)
      modifies this, window
      ensures cutleryChecked == checked && sticksChecked == old(sticksChecked) && sticksCount == old(sticksCount)
      ensures window.storage == old(window.storage)[ExtrasKey := ExtrasDoc(CurrentExtras())]
      ensures OnlyStorageChanged(window)
      ensures products == old(products) && deliveryFee == old(deliveryFee) && promoApplied == old(promoApplied)
      ensures promoInput == old(promoInput)
      ensures shownTotal == Total() && ShownIsCurrent()
    {
      cutleryChecked := checked;
      SaveExtras();
      shownTotal := Total();
    }

    /** `resetCart()`: the cart is emptied, both keys leave storage, the promo
      is off, the fee is back to 5.00 and the extras are cleared. The empty
      cart is rendered without `updateTotal()`, so the old total stays shown. */
    method ResetCart()
      modifies this, window
      ensures products == [] && !promoApplied && deliveryFee == BaseDeliveryFee && promoInput == ""
      ensures CurrentExtras() == Extras(false, false, "0")
      ensures shownTotal == old(shownTotal) && ShownIsCurrent()
      ensures window.storage == old(window.storage) - {CartKey, ExtrasKey}
      ensures OnlyStorageChanged(window)
    {
      products := [];
      window.RemoveItem(CartKey);
      window.RemoveItem(ExtrasKey);
      promoApplied := false;
      deliveryFee := BaseDeliveryFee;
      promoInput := "";
      sticksChecked := false;
      cutleryChecked := false;
      sticksCount := "0";
      Render();
    }

    /** `buildCartPayload()`: the chopstick count only when the box is checked;
        the total is read back from what the page shows. */
    function BuildPayload(): (p: OrderPayload)
      reads this
      ensures p.products == OrderLines(products)
      ensures p.sushiSticksCount.None? <==> !sticksChecked
      ensures p.sushiSticksCount.Some? ==> p.sushiSticksCount.value == sticksCount
      ensures p.promoCode == Trim(promoInput) && p.total == shownTotal
      ensures ShownIsCurrent() && products != [] ==> p.total == Total()
    {
      OrderPayload(OrderLines(products), cutleryChecked, sticksChecked,
                   if sticksChecked then Some(sticksCount) else None, Trim(promoInput), shownTotal)
    }

    /** The checkout call settled with `outcome`: a 2xx reply with a JSON body
      empties the cart; anything else leaves the page as it was. */
    method FinishCheckout(outcome: JwtFetch.Fetched)
      modifies this, window
      ensures var placed := outcome.Returned? && IsOk(outcome.reply) && outcome.reply.body.Some?;
        && (placed ==> products == [] && !promoApplied && deliveryFee == BaseDeliveryFee
                       && CurrentExtras() == Extras(false, false, "0")
                       && window.storage == old(window.storage) - {CartKey, ExtrasKey})
        && (!placed ==> products == old(products) && CurrentExtras() == old(CurrentExtras()) && promoApplied == old(promoApplied)
                        && window.storage == old(window.storage))
      ensures shownTotal == old(shownTotal)
      ensures old(ShownIsCurrent()) ==> ShownIsCurrent()
      ensures OnlyStorageChanged(window)
    {
      if outcome.Returned? && IsOk(outcome.reply) && outcome.reply.body.Some? {
        ResetCart();
      }
    }
  }
}
