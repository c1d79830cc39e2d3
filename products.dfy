/** products.js: the product grid of the admin page. It formats prices,
    keeps the loaded products in a cache, deletes a product and hides the
    cards whose title does not match the search text. */
module Products {
  import opened Js

  // ---------------------------------------------------------------------------
  // formatPrice

  /** `formatPrice(price, currencySymbol)`: nothing for null or undefined,
      the symbol and two decimals for a number (numbers are whole in this
      model, so `toFixed(2)` appends ".00"), `String(price)` otherwise. */
  function FormatPrice(price: Val, currencySymbol: string): string {
    if IsNullish(price) then ""
    else if price.Num? then currencySymbol + IntToString(price.n) + ".00"
    else StringOf(price)
  }

  /** A number's price text is the symbol, then a text that `parseInt` reads
      back as the same number, then exactly two decimals; a string price is
      shown as it is. */
  lemma FormatPriceContract(price: Val, currencySymbol: string)
    ensures IsNullish(price) ==> FormatPrice(price, currencySymbol) == ""
    ensures price.Num? ==>
      var r := FormatPrice(price, currencySymbol);
      && r[..|currencySymbol|] == currencySymbol
      && ParseInt(r[|currencySymbol|..]) == Some(price.n)
      && EndsWith(r, ".00")
    ensures price.Str? ==> FormatPrice(price, currencySymbol) == price.s
  {
    if price.Num? {
      var r := FormatPrice(price, currencySymbol);
      assert r[|currencySymbol|..] == IntToString(price.n) + ".00";
      ParseIntStopsAtPoint(price.n);
    }
  }

  /** `parseInt` stops at the decimal point. */
  lemma ParseIntStopsAtPoint(n: int)
    ensures ParseInt(IntToString(n) + ".00") == Some(n)
  {
    var m: nat := if n < 0 then -n else n;
    NatToStringDigits(m);
    var ds := NatToString(m);
    var s := IntToString(n) + ".00";
    var body := ds + ".00";
    assert s == (if n < 0 then "-" + body else body);
    DigitNotSpace(s[0]);
    assert TrimStart(s) == s;
    DigitRunThenPoint(ds, ".00");
    assert body[..|ds|] == ds;
    ParseIntOf(s, body, |ds|, m, n < 0);
  }

  /** `parseInt` of a text without leading white space, by its parts. */
  lemma ParseIntOf(s: string, body: string, k: nat, m: nat, negative: bool)
    requires TrimStart(s) == s
    requires s == (if negative then "-" + body else body)
    requires body != [] && body[0] != '-' && body[0] != '+'
    requires 0 < k == DigitRun(body) && DigitsValue(body[..k]) == m
    ensures ParseInt(s) == Some(if negative then -(m as int) else m as int)
  {
  }

  lemma {:induction false} DigitRunThenPoint(ds: string, rest: string)
    requires forall i :: 0 <= i < |ds| ==> IsDigit(ds[i])
    requires rest != [] && !IsDigit(rest[0])
    ensures DigitRun(ds + rest) == |ds|
  {
    if ds != [] {
      assert (ds + rest)[1..] == ds[1..] + rest;
      DigitRunThenPoint(ds[1..], rest);
    } else {
      assert ds + rest == rest;
    }
  }

  /** Distinct numbers show distinct prices. */
  lemma FormatPriceInjective(a: int, b: int, currencySymbol: string)
    requires FormatPrice(Num(a), currencySymbol) == FormatPrice(Num(b), currencySymbol)
    ensures a == b
  {
    FormatPriceContract(Num(a), currencySymbol);
    FormatPriceContract(Num(b), currencySymbol);
  }

  // ---------------------------------------------------------------------------
  // Rendering

  const DefaultCurrency := "$"

  /** A product card: the title (`name || ''`), the price text, and whether
      the edit and delete buttons are enabled (`id != null`). */
  datatype Card = Card(title: string, price: string, actionsEnabled: bool)

  datatype GridView = Blank | Loading | Cards(cards: seq<Card>) | NoProducts | LoadError

  function CardOf(p: Val): Card
    requires !IsNullish(p)
  {
    var name := Get(p, "name");
    Card(if Truthy(name) then StringOf(name) else "",
         FormatPrice(Get(p, "price"), DefaultCurrency),
         !IsNullish(Get(p, "id")))
  }

  /** `renderProducts(products)`: `None` when a product is null or undefined
      (destructuring it throws). */
  function RenderProducts(products: seq<Val>): (v: Option<GridView>)
    ensures v.Some? <==> forall i :: 0 <= i < |products| ==> !IsNullish(products[i])
    ensures v == Some(NoProducts) <==> products == []
    ensures v.Some? && products != [] ==> v.value.Cards? && |v.value.cards| == |products|
  {
    if products == [] then Some(NoProducts)
    else if forall i :: 0 <= i < |products| ==> !IsNullish(products[i])
    then Some(Cards(seq(|products|, i requires 0 <= i < |products| && !IsNullish(products[i]) => CardOf(products[i]))))
    else None
  }

  /** The grid after a render: a render that throws shows the error state
      (the `catch` of `loadProducts` and of `deleteProduct` both end there
      or keep the loading text; the model shows the error). */
  function Shown(products: seq<Val>): GridView {
    var v := RenderProducts(products);
    if v.Some? then v.value else LoadError
  }

  // ---------------------------------------------------------------------------
  // Delete

  /** The cache after deleting `productId`: every product whose `id` is
      strictly equal to it goes. `None` when the filter throws on a null
      product. */
  function WithoutId(cache: seq<Val>, productId: Val): Option<seq<Val>> {
    if forall i :: 0 <= i < |cache| ==> !IsNullish(cache[i])
    then Some(Filter(cache, (p: Val) => Get(p, "id") != productId))
    else None
  }

  /** Deletion keeps the others in their order and leaves no product with
      that id. */
  lemma WithoutIdContract(cache: seq<Val>, productId: Val)
    requires forall i :: 0 <= i < |cache| ==> !IsNullish(cache[i])
    ensures var r := WithoutId(cache, productId).value;
      && Subsequence(r, cache)
      && (forall p :: p in r <==> p in cache && Get(p, "id") != productId)
      && |r| <= |cache|
      && (forall p :: p in cache && Get(p, "id") == productId ==> |r| < |cache|)
  {
    var r := WithoutId(cache, productId).value;
    FilterIsSubsequence(cache, (p: Val) => Get(p, "id") != productId);
    if exists p :: p in cache && Get(p, "id") == productId {
      var p :| p in cache && Get(p, "id") == productId;
      SubsequenceShorter(r, cache, p);
    }
  }

  /** A subsequence that misses an element is shorter. */
  lemma {:induction false} SubsequenceShorter<T>(a: seq<T>, b: seq<T>, x: T)
    requires Subsequence(a, b) && x in b && x !in a
    ensures |a| < |b|
    decreases |b|
  {
    if a == [] {
    } else if a[0] == b[0] && Subsequence(a[1..], b[1..]) {
      assert x in b[1..];
      SubsequenceShorter(a[1..], b[1..], x);
    } else {
      SubsequenceLength(a, b[1..]);
    }
  }

  lemma {:induction false} SubsequenceLength<T>(a: seq<T>, b: seq<T>)
    requires Subsequence(a, b)
    ensures |a| <= |b|
    decreases |b|
  {
    if a != [] {
      if a[0] == b[0] && Subsequence(a[1..], b[1..]) {
        SubsequenceLength(a[1..], b[1..]);
      } else {
        SubsequenceLength(a, b[1..]);
      }
    }
  }

  // ---------------------------------------------------------------------------
  // The page state

  /** The outcome of `fetchProducts()`: the parsed body of an ok response, or
      any failure (transport, status, a body that is not JSON). */
  datatype ProductsFetch = Payload(data: Val) | FetchFailed

  /** The outcome of the DELETE request. */
  datatype DeleteOutcome = Deleted | DeleteFailed

  class ProductsPanel {
    /** `productsCache`; `None` stands for `null`. */
    var productsCache: Option<seq<Val>>
    var view: GridView
    /** The last snackbar message. */
    var snackbar: string

    constructor ()
      ensures productsCache == None && view == Blank && snackbar == ""
    {
      productsCache := None;
      view := Blank;
      snackbar := "";
    }

    /** `loadProducts({force})`: requests only when nothing is cached or
      `force` is set; only an array payload replaces the cache, anything
      else shows the error and keeps the old cache. */
    method LoadProducts(force: bool, outcome: ProductsFetch) returns (requested: bool)
      modifies this
      ensures requested <==> old(productsCache).None? || force
      ensures !requested ==> (productsCache == old(productsCache) && view == Shown(productsCache.value)
        && snackbar == (if RenderProducts(productsCache.value).Some? then old(snackbar) else "Failed to load products"))
      ensures requested && outcome.Payload? && outcome.data.Arr? ==>
        productsCache == Some(outcome.data.items) && view == Shown(outcome.data.items)
        && snackbar == (if RenderProducts(outcome.data.items).Some? then old(snackbar) else "Failed to load products")
      ensures requested && !(outcome.Payload? && outcome.data.Arr?) ==>
        productsCache == old(productsCache) && view == LoadError && snackbar == "Failed to load products"
    {
      requested := productsCache.None? || force;
      if requested {
        if outcome.Payload? && outcome.data.Arr? {
          productsCache := Some(outcome.data.items);
        } else {
          view := LoadError;
          snackbar := "Failed to load products";
          return;
        }
      }
      view := Shown(productsCache.value);
      if view == LoadError {
        snackbar := "Failed to load products";
      }
    }

    /** `deleteProduct(productId)`: a falsy id sends nothing; a failed
      request keeps the cache; a successful one drops every product with
      that id from the cache, or reloads with `force` when there is no
      cache. `sent` tells whether the DELETE went out. The DELETE goes
      through plain `fetch`, not `apiFetch`: it carries no bearer token and
      is never refreshed or retried, so `outcome` is the bare reply. */
    method DeleteProduct(productId: Val, outcome: DeleteOutcome, reload: ProductsFetch) returns (sent: bool)
      modifies this
      ensures sent <==> Truthy(productId)
      ensures !sent ==> productsCache == old(productsCache) && view == old(view) && snackbar == "Missing product id"
      ensures sent && outcome.DeleteFailed? ==>
        productsCache == old(productsCache) && view == old(view) && snackbar == "Failed to delete product"
      ensures sent && outcome.Deleted? && old(productsCache).Some? ==>
        var r := WithoutId(old(productsCache).value, productId);
        && (r.None? ==> productsCache == old(productsCache) && view == old(view) && snackbar == "Failed to delete product")
        && (r.Some? ==> productsCache == r && view == Shown(r.value)
                        && snackbar == (if RenderProducts(r.value).Some? then "Product deleted" else "Failed to delete product"))
      ensures sent && outcome.Deleted? && old(productsCache).None? ==>
        (reload.Payload? && reload.data.Arr? ==> productsCache == Some(reload.data.items) && view == Shown(reload.data.items))
        && (!(reload.Payload? && reload.data.Arr?) ==> productsCache == None && view == LoadError)
        && snackbar == "Product deleted"
    {
      if !Truthy(productId) {
        snackbar := "Missing product id";
        return false;
      }
      sent := true;
      if outcome.DeleteFailed? {
        snackbar := "Failed to delete product";
        return;
      }
      if productsCache.Some? {
        var r := WithoutId(productsCache.value, productId);
        if r.None? {
          snackbar := "Failed to delete product";
          return;
        }
        productsCache := r;
        view := Shown(r.value);
        if view == LoadError {
          snackbar := "Failed to delete product";
          return;
        }
      } else {
        var _ := LoadProducts(true, reload);
      }
      snackbar := "Product deleted";
    }
  }

  // ---------------------------------------------------------------------------
  // filterProducts

  /** Whether a card stays visible: its lower-cased `h3` text (none reads as
      "") contains the lower-cased query. */
  predicate Visible(title: Option<string>, query: string) {
    Includes(ToLower(title.GetOr("")), ToLower(query))
  }

  /** `filterProducts()`: sets each card's display in turn. */
  method FilterProducts(titles: seq<Option<string>>, query: string, display: array<bool>)
    requires display.Length == |titles|
    modifies display
    ensures forall i :: 0 <= i < |titles| ==> display[i] == Visible(titles[i], query)
  {
    var i := 0;
    while i < |titles|
      invariant 0 <= i <= |titles|
      invariant forall k :: 0 <= k < i ==> display[k] == Visible(titles[k], query)
    {
      display[i] := Visible(titles[i], query);
      i := i + 1;
    }
  }

  /** An empty query shows every card, and typing more never brings back a
      card that was hidden. */
  lemma VisibleMonotone(title: Option<string>, query: string, more: string)
    ensures Visible(title, "")
    ensures Visible(title, query + more) ==> Visible(title, query)
  {
    var t := ToLower(title.GetOr(""));
    assert t[0..][..0] == "";
    assert ToLower(query + more) == ToLower(query) + ToLower(more);
    if Visible(title, query + more) {
      var q := ToLower(query + more);
      var i :| 0 <= i <= |t| - |q| && t[i..][..|q|] == q;
      assert t[i..][..|ToLower(query)|] == ToLower(query);
    }
  }
}
