/** home.js: the product list. It loads the products once (or when forced),
    filters them by category, and merges a clicked product into the stored
    cart. */
module Home {
  import opened Js
  import opened CartData
  import opened Browser
  import ShoppingCart

  /** A product as the list shows it. */
  datatype Product = Product(id: string, name: string, image: string, price: real, category: string)

  /** What the list area shows. */
  datatype View = Blank | Cards(shown: seq<Product>) | NoneInCategory | LoadError

  const AllCategories := "ALL"

  /** `renderProducts(category)`: every product for "ALL", otherwise those of
      that exact category; an empty selection shows the empty message. */
  function InCategory(products: seq<Product>, category: string): seq<Product> {
    if category == AllCategories then products else Filter(products, (p: Product) => p.category == category)
  }

  function Render(products: seq<Product>, category: string): View {
    var selected := InCategory(products, category);
    if selected == [] then NoneInCategory else Cards(selected)
  }

  /** "ALL" shows the list as it is; any other category shows exactly its
      products, in their original order. */
  lemma InCategoryContract(products: seq<Product>, category: string)
    ensures category == AllCategories ==> InCategory(products, category) == products
    ensures category != AllCategories ==>
      && Subsequence(InCategory(products, category), products)
      && (forall p :: p in InCategory(products, category) <==> p in products && p.category == category)
    ensures Render(products, category) == NoneInCategory <==> InCategory(products, category) == []
  {
    if category != AllCategories {
      FilterIsSubsequence(products, (p: Product) => p.category == category);
    }
  }

  /** The first product with `id`, if any. */
  function FindProduct(products: seq<Product>, id: string): (r: Option<Product>)
    ensures r.Some? ==> r.value in products && r.value.id == id
    ensures r.Some? ==> exists k :: 0 <= k < |products| && products[k] == r.value
                                    && forall j :: 0 <= j < k ==> products[j].id != id
    ensures r.None? <==> forall j :: 0 <= j < |products| ==> products[j].id != id
  {
    if products == [] then None
    else if products[0].id == id then Some(products[0])
    else
      var r := FindProduct(products[1..], id);
      if r.None? then r else FirstMatchShift(products, id, r.value); r
  }

  /** A first match in the tail is a first match in the whole list when the
      head does not match. */
  lemma FirstMatchShift(products: seq<Product>, id: string, v: Product)
    requires |products| > 0 && products[0].id != id
    requires exists k :: 0 <= k < |products[1..]| && products[1..][k] == v
                         && forall j :: 0 <= j < k ==> products[1..][j].id != id
    ensures exists k :: 0 <= k < |products| && products[k] == v
                        && forall j :: 0 <= j < k ==> products[j].id != id
  {
    var k :| 0 <= k < |products[1..]| && products[1..][k] == v
             && forall j :: 0 <= j < k ==> products[1..][j].id != id;
    assert products[k + 1] == v;
    assert forall j :: 0 <= j < k + 1 ==> products[j].id != id;
  }

  /** The cart line a product gets when it is first added. */
  function NewLine(p: Product): Entry {
    Entry(p.id, p.name, p.image, p.price, 1, Some(NoCustomizations))
  }

  /** The add-to-cart click: bump the first line with the product's id, or
      append a fresh line with one item. */
  function Merge(cart: seq<Entry>, p: Product): seq<Entry> {
    var i := IndexOf(cart, p.id);
    if i >= 0 then Bump(cart, i, 1) else cart + [NewLine(p)]
  }

  /** Every click adds exactly one item: the length is kept when the id is
      already in the cart and grows by one otherwise; nothing but the first
      matching line (or the new last line) changes. */
  lemma MergeContract(cart: seq<Entry>, p: Product)
    ensures var r := Merge(cart, p);
      var i := IndexOf(cart, p.id);
      && QuantityTotal(r) == QuantityTotal(cart) + 1
      && (i >= 0 ==> |r| == |cart| && r[i].quantity == cart[i].quantity + 1
                     && (forall j :: 0 <= j < |cart| && j != i ==> r[j] == cart[j])
                     && Subtotal(r) == Subtotal(cart) + cart[i].price)
      && (i == -1 ==> r == cart + [NewLine(p)] && Subtotal(r) == Subtotal(cart) + p.price)
  {
    var i := IndexOf(cart, p.id);
    if i >= 0 {
      BumpSums(cart, i, 1);
    } else {
      SubtotalConcat(cart, [NewLine(p)]);
      assert [NewLine(p)][..0] == [];
    }
  }

  /** Adding a product twice leaves one line for it with two items. */
  lemma MergeTwice(cart: seq<Entry>, p: Product)
    requires IndexOf(cart, p.id) == -1
    ensures Merge(Merge(cart, p), p) == cart + [NewLine(p).(quantity := 2)]
  {
    var once := cart + [NewLine(p)];
    assert IndexOf(once, p.id) == |cart| by {
      assert once[|cart|].id == p.id;
      assert forall j :: 0 <= j < |cart| ==> once[j].id != p.id;
    }
  }

  /** The stored cart, or an empty one. */
  function StoredCart(storage: map<string, Item>): seq<Entry> {
    if ShoppingCart.CartKey in storage && storage[ShoppingCart.CartKey].CartDoc?
    then storage[ShoppingCart.CartKey].entries else []
  }

  /** The outcome of the product request: the decoded list, or any failure. */
  datatype ProductsFetch = ProductsLoaded(products: seq<Product>) | ProductsFailed

  class HomePage {
    var products: seq<Product>
    /** The cache flag `productsLoaded`. */
    var loaded: bool
    var view: View
    const window: Window

    constructor (w: Window)
      ensures window == w && products == [] && !loaded && view == Blank
    {
      window := w;
      products := [];
      loaded := false;
      view := Blank;
    }

    /** `fetchProducts(force)`: a loaded list is shown again without a request
      unless `force` is set; otherwise `outcome` is the request's result, and
      only a success replaces the list and sets the flag. `requested` tells
      whether the request was made. */
    method FetchProducts(force: bool, outcome: ProductsFetch) returns (requested: bool)
      modifies this
      ensures requested <==> !old(loaded) || force
      ensures !requested ==> products == old(products) && loaded && view == Render(products, AllCategories)
      ensures requested && outcome.ProductsLoaded? ==>
        products == outcome.products && loaded && view == Render(products, AllCategories)
      ensures requested && outcome.ProductsFailed? ==>
        products == old(products) && loaded == old(loaded) && view == LoadError
    {
      if loaded && !force {
        view := Render(products, AllCategories);
        return false;
      }
      requested := true;
      match outcome
      case ProductsLoaded(ps) =>
        products := ps;
        loaded := true;
        view := Render(products, AllCategories);
      case ProductsFailed =>
        view := LoadError;
    }

    /** A category button was clicked. */
    method SelectCategory(category: string)
      modifies this
      ensures view == Render(products, category)
      ensures products == old(products) && loaded == old(loaded)
    {
      view := Render(products, category);
    }

    /** The add-to-cart button of the card with `id`. */
    method AddToCart(id: string)
      modifies window
      ensures var p := FindProduct(products, id);
        window.storage == if p.None? then old(window.storage)
                          else old(window.storage)[ShoppingCart.CartKey := CartDoc(Merge(StoredCart(old(window.storage)), p.value))]
      ensures OnlyStorageChanged(window)
    {
      var p := FindProduct(products, id);
      if p.None? {
        return;
      }
      var cart := StoredCart(window.storage);
      var i := IndexOf(cart, id);
      if i >= 0 {
        cart := Bump(cart, i, 1);
      } else {
        cart := cart + [NewLine(p.value)];
      }
      window.SetItem(ShoppingCart.CartKey, CartDoc(cart));
    }
  }
}
