/** The cart entry format that home.js, product.js and shopping-cart.js read and
    write under the "cartProducts" key, and the "cartExtras" record. */
module CartData {
  import opened Js

  /** An ingredient added to or removed from a product. */
  datatype Choice = Choice(id: string, name: string, quantity: int)

  datatype Customizations = Customizations(added: seq<Choice>, removed: seq<Choice>)

  const NoCustomizations := Customizations([], [])

  /** One line of the cart. `customizations` is absent for entries written by
      older pages; readers treat that as no customization. */
  datatype Entry = Entry(
    id: string,
    name: string,
    image: string,
    price: real,
    quantity: int,
    customizations: Option<Customizations>)

  /** The extras panel of the cart page as persisted by `saveExtras`. */
  datatype Extras = Extras(cutleryNapkins: bool, sushiSticks: bool, sushiSticksCount: string)

  /** What one line contributes to the cart sum: `price * quantity`. */
  function LineAmount(e: Entry): real {
    e.price * e.quantity as real
  }

  /** `products.reduce((acc, p) => acc + p.price * p.quantity, 0)` */
  function Subtotal(s: seq<Entry>): real {
    if s == [] then 0.0 else Subtotal(s[..|s| - 1]) + LineAmount(s[|s| - 1])
  }

  /** The number of items in the cart, counting quantities. */
  function QuantityTotal(s: seq<Entry>): int {
    if s == [] then 0 else QuantityTotal(s[..|s| - 1]) + s[|s| - 1].quantity
  }

  lemma {:induction false} SubtotalConcat(a: seq<Entry>, b: seq<Entry>)
    ensures Subtotal(a + b) == Subtotal(a) + Subtotal(b)
    ensures QuantityTotal(a + b) == QuantityTotal(a) + QuantityTotal(b)
    decreases |b|
  {
    if b != [] {
      assert (a + b)[..|a + b| - 1] == a + b[..|b| - 1];
      SubtotalConcat(a, b[..|b| - 1]);
    } else {
      assert a + b == a;
    }
  }

  lemma SubtotalSingle(x: Entry)
    ensures Subtotal([x]) == LineAmount(x) && QuantityTotal([x]) == x.quantity
  {
    assert [x][..0] == [];
  }

  /** Replacing one line changes the sums by the difference of the two lines. */
  lemma SubtotalUpdate(s: seq<Entry>, i: nat, x: Entry)
    requires i < |s|
    ensures Subtotal(s[i := x]) == Subtotal(s) - LineAmount(s[i]) + LineAmount(x)
    ensures QuantityTotal(s[i := x]) == QuantityTotal(s) - s[i].quantity + x.quantity
  {
    var a, b := s[..i], s[i + 1..];
    SplitAt(s, i);
    UpdateAt(s, i, x);
    SubtotalConcat(a + [s[i]], b);
    SubtotalConcat(a, [s[i]]);
    SubtotalConcat(a + [x], b);
    SubtotalConcat(a, [x]);
    SubtotalSingle(s[i]);
    SubtotalSingle(x);
  }

  /** Deleting one line takes its share off the sums. */
  lemma SubtotalRemove(s: seq<Entry>, i: nat)
    requires i < |s|
    ensures Subtotal(s[..i] + s[i + 1..]) == Subtotal(s) - LineAmount(s[i])
    ensures QuantityTotal(s[..i] + s[i + 1..]) == QuantityTotal(s) - s[i].quantity
  {
    var a, b := s[..i], s[i + 1..];
    SplitAt(s, i);
    SubtotalConcat(a + [s[i]], b);
    SubtotalConcat(a, [s[i]]);
    SubtotalConcat(a, b);
    SubtotalSingle(s[i]);
  }

  /** `products.findIndex(p => p.id === id)`: the first position holding `id`,
      or -1. */
  function IndexOf(s: seq<Entry>, id: string): (r: int)
    ensures -1 <= r < |s|
    ensures r >= 0 ==> s[r].id == id && forall j :: 0 <= j < r ==> s[j].id != id
    ensures r == -1 <==> forall j :: 0 <= j < |s| ==> s[j].id != id
  {
    if s == [] then -1
    else if s[0].id == id then 0
    else
      var k := IndexOf(s[1..], id);
      if k == -1 then -1 else k + 1
  }

  /** The line at `i` with its quantity moved by `delta`. */
  function Bump(s: seq<Entry>, i: nat, delta: int): seq<Entry>
    requires i < |s|
  {
    s[i := s[i].(quantity := s[i].quantity + delta)]
  }

  /** Moving one line's quantity by one moves the item count by one and the
      sum by that line's price. */
  lemma BumpSums(s: seq<Entry>, i: nat, delta: int)
    requires i < |s| && (delta == 1 || delta == -1)
    ensures QuantityTotal(Bump(s, i, delta)) == QuantityTotal(s) + delta
    ensures Subtotal(Bump(s, i, delta)) == if delta == 1 then Subtotal(s) + s[i].price else Subtotal(s) - s[i].price
  {
    var bumped := s[i].(quantity := s[i].quantity + delta);
    BumpIsUpdate(s, i, delta, bumped);
    SubtotalUpdate(s, i, bumped);
    LineAmountBump(s[i], delta);
  }

  lemma BumpIsUpdate(s: seq<Entry>, i: nat, delta: int, bumped: Entry)
    requires i < |s| && bumped == s[i].(quantity := s[i].quantity + delta)
    ensures Bump(s, i, delta) == s[i := bumped]
  {
  }

  lemma LineAmountBump(e: Entry, delta: int)
    requires delta == 1 || delta == -1
    ensures LineAmount(e.(quantity := e.quantity + delta))
         == if delta == 1 then LineAmount(e) + e.price else LineAmount(e) - e.price
  {
    Distribute(e.price, e.quantity as real, delta as real);
  }

  lemma Distribute(p: real, a: real, b: real)
    ensures p * (a + b) == p * a + b * p
  {
  }
}


