/**
 * The card stack of src/App.tsx: a cursor into the static product list,
 * advanced by every swipe callback, and the render of the remaining
 * products as a stack of cards whose last-painted card is the next one.
 */
module Stack {
  import opened Card

  /** `Array.prototype.slice(start)` for a non-negative start: a start past the end gives []. */
  function Slice<T>(s: seq<T>, start: nat): (r: seq<T>)
    ensures |r| == if start < |s| then |s| - start else 0
    ensures forall i :: 0 <= i < |r| ==> r[i] == s[start + i]
  {
    if start < |s| then s[start..] else []
  }

  /** `Array.prototype.reverse`, as a value. */
  function Reverse<T>(s: seq<T>): (r: seq<T>)
    ensures |r| == |s|
  {
    if s == [] then [] else Reverse(s[1..]) + [s[0]]
  }

  lemma {:induction false} ReverseAt<T>(s: seq<T>, k: nat)
    requires k < |s|
    ensures Reverse(s)[k] == s[|s| - 1 - k]
  {
    if k < |s| - 1 {
      ReverseAt(s[1..], k);
    }
  }

  /** Reversing without the first element is reversing and dropping the last. */
  lemma ReverseDropFirst<T>(s: seq<T>)
    requires s != []
    ensures Reverse(s[1..]) == Reverse(s)[..|s| - 1]
  {
    assert Reverse(s) == Reverse(s[1..]) + [s[0]];
  }

  /** One rendered `<ProductCard>` element: its React key and its product. */
  datatype CardElement = CardElement(key: int, product: Product)

  /** The `map` from products to card elements, keyed by product id. */
  function Cards(ps: seq<Product>): (r: seq<CardElement>)
    ensures |r| == |ps|
    ensures forall i :: 0 <= i < |r| ==> r[i] == CardElement(ps[i].id, ps[i])
  {
    if ps == [] then [] else [CardElement(ps[0].id, ps[0])] + Cards(ps[1..])
  }

  /** What the screen shows: cards in paint order (last is topmost), or the terminal message. */
  datatype Screen = Stacked(painted: seq<CardElement>) | NoMoreProducts

  /**
   * The render of the product list at a cursor: slice, map, reverse. The
   * terminal message shows exactly when no product remains; otherwise one
   * card per remaining product is painted, the topmost being the product at
   * the cursor.
   */
  function Render(products: seq<Product>, index: nat): (s: Screen)
    ensures s.NoMoreProducts? <==> index >= |products|
    ensures s.Stacked? ==>
      |s.painted| == |products| - index &&
      s.painted[|s.painted| - 1] == CardElement(products[index].id, products[index])
  {
    var current := Slice(products, index);
    if |current| > 0 then
      ReverseAt(Cards(current), |current| - 1);
      Stacked(Reverse(Cards(current)))
    else
      NoMoreProducts
  }

  /**
   * The screen shows exactly the products from the cursor on, in reverse
   * paint order, and the terminal message exactly when none remain.
   */
  lemma RenderShowsRemaining(products: seq<Product>, index: nat)
    ensures Render(products, index).NoMoreProducts? <==> index >= |products|
    ensures Render(products, index).Stacked? ==>
      |Render(products, index).painted| == |products| - index &&
      forall i :: 0 <= i < |products| - index ==>
        Render(products, index).painted[i] == CardElement(products[|products| - 1 - i].id, products[|products| - 1 - i])
  {
    if index < |products| {
      var current := Slice(products, index);
      var painted := Reverse(Cards(current));
      forall i | 0 <= i < |products| - index
        ensures painted[i] == CardElement(products[|products| - 1 - i].id, products[|products| - 1 - i])
      {
        ReverseAt(Cards(current), i);
      }
    }
  }

  /** A swipe from a cursor inside the list removes the top card and keeps the rest in place. */
  lemma SwipeRemovesTopCard(products: seq<Product>, c: nat)
    requires c < |products|
    ensures Slice(products, c + 1) == Slice(products, c)[1..]
    ensures Render(products, c).Stacked?
    ensures c + 1 == |products| ==> Render(products, c + 1) == NoMoreProducts
    ensures c + 1 < |products| ==>
      Render(products, c + 1) == Stacked(Render(products, c).painted[..|products| - c - 1])
  {
    var current := Slice(products, c);
    assert Slice(products, c + 1) == current[1..];
    assert Cards(current)[1..] == Cards(current[1..]);
    ReverseDropFirst(Cards(current));
  }

  /**
   * The screen component: the product list and the cursor `index`. Every
   * swipe callback advances the cursor by one, whatever its arguments.
   */
  class App {
    const products: seq<Product>
    var index: nat

    constructor (products: seq<Product>)
      ensures this.products == products && index == 0
    {
      this.products := products;
      index := 0;
    }

    /** `handleSwipe`: the direction and product id are not consulted. */
    method HandleSwipe(direction: Direction, productId: int)
      modifies this
      ensures index == old(index) + 1
    {
      index := index + 1;
    }

    /** `currentProducts`: the products not yet swiped, in catalogue order. */
    function CurrentProducts(): (r: seq<Product>)
      reads this
      ensures |r| == if index < |products| then |products| - index else 0
      ensures forall i :: 0 <= i < |r| ==> r[i] == products[index + i]
    {
      Slice(products, index)
    }

    /** The screen at the current cursor: empty exactly when the cursor is at or past the end. */
    function View(): (s: Screen)
      reads this
      ensures s.NoMoreProducts? <==> index >= |products|
      ensures s.Stacked? ==>
        |s.painted| == |products| - index &&
        s.painted[|s.painted| - 1] == CardElement(products[index].id, products[index])
    {
      Render(products, index)
    }
  }
}
