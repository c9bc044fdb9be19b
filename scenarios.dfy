/**
 * Clients of the two components, wired as App.tsx wires them: each card's
 * swipe callback is the screen's `handleSwipe`. They show what a caller can
 * conclude from the contracts alone.
 */
module Scenarios {
  import opened Card
  import opened Stack

  /**
   * A card dragged 150 px to the right (and 30 px down, which the clamp
   * cancels) and released: its tween ends off screen to the right, and its
   * completion reports one right swipe with the product id.
   */
  method DragRight(p: Product) returns (e: Option<SwipeEvent>)
    ensures e == Some(SwipeEvent(Right, p.id))
  {
    var card := new ProductCard(p, true);
    card.Press();
    card.Drag(150.0, 30.0);
    assert card.pos.y == 0.0;
    var o := card.Release(390, 844);
    assert o == Some(Swipe(Right));
    assert card.pos.x == 390.0 && card.pos.rotation == 20.0 && card.pos.opacity == 0.0;
    e := card.Complete();
    // the tween has completed; a second completion reports nothing
    var again := card.Complete();
    assert again == None && card.fired == [SwipeEvent(Right, p.id)];
  }

  /** Three products [A, B, C]; card A is swiped right and the screen re-renders. */
  method SwipeRightThenRender(a: Product, b: Product, c: Product)
  {
    var app := new App([a, b, c]);
    assert app.View().painted[2] == CardElement(a.id, a);

    var e := DragRight(a);
    app.HandleSwipe(e.value.direction, e.value.id);
    assert app.index == 1;

    RenderShowsRemaining(app.products, 1);
    assert app.View() == Stacked([CardElement(c.id, c), CardElement(b.id, b)]);
  }

  /** A drag that stays inside every threshold snaps back and reports nothing. */
  method SnapBackKeepsCursor(a: Product)
  {
    var app := new App([a]);
    var card := new ProductCard(a, true);
    card.Press();
    card.Drag(99.0, -99.0);
    var o := card.Release(390, 844);
    assert o == Some(SnapBack) && card.phase == Idle && card.pos == Rest;
    var e := card.Complete();
    assert e == None && card.fired == [];
    assert app.index == 0;
  }

  /** A card whose element was missing at bind time never leaves rest. */
  method UnmountedNeverDrags(a: Product)
  {
    var card := new ProductCard(a, false);
    card.Press();
    card.Drag(300.0, -300.0);
    var o := card.Release(390, 844);
    assert o == None && card.pos == Rest && card.phase == Idle;
  }

  /** Once every product is swiped the terminal message shows. */
  method AllSwiped(a: Product, b: Product)
  {
    var app := new App([a, b]);
    app.HandleSwipe(Left, a.id);
    app.HandleSwipe(Top, b.id);
    RenderShowsRemaining(app.products, app.index);
    assert app.View() == NoMoreProducts;
    // a stray callback still advances the cursor; the slice stays empty
    app.HandleSwipe(Top, b.id);
    assert app.index == 3 && app.CurrentProducts() == [];
    RenderShowsRemaining(app.products, app.index);
    assert app.View() == NoMoreProducts;
  }
}
