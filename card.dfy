/**
 * The gesture card of src/components/ProductCard.tsx: the release
 * classifier, the live vertical clamp, the exit and snap-back targets, and
 * the drag state machine of one card.
 *
 * Positions are JavaScript numbers and are modelled as `real`; the viewport
 * size (window.innerWidth / window.innerHeight) is a whole number of pixels.
 * An animation is modelled by the values it ends at.
 */
module Card {

  datatype Option<T> = None | Some(value: T)

  /** A catalogue record (the `Product` type). */
  datatype Product = Product(
    id: int,
    name: string,
    brand: string,
    price: real,
    originalPrice: real,
    discountPercentage: real,
    imageUrl: string)

  /** The `direction` argument of the swipe callback. */
  datatype Direction = Left | Right | Top

  /** One invocation of the swipe callback `onSwipe(direction, id)`. */
  datatype SwipeEvent = SwipeEvent(direction: Direction, id: int)

  /** What a release resolves to: one of the three swipes, or a snap back. */
  datatype Outcome = Swipe(direction: Direction) | SnapBack

  const ThresholdX: real := 100.0
  const ThresholdY: real := -100.0

  /**
   * The release classifier. The horizontal tests come first, so a drag past
   * both a horizontal and the vertical threshold resolves horizontally;
   * every threshold is strict.
   */
  function Classify(endX: real, endY: real): (o: Outcome)
    ensures o == Swipe(Right) <==> endX > ThresholdX
    ensures o == Swipe(Left) <==> endX < -ThresholdX
    ensures o == Swipe(Top) <==> -ThresholdX <= endX <= ThresholdX && endY < ThresholdY
    ensures o == SnapBack <==> -ThresholdX <= endX <= ThresholdX && ThresholdY <= endY
  {
    if endX > ThresholdX then Swipe(Right)
    else if endX < -ThresholdX then Swipe(Left)
    else if endY < ThresholdY then Swipe(Top)
    else SnapBack
  }

  /** The outcome seen in a mirror held along the vertical axis. */
  function Mirror(o: Outcome): Outcome
  {
    match o
    case Swipe(Left) => Swipe(Right)
    case Swipe(Right) => Swipe(Left)
    case _ => o
  }

  /** Left and right are symmetric: negating the horizontal offset mirrors the outcome. */
  lemma ClassifyMirror(endX: real, endY: real)
    ensures Classify(-endX, endY) == Mirror(Classify(endX, endY))
  {
  }

  /** A diagonal drag past a horizontal and the vertical threshold is a horizontal swipe. */
  lemma DiagonalResolvesHorizontally(endX: real, endY: real)
    requires endX > ThresholdX || endX < -ThresholdX
    requires endY < ThresholdY
    ensures Classify(endX, endY) == Swipe(if endX > ThresholdX then Right else Left)
  {
  }

  /** Offsets exactly on, or just inside, the thresholds snap back; just past them they swipe. */
  lemma ClassifyExamples()
    ensures Classify(100.0, -100.0) == SnapBack
    ensures Classify(99.0, -99.0) == SnapBack
    ensures Classify(-100.0, -100.0) == SnapBack
    ensures Classify(101.0, 0.0) == Swipe(Right)
    ensures Classify(-101.0, 0.0) == Swipe(Left)
    ensures Classify(0.0, -101.0) == Swipe(Top)
    ensures Classify(150.0, -500.0) == Swipe(Right)
  {
  }

  function Dist(a: real, b: real): real
  {
    if a <= b then b - a else a - b
  }

  /**
   * The `liveSnap.y` function: a drag may never move the card below its
   * resting line, so a positive vertical value is replaced by 0. The result
   * is the non-positive value nearest to the input.
   */
  function ClampY(endValue: real): (r: real)
    ensures r <= 0.0
    ensures endValue <= 0.0 ==> r == endValue
    ensures forall w: real :: w <= 0.0 ==> Dist(endValue, r) <= Dist(endValue, w)
  {
    if endValue > 0.0 then 0.0 else endValue
  }

  lemma ClampYIdempotent(endValue: real)
    ensures ClampY(ClampY(endValue)) == ClampY(endValue)
  {
  }

  /** The vertical drag bounds object the card builds from the viewport height. */
  datatype Bounds = Bounds(minY: real, maxY: real)

  function DragBounds(innerHeight: nat): (b: Bounds)
    ensures b.minY == -(innerHeight as real) && b.maxY == 0.0
    ensures b.minY <= b.maxY
  {
    Bounds(-(innerHeight as real), 0.0)
  }

  /** The transform of a card: offsets, rotation in degrees, opacity. */
  datatype Transform = Transform(x: real, y: real, rotation: real, opacity: real)

  /** A card at rest and fully visible. */
  const Rest := Transform(0.0, 0.0, 0.0, 1.0)

  /**
   * The target of one tween: the properties it names, and no others. A
   * property the tween leaves out keeps its current value.
   */
  datatype Tween = Tween(x: Option<real>, y: Option<real>, rotation: Option<real>, opacity: Option<real>)

  function Pick(v: Option<real>, current: real): real
  {
    match v
    case Some(target) => target
    case None => current
  }

  /**
   * The transform once a tween has run to its end: each property the tween
   * names has its target value, every other keeps its current value.
   */
  function Apply(t: Transform, tw: Tween): (r: Transform)
    ensures tw.x.Some? ==> r.x == tw.x.value
    ensures tw.x.None? ==> r.x == t.x
    ensures tw.y.Some? ==> r.y == tw.y.value
    ensures tw.y.None? ==> r.y == t.y
    ensures tw.rotation.Some? ==> r.rotation == tw.rotation.value
    ensures tw.rotation.None? ==> r.rotation == t.rotation
    ensures tw.opacity.Some? ==> r.opacity == tw.opacity.value
    ensures tw.opacity.None? ==> r.opacity == t.opacity
  {
    Transform(Pick(tw.x, t.x), Pick(tw.y, t.y), Pick(tw.rotation, t.rotation), Pick(tw.opacity, t.opacity))
  }

  /**
   * The live rotation applied while dragging, in degrees: proportional to
   * the horizontal offset, one degree per 20 px, tilting the way the card moves.
   */
  function LiveRotation(x: real): (r: real)
    ensures r * 20.0 == x
    ensures (r > 0.0 <==> x > 0.0) && (r < 0.0 <==> x < 0.0)
  {
    x / 20.0
  }

  /**
   * The tween started on release for each outcome. Exactly the swipes fade
   * the card out; a side swipe moves it one viewport width towards its side
   * and leaves y alone; a top swipe moves it one viewport height up and
   * leaves x and rotation alone; no target lies below the resting line.
   */
  function ExitTween(o: Outcome, innerWidth: nat, innerHeight: nat): (tw: Tween)
    ensures o.Swipe? <==> tw.opacity == Some(0.0)
    ensures o == SnapBack ==> tw.opacity.None? && tw.x == tw.y == tw.rotation == Some(0.0)
    ensures o == Swipe(Right) ==> tw.x == Some(innerWidth as real) && tw.rotation == Some(20.0) && tw.y.None?
    ensures o == Swipe(Left) ==> tw.x == Some(-(innerWidth as real)) && tw.rotation == Some(-20.0) && tw.y.None?
    ensures o == Swipe(Top) ==> tw.y == Some(-(innerHeight as real)) && tw.x.None? && tw.rotation.None?
    ensures tw.y.Some? ==> tw.y.value <= 0.0
  {
    match o
    case Swipe(Right) => Tween(Some(innerWidth as real), None, Some(20.0), Some(0.0))
    case Swipe(Left) => Tween(Some(-(innerWidth as real)), None, Some(-20.0), Some(0.0))
    case Swipe(Top) => Tween(None, Some(-(innerHeight as real)), None, Some(0.0))
    case SnapBack => Tween(Some(0.0), Some(0.0), Some(0.0), None)
  }

  /**
   * What the tween's completion reports through the swipe callback: a swipe
   * reports its own direction and the product id, a snap back nothing.
   */
  function CompletionEvent(o: Outcome, id: int): (e: Option<SwipeEvent>)
    ensures e.Some? <==> o.Swipe?
    ensures e.Some? ==> e.value.direction == o.direction && e.value.id == id
  {
    match o
    case Swipe(d) => Some(SwipeEvent(d, id))
    case SnapBack => None
  }

  /** The response to a drag end: the tween and the event its completion fires. */
  datatype Response = Response(tween: Tween, onComplete: Option<SwipeEvent>)

  /** The `onDragEnd` handler, as a function of the final offsets, the viewport and the product id. */
  function OnDragEnd(endX: real, endY: real, innerWidth: nat, innerHeight: nat, id: int): (r: Response)
    ensures endX > ThresholdX ==>
      r == Response(Tween(Some(innerWidth as real), None, Some(20.0), Some(0.0)), Some(SwipeEvent(Right, id)))
    ensures endX < -ThresholdX ==>
      r == Response(Tween(Some(-(innerWidth as real)), None, Some(-20.0), Some(0.0)), Some(SwipeEvent(Left, id)))
    ensures -ThresholdX <= endX <= ThresholdX && endY < ThresholdY ==>
      r == Response(Tween(None, Some(-(innerHeight as real)), None, Some(0.0)), Some(SwipeEvent(Top, id)))
    ensures -ThresholdX <= endX <= ThresholdX && ThresholdY <= endY ==>
      r == Response(Tween(Some(0.0), Some(0.0), Some(0.0), None), None)
    ensures r.onComplete.Some? ==> r.onComplete.value.id == id
  {
    var o := Classify(endX, endY);
    Response(ExitTween(o, innerWidth, innerHeight), CompletionEvent(o, id))
  }

  /** A swipe leaves the card invisible and fully off screen on the side it names. */
  lemma SwipeLeavesScreen(t: Transform, d: Direction, innerWidth: nat, innerHeight: nat)
    ensures Apply(t, ExitTween(Swipe(d), innerWidth, innerHeight)).opacity == 0.0
    ensures d == Right ==> Apply(t, ExitTween(Swipe(d), innerWidth, innerHeight)).x == innerWidth as real
    ensures d == Left ==> Apply(t, ExitTween(Swipe(d), innerWidth, innerHeight)).x == -(innerWidth as real)
    ensures d == Top ==> Apply(t, ExitTween(Swipe(d), innerWidth, innerHeight)).y == -(innerHeight as real)
    ensures d == Top ==> Apply(t, ExitTween(Swipe(d), innerWidth, innerHeight)).x == t.x
    ensures d != Top ==> Apply(t, ExitTween(Swipe(d), innerWidth, innerHeight)).y == t.y
  {
  }

  /** The left exit is the mirror image of the right exit. */
  lemma LeftExitMirrorsRight(t: Transform, innerWidth: nat, innerHeight: nat)
    ensures Apply(t, ExitTween(Swipe(Left), innerWidth, innerHeight)).x
         == -Apply(t, ExitTween(Swipe(Right), innerWidth, innerHeight)).x
    ensures Apply(t, ExitTween(Swipe(Left), innerWidth, innerHeight)).rotation
         == -Apply(t, ExitTween(Swipe(Right), innerWidth, innerHeight)).rotation
    ensures Apply(t, ExitTween(Swipe(Left), innerWidth, innerHeight)).opacity
         == Apply(t, ExitTween(Swipe(Right), innerWidth, innerHeight)).opacity
  {
  }

  /** A snap back from any visible position returns the card to rest. */
  lemma SnapBackRestores(t: Transform, innerWidth: nat, innerHeight: nat)
    requires t.opacity == 1.0
    ensures Apply(t, ExitTween(SnapBack, innerWidth, innerHeight)) == Rest
  {
  }

  /** The gesture state of a card. */
  datatype Phase = Idle | Dragging | Exiting(direction: Direction) | Exited(direction: Direction)

  /**
   * One card with its drag binding. `mounted` says whether the card's
   * element existed when the binding was made; an unmounted card is never
   * draggable. `fired` is the sequence of swipe callbacks the card has made.
   */
  class ProductCard {
    const product: Product
    const mounted: bool
    var phase: Phase
    var pos: Transform
    var startX: real
    var startY: real
    var fired: seq<SwipeEvent>

    ghost predicate Valid()
      reads this
    {
      pos.y <= 0.0 &&
      (!mounted ==> phase == Idle) &&
      match phase
      case Idle => pos == Rest && fired == []
      case Dragging => pos.opacity == 1.0 && fired == []
      case Exiting(_) => pos.opacity == 0.0 && fired == []
      case Exited(d) => pos.opacity == 0.0 && fired == [SwipeEvent(d, product.id)]
    }

    constructor (product: Product, mounted: bool)
      ensures Valid()
      ensures this.product == product && this.mounted == mounted
      ensures phase == Idle && pos == Rest && fired == []
      ensures startX == 0.0 && startY == 0.0
    {
      this.product := product;
      this.mounted := mounted;
      phase := Idle;
      pos := Rest;
      startX, startY := 0.0, 0.0;
      fired := [];
    }

    /** `onPress`: a press on a card at rest starts a drag and records where it began. */
    method Press()
      requires Valid()
      modifies this
      ensures Valid()
      ensures old(mounted && phase == Idle) ==>
        phase == Dragging && startX == old(pos.x) && startY == old(pos.y) &&
        pos == old(pos) && fired == old(fired)
      ensures !old(mounted && phase == Idle) ==>
        phase == old(phase) && pos == old(pos) && startX == old(startX) && startY == old(startY) &&
        fired == old(fired)
    {
      if mounted && phase == Idle {
        phase := Dragging;
        startX := pos.x;
        startY := pos.y;
      }
    }

    /**
     * A pointer move while dragging: the card follows the pointer, its
     * vertical offset passed through `liveSnap.y`, and `onDrag` sets the
     * rotation from the new horizontal offset.
     */
    method Drag(pointerX: real, pointerY: real)
      requires Valid()
      modifies this
      ensures Valid()
      ensures old(phase) == Dragging ==>
        pos == Transform(pointerX, ClampY(pointerY), LiveRotation(pointerX), old(pos.opacity))
      ensures old(phase) != Dragging ==> pos == old(pos)
      ensures phase == old(phase) && fired == old(fired)
      ensures startX == old(startX) && startY == old(startY)
    {
      if phase == Dragging {
        pos := Transform(pointerX, ClampY(pointerY), LiveRotation(pointerX), pos.opacity);
      }
    }

    /**
     * `onDragEnd`: the current offsets are classified; a swipe starts its
     * exit tween, a snap back returns the card to rest and drops back to Idle.
     * With no drag in progress there is no drag end, and the result is None.
     */
    method Release(innerWidth: nat, innerHeight: nat) returns (o: Option<Outcome>)
      requires Valid()
      modifies this
      ensures Valid()
      ensures o.Some? <==> old(phase) == Dragging
      ensures old(phase) == Dragging ==>
        o == Some(Classify(old(pos.x), old(pos.y))) &&
        pos == Apply(old(pos), OnDragEnd(old(pos.x), old(pos.y), innerWidth, innerHeight, product.id).tween) &&
        phase == (if o.value.Swipe? then Exiting(o.value.direction) else Idle)
      ensures old(phase) != Dragging ==> phase == old(phase) && pos == old(pos)
      ensures fired == old(fired) && startX == old(startX) && startY == old(startY)
    {
      if phase != Dragging {
        return None;
      }
      var outcome := Classify(pos.x, pos.y);
      var response := OnDragEnd(pos.x, pos.y, innerWidth, innerHeight, product.id);
      pos := Apply(pos, response.tween);
      phase := if outcome.Swipe? then Exiting(outcome.direction) else Idle;
      o := Some(outcome);
    }

    /**
     * The exit tween's `onComplete`: the swipe callback fires once, with the
     * direction chosen on release and the card's product id.
     */
    method Complete() returns (e: Option<SwipeEvent>)
      requires Valid()
      modifies this
      ensures Valid()
      ensures e.Some? <==> old(phase).Exiting?
      ensures old(phase).Exiting? ==>
        e == Some(SwipeEvent(old(phase).direction, product.id)) &&
        phase == Exited(old(phase).direction) && fired == old(fired) + [e.value]
      ensures !old(phase).Exiting? ==> phase == old(phase) && fired == old(fired)
      ensures pos == old(pos) && startX == old(startX) && startY == old(startY)
      ensures |fired| <= 1
    {
      match phase
      case Exiting(d) =>
        e := Some(SwipeEvent(d, product.id));
        fired := fired + [e.value];
        phase := Exited(d);
      case _ =>
        e := None;
    }
  }
}
