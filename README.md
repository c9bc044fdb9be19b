# Swipe-card stack: a verified model

This project models the logic of a single-screen shopping UI. The screen shows
a stack of product cards, and the user dismisses the top card by dragging it
left, right or up.

The model has two components:

- **`Card`** (`src/components/ProductCard.tsx`): the gesture card.
  - `Classify` maps the final drag offsets to one of four outcomes. The
    thresholds are strict: ±100 px horizontally and −100 px vertically. The
    horizontal tests take precedence.
  - `ClampY` is the `liveSnap.y` clamp. It keeps a dragged card from moving
    below its resting line.
  - `DragBounds` is the bounds object built from the viewport height.
  - `OnDragEnd` gives the tween each outcome starts and the swipe event its
    completion reports.
  - The `ProductCard` class is the drag state machine: Idle, Dragging,
    Exiting(direction), Exited(direction). Its methods `Press`, `Drag`,
    `Release` and `Complete` stand for the press handler, a pointer move, the
    drag-end handler and the exit tween's completion. `Valid()` holds at every
    step. It keeps the vertical offset non-positive and leaves an unmounted
    card at rest. Each release fires at most one swipe callback, carrying the
    card's product id. In the model a card also fires at most one callback
    in its life, but only because gestures on an exiting card change nothing
    there (see "## Left out"); the source has no such guard.
- **`Stack`** (`src/App.tsx`): the screen.
  - The `App` class holds the static product list and the cursor `index`.
    The cursor starts at 0, and `HandleSwipe` adds exactly 1 to it whatever the
    direction or id.
  - `Slice`, `Cards`, `Reverse` and `Render` are the render pipeline: slice
    from the cursor, map to keyed card elements, reverse. If nothing remains,
    the terminal "no more products" state is shown.
  - The lemmas say what the screen shows at any cursor. The topmost card,
    painted last, is the product at the cursor. One swipe removes exactly that
    card and keeps the rest in place.

`Scenarios` wires the two components together the way `App.tsx` does.

- `SwipeRightThenRender`: products [A, B, C]; card A is dragged to Δx = 150 and
  swiped right; the cursor becomes 1 and the screen shows [C, B] in paint
  order, with B on top.
- `SnapBackKeepsCursor`: a drag that stays inside every threshold snaps back
  and reports nothing.
- `UnmountedNeverDrags`: a card that was never mounted never moves.
- `AllSwiped`: once every product is gone, the screen shows the empty state.

These are verified clients, not compiled programs.

Other modelling choices:

- Viewport size: `Release` takes `window.innerWidth` and `window.innerHeight`
  as parameters; nothing else is read from the window.
- Drag end: the offsets at drag end are the card's live offsets, set by the
  last `Drag`.
- Animations: each animation is modelled by the values it ends at. A tween
  changes only the properties it lists, so a top swipe keeps the card's
  horizontal offset and rotation.
- The cursor has no upper bound: `handleSwipe` (App.tsx:13) never compares
  `index` with the list length, so extra callbacks move it past the end, and
  `slice` then yields [].
- The drag bounds are not applied to the drag. The bounds object is handed
  to the drag binding under the key `bound`, but the drag library's option is
  named `bounds`. So `Drag` applies only the `liveSnap` clamp, and the
  lower limit of −innerHeight is computed (`DragBounds`) but not enforced.

## Model

| member | source | states |
|---|---|---|
| `Card.Classify` | src/components/ProductCard.tsx:57-91 | right iff endX > 100; left iff endX < −100; top iff −100 ≤ endX ≤ 100 and endY < −100; snap back iff −100 ≤ endX ≤ 100 and endY ≥ −100 (exactly one outcome, strict thresholds, horizontal precedence) |
| `Card.ClassifyMirror` | src/components/ProductCard.tsx:63-80 | negating the horizontal offset swaps left and right and leaves top and snap back unchanged |
| `Card.DiagonalResolvesHorizontally` | src/components/ProductCard.tsx:63-88 | a drag past a horizontal threshold and the vertical threshold together is a horizontal swipe, never top |
| `Card.ClassifyExamples` | src/components/ProductCard.tsx:57-91 | (100, −100), (99, −99) and (−100, −100) snap back; (101, 0) is right, (−101, 0) left, (0, −101) top, (150, −500) right |
| `Card.ClampY` | src/components/ProductCard.tsx:41-45 | the live y value is never positive, equals its input when the input is non-positive, and is the non-positive value nearest the input |
| `Card.ClampYIdempotent` | src/components/ProductCard.tsx:42-44 | clamping twice is clamping once |
| `Card.DragBounds` | src/components/ProductCard.tsx:28-31 | minY is −innerHeight, maxY is 0, and minY ≤ maxY |
| `Card.Apply` | src/components/ProductCard.tsx:65-90 | the end state of a `gsap.to` call: each property the tween lists takes its target value, every other property keeps its current value |
| `Card.LiveRotation` | src/components/ProductCard.tsx:52 | the live rotation is x / 20 degrees (r · 20 = x), with the sign of x |
| `Card.ExitTween` | src/components/ProductCard.tsx:65-90 | exactly the swipes fade to opacity 0; right: x → innerWidth, rotation 20; left: x → −innerWidth, rotation −20; neither lists y; top: y → −innerHeight and lists neither x nor rotation; snap back: x, y, rotation → 0 and leaves opacity; no target y is below 0 |
| `Card.CompletionEvent` | src/components/ProductCard.tsx:70-87 | the completion reports an event exactly for a swipe, carrying that swipe's direction and the product id; a snap back reports nothing |
| `Card.OnDragEnd` | src/components/ProductCard.tsx:55-91 | right: x → innerWidth, rotation 20, opacity 0, reports ("right", id); left: x → −innerWidth, rotation −20, opacity 0, reports ("left", id); top: y → −innerHeight, opacity 0, reports ("top", id); otherwise x, y, rotation → 0 and nothing reported; any report carries the product id |
| `Card.SwipeLeavesScreen` | src/components/ProductCard.tsx:65-88 | after any swipe's tween the card has opacity 0 and sits one viewport off screen on its side; a top swipe keeps x, a side swipe keeps y |
| `Card.LeftExitMirrorsRight` | src/components/ProductCard.tsx:65-80 | the left exit's x and rotation are the negated right exit's, with the same opacity |
| `Card.SnapBackRestores` | src/components/ProductCard.tsx:89-90 | a snap back from a visible card returns it exactly to rest (0, 0, 0°, opacity 1) |
| `Card.ProductCard.constructor` | src/components/ProductCard.tsx:22-33 | a new card is Idle at rest with no callbacks fired; whether it is bound is fixed by whether its element existed |
| `Card.ProductCard.Press` | src/components/ProductCard.tsx:47-50 | a press on a bound card at rest enters Dragging with startX = x and startY = y and moves nothing; otherwise nothing changes |
| `Card.ProductCard.Drag` | src/components/ProductCard.tsx:41-54 | while dragging the card is at (pointerX, ClampY(pointerY)) with rotation pointerX / 20; otherwise nothing moves |
| `Card.ProductCard.Release` | src/components/ProductCard.tsx:55-91 | from Dragging, the result is Some(`Classify` of the live offsets), the card takes that outcome's tween targets and enters Exiting(direction) or, on snap back, Idle; with no drag in progress the result is None and nothing changes; no callback fires on release |
| `Card.ProductCard.Complete` | src/components/ProductCard.tsx:63-88 | the exit tween's completion fires the callback once with the release's direction and the product id, so at most one callback per release; the model's bound of one callback per card comes from its no-op gestures on an exiting card (see "## Left out") |
| `Stack.Slice` | src/App.tsx:16 | `slice(start)` has max(0, N − start) elements and element i is s[start + i] |
| `Stack.Reverse` | src/App.tsx:29 | reversal keeps the length |
| `Stack.ReverseAt` | src/App.tsx:21-29 | element k of the reversal is element N − 1 − k of the input |
| `Stack.ReverseDropFirst` | src/App.tsx:21-29 | reversing without the first element equals reversing and dropping the last (the topmost) |
| `Stack.Cards` | src/App.tsx:21-28 | the map yields one card element per product, in order, keyed by the product id |
| `Stack.Render` | src/App.tsx:16-34 | the "No more products" state shows exactly when index ≥ N; otherwise N − index cards are painted and the last-painted (topmost) one is products[index] |
| `Stack.RenderShowsRemaining` | src/App.tsx:16-34 | the empty state shows exactly when index ≥ N; otherwise N − index cards are painted, the i-th being products[N − 1 − i] |
| `Stack.SwipeRemovesTopCard` | src/App.tsx:13-29 | from cursor c < N, the next slice is the old one without products[c], and the next render is the old paint order without its topmost card (or the empty state when c + 1 = N) |
| `Stack.App.constructor` | src/App.tsx:6 | the cursor starts at 0 |
| `Stack.App.HandleSwipe` | src/App.tsx:8-14 | every callback increases the cursor by exactly 1, whatever the direction or product id |
| `Stack.App.CurrentProducts` | src/App.tsx:16 | the current products are products[index..N] in order, max(0, N − index) of them |
| `Stack.App.View` | src/App.tsx:16-34 | the screen at the current cursor is empty exactly when index ≥ N; otherwise it paints N − index cards with products[index] on top |

## Left out

- GSAP animation: durations, easing and frames are not modelled. Each tween is modelled by the values it ends at. A press during a running snap-back tween is therefore not modelled.
- Drag-end offsets: they are taken to be the card's live offsets. The card asks for `inertia: true` (ProductCard.tsx:35), but only the `Draggable` plugin is registered (line 5), not the inertia plugin, so the option most likely has no effect; a projected throw is not modelled.
- JavaScript numbers: positions are modelled as exact `real` values. The threshold comparisons are exact in both, but the rounding of `x / 20` in double precision is lost, and NaN and Infinity are not modelled.
- Drag bounds: they are not applied to `Drag` (see above). The drag library's handling of its options is not modelled.
- Gestures on a card that is exiting or has exited: `Press`, `Drag` and `Release` change nothing then. In the source `onDragEnd` has no guard and the drag binding stays live during the exit tween, so a card grabbed again mid-exit could start a second exit tween and fire the callback a second time. The model's bound of one callback per card therefore rests on this restriction, not on the source.
- The DOM, refs and the `useEffect` lifecycle: these are framework binding. The null-ref early return becomes the `mounted` flag, and an unmounted card never leaves rest. The effect depends on `onSwipe` (ProductCard.tsx:94), and `handleSwipe` is a new closure on every App render (App.tsx:8-14), so the effect re-runs on every render, not only when the product changes. It returns no cleanup, so each re-run creates another drag binding on the same element. Stacked bindings are outside the model: each card has exactly one.
- Input to lower cards: each card owns its own binding. The model does not restrict which card may be dragged; the scenarios drag only the top card.
- JSX markup, styling and price formatting (ProductCard.tsx lines 96-127), and the `console.log` in `handleSwipe`: presentation and logging only.
- `Slice` with a negative start: `index` is never negative, so only non-negative starts are modelled.
- capacitor.config.ts: static build configuration with no logic.
- The mock product data in `./data/products`: it is not part of this model. The product list is an arbitrary `seq<Product>`.
