/** Pointer handling: the mouse and touch handlers, which track the pointer
    position on the canvas, start and end an interaction, and flick the
    attracted particles when the pointer moves.

    The pointer's mutable state (`mouse`, `prevMouse`, `isInteracting`,
    `interactionStartTime`) is a `Pointer` object whose handler methods
    update it in place; `PointerState` is its value, and the functions on
    `PointerState` below say what each handler computes.  The event's
    client coordinates, the canvas box on the page, the canvas size and
    the current time are inputs. */
module Interaction {
  import opened Geometry
  import opened Particles
  import opened Flick

  datatype PointerState = PointerState(mouse: Vec, prevMouse: Vec, isInteracting: bool,
                                       interactionStartTime: int)

  /** The pointer state at page load. */
  const IDLE: PointerState := PointerState(ZERO, ZERO, false, 0)

  /** The pointer invariant: outside an interaction the start time is 0. */
  predicate Consistent(p: PointerState)
  {
    !p.isInteracting ==> p.interactionStartTime == 0
  }

  /** A DOM pointer event: a mouse event with its client coordinates, or a
      touch event with the client coordinates of its active touches. */
  datatype PointerEvent = MouseEvent(client: Vec) | TouchEvent(touches: seq<Vec>)

  /** What a handler leaves behind: the new pointer state and whether it
      called `flickParticles` afterwards. */
  datatype Outcome = Outcome(pointer: PointerState, flick: bool)

  /** Position of a client point relative to the canvas box (logical px). */
  function Local(client: Vec, rect: Rect): Vec
  {
    Vec(client.x - rect.left, client.y - rect.top)
  }

  /** The canvas-local point clamped to the edge buffer of the canvas. */
  function Constrained(raw: Vec, c: Canvas): Vec
    requires c.Valid()
  {
    Vec(ConstrainToCanvas(raw.x, c.width, c.dpr), ConstrainToCanvas(raw.y, c.height, c.dpr))
  }

  /** The point lies on the canvas box widened by `tolerance` on every side. */
  predicate InCanvasBox(raw: Vec, rect: Rect, tolerance: real)
  {
    -tolerance <= raw.x <= rect.width + tolerance && -tolerance <= raw.y <= rect.height + tolerance
  }

  /** Ends the interaction and resets its start time. */
  function Stop(p: PointerState): PointerState
  {
    p.(isInteracting := false, interactionStartTime := 0)
  }

  /** Moves the pointer to the constrained event position when it lies on
      the canvas box widened by `tolerance`, and otherwise ends the
      interaction without moving the pointer. */
  function Track(p: PointerState, client: Vec, rect: Rect, c: Canvas, tolerance: real): PointerState
    requires c.Valid()
  {
    var raw := Local(client, rect);
    if InCanvasBox(raw, rect, tolerance) then p.(mouse := Constrained(raw, c)) else Stop(p)
  }

  /** `updateMousePosition(event)`. */
  function MousePositionUpdate(p: PointerState, client: Vec, rect: Rect, c: Canvas): PointerState
    requires c.Valid()
  {
    Track(p, client, rect, c, 0.0)
  }

  /** `updateTouchPosition(event)`: follows the first touch, with
      TOUCH_BUFFER of tolerance; an event without touches changes nothing. */
  function TouchPositionUpdate(p: PointerState, touches: seq<Vec>, rect: Rect, c: Canvas): PointerState
    requires c.Valid()
  {
    if |touches| > 0 then Track(p, touches[0], rect, c, TOUCH_BUFFER) else p
  }

  /** A position update never starts an interaction; it either moves the
      pointer into the edge buffer of the canvas (exactly onto the event
      position when that lies inside it), or leaves it where it was and ends
      the interaction. */
  lemma TrackSpec(p: PointerState, client: Vec, rect: Rect, c: Canvas, tolerance: real)
    requires c.Valid()
    ensures var r := Track(p, client, rect, c, tolerance);
            var raw := Local(client, rect);
            && r.prevMouse == p.prevMouse
            && (InCanvasBox(raw, rect, tolerance) ==>
                  && r.isInteracting == p.isInteracting
                  && r.interactionStartTime == p.interactionStartTime
                  && EDGE_BUFFER <= r.mouse.x && EDGE_BUFFER <= r.mouse.y
                  && (c.LogicalWidth() >= 2.0 * EDGE_BUFFER ==> r.mouse.x <= c.LogicalWidth() - EDGE_BUFFER)
                  && (c.LogicalHeight() >= 2.0 * EDGE_BUFFER ==> r.mouse.y <= c.LogicalHeight() - EDGE_BUFFER)
                  && (EDGE_BUFFER <= raw.x <= c.LogicalWidth() - EDGE_BUFFER ==> r.mouse.x == raw.x)
                  && (EDGE_BUFFER <= raw.y <= c.LogicalHeight() - EDGE_BUFFER ==> r.mouse.y == raw.y))
            && (!InCanvasBox(raw, rect, tolerance) ==>
                  !r.isInteracting && r.interactionStartTime == 0 && r.mouse == p.mouse)
            && (Consistent(p) ==> Consistent(r))
  {
    var raw := Local(client, rect);
    ConstrainToCanvasSpec(raw.x, c.width, c.dpr);
    ConstrainToCanvasSpec(raw.y, c.height, c.dpr);
  }

  /** Starts an interaction at time `now`, remembering the pointer position. */
  function Begin(p: PointerState, now: int): PointerState
  {
    p.(isInteracting := true, interactionStartTime := now, prevMouse := p.mouse)
  }

  /** The bounds test a touch start must pass: the touch position relative
      to the canvas box, scaled to physical pixels (`rawX`, `rawY`), must
      pass `isPositionInBounds`. */
  predicate TouchStartsInBounds(touch: Vec, rect: Rect, c: Canvas)
  {
    IsPositionInBounds((touch.x - rect.left) * c.dpr, (touch.y - rect.top) * c.dpr, c)
  }

  /** `onInteractionStart(event)` (mouse down or touch start). A touch only
      counts when its first touch passes the canvas bounds test; a touch
      event without touches does nothing. */
  function Started(p: PointerState, e: PointerEvent, rect: Rect, c: Canvas, now: int): Outcome
    requires c.Valid()
  {
    match e
    case TouchEvent(touches) =>
      if |touches| > 0 && TouchStartsInBounds(touches[0], rect, c)
      then Outcome(TouchPositionUpdate(Begin(p, now), touches, rect, c), true)
      else Outcome(p, false)
    case MouseEvent(client) =>
      Outcome(MousePositionUpdate(Begin(p, now), client, rect, c), true)
  }

  /** `onInteractionEnd(event)` (mouse up or touch end). */
  function Ended(p: PointerState): Outcome
  {
    Outcome(Stop(p), false)
  }

  /** `onMouseMove(event)`: tracks the pointer whether or not it is held,
      and flicks if the interaction is still going on after the move. */
  function MouseMoved(p: PointerState, client: Vec, rect: Rect, c: Canvas): Outcome
    requires c.Valid()
  {
    var r := MousePositionUpdate(p.(prevMouse := p.mouse), client, rect, c);
    Outcome(r, r.isInteracting)
  }

  /** `onTouchMove(event)`: tracks and flicks only during an interaction;
      a move event without touches ends the interaction. */
  function TouchMoved(p: PointerState, touches: seq<Vec>, rect: Rect, c: Canvas): Outcome
    requires c.Valid()
  {
    if p.isInteracting && |touches| > 0 then
      Outcome(TouchPositionUpdate(p.(prevMouse := p.mouse), touches, rect, c), true)
    else if |touches| == 0 then
      Outcome(Stop(p), false)
    else
      Outcome(p, false)
  }

  /** Every handler keeps the pointer invariant. */
  lemma HandlersKeepConsistent(p: PointerState, e: PointerEvent, client: Vec, touches: seq<Vec>,
                               rect: Rect, c: Canvas, now: int)
    requires c.Valid() && Consistent(p)
    ensures Consistent(Started(p, e, rect, c, now).pointer)
    ensures Consistent(Ended(p).pointer)
    ensures Consistent(MouseMoved(p, client, rect, c).pointer)
    ensures Consistent(TouchMoved(p, touches, rect, c).pointer)
  {
    match e {
      case TouchEvent(ts) =>
        if |ts| > 0 { TrackSpec(Begin(p, now), ts[0], rect, c, TOUCH_BUFFER); }
      case MouseEvent(cl) =>
        TrackSpec(Begin(p, now), cl, rect, c, 0.0);
    }
    TrackSpec(p.(prevMouse := p.mouse), client, rect, c, 0.0);
    if |touches| > 0 { TrackSpec(p.(prevMouse := p.mouse), touches[0], rect, c, TOUCH_BUFFER); }
  }

  /** Mouse down: always flicks, records the old pointer position, and
      starts an interaction at `now`, unless the press lies off the canvas
      box, in which case the interaction is over again at once. */
  lemma MouseDownSpec(p: PointerState, client: Vec, rect: Rect, c: Canvas, now: int)
    requires c.Valid()
    ensures var o := Started(p, MouseEvent(client), rect, c, now);
            && o.flick
            && o.pointer.prevMouse == p.mouse
            && (o.pointer.isInteracting <==> InCanvasBox(Local(client, rect), rect, 0.0))
            && (o.pointer.isInteracting ==> o.pointer.interactionStartTime == now)
            && (!o.pointer.isInteracting ==> o.pointer.mouse == p.mouse)
  {
    TrackSpec(Begin(p, now), client, rect, c, 0.0);
  }

  /** Touch start: it flicks exactly when there is a touch and the first
      one lies within TOUCH_BUFFER - EDGE_BUFFER logical pixels of the
      logical canvas, and otherwise changes nothing at all.  A touch that
      flicks starts an interaction at `now` with the pointer on the
      constrained touch position when it also lies in the tolerance box of
      the canvas box, and ends it again at once otherwise; the first case
      always holds when the canvas box is at least the logical canvas
      size. */
  lemma TouchStartSpec(p: PointerState, touches: seq<Vec>, rect: Rect, c: Canvas, now: int)
    requires c.Valid()
    ensures var o := Started(p, TouchEvent(touches), rect, c, now);
            && (|touches| == 0 ==> o == Outcome(p, false))
            && (|touches| > 0 ==>
                  var raw := Local(touches[0], rect);
                  && (o.flick <==> -4.0 <= raw.x <= c.LogicalWidth() + 4.0
                                   && -4.0 <= raw.y <= c.LogicalHeight() + 4.0)
                  && (!o.flick ==> o.pointer == p)
                  && (o.flick ==> o.pointer.prevMouse == p.mouse)
                  && (o.flick && InCanvasBox(raw, rect, TOUCH_BUFFER) ==>
                        o.pointer.isInteracting && o.pointer.interactionStartTime == now
                        && o.pointer.mouse == Constrained(raw, c))
                  && (o.flick && !InCanvasBox(raw, rect, TOUCH_BUFFER) ==>
                        !o.pointer.isInteracting && o.pointer.interactionStartTime == 0
                        && o.pointer.mouse == p.mouse)
                  && (o.flick && c.LogicalWidth() <= rect.width && c.LogicalHeight() <= rect.height ==>
                        InCanvasBox(raw, rect, TOUCH_BUFFER)))
  {
    if |touches| > 0 {
      var raw := Local(touches[0], rect);
      var o := Started(p, TouchEvent(touches), rect, c, now);
      TouchBoundsTest(touches[0], rect, c);
      if o.flick {
        assert o.pointer == Track(Begin(p, now), touches[0], rect, c, TOUCH_BUFFER);
      }
    }
  }

  /** The physical-pixel bounds test of a touch start accepts exactly the
      touches within 4 logical pixels of the logical canvas. */
  lemma TouchBoundsTest(touch: Vec, rect: Rect, c: Canvas)
    requires c.Valid()
    ensures TouchStartsInBounds(touch, rect, c)
            <==> (-4.0 <= touch.x - rect.left <= c.LogicalWidth() + 4.0
                  && -4.0 <= touch.y - rect.top <= c.LogicalHeight() + 4.0)
  {
    PositionInBoundsSpec((touch.x - rect.left) * c.dpr, (touch.y - rect.top) * c.dpr, c);
    LogicalSize(c);
    ScaledAxisBounds(touch.x - rect.left, (touch.x - rect.left) * c.dpr, c.LogicalWidth(), c.width, c.dpr);
    ScaledAxisBounds(touch.y - rect.top, (touch.y - rect.top) * c.dpr, c.LogicalHeight(), c.height, c.dpr);
  }

  /** Mouse up / touch end: the interaction is over, the pointer stays. */
  lemma EndSpec(p: PointerState)
    ensures var o := Ended(p);
            !o.flick && !o.pointer.isInteracting && o.pointer.interactionStartTime == 0
            && o.pointer.mouse == p.mouse && o.pointer.prevMouse == p.prevMouse
  {
  }

  /** Mouse move: the pointer follows the mouse over the canvas whether or
      not a button is held; the move flicks exactly when an interaction was
      going on and the mouse is still over the canvas; leaving the canvas
      ends the interaction. */
  lemma MouseMoveSpec(p: PointerState, client: Vec, rect: Rect, c: Canvas)
    requires c.Valid()
    ensures var o := MouseMoved(p, client, rect, c);
            var inside := InCanvasBox(Local(client, rect), rect, 0.0);
            && o.pointer.prevMouse == p.mouse
            && (o.flick <==> p.isInteracting && inside)
            && (inside ==> o.pointer.mouse == Constrained(Local(client, rect), c)
                           && o.pointer.isInteracting == p.isInteracting
                           && o.pointer.interactionStartTime == p.interactionStartTime)
            && (!inside ==> !o.pointer.isInteracting && o.pointer.mouse == p.mouse)
  {
    TrackSpec(p.(prevMouse := p.mouse), client, rect, c, 0.0);
  }

  /** Touch move: outside an interaction a move with touches changes
      nothing; a move without touches ends the interaction; during an
      interaction the move always flicks, even when the touch has left the
      tolerance box and the interaction ended, and then with the pointer
      velocity zero. */
  lemma TouchMoveSpec(p: PointerState, touches: seq<Vec>, rect: Rect, c: Canvas)
    requires c.Valid()
    ensures var o := TouchMoved(p, touches, rect, c);
            && (o.flick <==> p.isInteracting && |touches| > 0)
            && (!p.isInteracting && |touches| > 0 ==> o.pointer == p)
            && (|touches| == 0 ==>
                  !o.pointer.isInteracting && o.pointer.interactionStartTime == 0
                  && o.pointer.mouse == p.mouse)
            && (o.flick && !InCanvasBox(Local(touches[0], rect), rect, TOUCH_BUFFER) ==>
                  !o.pointer.isInteracting
                  && MouseVelocity(o.pointer.mouse, o.pointer.prevMouse) == ZERO)
            && (o.flick && InCanvasBox(Local(touches[0], rect), rect, TOUCH_BUFFER) ==>
                  o.pointer.isInteracting
                  && o.pointer.mouse == Constrained(Local(touches[0], rect), c)
                  && o.pointer.prevMouse == p.mouse)
  {
    if p.isInteracting && |touches| > 0 {
      TrackSpec(p.(prevMouse := p.mouse), touches[0], rect, c, TOUCH_BUFFER);
    }
  }

  /** The pointer: the page's `mouse`, `prevMouse`, `isInteracting` and
      `interactionStartTime`, with the event handlers that update them. */
  class Pointer {
    var mouse: Vec
    var prevMouse: Vec
    var isInteracting: bool
    var interactionStartTime: int

    function State(): PointerState
      reads this
    {
      PointerState(mouse, prevMouse, isInteracting, interactionStartTime)
    }

    constructor ()
      ensures State() == IDLE && Consistent(State())
    {
      mouse, prevMouse := ZERO, ZERO;
      isInteracting := false;
      interactionStartTime := 0;
    }

    method UpdateMousePosition(client: Vec, rect: Rect, c: Canvas)
      requires c.Valid()
      modifies this
      ensures State() == MousePositionUpdate(old(State()), client, rect, c)
    {
      var rawX := client.x - rect.left;
      var rawY := client.y - rect.top;
      if rawX >= 0.0 && rawX <= rect.width && rawY >= 0.0 && rawY <= rect.height {
        mouse := Vec(ConstrainToCanvas(rawX, c.width, c.dpr), ConstrainToCanvas(rawY, c.height, c.dpr));
      } else {
        isInteracting := false;
        interactionStartTime := 0;
      }
    }

    method UpdateTouchPosition(touches: seq<Vec>, rect: Rect, c: Canvas)
      requires c.Valid()
      modifies this
      ensures State() == TouchPositionUpdate(old(State()), touches, rect, c)
    {
      if |touches| > 0 {
        var touch := touches[0];
        var rawX := touch.x - rect.left;
        var rawY := touch.y - rect.top;
        var touchBuffer := TOUCH_BUFFER;
        if rawX >= -touchBuffer && rawX <= rect.width + touchBuffer
           && rawY >= -touchBuffer && rawY <= rect.height + touchBuffer {
          mouse := Vec(ConstrainToCanvas(rawX, c.width, c.dpr), ConstrainToCanvas(rawY, c.height, c.dpr));
        } else {
          isInteracting := false;
          interactionStartTime := 0;
        }
      }
    }

    /** `onInteractionStart(event)`; `spins` are the flick deviations. */
    method OnInteractionStart(e: PointerEvent, rect: Rect, c: Canvas, now: int,
                              particles: seq<Particle>, spins: seq<Vec>)
      requires c.Valid() && Distinct(particles) && |spins| == |particles|
      modifies this, particles`state, particles`velocity
      ensures State() == Started(old(State()), e, rect, c, now).pointer
      ensures Views(particles)
              == if Started(old(State()), e, rect, c, now).flick
                 then FlickAll(old(Views(particles)), mouse, MouseVelocity(mouse, prevMouse), spins)
                 else old(Views(particles))
    {
      match e
      case TouchEvent(touches) =>
        StartTouch(touches, rect, c, now, particles, spins);
      case MouseEvent(client) =>
        StartMouse(client, rect, c, now, particles, spins);
    }

    /** The touch branch of `onInteractionStart`. */
    method StartTouch(touches: seq<Vec>, rect: Rect, c: Canvas, now: int,
                      particles: seq<Particle>, spins: seq<Vec>)
      requires c.Valid() && Distinct(particles) && |spins| == |particles|
      modifies this, particles`state, particles`velocity
      ensures State() == Started(old(State()), TouchEvent(touches), rect, c, now).pointer
      ensures Views(particles)
              == if Started(old(State()), TouchEvent(touches), rect, c, now).flick
                 then FlickAll(old(Views(particles)), mouse, MouseVelocity(mouse, prevMouse), spins)
                 else old(Views(particles))
    {
      if |touches| > 0 {
        if TouchStartsInBounds(touches[0], rect, c) {
          isInteracting := true;
          interactionStartTime := now;
          prevMouse := mouse;
          UpdateTouchPosition(touches, rect, c);
          assert State() == Started(old(State()), TouchEvent(touches), rect, c, now).pointer;
          FlickParticles(particles, mouse, prevMouse, spins);
        }
      }
    }

    /** The mouse branch of `onInteractionStart`. */
    method StartMouse(client: Vec, rect: Rect, c: Canvas, now: int,
                      particles: seq<Particle>, spins: seq<Vec>)
      requires c.Valid() && Distinct(particles) && |spins| == |particles|
      modifies this, particles`state, particles`velocity
      ensures State() == Started(old(State()), MouseEvent(client), rect, c, now).pointer
      ensures Started(old(State()), MouseEvent(client), rect, c, now).flick
      ensures Views(particles)
              == FlickAll(old(Views(particles)), mouse, MouseVelocity(mouse, prevMouse), spins)
    {
      isInteracting := true;
      interactionStartTime := now;
      prevMouse := mouse;
      UpdateMousePosition(client, rect, c);
      assert State() == Started(old(State()), MouseEvent(client), rect, c, now).pointer;
      FlickParticles(particles, mouse, prevMouse, spins);
    }

    /** `onInteractionEnd(event)`. */
    method OnInteractionEnd()
      modifies this
      ensures State() == Ended(old(State())).pointer
    {
      isInteracting := false;
      interactionStartTime := 0;
    }

    /** `onMouseMove(event)`. */
    method OnMouseMove(client: Vec, rect: Rect, c: Canvas, particles: seq<Particle>, spins: seq<Vec>)
      requires c.Valid() && Distinct(particles) && |spins| == |particles|
      modifies this, particles`state, particles`velocity
      ensures State() == MouseMoved(old(State()), client, rect, c).pointer
      ensures Views(particles)
              == if MouseMoved(old(State()), client, rect, c).flick
                 then FlickAll(old(Views(particles)), mouse, MouseVelocity(mouse, prevMouse), spins)
                 else old(Views(particles))
    {
      prevMouse := mouse;
      UpdateMousePosition(client, rect, c);
      assert State() == MouseMoved(old(State()), client, rect, c).pointer;
      if isInteracting {
        FlickParticles(particles, mouse, prevMouse, spins);
      }
    }

    /** `onTouchMove(event)`. */
    method OnTouchMove(touches: seq<Vec>, rect: Rect, c: Canvas, particles: seq<Particle>, spins: seq<Vec>)
      requires c.Valid() && Distinct(particles) && |spins| == |particles|
      modifies this, particles`state, particles`velocity
      ensures State() == TouchMoved(old(State()), touches, rect, c).pointer
      ensures Views(particles)
              == if TouchMoved(old(State()), touches, rect, c).flick
                 then FlickAll(old(Views(particles)), mouse, MouseVelocity(mouse, prevMouse), spins)
                 else old(Views(particles))
    {
      if isInteracting && |touches| > 0 {
        DragTouch(touches, rect, c, particles, spins);
      } else if |touches| == 0 {
        isInteracting := false;
        interactionStartTime := 0;
      }
    }

    /** The branch of `onTouchMove` taken during an interaction. */
    method DragTouch(touches: seq<Vec>, rect: Rect, c: Canvas, particles: seq<Particle>, spins: seq<Vec>)
      requires c.Valid() && Distinct(particles) && |spins| == |particles|
      requires isInteracting && |touches| > 0
      modifies this, particles`state, particles`velocity
      ensures State() == TouchMoved(old(State()), touches, rect, c).pointer
      ensures TouchMoved(old(State()), touches, rect, c).flick
      ensures Views(particles)
              == FlickAll(old(Views(particles)), mouse, MouseVelocity(mouse, prevMouse), spins)
    {
      prevMouse := mouse;
      UpdateTouchPosition(touches, rect, c);
      assert State() == TouchMoved(old(State()), touches, rect, c).pointer;
      FlickParticles(particles, mouse, prevMouse, spins);
    }
  }
}
