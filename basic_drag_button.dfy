/**
 * The basic drag button (src/components/DragButton.jsx): a `<button>` that
 * reports where a drag started inside it, where the pointer is while it
 * drags, and when the drag ends. A `disabled` button ignores every pointer
 * event. Rendering without children is an error.
 *
 * `Step` is the handler logic as a pure function of the state, `Run`
 * replays a sequence of pointer events, and the class `BasicButton` holds
 * the `isDragging` and `position` state fields and runs the handlers in
 * place; each handler is proved to do what `Step` says. Callbacks are
 * recorded in a ghost log, and only when the host supplied them.
 *
 * Every handler is modelled as reading and writing the current state at
 * once, as if React applied each `setState` before the next event.
 */
module BasicDragButton {

  datatype Point = Point(x: real, y: real)

  /** The part of `event.currentTarget.getBoundingClientRect()` the start handler reads. */
  datatype Rect = Rect(left: real, top: real)

  /** Which of the optional callbacks the host passed; a missing one is never called. */
  datatype Handlers = Handlers(onDragStart: bool, onDrag: bool, onDragEnd: bool)

  const AllHandlers := Handlers(true, true, true)

  /** The component's state: the `isDragging` and `position` hooks. */
  datatype State = State(isDragging: bool, position: Point)

  const Initial := State(false, Point(0.0, 0.0))

  /** The mouse events the button listens to. */
  datatype Pointer =
    | Down(clientX: real, clientY: real, rect: Rect)   // onMouseDown
    | MoveTo(clientX: real, clientY: real)             // onMouseMove
    | Up                                               // onMouseUp
    | Leave                                            // onMouseLeave

  /** A call of one of the host's callbacks, with the payload it receives. */
  datatype Callback =
    | DragStarted(offsetX: real, offsetY: real)   // onDragStart(event, {offsetX, offsetY})
    | Dragged(x: real, y: real)                   // onDrag(event, {x, y})
    | DragEnded                                   // onDragEnd(event)

  /**
   * One pointer event: the new state and the callbacks fired. A disabled
   * button ignores everything. A press stores the pointer's offset inside
   * the button and hands that same offset to `onDragStart`; a move reports
   * the pointer minus that offset, only while dragging, and changes no
   * state; a release or a leave ends the drag whether or not one was
   * active.
   */
  function Step(disabled: bool, h: Handlers, s: State, p: Pointer): (r: (State, seq<Callback>))
    ensures disabled ==> r == (s, [])
    ensures |r.1| <= 1
    ensures !disabled && p.Down? ==>
      r.0.isDragging &&
      r.0.position.x + p.rect.left == p.clientX && r.0.position.y + p.rect.top == p.clientY &&
      r.1 == (if h.onDragStart then [DragStarted(r.0.position.x, r.0.position.y)] else [])
    ensures p.MoveTo? ==> r.0 == s
    ensures p.MoveTo? && r.1 != [] ==>
      !disabled && s.isDragging && h.onDrag &&
      r.1 == [Dragged(p.clientX - s.position.x, p.clientY - s.position.y)]
    ensures p.MoveTo? && !disabled && s.isDragging && h.onDrag ==> r.1 != []
    ensures !disabled && (p.Up? || p.Leave?) ==>
      !r.0.isDragging && r.0.position == s.position &&
      r.1 == (if h.onDragEnd then [DragEnded] else [])
  {
    if disabled then (s, [])
    else
      match p
      case Down(clientX, clientY, rect) =>
        var offsetX := clientX - rect.left;
        var offsetY := clientY - rect.top;
        (State(true, Point(offsetX, offsetY)), if h.onDragStart then [DragStarted(offsetX, offsetY)] else [])
      case MoveTo(clientX, clientY) =>
        if !s.isDragging then (s, [])
        else
          var newX := clientX - s.position.x;
          var newY := clientY - s.position.y;
          (s, if h.onDrag then [Dragged(newX, newY)] else [])
      case _ =>
        (s.(isDragging := false), if h.onDragEnd then [DragEnded] else [])
  }

  /**
   * Replays pointer events from `s`: the final state and every callback
   * fired, in order. A disabled button ends where it started and fires
   * nothing, whatever the events.
   */
  function Run(disabled: bool, h: Handlers, s: State, ps: seq<Pointer>): (r: (State, seq<Callback>))
    ensures disabled ==> r == (s, [])
    decreases |ps|
  {
    if ps == [] then (s, [])
    else
      var (s1, fired) := Step(disabled, h, s, ps[0]);
      var (s2, rest) := Run(disabled, h, s1, ps[1..]);
      assert disabled ==> fired + rest == [];
      (s2, fired + rest)
  }

  /** `Run` on a sequence that starts with `p`: take the step, then replay the rest. */
  lemma RunFirst(disabled: bool, h: Handlers, s: State, p: Pointer, ps: seq<Pointer>)
    ensures Run(disabled, h, s, [p] + ps) ==
      (Run(disabled, h, Step(disabled, h, s, p).0, ps).0,
       Step(disabled, h, s, p).1 + Run(disabled, h, Step(disabled, h, s, p).0, ps).1)
  {
  }

  /**
   * A log is bracketed when every `onDrag` falls inside a drag: after an
   * `onDragStart` and before the next `onDragEnd` (`dragging` says whether
   * a drag is open where the log begins).
   */
  predicate Bracketed(log: seq<Callback>, dragging: bool)
    decreases |log|
  {
    if log == [] then true
    else match log[0]
      case DragStarted(_, _) => Bracketed(log[1..], true)
      case Dragged(_, _) => dragging && Bracketed(log[1..], dragging)
      case DragEnded => Bracketed(log[1..], false)
  }

  /**
   * When the host listens for both the start and the end of a drag, it never
   * sees `onDrag` outside a drag, whatever events arrive: each move report
   * comes after an `onDragStart` and before the following `onDragEnd`.
   */
  lemma {:induction false} RunIsBracketed(disabled: bool, h: Handlers, s: State, ps: seq<Pointer>)
    requires h.onDragStart && h.onDragEnd
    ensures Bracketed(Run(disabled, h, s, ps).1, s.isDragging)
    decreases |ps|
  {
    if ps != [] {
      var (s1, fired) := Step(disabled, h, s, ps[0]);
      var rest := Run(disabled, h, s1, ps[1..]).1;
      RunIsBracketed(disabled, h, s1, ps[1..]);
      assert Run(disabled, h, s, ps).1 == fired + rest;
      if fired == [] {
        assert s1.isDragging == s.isDragging;
        assert fired + rest == rest;
      } else {
        assert (fired + rest)[0] == fired[0] && (fired + rest)[1..] == rest;
      }
    }
  }

  /**
   * The end handler has no `isDragging` guard: a second release (or a
   * leave after a release) fires `onDragEnd` again, and a leave does
   * exactly what a release does.
   */
  lemma EndIsNotIdempotent(h: Handlers, s: State)
    requires h.onDragEnd
    ensures Run(false, h, s, [Up, Up]).1 == [DragEnded, DragEnded]
    ensures Run(false, h, s, [Up, Leave]).1 == [DragEnded, DragEnded]
    ensures Run(false, h, s, [Leave]) == Run(false, h, s, [Up])
  {
  }

  /**
   * Press, move, release on an enabled button with every callback supplied:
   * `onDragStart` with the offset inside the button, `onDrag` with the
   * pointer minus that offset, then `onDragEnd`, each once and in that
   * order.
   */
  lemma PressMoveRelease(s: State, x0: real, y0: real, rect: Rect, x1: real, y1: real)
    ensures Run(false, AllHandlers, s, [Down(x0, y0, rect), MoveTo(x1, y1), Up]).1 ==
      [DragStarted(x0 - rect.left, y0 - rect.top),
       Dragged(x1 - (x0 - rect.left), y1 - (y0 - rect.top)),
       DragEnded]
    ensures Run(false, AllHandlers, s, [Down(x0, y0, rect), MoveTo(x1, y1), Up]).0 ==
      State(false, Point(x0 - rect.left, y0 - rect.top))
  {
    var offset := Point(x0 - rect.left, y0 - rect.top);
    var s1 := State(true, offset);
    var s2 := State(false, offset);
    var moved := Dragged(x1 - offset.x, y1 - offset.y);
    assert Step(false, AllHandlers, s, Down(x0, y0, rect)) == (s1, [DragStarted(offset.x, offset.y)]);
    assert Step(false, AllHandlers, s1, MoveTo(x1, y1)) == (s1, [moved]);
    RunFirst(false, AllHandlers, s1, Up, []);
    assert [Up] + [] == [Up] && [DragEnded] + [] == [DragEnded];
    assert Run(false, AllHandlers, s1, [Up]) == (s2, [DragEnded]);
    RunFirst(false, AllHandlers, s1, MoveTo(x1, y1), [Up]);
    assert [MoveTo(x1, y1)] + [Up] == [MoveTo(x1, y1), Up];
    RunFirst(false, AllHandlers, s, Down(x0, y0, rect), [MoveTo(x1, y1), Up]);
    assert [Down(x0, y0, rect)] + [MoveTo(x1, y1), Up] == [Down(x0, y0, rect), MoveTo(x1, y1), Up];
  }

  // ---- Mounting: the children check ----

  /** A value passed as `children`, as far as JavaScript truthiness goes. */
  datatype Children =
    | Undefined
    | Null
    | Bool(b: bool)
    | Number(n: real)
    | Text(s: string)
    | Object   // an element or an array of them

  /** JavaScript truthiness (`!children` is the negation): false, 0, "", null and undefined are falsy. */
  predicate Truthy(c: Children) {
    match c
    case Undefined => false
    case Null => false
    case Bool(b) => b
    case Number(n) => n != 0.0
    case Text(s) => s != ""
    case Object => true
  }

  /** Why rendering failed: `new Error('DragButton requires children prop')`. */
  datatype MountError = MissingChildren

  datatype Result<T> = Success(value: T) | Failure(error: MountError)

  // ---- The component's state, updated in place by its handlers ----

  class BasicButton {
    const disabled: bool
    const handlers: Handlers
    var isDragging: bool
    var position: Point
    /** Every callback the handlers have fired, oldest first. */
    ghost var events: seq<Callback>

    function Current(): State
      reads this
    {
      State(isDragging, position)
    }

    /** The hooks' initial values: not dragging, position (0, 0). */
    constructor (disabled: bool, handlers: Handlers)
      ensures this.disabled == disabled && this.handlers == handlers
      ensures Current() == Initial && events == []
    {
      this.disabled, this.handlers := disabled, handlers;
      isDragging, position := false, Point(0.0, 0.0);
      events := [];
    }

    /**
     * `handleDragStart` (onMouseDown): unless disabled, start dragging,
     * store the pointer's offset inside the button and pass the same
     * offset to `onDragStart`.
     */
    method HandleDragStart(clientX: real, clientY: real, rect: Rect)
      modifies this
      ensures disabled ==> unchanged(this)
      ensures !disabled ==>
        isDragging && position == Point(clientX - rect.left, clientY - rect.top) &&
        events == old(events) + (if handlers.onDragStart then [DragStarted(position.x, position.y)] else [])
      ensures Current() == Step(disabled, handlers, old(Current()), Down(clientX, clientY, rect)).0
      ensures events == old(events) + Step(disabled, handlers, old(Current()), Down(clientX, clientY, rect)).1
    {
      if disabled {
        return;
      }
      isDragging := true;
      var offsetX := clientX - rect.left;
      var offsetY := clientY - rect.top;
      position := Point(offsetX, offsetY);
      if handlers.onDragStart {
        events := events + [DragStarted(offsetX, offsetY)];
      }
    }

    /**
     * `handleDrag` (onMouseMove): only while dragging and not disabled,
     * report the pointer minus the stored offset to `onDrag`. The state is
     * left as it was.
     */
    method HandleDrag(clientX: real, clientY: real)
      modifies this
      ensures isDragging == old(isDragging) && position == old(position)
      ensures events == old(events) +
        (if isDragging && !disabled && handlers.onDrag
         then [Dragged(clientX - position.x, clientY - position.y)] else [])
      ensures Current() == Step(disabled, handlers, old(Current()), MoveTo(clientX, clientY)).0
      ensures events == old(events) + Step(disabled, handlers, old(Current()), MoveTo(clientX, clientY)).1
    {
      if !isDragging || disabled {
        return;
      }
      var newX := clientX - position.x;
      var newY := clientY - position.y;
      if handlers.onDrag {
        events := events + [Dragged(newX, newY)];
      }
    }

    /**
     * `handleDragEnd` (onMouseUp and onMouseLeave): unless disabled, stop
     * dragging and call `onDragEnd`, whether or not a drag was active.
     */
    method HandleDragEnd()
      modifies this
      ensures disabled ==> unchanged(this)
      ensures !disabled ==>
        !isDragging && position == old(position) &&
        events == old(events) + (if handlers.onDragEnd then [DragEnded] else [])
      ensures Current() == Step(disabled, handlers, old(Current()), Up).0
      ensures events == old(events) + Step(disabled, handlers, old(Current()), Up).1
    {
      if disabled {
        return;
      }
      isDragging := false;
      if handlers.onDragEnd {
        events := events + [DragEnded];
      }
    }
  }

  /**
   * Rendering the component: without truthy children it throws and nothing
   * is mounted; otherwise a fresh button at rest.
   */
  method Mount(children: Children, disabled: bool, handlers: Handlers) returns (r: Result<BasicButton>)
    ensures r.Failure? <==> !Truthy(children)
    ensures r.Failure? ==> r.error == MissingChildren
    ensures r.Success? ==>
      fresh(r.value) && r.value.disabled == disabled && r.value.handlers == handlers &&
      r.value.Current() == Initial && r.value.events == []
  {
    if !Truthy(children) {
      return Failure(MissingChildren);
    }
    var b := new BasicButton(disabled, handlers);
    return Success(b);
  }

  /**
   * A disabled button given `onDragStart`: a press fires nothing and does
   * not start a drag.
   */
  method PressDisabled(children: Children, x: real, y: real, rect: Rect) returns (b: BasicButton)
    requires Truthy(children)
    ensures !b.isDragging && b.events == []
  {
    var r := Mount(children, true, Handlers(true, false, false));
    b := r.value;
    b.HandleDragStart(x, y, rect);
  }

  /** Rendering with no children at all fails. */
  method MountWithoutChildren() returns (r: Result<BasicButton>)
    ensures r == Failure(MissingChildren)
  {
    r := Mount(Undefined, false, AllHandlers);
  }

  /**
   * A host pressing, moving and releasing over an enabled button with every
   * callback supplied: start, drag and end are reported once each, in that
   * order, and the drag is over.
   */
  method PressMoveReleaseButton(children: Children, x0: real, y0: real, rect: Rect, x1: real, y1: real)
    returns (b: BasicButton)
    requires Truthy(children)
    ensures !b.isDragging
    ensures b.events ==
      [DragStarted(x0 - rect.left, y0 - rect.top),
       Dragged(x1 - (x0 - rect.left), y1 - (y0 - rect.top)),
       DragEnded]
  {
    var r := Mount(children, false, AllHandlers);
    b := r.value;
    b.HandleDragStart(x0, y0, rect);
    b.HandleDrag(x1, y1);
    b.HandleDragEnd();
  }
}
