/**
 * The slider drag button (src/components/common/DragButton/DragButton.jsx):
 * a round button that the user presses and drags upwards. The drag distance
 * is clamped to `[0, maxDragDistance]`; releasing after a short drag counts
 * as a click, releasing after a longer one reports the value the distance
 * maps to.
 *
 * `Step` is the gesture machine as a pure function of the state, `Run`
 * replays a sequence of gestures, and the class `SliderButton` holds the
 * component's state fields and runs the handlers in place; each handler is
 * proved to do what `Step` says. Callbacks are recorded in a ghost log.
 *
 * Every handler is modelled as reading and writing the current state at
 * once. In the component the state lives in React hooks, updates land on
 * the next render, and the document listeners hold the handler of the
 * render that added them; none of that is modelled.
 */
module SliderDragButton {
  import opened ValueMapper

  /** The props the logic and the numeric styles read, with their JavaScript names. */
  datatype Config = Config(
    backgroundColor: string,
    activeBackgroundColor: string,
    tooltipShape: string,
    buttonSize: real,
    tooltipWidth: real,
    tooltipHeight: real,
    maxDragDistance: real,
    minValue: real,
    maxValue: real,
    valueFormat: string)
  {
    /**
     * The component does not check its numeric props: it divides by
     * `maxDragDistance` and scales by `maxValue - minValue`. The model
     * assumes a positive travel and an ordered range.
     */
    predicate Sound() {
      maxDragDistance > 0.0 && minValue <= maxValue
    }
  }

  /** The default props. */
  const Defaults := Config("#ee6e7e", "#da5c6c", "rounded", 80.0, 70.0, 40.0, 150.0, 0.0, 100.0, "percentage")

  /** The component's state: the `isDragging` and `dragDistance` hooks and `startYRef`. */
  datatype State = State(isDragging: bool, dragDistance: real, startY: real)

  const Idle := State(false, 0.0, 0.0)

  /** What the handlers keep true: the distance is clamped, and zero unless a drag is active. */
  predicate Inv(cfg: Config, s: State) {
    0.0 <= s.dragDistance <= cfg.maxDragDistance && (!s.isDragging ==> s.dragDistance == 0.0)
  }

  /** A pointer event as the handlers see it: mouse and touch carry the same `clientY`. */
  datatype Gesture =
    | Down(clientY: real)     // handleMouseDown, handleTouchStart
    | MoveTo(clientY: real)   // handleMouseMove, handleTouchMove
    | Up                      // handleMouseUp, handleTouchEnd

  /** A call of one of the host's callbacks. */
  datatype Callback =
    | Click(arg: int)      // onClick(0)
    | Release(value: real) // onRelease(getNumericValue())

  /** A release after a drag shorter than this many pixels is a click. */
  const ClickThreshold: real := 5.0

  /**
   * The callback fired when a drag of length `dragDistance` ends: a click
   * below the threshold, otherwise a release carrying the mapped value.
   */
  function Fired(cfg: Config, dragDistance: real): (c: Callback)
    requires cfg.Sound()
    ensures c.Click? <==> dragDistance < ClickThreshold
    ensures c.Click? ==> c.arg == 0
    ensures c.Release? ==>
      c.value == ScaledValue(dragDistance, cfg.maxDragDistance, cfg.minValue, cfg.maxValue) &&
      cfg.minValue <= c.value <= cfg.maxValue
  {
    if dragDistance < ClickThreshold then Click(0)
    else Release(ScaledValue(dragDistance, cfg.maxDragDistance, cfg.minValue, cfg.maxValue))
  }

  /**
   * One gesture: the new state and the callbacks fired. A press records the
   * origin; a move or an end while no drag is active does nothing; an end
   * fires exactly one callback and resets the drag.
   */
  function Step(cfg: Config, s: State, g: Gesture): (r: (State, seq<Callback>))
    requires cfg.Sound()
    ensures Inv(cfg, s) ==> Inv(cfg, r.0)
    ensures g.Down? ==> r.0 == s.(isDragging := true, startY := g.clientY) && r.1 == []
    ensures g.MoveTo? && s.isDragging ==>
      r.1 == [] && r.0.isDragging && r.0.startY == s.startY &&
      0.0 <= r.0.dragDistance <= cfg.maxDragDistance &&
      (0.0 <= s.startY - g.clientY <= cfg.maxDragDistance ==> r.0.dragDistance == s.startY - g.clientY) &&
      (s.startY - g.clientY < 0.0 ==> r.0.dragDistance == 0.0) &&
      (cfg.maxDragDistance < s.startY - g.clientY ==> r.0.dragDistance == cfg.maxDragDistance)
    ensures g.Up? ==> !r.0.isDragging && r.0.dragDistance == (if s.isDragging then 0.0 else s.dragDistance)
    ensures g.Up? && s.isDragging ==> r.1 == [Fired(cfg, s.dragDistance)] && r.0.startY == s.startY
    ensures !s.isDragging && !g.Down? ==> r == (s, [])
  {
    match g
    case Down(clientY) =>
      (s.(startY := clientY, isDragging := true), [])
    case MoveTo(clientY) =>
      if s.isDragging then
        var diff := s.startY - clientY;
        (s.(dragDistance := Max(0.0, Min(cfg.maxDragDistance, diff))), [])
      else (s, [])
    case Up =>
      if s.isDragging then
        (s.(isDragging := false, dragDistance := 0.0), [Fired(cfg, s.dragDistance)])
      else (s, [])
  }

  /** How many presses a gesture sequence holds. */
  function Presses(gs: seq<Gesture>): nat
  {
    if gs == [] then 0 else (if gs[0].Down? then 1 else 0) + Presses(gs[1..])
  }

  /**
   * Replays gestures from `s`: the final state and every callback fired, in
   * order. The invariant survives any sequence, and there is at most one
   * callback per press (plus one for a drag already active at the start),
   * so no release or click is ever reported twice for one drag.
   */
  function Run(cfg: Config, s: State, gs: seq<Gesture>): (r: (State, seq<Callback>))
    requires cfg.Sound()
    ensures Inv(cfg, s) ==> Inv(cfg, r.0)
    ensures |r.1| <= Presses(gs) + (if s.isDragging then 1 else 0)
    decreases |gs|
  {
    if gs == [] then (s, [])
    else
      var (s1, fired) := Step(cfg, s, gs[0]);
      var (s2, rest) := Run(cfg, s1, gs[1..]);
      (s2, fired + rest)
  }

  /** A drag upwards (smaller `clientY`) never shortens the distance, up to the cap. */
  lemma MoveUpRaisesDistance(cfg: Config, s: State, y1: real, y2: real)
    requires cfg.Sound() && s.isDragging
    requires y2 <= y1
    ensures Step(cfg, s, MoveTo(y1)).0.dragDistance <= Step(cfg, s, MoveTo(y2)).0.dragDistance
    ensures s.startY - y2 >= cfg.maxDragDistance ==> Step(cfg, s, MoveTo(y2)).0.dragDistance == cfg.maxDragDistance
  {
  }

  /** `Run` on a sequence that starts with `g`: take the step, then replay the rest. */
  lemma RunFirst(cfg: Config, s: State, g: Gesture, gs: seq<Gesture>)
    requires cfg.Sound()
    ensures Run(cfg, s, [g] + gs) ==
      (Run(cfg, Step(cfg, s, g).0, gs).0, Step(cfg, s, g).1 + Run(cfg, Step(cfg, s, g).0, gs).1)
  {
  }

  /** Ending twice in a row: the second end changes nothing and fires nothing. */
  lemma SecondEndIsInert(cfg: Config, s: State)
    requires cfg.Sound()
    ensures Run(cfg, s, [Up, Up]) == Step(cfg, s, Up)
  {
    var (s1, fired) := Step(cfg, s, Up);
    RunFirst(cfg, s1, Up, []);
    assert Run(cfg, s1, [Up]) == (s1, []);
    RunFirst(cfg, s, Up, [Up]);
    assert [Up] + [Up] == [Up, Up];
    assert fired + [] == fired;
  }

  /**
   * A full drag from rest: press, move, release. A pointer move of `d`
   * pixels upwards (any `d`, downwards when negative) ends idle with exactly
   * one callback, decided by the distance clamped to the travel: `onClick(0)`
   * below the threshold, `onRelease` of the mapped value otherwise.
   */
  lemma PressMoveRelease(cfg: Config, y: real, d: real)
    requires cfg.Sound()
    ensures Run(cfg, Idle, [Down(y), MoveTo(y - d), Up]).0 == State(false, 0.0, y)
    ensures Run(cfg, Idle, [Down(y), MoveTo(y - d), Up]).1 ==
      [Fired(cfg, Clamp(d, 0.0, cfg.maxDragDistance))]
  {
    var s1 := State(true, 0.0, y);
    var s2 := State(true, Clamp(d, 0.0, cfg.maxDragDistance), y);
    var done := State(false, 0.0, y);
    var c := Fired(cfg, Clamp(d, 0.0, cfg.maxDragDistance));
    assert Step(cfg, Idle, Down(y)) == (s1, []);
    assert Step(cfg, s1, MoveTo(y - d)) == (s2, []);
    assert Step(cfg, s2, Up) == (done, [c]);
    RunFirst(cfg, s2, Up, []);
    assert [Up] + [] == [Up] && [c] + [] == [c];
    assert Run(cfg, s2, [Up]) == (done, [c]);
    RunFirst(cfg, s1, MoveTo(y - d), [Up]);
    assert [MoveTo(y - d)] + [Up] == [MoveTo(y - d), Up] && [] + [c] == [c];
    assert Run(cfg, s1, [MoveTo(y - d), Up]) == (done, [c]);
    RunFirst(cfg, Idle, Down(y), [MoveTo(y - d), Up]);
    assert [Down(y)] + [MoveTo(y - d), Up] == [Down(y), MoveTo(y - d), Up];
  }

  /**
   * Dragging downwards, or not moving at all, leaves the distance at zero:
   * releasing then reports a click with argument 0.
   */
  lemma DownwardIsClick(cfg: Config, y: real, e: real)
    requires cfg.Sound()
    requires e >= 0.0
    ensures Run(cfg, Idle, [Down(y), MoveTo(y + e), Up]).1 == [Click(0)]
  {
    PressMoveRelease(cfg, y, -e);
    assert y - -e == y + e;
  }

  /**
   * The default travel of 150 pixels mapped onto `[0, 100]`: a drag of 75
   * pixels shows 50.0 in "value" format and releases with exactly 50.
   */
  lemma HalfTravelReleasesFifty(y: real)
    ensures CalculateValue("value", 75.0, 150.0, 0.0, 100.0, (v: real) => v) == Number(50.0)
    ensures Run(Defaults.(valueFormat := "value"), Idle, [Down(y), MoveTo(y - 75.0), Up]).1 == [Release(50.0)]
  {
    var cfg := Defaults.(valueFormat := "value");
    assert Percentage(75.0, 150.0) == 50.0;
    assert ScaledValue(75.0, 150.0, 0.0, 100.0) == 50.0;
    assert Round(500.0) == 500;
    PressMoveRelease(cfg, y, 75.0);
  }

  // ---- Presentation: the numbers in the inline styles ----

  /** `buttonStyle.backgroundColor`: the active colour exactly while a drag is active. */
  function ButtonColor(cfg: Config, s: State): (c: string)
    ensures c == cfg.activeBackgroundColor || c == cfg.backgroundColor
    ensures cfg.activeBackgroundColor != cfg.backgroundColor ==> (c == cfg.activeBackgroundColor <==> s.isDragging)
  {
    if s.isDragging then cfg.activeBackgroundColor else cfg.backgroundColor
  }

  /** How far the button is raised: `buttonStyle.transform` is `translateY(-dragDistance)`. */
  function ButtonRise(cfg: Config, s: State): (h: real)
    requires Inv(cfg, s)
    ensures 0.0 <= h <= cfg.maxDragDistance
    ensures !s.isDragging ==> h == 0.0
  {
    s.dragDistance
  }

  /**
   * `backgroundStyle.height`: the track behind the button, tall enough to
   * hold the button at its highest.
   */
  function BackgroundHeight(cfg: Config): (h: real)
    requires cfg.Sound()
    ensures forall s | Inv(cfg, s) :: ButtonRise(cfg, s) + cfg.buttonSize <= h
    ensures exists s | Inv(cfg, s) :: ButtonRise(cfg, s) + cfg.buttonSize == h
  {
    var top := State(true, cfg.maxDragDistance, 0.0);
    assert Inv(cfg, top) && ButtonRise(cfg, top) + cfg.buttonSize == cfg.maxDragDistance + cfg.buttonSize;
    cfg.maxDragDistance + cfg.buttonSize
  }

  /**
   * `connectorStyle.top`: the connector sits at the vertical middle of the
   * raised button, whichever side the tooltip is on.
   */
  function ConnectorTop(cfg: Config, s: State): (t: real)
    requires Inv(cfg, s)
    ensures t + ButtonRise(cfg, s) == cfg.buttonSize / 2.0
    ensures cfg.buttonSize / 2.0 - cfg.maxDragDistance <= t <= cfg.buttonSize / 2.0
  {
    cfg.buttonSize / 2.0 - s.dragDistance
  }

  /**
   * `tooltipStyle.top`: the tooltip is centred on the connector, so it
   * rises with the button.
   */
  function TooltipTop(cfg: Config, s: State): (t: real)
    requires Inv(cfg, s)
    ensures t + cfg.tooltipHeight / 2.0 == ConnectorTop(cfg, s)
    ensures !s.isDragging ==> t == cfg.buttonSize / 2.0 - cfg.tooltipHeight / 2.0
  {
    cfg.buttonSize / 2.0 - cfg.tooltipHeight / 2.0 - s.dragDistance
  }

  /**
   * The styles follow the pointer: after a move while dragging, the button
   * rises by the pointer's height above the origin, clamped to the travel,
   * and the connector and the tooltip rise with it by the same amount.
   */
  lemma StylesFollowPointer(cfg: Config, s: State, y: real)
    requires cfg.Sound() && Inv(cfg, s) && s.isDragging
    ensures var s1 := Step(cfg, s, MoveTo(y)).0;
      var rise := Clamp(s.startY - y, 0.0, cfg.maxDragDistance);
      ButtonRise(cfg, s1) == rise &&
      ConnectorTop(cfg, s1) == cfg.buttonSize / 2.0 - rise &&
      TooltipTop(cfg, s1) == cfg.buttonSize / 2.0 - cfg.tooltipHeight / 2.0 - rise
  {
  }

  /** Tooltip sizing: a circular tooltip has a fixed box, a rounded one a minimum box. */
  datatype TooltipBox =
    | Fixed(width: real, height: real)
    | AtLeast(minWidth: real, minHeight: real)

  /** `tooltipStyle` width, height, minWidth and minHeight as numbers (`'auto'` left out). */
  function TooltipSize(cfg: Config): (b: TooltipBox)
    ensures b.Fixed? <==> cfg.tooltipShape == "circular"
    ensures (if b.Fixed? then (b.width, b.height) else (b.minWidth, b.minHeight))
         == (cfg.tooltipWidth, cfg.tooltipHeight)
  {
    if cfg.tooltipShape == "circular" then Fixed(cfg.tooltipWidth, cfg.tooltipHeight)
    else AtLeast(cfg.tooltipWidth, cfg.tooltipHeight)
  }

  /**
   * The tooltip's content, `calculateValue()` for the configured
   * `valueFormat` at the current distance. At rest it shows the start of the
   * range (0% for the percentage formats), and at the top of the travel the
   * end of the range (100%).
   */
  function TooltipText<T(==)>(cfg: Config, s: State, formatter: real -> T): (r: Display<T>)
    requires cfg.Sound() && Inv(cfg, s)
    ensures r == CalculateValue(cfg.valueFormat, s.dragDistance, cfg.maxDragDistance, cfg.minValue, cfg.maxValue, formatter)
    ensures s.dragDistance == 0.0 ==>
      (cfg.valueFormat == "value" ==> r.Number? && cfg.minValue - 0.05 < r.value <= cfg.minValue + 0.05) &&
      (cfg.valueFormat == "custom" ==> r == Formatted(formatter(cfg.minValue))) &&
      (cfg.valueFormat != "value" && cfg.valueFormat != "custom" ==> r == PercentText(0))
    ensures s.dragDistance == cfg.maxDragDistance ==>
      (cfg.valueFormat == "value" ==> r.Number? && cfg.maxValue - 0.05 < r.value <= cfg.maxValue + 0.05) &&
      (cfg.valueFormat == "custom" ==> r == Formatted(formatter(cfg.maxValue))) &&
      (cfg.valueFormat != "value" && cfg.valueFormat != "custom" ==> r == PercentText(100))
  {
    CalculateValue(cfg.valueFormat, s.dragDistance, cfg.maxDragDistance, cfg.minValue, cfg.maxValue, formatter)
  }

  // ---- The component's state, updated in place by its handlers ----

  class SliderButton {
    const config: Config
    var isDragging: bool
    var dragDistance: real
    var startY: real
    /** Every callback the handlers have fired, oldest first. */
    ghost var events: seq<Callback>

    function Current(): State
      reads this
    {
      State(isDragging, dragDistance, startY)
    }

    ghost predicate Valid()
      reads this
    {
      config.Sound() && Inv(config, Current())
    }

    /** Mounting: not dragging, distance 0, origin 0 (`useState`, `useRef` initial values). */
    constructor (config: Config)
      requires config.Sound()
      ensures Valid() && this.config == config
      ensures Current() == Idle && events == []
    {
      this.config := config;
      isDragging, dragDistance, startY := false, 0.0, 0.0;
      events := [];
    }

    /** `getNumericValue`: the value the current distance maps to. */
    function NumericValue(): (v: real)
      reads this
      requires config.Sound()
      ensures config.minValue <= v <= config.maxValue
      ensures dragDistance <= 0.0 ==> v == config.minValue
      ensures config.maxDragDistance <= dragDistance ==> v == config.maxValue
      ensures 0.0 <= dragDistance <= config.maxDragDistance ==>
        v * config.maxDragDistance ==
          config.minValue * config.maxDragDistance + dragDistance * (config.maxValue - config.minValue)
    {
      ScaledValue(dragDistance, config.maxDragDistance, config.minValue, config.maxValue)
    }

    /** `handleMouseDown` / `handleTouchStart`: record the origin and start dragging. */
    method HandlePointerDown(clientY: real)
      requires Valid()
      modifies this
      ensures Valid()
      ensures isDragging && startY == clientY && dragDistance == old(dragDistance)
      ensures events == old(events)
      ensures Current() == Step(config, old(Current()), Down(clientY)).0
      ensures events == old(events) + Step(config, old(Current()), Down(clientY)).1
    {
      startY := clientY;
      isDragging := true;
    }

    /**
     * `handleMouseMove` / `handleTouchMove`: while dragging, the distance
     * becomes how far the pointer is above the origin, clamped to the
     * travel; otherwise nothing happens.
     */
    method HandlePointerMove(clientY: real)
      requires Valid()
      modifies this
      ensures Valid()
      ensures old(isDragging) ==>
        dragDistance == Clamp(old(startY) - clientY, 0.0, config.maxDragDistance) &&
        isDragging && startY == old(startY) && events == old(events)
      ensures !old(isDragging) ==> unchanged(this)
      ensures Current() == Step(config, old(Current()), MoveTo(clientY)).0
      ensures events == old(events) + Step(config, old(Current()), MoveTo(clientY)).1
    {
      if isDragging {
        var diff := startY - clientY;
        dragDistance := Max(0.0, Min(config.maxDragDistance, diff));
      }
    }

    /**
     * `handleMouseUp` / `handleTouchEnd`: while dragging, fire `onClick(0)`
     * for a drag under `ClickThreshold` (5) pixels and `onRelease(getNumericValue())`
     * otherwise, then reset; otherwise nothing happens.
     */
    method HandlePointerUp()
      requires Valid()
      modifies this
      ensures Valid()
      ensures old(isDragging) ==>
        events == old(events) + [Fired(config, old(dragDistance))] &&
        !isDragging && dragDistance == 0.0 && startY == old(startY)
      ensures !old(isDragging) ==> unchanged(this)
      ensures Current() == Step(config, old(Current()), Up).0
      ensures events == old(events) + Step(config, old(Current()), Up).1
    {
      if isDragging {
        if dragDistance < ClickThreshold {
          events := events + [Click(0)];
        } else {
          events := events + [Release(NumericValue())];
        }
        isDragging := false;
        dragDistance := 0.0;
      }
    }
  }

  /**
   * A host driving one pointer move of `d` pixels above the press point
   * (below it when negative), then releasing twice: exactly one callback,
   * decided by the distance clamped to the travel, and the button is back at
   * rest.
   */
  method DragAndReleaseTwice(config: Config, y: real, d: real) returns (b: SliderButton)
    requires config.Sound()
    ensures b.Valid() && !b.isDragging && b.dragDistance == 0.0
    ensures b.events == [Fired(config, Clamp(d, 0.0, config.maxDragDistance))]
  {
    b := new SliderButton(config);
    b.HandlePointerDown(y);
    b.HandlePointerMove(y - d);
    b.HandlePointerUp();
    b.HandlePointerUp();
  }
}
