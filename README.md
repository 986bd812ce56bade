# Drag button: a Dafny model of its gesture logic

The repository ships a React "drag button" in two unrelated variants that share a name:

- the **slider** (`src/components/common/DragButton/DragButton.jsx`): a round button the user presses and drags upwards. The drag distance is clamped to `[0, maxDragDistance]` and mapped linearly onto `[minValue, maxValue]`. Releasing after less than 5 pixels calls `onClick(0)`; releasing after a longer drag calls `onRelease` with the mapped value. A tooltip shows the value as a rounded percentage, as a number with one decimal, or as the host formatter's output. The tooltip and the connector line rise with the button.
- the **basic** button (`src/components/DragButton.jsx`): a `<button>` that reports the pointer's offset inside it on press, the pointer minus that offset on each move while dragging, and the end of the drag on release or leave. A `disabled` button ignores all of this, and rendering without children throws.

The model has three modules:

- `ValueMapper` (`value_mapper.dfy`) holds the pure arithmetic of the slider: `Math.min`, `Math.max` and `Math.round`, the percentage, the scaled value (`getNumericValue`) and the tooltip text (`calculateValue`). JavaScript numbers are exact `real`s.
- `SliderDragButton` (`slider_drag_button.dfy`) holds the slider's gesture machine. `Step` is the pure transition on `State(isDragging, dragDistance, startY)`, `Run` replays a sequence of gestures, and the presentation numbers are functions of the state. The class `SliderButton` has the component's state as fields and the handlers as methods. Each method is proved to update the fields and the ghost callback log exactly as `Step` says.
- `BasicDragButton` (`basic_drag_button.dfy`) does the same for the basic button on `State(isDragging, position)`. It adds JavaScript truthiness of `children` and a `Mount` that fails without children.

Callbacks are not run. Each handler appends the call it would make, with its payload, to a ghost `events` log. The event object passed alongside is not recorded. The basic button's optional callbacks are only logged when the host supplied them (`Handlers`).

Every handler is modelled as reading and writing the current state at once. React's deferred state updates and the handler closures kept by document listeners are not modelled (see below).

Behaviours of the code worth knowing:

- The slider compares the clamped `dragDistance` with the click threshold, not the raw pointer displacement. A drag downwards therefore always ends in `onClick(0)`.
- The basic button's end handler has no `isDragging` guard. A second release, or a leave after a release, calls `onDragEnd` again (`EndIsNotIdempotent`).
- The slider does not validate `maxDragDistance` or the value range. The slider model assumes `maxDragDistance > 0` and `minValue <= maxValue` (`Config.Sound`). `ScaledValue` itself is proved to stay between the two bounds in either order.

## Model

| member | source | states |
|---|---|---|
| `ValueMapper.Clamp` | src/components/common/DragButton/DragButton.jsx:96-97 | `Math.max(lo, Math.min(hi, x))` lies in `[lo, hi]`. It is `x` inside the interval and the nearer bound outside it. |
| `ValueMapper.Round` | src/components/common/DragButton/DragButton.jsx:59 | `Math.round` as `(x + 0.5).Floor`: the unique integer in `(x - 1/2, x + 1/2]`, so halves round up. |
| `ValueMapper.RoundTenth` | src/components/common/DragButton/DragButton.jsx:62 | `Math.round(v * 10) / 10` is a multiple of 0.1 within 0.05 of `v`. |
| `ValueMapper.Percentage` | src/components/common/DragButton/DragButton.jsx:56 | The percentage is always in `[0, 100]`. Inside the travel it is exactly `dragDistance / maxDragDistance * 100`; it is 0 at or below 0 and 100 at or beyond the maximum. |
| `ValueMapper.PercentageMonotone` | src/components/common/DragButton/DragButton.jsx:73 | A longer drag never gives a smaller percentage. |
| `ValueMapper.ScaledValue` | src/components/common/DragButton/DragButton.jsx:72-75 | `getNumericValue` lies between `minValue` and `maxValue` in either order. It equals `minValue` at no drag and `maxValue` at full travel. Within the travel it is linear in the distance: `r * maxDragDistance == minValue * maxDragDistance + dragDistance * (maxValue - minValue)`. |
| `ValueMapper.ScaledValueMonotone` | src/components/common/DragButton/DragButton.jsx:72-75 | With `minValue <= maxValue`, the value does not decrease as the drag distance grows. |
| `ValueMapper.CalculateValue` | src/components/common/DragButton/DragButton.jsx:55-69 | "value" shows the scaled value to one decimal (within 0.05). "custom" shows the formatter applied to the scaled value. "percentage" and every unrecognised format show the rounded percentage, an integer in `[0, 100]` within 1/2 of the percentage. |
| `SliderDragButton.Fired` | src/components/common/DragButton/DragButton.jsx:113-119 | Ending a drag calls `onClick` if and only if the distance is below 5, always with argument 0. Otherwise it calls `onRelease` with `getNumericValue()`, which lies in `[minValue, maxValue]`. |
| `SliderDragButton.Step` | src/components/common/DragButton/DragButton.jsx:77-145 | Each handler keeps the distance in `[0, maxDragDistance]` and zero while idle. A press records the origin. A move while dragging sets the distance to the clamped `startY - clientY`. An end while dragging fires exactly one callback and leaves the machine idle with distance 0. A move or an end while idle changes nothing and fires nothing. |
| `SliderDragButton.Run` | src/components/common/DragButton/DragButton.jsx:77-145 | Over any sequence of gestures the distance invariant holds. At most one callback fires per press, plus one if a drag was already active, so a drag is never reported twice. |
| `SliderDragButton.MoveUpRaisesDistance` | src/components/common/DragButton/DragButton.jsx:94-98 | Moving the pointer higher (smaller `clientY`) never shortens the distance. At or beyond the cap, the distance is the cap. |
| `SliderDragButton.SecondEndIsInert` | src/components/common/DragButton/DragButton.jsx:111-145 | Two ends in a row do what one end does. |
| `SliderDragButton.PressMoveRelease` | src/components/common/DragButton/DragButton.jsx:77-145 | Press, move up by any `d` and release from rest ends idle with exactly one callback, `Fired` of `d` clamped to `[0, maxDragDistance]`: `onClick(0)` below 5, else `onRelease` of the value that distance maps to. |
| `SliderDragButton.DownwardIsClick` | src/components/common/DragButton/DragButton.jsx:93-119 | A drag that moves down (or not at all) leaves the distance at 0, so the release reports `onClick(0)` and nothing else. |
| `SliderDragButton.HalfTravelReleasesFifty` | src/components/common/DragButton/DragButton.jsx:32-75 | With the defaults (travel 150, range 0 to 100) in "value" format, a 75-pixel drag shows 50.0 and releases with exactly 50. |
| `SliderDragButton.ButtonColor` | src/components/common/DragButton/DragButton.jsx:178 | The button shows one of its two colours. When they differ, it shows `activeBackgroundColor` exactly while dragging. |
| `SliderDragButton.ButtonRise` | src/components/common/DragButton/DragButton.jsx:181 | The button rises between 0 and `maxDragDistance` pixels, and 0 while idle. Its value after a move is given by `StylesFollowPointer`. |
| `SliderDragButton.BackgroundHeight` | src/components/common/DragButton/DragButton.jsx:170 | The track is exactly as tall as the button at its highest. |
| `SliderDragButton.ConnectorTop` | src/components/common/DragButton/DragButton.jsx:199-209 | The connector sits at the middle of the raised button on either side, between `buttonSize/2 - maxDragDistance` and `buttonSize/2`. |
| `SliderDragButton.TooltipTop` | src/components/common/DragButton/DragButton.jsx:191 | The tooltip is centred on the connector, half its height above it. At rest its top is `buttonSize/2 - tooltipHeight/2`. While dragging, `StylesFollowPointer` gives it as `buttonSize/2 - tooltipHeight/2 - dragDistance`. |
| `SliderDragButton.StylesFollowPointer` | src/components/common/DragButton/DragButton.jsx:174-191 | After a move while dragging, the button rises by the clamped pointer height above the origin, `rise`. The connector top is `buttonSize/2 - rise` and the tooltip top `buttonSize/2 - tooltipHeight/2 - rise`, the formulas of the button, connector and tooltip styles. |
| `SliderDragButton.TooltipSize` | src/components/common/DragButton/DragButton.jsx:187-190 | A circular tooltip has a fixed box, any other shape a minimum box. Either way the box is the configured width and height. |
| `SliderDragButton.TooltipText` | src/components/common/DragButton/DragButton.jsx:236-241 | At every distance the tooltip shows `CalculateValue` (`calculateValue()`) for the configured `valueFormat` and the state's `dragDistance`. At rest that is `minValue` ("value", within 0.05), `formatter(minValue)` ("custom") or 0% (any other format). At full travel it is `maxValue`, `formatter(maxValue)` or 100%. |
| `SliderDragButton.SliderButton.constructor` | src/components/common/DragButton/DragButton.jsx:48-51 | Mounting starts idle with distance 0, origin 0 and no callbacks fired. |
| `SliderDragButton.SliderButton.NumericValue` | src/components/common/DragButton/DragButton.jsx:72-75 | `getNumericValue` on the current state is in `[minValue, maxValue]`: `minValue` at rest and `maxValue` at full travel. In between it is linear in `dragDistance`. |
| `SliderDragButton.SliderButton.HandlePointerDown` | src/components/common/DragButton/DragButton.jsx:77-92 | Records `clientY` as the origin and starts dragging. The distance and the log are unchanged; the new state is `Step`'s. |
| `SliderDragButton.SliderButton.HandlePointerMove` | src/components/common/DragButton/DragButton.jsx:94-109 | While dragging, the distance becomes the clamped `startY - clientY`. Otherwise nothing changes. The new state and log are `Step`'s. |
| `SliderDragButton.SliderButton.HandlePointerUp` | src/components/common/DragButton/DragButton.jsx:111-145 | While dragging, appends `Fired(distance)` to the log, then stops dragging with distance 0. Otherwise nothing changes. |
| `SliderDragButton.DragAndReleaseTwice` | src/components/common/DragButton/DragButton.jsx:77-145 | Driving the class through press, a move by any `d`, release and release logs exactly one callback, `Fired` of `d` clamped to the travel, and leaves it at rest. |
| `BasicDragButton.Step` | src/components/DragButton.jsx:17-51 | A disabled button changes nothing and fires nothing. A press starts dragging and stores the offset inside the button (`clientX - rect.left`, `clientY - rect.top`); the same offset goes to `onDragStart`. A move never changes state and reports `client - offset` to `onDrag` exactly when dragging. Up or leave stops dragging and fires `onDragEnd`, active drag or not. |
| `BasicDragButton.Run` | src/components/DragButton.jsx:17-51 | Whatever events reach a disabled button, it ends in its starting state with no callback fired. |
| `BasicDragButton.RunIsBracketed` | src/components/DragButton.jsx:17-51 | When the host supplies `onDragStart` and `onDragEnd`, every `onDrag` in any event sequence falls between an `onDragStart` and the next `onDragEnd`. |
| `BasicDragButton.EndIsNotIdempotent` | src/components/DragButton.jsx:43-63 | A leave does exactly what a release does. Two ends in a row fire `onDragEnd` twice. |
| `BasicDragButton.PressMoveRelease` | tests/DragButton.test.jsx:41-70 | Press, move and release fire `onDragStart(offset)`, `onDrag(client - offset)` and `onDragEnd`, once each and in that order. |
| `BasicDragButton.BasicButton.constructor` | src/components/DragButton.jsx:14-15 | Starts not dragging at position (0, 0) with no callbacks fired. |
| `BasicDragButton.BasicButton.HandleDragStart` | src/components/DragButton.jsx:17-30 | Disabled: nothing changes. Otherwise dragging starts, `position` is the offset inside the bounding box, and `onDragStart` gets that same offset if supplied. |
| `BasicDragButton.BasicButton.HandleDrag` | src/components/DragButton.jsx:32-41 | `isDragging` and `position` are unchanged. `onDrag(client - position)` is logged exactly when dragging, enabled and supplied. |
| `BasicDragButton.BasicButton.HandleDragEnd` | src/components/DragButton.jsx:43-51 | Disabled: nothing changes. Otherwise dragging stops, with or without an active drag, and `onDragEnd` is logged if supplied. |
| `BasicDragButton.Mount` | src/components/DragButton.jsx:53-55 | Rendering fails with the missing-children error exactly when `children` is falsy. Otherwise it yields a fresh button at rest. |
| `BasicDragButton.PressDisabled` | tests/DragButton.test.jsx:13-26 | Pressing a disabled button fires no `onDragStart` and starts no drag. |
| `BasicDragButton.MountWithoutChildren` | tests/DragButton.test.jsx:28-39 | Rendering without children fails. |
| `BasicDragButton.PressMoveReleaseButton` | tests/DragButton.test.jsx:41-70 | Driving the class through press, move and release logs start, drag and end once each, in order, and ends not dragging. |

## Left out

- Rendering: JSX, class-name strings, `px` and `translateY(...)` string building, the `'%'` suffix, the text and hover colours, and which side the connector is anchored on. Only the numbers behind the styles are modelled.
- Document-level `addEventListener` and `removeEventListener`, and `preventDefault`, are not modelled. In the source, the `useEffect` cleanup also removes touch listeners that were never added, and `handleTouchEnd` removes none.
- React semantics: state updates that land on the next render, and handler closures. The slider's document listeners are added in `handleMouseDown`. They keep the `handleMouseMove` and `handleMouseUp` of a render in which `isDragging` was still false. The model runs every handler against the current state instead. In the source as written, mouse presses therefore alternate. An odd press (the first, third, ...) adds handlers that captured `isDragging == false`, so that drag neither moves nor fires. It also leaves `isDragging` stuck at true, so the button keeps its active colour until the next release. An even press adds handlers that captured `isDragging == true` and `dragDistance == 0`. The button then moves, since the origin is a ref, but the release always calls `onClick(0)` and resets `isDragging` to false. Touch handlers are React props, re-bound every render, and are unaffected.
- Mouse and touch handlers are one method each, since they differ only in `preventDefault` and listener plumbing. `e.touches[0]` is assumed to exist. Multi-touch is not modelled.
- `customValueFormatter` is a total function parameter of `CalculateValue`. It cannot throw or have side effects, and the class does not hold it.
- Host callbacks that throw are not modelled. In the slider, `onClick` and `onRelease` run before the state is reset, so a throwing callback would leave the drag active.
- IEEE floating point (rounding error, `NaN`, infinities): numbers are exact reals. So `NaN` children are not among the falsy values in `Truthy`, and division by a zero `maxDragDistance` is excluded by `Config.Sound`.
- The basic button's remaining props: `className`, the spread `...props`, and the `disabled` attribute on the rendered `<button>`. Only the handlers' `disabled` guard is modelled.
- The example app, the story catalogues and the build configuration are not part of this model. They only instantiate the component.
