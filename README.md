# Time-frame slider dial, modelled in Dafny

The time-frame slider widget shows historical periods as dots on a circular dial. This project models the logic behind that dial. It has three parts.

- **Point calculator** (`calculateCoordinates`). It takes a dot count and a dot index. It runs three ordered guard clauses, each throwing its own error. It then places the dot at `(360 / count) * index` degrees on a circle of radius 265 px. The module is `Coordinates`, in `coordinates.dfy`.
- **Rotation state machine** (`TimeFrameSlider`). It holds the active period, the rotation handed to the dial and the previous rotation (a mutable ref). Next and previous wrap round. A dot click selects a period directly. After every change, an effect turns the dial the short way round to the new period's target `-60 - p * (360 / n)`. The module is `Slider`, in `slider.dfy`; the widget is the class `TimeFrameSlider`.
- **Dial view** (`CircleTimeline`). It renders one dot per period at the calculator's position, marks the active dot and reports a click's index. Its effect turns the circle to the rotation and every dot back by the same amount, so the labels stay level. The module is `Timeline`, in `timeline.dfy`; the refs and the effect are the class `TimelineRefs`.

Supporting modules:
- `DialConstants` holds the constants of `model/constants.ts`.
- `TimePeriod` holds the period entity.
- `Text` models `String(k)` and `padStart` for the pagination text and the dot labels.
- `Results` holds the `Result` type that stands for "returns or throws".

Modelling choices:
- All angles are whole degrees. For every accepted count (2 to 6), `360 / count` is an integer.
- JavaScript's `Math.round(d / 360)` rounds halves upwards. For an integer `d` it equals `(d + 180) / 360` with floor division. `Slider.RoundTurns` is stated against that definition.
- `Math.cos` and `Math.sin` are foreign calls. They come in as a `Trig` parameter of two functions on degrees. The facts about the circle are proved for any pair obeying `TrigLaws`: sin² + cos² = 1, plus the exact values at 0, 90, 180 and 270 degrees.
- A React effect is one synchronous step after the state change that triggers it. The handlers call `SyncRotation` themselves.

Two edge cases that the code decides and its comments leave open:
- The dial turns at most half a turn, and the window is half-open. The adjusted rotation lies in `[prev - 180, prev + 180)`. With two periods, both next and previous turn the dial by -180 degrees. A half turn is a tie that `Math.round` resolves upwards.
- Rendering does not always throw outside 2 to 6 periods. An empty period list renders no dots and throws nothing, because `map` over an empty array never calls the calculator.

## Model

| member | source | states |
|---|---|---|
| `Coordinates.AngleDegrees` | src/widgets/TimeFrameSlider/lib/utils/calculateCoordinates/calculateCoordinates.ts:47 | The angle of dot i out of n is exactly i / n of a full turn: n · angle = 360 · i. `Coordinates.AngleInTurn`, `Coordinates.EvenSpacing` and `Coordinates.AnglesDistinct` state its range and spacing. |
| `Coordinates.CalculateCoordinates` | src/widgets/TimeFrameSlider/lib/utils/calculateCoordinates/calculateCoordinates.ts:27-57 | Succeeds exactly when 2 ≤ count ≤ 6 and 0 ≤ index < count. A bad count always gives the count error, because it is checked first. With a good count, an index outside 0..5 gives the range error, even when it is also ≥ count. An index in 0..5 but ≥ count gives the "less than count" error. A success is the point (265·cos θ, 265·sin θ), where θ = (360 / count) · index. |
| `Coordinates.TestedCases` | src/widgets/TimeFrameSlider/lib/utils/calculateCoordinates/calculateCoordinates.spec.ts:8-137 | Each input the tests name gets its error: (0,0), (-1,0), (1,0) and (7,0) the count error; (4,-1) and (6,6) the range error; (3,3) and (2,4) the count-bound error. Every 2 ≤ n ≤ 6, 0 ≤ i < n succeeds. |
| `Coordinates.StepDividesTurn` | src/widgets/TimeFrameSlider/lib/utils/calculateCoordinates/calculateCoordinates.ts:47 | For every accepted count the step 360 / count is positive and count steps make exactly one turn. |
| `Coordinates.AngleInTurn` | src/widgets/TimeFrameSlider/lib/utils/calculateCoordinates/calculateCoordinates.ts:47 | Dot 0 is at angle 0 (the positive x-axis), and every dot's angle lies in [0, 360). |
| `Coordinates.EvenSpacing` | src/widgets/TimeFrameSlider/lib/utils/calculateCoordinates/calculateCoordinates.ts:47 | Consecutive dots are exactly 360 / count degrees apart; count such gaps make a full turn. |
| `Coordinates.AnglesDistinct` | src/widgets/TimeFrameSlider/lib/utils/calculateCoordinates/calculateCoordinates.ts:47 | Different indices on one dial get different angles. |
| `Coordinates.OnCircle` | src/widgets/TimeFrameSlider/lib/utils/calculateCoordinates/calculateCoordinates.ts:50-54 | Every point returned is at distance 265 from the centre: x² + y² = 265². |
| `Coordinates.FirstDotOnXAxis` | src/widgets/TimeFrameSlider/lib/utils/calculateCoordinates/calculateCoordinates.spec.ts:62-66 | For every accepted count, dot 0 is the point (265, 0). |
| `Coordinates.OppositeDot` | src/widgets/TimeFrameSlider/lib/utils/calculateCoordinates/calculateCoordinates.spec.ts:68-71 | For an even count, dot count/2 is at 180 degrees, the point (-265, 0). |
| `Coordinates.FourDots` | src/widgets/TimeFrameSlider/lib/utils/calculateCoordinates/calculateCoordinates.spec.ts:74-96 | A four-dot dial places its dots at (R,0), (0,R), (-R,0) and (0,-R). |
| `Slider.NextPeriod` | src/widgets/TimeFrameSlider/ui/TimeFrameSlider/TimeFrameSlider.tsx:104-106 | Next stays in [0, n). It is p + 1, except that the last period wraps to 0. |
| `Slider.PrevPeriod` | src/widgets/TimeFrameSlider/ui/TimeFrameSlider/TimeFrameSlider.tsx:96-98 | Previous stays in [0, n). It is p - 1, except that period 0 wraps to n - 1. |
| `Slider.NextPrevInverse` | src/widgets/TimeFrameSlider/ui/TimeFrameSlider/TimeFrameSlider.test.tsx:56-70 | Previous after next, and next after previous, return to the original period. |
| `Slider.NextTimesShifts` | src/widgets/TimeFrameSlider/ui/TimeFrameSlider/TimeFrameSlider.tsx:104-106 | Pressing next k times moves to (p + k) mod n. |
| `Slider.FullCycle` | src/widgets/TimeFrameSlider/ui/TimeFrameSlider/TimeFrameSlider.tsx:104-106 | Pressing next n times returns to the starting period. |
| `Slider.TargetRotation` | src/widgets/TimeFrameSlider/ui/TimeFrameSlider/TimeFrameSlider.tsx:53 | The raw target for period p: adding it to dot p's calculated angle gives exactly the active position, -60 degrees. `Slider.TargetBringsDotToActivePosition` extends this to every equivalent rotation. |
| `Slider.TargetBringsDotToActivePosition` | src/widgets/TimeFrameSlider/ui/TimeFrameSlider/TimeFrameSlider.tsx:53 | Any rotation equivalent to the raw target `-60 - p * (360 / n)` brings dot p, as the calculator placed it, to the active position of -60 degrees. |
| `Slider.RoundTurns` | src/widgets/TimeFrameSlider/ui/TimeFrameSlider/TimeFrameSlider.tsx:56 | The rounded quotient r satisfies 360r - 180 ≤ d < 360r + 180. |
| `Slider.RoundTurnsIsNearest` | src/widgets/TimeFrameSlider/ui/TimeFrameSlider/TimeFrameSlider.tsx:56 | The rounded quotient is within one half of d / 360, with a tie going up, as `Math.round` does. |
| `Slider.AdjustedTarget` | src/widgets/TimeFrameSlider/ui/TimeFrameSlider/TimeFrameSlider.tsx:55-56 | The adjusted target is equivalent to the raw target mod 360, and the turn from the previous rotation lies in [-180, 180). |
| `Slider.AdjustedTargetUnique` | src/widgets/TimeFrameSlider/ui/TimeFrameSlider/TimeFrameSlider.tsx:55-56 | Any rotation that is equivalent to the target and lies within [prev - 180, prev + 180) is the adjusted target. |
| `Slider.AdjustedTargetNearest` | src/widgets/TimeFrameSlider/ui/TimeFrameSlider/TimeFrameSlider.tsx:48-56 | No rotation equivalent to the target is closer to the previous rotation: the dial takes the short way. |
| `Slider.AdjustedTargetFixpoint` | src/widgets/TimeFrameSlider/ui/TimeFrameSlider/TimeFrameSlider.tsx:55-59 | If the previous rotation is already equivalent to the target, adjusting returns it unchanged. |
| `Slider.HalfTurnGoesNegative` | src/widgets/TimeFrameSlider/ui/TimeFrameSlider/TimeFrameSlider.tsx:55-56 | A target exactly half a turn away from the previous rotation, such as dot 3 of six clicked from a dial settled on dot 0, is reached by turning -180 degrees: `Math.round` takes the tie up. |
| `Slider.NextTurnsOneStep` | src/widgets/TimeFrameSlider/ui/TimeFrameSlider/TimeFrameSlider.tsx:52-60 | From a settled dial, the effect after next turns the dial by exactly -(360 / n) degrees, the wrap from the last period included. |
| `Slider.PrevTurnsOneStep` | src/widgets/TimeFrameSlider/ui/TimeFrameSlider/TimeFrameSlider.tsx:52-60 | From a settled dial, the effect after previous turns it by +(360 / n). With two periods the half-turn tie turns it by -180. |
| `Slider.MountRotation` | src/widgets/TimeFrameSlider/ui/TimeFrameSlider/TimeFrameSlider.tsx:31-60 | The first effect, from rotation 0 with period 0 active, settles on -60, the active position. |
| `Slider.TimeFrameSlider.constructor` | src/widgets/TimeFrameSlider/ui/TimeFrameSlider/TimeFrameSlider.tsx:31-33 | The widget starts at period 0 with rotation 0 and previous rotation 0. |
| `Slider.TimeFrameSlider.SyncRotation` | src/widgets/TimeFrameSlider/ui/TimeFrameSlider/TimeFrameSlider.tsx:52-60 | Rotation and previous rotation both become the adjusted target, so the dial shows the active period at the active position. The turn lies in [-180, 180). Re-running the effect on a settled dial changes nothing. |
| `Slider.TimeFrameSlider.HandleNext` | src/widgets/TimeFrameSlider/ui/TimeFrameSlider/TimeFrameSlider.tsx:104-106 | The active period becomes the next one. The dial settles again, turned by exactly -(360 / n). |
| `Slider.TimeFrameSlider.HandlePrev` | src/widgets/TimeFrameSlider/ui/TimeFrameSlider/TimeFrameSlider.tsx:96-98 | The active period becomes the previous one. The dial settles again, turned by +(360 / n), or by -180 with two periods. |
| `Slider.TimeFrameSlider.SelectPeriod` | src/widgets/TimeFrameSlider/ui/TimeFrameSlider/TimeFrameSlider.tsx:120-125 | `onPeriodChange` makes the given period active. The dial settles on the adjusted target for it, turning at most half a turn (a half turn goes the negative way), or not at all when the period was already active. |
| `Slider.TimeFrameSlider.Pagination` | src/widgets/TimeFrameSlider/ui/TimeFrameSlider/TimeFrameSlider.tsx:128-131 | The pagination text is "0" plus the digit of the one-based period, then "/0" plus the digit of the period count, as in "01/06". |
| `Text.DecimalString` | src/widgets/TimeFrameSlider/ui/TimeFrameSlider/TimeFrameSlider.tsx:129 | `String(k)` is a non-empty string of decimal digits. It is one character long exactly when k < 10. It starts with "0" only for k = 0: there is no leading zero. |
| `Text.DecimalRoundTrip` | src/widgets/TimeFrameSlider/ui/TimeFrameSlider/TimeFrameSlider.tsx:129-130 | Reading the digits of `String(k)` back gives k. |
| `Text.PadStart` | src/widgets/TimeFrameSlider/ui/TimeFrameSlider/TimeFrameSlider.tsx:129-130 | `padStart` keeps the string as its suffix and reaches the requested width. Everything in front of the string is the fill character. |
| `Timeline.PointPositions` | src/widgets/TimeFrameSlider/ui/CircleTimeline/CircleTimeline.tsx:100-104 | Succeeds exactly when there is no index to place or the count is in 2..6. Otherwise it fails with the count error. On success, position i is the calculator's result for (count, i). |
| `Timeline.AriaLabel` | src/widgets/TimeFrameSlider/ui/CircleTimeline/CircleTimeline.tsx:138 | The accessible name of dot i is "Period ", then a decimal number that reads back as i + 1, then ": " and the period's label. `Timeline.DotsMatchPeriods` states that each dot carries it. |
| `Timeline.Layout` | src/widgets/TimeFrameSlider/ui/CircleTimeline/CircleTimeline.tsx:117-146 | Rendering throws exactly when a non-empty period list has a count outside 2..6. Otherwise there is one dot per period, and dot i sits at the calculator's position for (count, i). |
| `Timeline.ExactlyOneActive` | src/widgets/TimeFrameSlider/ui/CircleTimeline/CircleTimeline.tsx:128-139 | When the active index names a period, exactly that dot is active and has aria-current "true". Otherwise no dot is active. Every other dot has aria-current "false". |
| `Timeline.DotsMatchPeriods` | src/widgets/TimeFrameSlider/ui/CircleTimeline/CircleTimeline.tsx:110-141 | Dot i shows i + 1 and is keyed and labelled by period i. Clicking it reports exactly i, a valid period index. |
| `Timeline.StoreAt` | src/widgets/TimeFrameSlider/ui/CircleTimeline/CircleTimeline.tsx:125-127 | Storing into the ref array puts the element at the index, grows the array if needed and leaves every other slot as it was; new slots are empty. |
| `Timeline.TimelineRefs.constructor` | src/widgets/TimeFrameSlider/ui/CircleTimeline/CircleTimeline.tsx:64-68 | The circle ref starts empty and the dot array starts empty. |
| `Timeline.TimelineRefs.AttachCircle` | src/widgets/TimeFrameSlider/ui/CircleTimeline/CircleTimeline.tsx:118 | The circle's ref callback stores its element. |
| `Timeline.TimelineRefs.AttachPoint` | src/widgets/TimeFrameSlider/ui/CircleTimeline/CircleTimeline.tsx:125-127 | A dot's ref callback stores its element, or null, at its index. |
| `Timeline.TimelineRefs.ApplyRotation` | src/widgets/TimeFrameSlider/ui/CircleTimeline/CircleTimeline.tsx:74-94 | The circle is driven to the rotation and every stored dot to its negative. Empty slots are skipped, and each label's net rotation is zero. |

## Left out

- Animation: GSAP tween durations and easing, `gsap.context` and `revert`, and the year counters (TimeFrameSlider.tsx:62-90). These are time-driven foreign calls. Only the rotation values handed to `gsap.to` are modelled.
- Floating point: `Math.cos` and `Math.sin` are parameters. Their floating-point values are close to, but not equal to, the exact values `TrigLaws` assumes; the tests compare with a tolerance.
- Non-integer arguments: `calculateCoordinates` also accepts fractional or NaN numbers. Its only caller passes an array length and an index, so counts and indices are integers here.
- Precision: rotations are unbounded integers. JavaScript numbers keep them exact only up to 2^53 degrees of accumulated turning.
- React mechanics: rendering, `memo`, `useMemo`, `useCallback` and effect scheduling are not modelled. Each effect is one synchronous step.
- Slider.TimeFrameSlider.constructor: requires 2 to 6 periods. With 1 or with 7 or more periods, `CircleTimeline` throws while rendering. With 0 periods, the widget's own render reads a field of `undefined` (`currentPeriod` at TimeFrameSlider.tsx:44 and 114). Either way the widget never becomes interactive.
- Slider.TimeFrameSlider.HandleNext: requires a settled dial (`Synced`). User input arrives only after the mount effect has run.
- Slider.TimeFrameSlider.HandlePrev: requires a settled dial, for the same reason as `HandleNext`.
- Slider.TimeFrameSlider.SelectPeriod: requires a settled dial and an index that names a period. `setActivePeriod` accepts any number, but its only caller is a dot click, which reports a valid index (`Timeline.DotsMatchPeriods`).
- Presentation: the centre year display, the period label, the `left`/`top` style strings and the class names are not modelled beyond the `active` flag.
- The events carousel, the button and the card are presentational components over third-party libraries.
- `ACTIVE_POSITION_DEGREES` (model/constants.ts:35) is used only by the component's stories. The slider uses its own copy, `ACTIVE_POSITION_ANGLE`, with the same value -60, so only that copy is modelled.
- The period list is a parameter. The static mock data only fixes six periods.
- Period events are carried in the `Period` datatype but never inspected.
