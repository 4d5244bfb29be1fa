# carousel-3d: selection and animation core

A Dafny model of the state logic behind the 3D card carousel of
`baunov/carousel-3d`. The DOM, trigonometry and CSS output are not part of it.
The model has three modules.

- `JsMath` (`js_math.dfy`) holds the pieces of JavaScript number arithmetic the
  carousel uses, over exact reals: `Math.PI`, `Math.abs`, `Math.min` and the
  `%` operator. `%` is modelled as JavaScript defines it, as the remainder of a
  quotient truncated toward zero.
- `Smooth` (`smooth.dfy`) models `smooth(initialValue, smoothFactor,
  stopThreshold)`. The closure it returns becomes the class `SmoothedFn`. Its
  field `prev` is the captured `prevValue`, and its method `Step` is one call of
  the closure. `Step` is specified by the pure function `NextValue`. Lemmas about
  `NextValue` prove:
  - the snap rule;
  - staying on the target;
  - no overshoot;
  - convergence within an explicit number of steps;
  - that one step over two frames ends no farther from the target than two
    one-frame steps.
- `CarouselCore` (`carousel.dfy`) models the `Carousel` class as the Dafny class
  `Carousel`.
  - Each card keeps only its `active` class and its `willChange` hint.
  - The four smoothing channels are `SmoothedFn` objects.
  - The constructor, the `radius` and `activeIndex` accessors,
    `getTargetRotationAngleDelta`, the non-trigonometric part of `update`, and
    the time bookkeeping of `onEnterFrame` and `start` are modelled.
  - `update` returns a `Frame`, which stands in for what it renders. A `Frame`
    holds the four channel values and every card's angle on the circle.
  - The object invariant `Valid` says:
    - the cards match the images;
    - the card spacing is positive and spans at most a full turn;
    - exactly the card at `activeIndex` is active, and that card carries no
      hint;
    - every card's hint has been set.

The comment at src/carousel.ts:118 gives the rotation delta's range as
"-Math.PI to Math.PI". The code only corrects deltas strictly greater than π or
strictly less than -π, so both ends are reached and the range is the closed
[-π, π]. `HalfTurnBack` shows both ends with twenty cards and the default
minimum spacing. There the cards share the full turn and card 10 sits half a
turn from card 0. Going from card 10 back to card 0 rotates by exactly -π, and
going from card 0 to card 10 by exactly π.

## Model

| member | source | states |
|---|---|---|
| JsMath.Abs | src/utils/smooth.ts:9 | `Math.abs`: the result is non-negative and is the argument or its negation |
| JsMath.Min | src/carousel.ts:59 | `Math.min`: the result is at most both arguments and is one of them |
| JsMath.Trunc | src/carousel.ts:113-114 | the quotient used by `%` is rounded toward zero: for a non-negative quotient it lies in (q-1, q], otherwise in [q, q+1) |
| JsMath.Rem | src/carousel.ts:113-114 | `%` on numbers: the remainder takes the sign of the dividend, is smaller in magnitude than the divisor, and differs from the dividend by a whole multiple of the divisor |
| JsMath.RemOfSmaller | src/carousel.ts:113-114 | a dividend in [0, divisor) is its own remainder |
| Smooth.Candidate | src/utils/smooth.ts:7-8 | the candidate keeps the fraction `1 - frames·multiplier` of the distance to the target |
| Smooth.NextValue | src/utils/smooth.ts:7-11 | snap rule: the value equals the target exactly when the candidate `prev + (target - prev)·frames/smoothFactor` lies within the threshold of it, and otherwise it is that candidate |
| Smooth.SmoothedFn.constructor | src/utils/smooth.ts:3-5 | the first step starts from `initialValue`; the tuning is kept; the multiplier is `1/smoothFactor`, so multiplier times smoothFactor is 1 |
| Smooth.SmoothedFn.Step | src/utils/smooth.ts:6-14 | returns `NextValue` of the stored value; stores exactly the returned value; `done` holds exactly when the value equals the target passed in |
| Smooth.NoFramesNoMove | src/utils/smooth.ts:7-11 | with zero frames the value stays at `prev` unless `prev` is already within the threshold, in which case it becomes the target |
| Smooth.StaysAtTarget | src/utils/smooth.ts:7-13 | with a non-negative threshold, stepping from the target toward the same target returns the target (so `done` is true and the state is unchanged) |
| Smooth.Iterate | src/utils/smooth.ts:6-14 | repeated calls with one target and frame count, each moving by a share of at most the whole distance and with a non-negative threshold, never end farther from the target than they started |
| Smooth.IterateAtTarget | src/utils/smooth.ts:7-13 | any number of further steps from the target stays on the target |
| Smooth.NoOvershoot | src/utils/smooth.ts:7-11 | for `0 ≤ frames ≤ smoothFactor` a step lands between the previous value and the target, so the distance to the target does not grow |
| Smooth.StepBound | src/utils/smooth.ts:7-13 | the bound on the number of single-frame steps is at least one |
| Smooth.StepShrinksBound | src/utils/smooth.ts:7-11 | a single-frame step that does not snap lowers the step bound by at least one |
| Smooth.Converges | src/utils/smooth.ts:7-13 | with a fixed target, one frame per call, `smoothFactor > 1` and a positive threshold, the value is exactly the target after `StepBound` calls or more |
| Smooth.TwoFramesAtOnce | src/utils/smooth.ts:7-11 | for `smoothFactor ≥ 2`, one call over two frames ends no farther from the target than two calls over one frame each |
| CarouselCore.AnglePerCard | src/carousel.ts:59-60 | `anglePerCard = min(CIRCLE/N, minAnglePerCard ?? CIRCLE/17)`: at most both, equal to one of them, `anglePerCard·N ≤ CIRCLE`, and positive when the minimum is |
| CarouselCore.FramesDelta | src/carousel.ts:129 | elapsed milliseconds divided by the 60 Hz frame interval: the frames times the interval give back the elapsed time |
| CarouselCore.Option.OrElse | src/carousel.ts:59 | the `??` operator: a present value is returned, otherwise the fallback |
| CarouselCore.BaseAngle | src/carousel.ts:113-114 | a card's base angle modulo `totalAngle`: for a non-negative position and spacing it lies in [0, totalAngle) |
| CarouselCore.TargetRotationAngleDelta | src/carousel.ts:112-126 | for non-negative indices and spacing and `0 < totalAngle ≤ CIRCLE` the delta lies in [-π, π]; for equal indices it is 0 |
| CarouselCore.BaseAngleInRange | src/carousel.ts:113-114 | a card's base angle `i·anglePerCard` lies in [0, totalAngle), so `%` leaves it unchanged |
| CarouselCore.ShortestRotation | src/carousel.ts:112-126 | for both indices in [0, N) the delta lies in [-π, π], differs from `targetAngle - currentAngle` by exactly 0, -CIRCLE or +CIRCLE, and is 0 for the active index |
| CarouselCore.HalfTurnBack | src/carousel.ts:119-123 | the range is closed: with twenty cards and the default minimum, `anglePerCard` is `CIRCLE/20`; selecting card 0 from card 10 gives exactly -π and card 10 from card 0 exactly π |
| CarouselCore.SelectionRealigns | src/carousel.ts:103-105 | if the rotation target showed the old card's base angle up to whole turns, adding the delta shows the new card's base angle up to whole turns |
| CarouselCore.ActiveCount | src/carousel.ts:94-102 | the number of cards carrying `active` is at most the number of cards |
| CarouselCore.ExactlyOneActive | src/carousel.ts:94-102 | when exactly the card at `index` is active, the count of active cards is one |
| CarouselCore.Carousel.constructor | src/carousel.ts:49-75 | `activeIndex = 0` and `activeAngleOffset = 0`; card 0 active with no hint and all others inactive with the transform hint; the target radius and the radius channel's start both equal `settings.radius`; the four channels are new objects with the source's start values, smoothing factors, thresholds and multipliers `1/20`, `1/40`, `1/40`, `1/15`; `anglePerCard` is `AnglePerCard` |
| CarouselCore.Carousel.Radius | src/carousel.ts:81-83 | the getter returns the target radius `_tgRadius`, not the radius channel's animated value |
| CarouselCore.Carousel.SetRadius | src/carousel.ts:77-83 | only `_tgRadius` changes, and the getter then returns the new target rather than the animated radius |
| CarouselCore.Carousel.SetActiveIndex | src/carousel.ts:93-106 | card `index` is active with hint `unset` and every other card is inactive with hint `transform`, so exactly one card is active; `activeIndex` becomes `index`; `activeAngleOffset` grows by the delta, which lies in [-π, π]; re-selecting the active index leaves the offset unchanged |
| CarouselCore.Carousel.ActiveIndex | src/carousel.ts:108-110 | on a valid carousel the getter names the one active card, which carries no hint, and no other card is active |
| CarouselCore.Carousel.MarkSelected | src/carousel.ts:94-102 | the per-card loop of the setter leaves every card marked as the selection of `index` requires, with one card active |
| CarouselCore.Carousel.RotateTo | src/carousel.ts:103-105 | the offset grows by the delta from the old index to `index`, and `index` is recorded |
| CarouselCore.Carousel.GetTargetRotationAngleDelta | src/carousel.ts:112-126 | the returned delta lies in [-π, π] and is 0 when the target is the active index |
| CarouselCore.Carousel.Update | src/carousel.ts:128-175 | each channel steps by `deltaTime / FRAME_INTERVAL` frames toward its target, and the angle target is `activeAngleOffset` plus the new angle offset; card `i` sits at `curActiveAngle - i·anglePerCard`; hints all become `unset` exactly when all four channels report done in this call and are otherwise untouched; the object invariant is kept |
| CarouselCore.Carousel.CardAngles | src/carousel.ts:137-141 | one angle per card, card `i` at `curActiveAngle - i·anglePerCard` |
| CarouselCore.Carousel.ClearHints | src/carousel.ts:171-173 | every card's hint becomes `unset` and its `active` flag is kept |
| CarouselCore.Carousel.OnEnterFrame | src/carousel.ts:177-180 | runs one update with the time elapsed since the previous frame, then remembers this frame's time |
| CarouselCore.Carousel.Start | src/carousel.ts:85-87 | runs the first frame at time 0 |

## Left out

- The DOM is left out. That covers `createCarouselCard`, `innerHTML`, `appendChild`, `querySelector`, the click listeners and the container (src/carousel.ts:4-17, 63-68). A card is reduced to its `active` class and its `willChange` value.
- The trigonometry and CSS output of `update` are left out (src/carousel.ts:138-140, 143-166). These are `getPointOnCircle`, `Math.sin`/`Math.cos`, the transform, opacity and z-index strings, and `Math.round`. `update` returns the channel values and card angles those lines consume.
- src/utils/get-point-on-circle.ts and src/main.ts are not part of this model.
- `requestAnimationFrame` and `cancelAnimationFrame` are left out (src/carousel.ts:182-184). So are the `animationFrame` field and `stop`, whose only effect is to cancel that scheduling. The frame time is a parameter of `OnEnterFrame`.
- `console.log` is left out (src/carousel.ts:170).
- IEEE-754 behaviour is left out: rounding, `Infinity` and `NaN`. Numbers are exact reals. `Math.PI` is the real 3.141592653589793.
- The willChange hint has three values. `Auto` stands for the untouched DOM default before the constructor's first selection.
- Smooth.SmoothedFn.constructor: requires `smoothFactor ≠ 0`. In the source, a zero `smoothFactor` gives an infinite multiplier, and reals cannot express that.
- CarouselCore.Carousel.constructor: requires at least one image, because the source fails at `cards[0]` without one. It also requires a given `minAnglePerCard` to be positive, which the carousel's spacing relies on.
- CarouselCore.Carousel.SetActiveIndex: requires `index` in [0, N). The source does not check it, but its only callers, the click listeners and the constructor, pass valid indices.
- CarouselCore.Carousel.Update: requires the object invariant. Its only caller, `onEnterFrame`, runs on a constructed carousel.
