/** The selection and animation state of the `Carousel` class in
    src/carousel.ts, without the DOM: which card is active, the rendering hint
    each card carries, the accumulated rotation target, the target radius, the
    frame clock and the four smoothing channels that animate radius, depth
    offset, angle offset and the active angle. */
module CarouselCore {
  import opened JsMath
  import opened Smooth

  /** A full turn. */
  const CIRCLE: real := PI * 2.0
  /** Nominal frame rate and the interval of one frame, in milliseconds. */
  const FPS: real := 60.0
  const FRAME_INTERVAL: real := 1000.0 / FPS
  /** The depth the z-offset channel settles at. */
  const Z_OFFSET: real := 700.0
  /** The angle the angle-offset channel settles at. */
  const ANGLE_OFFSET: real := PI / 2.0
  /** The per-card angle used when the settings give no minimum. */
  const DEFAULT_MIN_ANGLE_PER_CARD: real := CIRCLE / 17.0

  /** An optional setting. */
  datatype Option<T> = None | Some(value: T) {
    /** The `??` operator: the value if present, else the fallback. */
    function OrElse(fallback: T): (r: T)
      ensures Some? ==> r == value
      ensures None? ==> r == fallback
    {
      match this
      case Some(v) => v
      case None => fallback
    }
  }

  /** The constructor's settings: the initial radius and an optional minimum
      angle between neighbouring cards. */
  datatype Settings = Settings(radius: real, minAnglePerCard: Option<real>)

  /** The value of a card's `style.willChange`: `Auto` is the untouched
      default, `Unset` drops the compositing hint, `Transform` asks for it. */
  datatype Hint = Auto | Unset | Transform

  /** What the model keeps of a card element: whether it carries the `active`
      class, and its rendering hint. */
  datatype Card = Card(active: bool, willChange: Hint)

  /** The values one update computes for rendering: the four channel values
      and the angle of every card on the circle. */
  datatype Frame = Frame(zOffset: real, angleOffset: real, curActiveAngle: real, radius: real, angles: seq<real>)

  /** The angle between neighbouring cards: a full turn shared among the
      cards, but never more than the configured (or default) minimum. */
  function AnglePerCard(cardsCount: nat, minAnglePerCard: Option<real>): (r: real)
    requires cardsCount >= 1
    ensures r <= CIRCLE / cardsCount as real && r <= minAnglePerCard.OrElse(DEFAULT_MIN_ANGLE_PER_CARD)
    ensures r == CIRCLE / cardsCount as real || r == minAnglePerCard.OrElse(DEFAULT_MIN_ANGLE_PER_CARD)
    ensures r * cardsCount as real <= CIRCLE
    ensures (minAnglePerCard.Some? ==> minAnglePerCard.value > 0.0) ==> 0.0 < r && 0.0 < r * cardsCount as real
  {
    var share := CIRCLE / cardsCount as real;
    var r := Min(share, minAnglePerCard.OrElse(DEFAULT_MIN_ANGLE_PER_CARD));
    assert r * cardsCount as real <= CIRCLE by {
      assert share * cardsCount as real == CIRCLE;
      MulLessEq(r, share, cardsCount as real);
    }
    assert r > 0.0 ==> 0.0 < r * cardsCount as real by {
      if r > 0.0 {
        MulLess(0.0, r, cardsCount as real);
      }
    }
    r
  }

  /** Elapsed milliseconds measured in nominal 60 Hz frames. */
  function FramesDelta(deltaTime: real): (frames: real)
    ensures frames * FRAME_INTERVAL == deltaTime
  {
    deltaTime / FRAME_INTERVAL
  }

  /** `getTargetRotationAngleDelta`: the rotation that brings the card at
      `targetIndex` to where the card at `activeIndex` is, normalised by at
      most one full turn toward the range [-PI, PI]. */
  function TargetRotationAngleDelta(activeIndex: int, targetIndex: int, anglePerCard: real, totalAngle: real): (r: real)
    requires totalAngle != 0.0
    ensures activeIndex >= 0 && targetIndex >= 0 && anglePerCard >= 0.0 && 0.0 < totalAngle <= CIRCLE ==> -PI <= r <= PI
    ensures activeIndex == targetIndex ==> r == 0.0
  {
    var currentAngle := BaseAngle(activeIndex, anglePerCard, totalAngle);
    var targetAngle := BaseAngle(targetIndex, anglePerCard, totalAngle);
    var deltaAngle := targetAngle - currentAngle;
    if deltaAngle > PI then deltaAngle - CIRCLE
    else if deltaAngle < -PI then deltaAngle + CIRCLE
    else deltaAngle
  }

  /** A card's base angle `index * anglePerCard`, reduced by `%` modulo the
      angle all cards span. For a card at a non-negative position it lies in
      [0, totalAngle). */
  function BaseAngle(index: int, anglePerCard: real, totalAngle: real): (a: real)
    requires totalAngle != 0.0
    ensures index >= 0 && anglePerCard >= 0.0 && 0.0 < totalAngle ==> 0.0 <= a < totalAngle
  {
    assert index >= 0 && anglePerCard >= 0.0 ==> index as real * anglePerCard >= 0.0 by {
      if index >= 0 && anglePerCard >= 0.0 {
        MulNonNeg(index as real, anglePerCard);
      }
    }
    Rem(index as real * anglePerCard, totalAngle)
  }

  /** For cards of the carousel, the remainder is the identity: a card's base
      angle lies in [0, totalAngle). */
  lemma BaseAngleInRange(index: int, cardsCount: nat, anglePerCard: real)
    requires 0 <= index < cardsCount && anglePerCard > 0.0
    ensures 0.0 <= index as real * anglePerCard < anglePerCard * cardsCount as real
    ensures Rem(index as real * anglePerCard, anglePerCard * cardsCount as real) == index as real * anglePerCard
  {
    MulLess(index as real, cardsCount as real, anglePerCard);
    MulLessEq(0.0, index as real, anglePerCard);
    assert cardsCount as real * anglePerCard == anglePerCard * cardsCount as real;
    RemOfSmaller(index as real * anglePerCard, anglePerCard * cardsCount as real);
  }

  /** Shortest rotation: between two cards of a carousel whose cards span at
      most a full turn, the delta lies in [-PI, PI] and differs from the
      difference of the base angles by no turn, or by exactly one turn.
      Selecting the card that is already active rotates by nothing. */
  lemma ShortestRotation(activeIndex: int, targetIndex: int, cardsCount: nat, anglePerCard: real, totalAngle: real)
    requires 0 <= activeIndex < cardsCount && 0 <= targetIndex < cardsCount
    requires anglePerCard > 0.0 && totalAngle == anglePerCard * cardsCount as real && totalAngle <= CIRCLE
    ensures -PI <= TargetRotationAngleDelta(activeIndex, targetIndex, anglePerCard, totalAngle) <= PI
    ensures TargetRotationAngleDelta(activeIndex, targetIndex, anglePerCard, totalAngle)
            - (targetIndex as real * anglePerCard - activeIndex as real * anglePerCard) in {0.0, -CIRCLE, CIRCLE}
    ensures activeIndex == targetIndex ==> TargetRotationAngleDelta(activeIndex, targetIndex, anglePerCard, totalAngle) == 0.0
  {
    BaseAngleInRange(activeIndex, cardsCount, anglePerCard);
    BaseAngleInRange(targetIndex, cardsCount, anglePerCard);
  }

  /** The range is closed at both ends. With twenty cards and the default
      minimum, the cards share the full turn, so card 10 sits half a turn from
      card 0: going back from card 10 to card 0 rotates by exactly -PI and
      going from card 0 to card 10 by exactly PI, because the normalisation
      only moves deltas strictly beyond half a turn. */
  lemma HalfTurnBack()
    ensures AnglePerCard(20, None) == CIRCLE / 20.0
    ensures TargetRotationAngleDelta(10, 0, AnglePerCard(20, None), AnglePerCard(20, None) * 20.0) == -PI
    ensures TargetRotationAngleDelta(0, 10, AnglePerCard(20, None), AnglePerCard(20, None) * 20.0) == PI
  {
    var perCard := AnglePerCard(20, None);
    assert perCard == CIRCLE / 20.0;
    assert perCard * 20.0 == CIRCLE;
    assert 10 as real * perCard == PI;
    assert 0 as real * perCard == 0.0;
    RemOfSmaller(PI, CIRCLE);
    RemOfSmaller(0.0, CIRCLE);
  }

  /** A selection keeps the rotation target aligned: an offset that brings
      the old card's base angle to the front up to whole turns, plus the
      rotation delta, brings the new card's base angle there, up to at most
      one more or one fewer whole turn. */
  lemma SelectionRealigns(offset: real, delta: real, turns: int, activeIndex: int, targetIndex: int,
                          cardsCount: nat, anglePerCard: real, totalAngle: real) returns (added: int)
    requires 0 <= activeIndex < cardsCount && 0 <= targetIndex < cardsCount
    requires anglePerCard > 0.0 && totalAngle == anglePerCard * cardsCount as real && totalAngle <= CIRCLE
    requires offset == activeIndex as real * anglePerCard + turns as real * CIRCLE
    requires delta == TargetRotationAngleDelta(activeIndex, targetIndex, anglePerCard, totalAngle)
    ensures -1 <= added <= 1
    ensures offset + delta == targetIndex as real * anglePerCard + (turns + added) as real * CIRCLE
  {
    ShortestRotation(activeIndex, targetIndex, cardsCount, anglePerCard, totalAngle);
    var raw := targetIndex as real * anglePerCard - activeIndex as real * anglePerCard;
    added := if delta == raw then 0 else if delta == raw - CIRCLE then -1 else 1;
    assert delta == raw + added as real * CIRCLE;
  }

  /** How many of the cards carry the `active` class. */
  function ActiveCount(cards: seq<Card>): (n: nat)
    ensures n <= |cards|
  {
    if cards == [] then 0
    else (if cards[0].active then 1 else 0) + ActiveCount(cards[1..])
  }

  /** No card active: the count is zero. */
  lemma {:induction false} NoneActive(cards: seq<Card>)
    requires forall k :: 0 <= k < |cards| ==> !cards[k].active
    ensures ActiveCount(cards) == 0
  {
    if cards != [] {
      NoneActive(cards[1..]);
    }
  }

  /** Exactly the card at `index` active: the count is one. */
  lemma {:induction false} ExactlyOneActive(cards: seq<Card>, index: int)
    requires 0 <= index < |cards|
    requires forall k :: 0 <= k < |cards| ==> (cards[k].active <==> k == index)
    ensures ActiveCount(cards) == 1
  {
    if index == 0 {
      NoneActive(cards[1..]);
    } else {
      ExactlyOneActive(cards[1..], index - 1);
    }
  }

  /** The marking the selection of `index` gives the card at position `k`. */
  function Selected(k: int, index: int): Card {
    if k == index then Card(true, Unset) else Card(false, Transform)
  }

  class Carousel {
    const cardsImages: seq<string>
    const settings: Settings
    /** Per-card state, one entry per image, in order. */
    const cards: array<Card>
    const anglePerCard: real
    const totalAngle: real

    var tgRadius: real
    var activeIndex: int
    var lastFrameTime: real
    /** The accumulated rotation target of all selections so far. */
    var activeAngleOffset: real

    const radiusFn: SmoothedFn
    const zOffsetFn: SmoothedFn
    const angleOffsetFn: SmoothedFn
    const curActiveAngleFn: SmoothedFn

    /** The structure every operation relies on: the active index names a
        card of a well-shaped carousel. */
    ghost predicate Wellformed()
      reads this
    {
      Shape() && 0 <= activeIndex < cards.Length
    }

    /** The constant part: one card per image, at least one card, and cards
        spaced by a positive angle that spans at most a full turn. */
    ghost predicate Shape()
    {
      && cards.Length == |cardsImages| >= 1
      && (settings.minAnglePerCard.Some? ==> settings.minAnglePerCard.value > 0.0)
      && totalAngle == anglePerCard * cards.Length as real
      && 0.0 < anglePerCard && 0.0 < totalAngle <= CIRCLE
      && radiusFn != zOffsetFn && radiusFn != angleOffsetFn && radiusFn != curActiveAngleFn
      && zOffsetFn != angleOffsetFn && zOffsetFn != curActiveAngleFn
      && angleOffsetFn != curActiveAngleFn
    }

    /** The object invariant once constructed: exactly the card at
        `activeIndex` is active, that card carries no compositing hint, and
        every card's hint has been set. */
    ghost predicate Valid()
      reads this, cards
    {
      && Wellformed()
      && (forall k :: 0 <= k < cards.Length ==> (cards[k].active <==> k == activeIndex))
      && cards[activeIndex].willChange == Unset
      && (forall k :: 0 <= k < cards.Length ==> cards[k].willChange != Auto)
    }

    /** The non-DOM part of the constructor. */
    constructor (cardsImages: seq<string>, settings: Settings)
      requires |cardsImages| >= 1
      requires settings.minAnglePerCard.Some? ==> settings.minAnglePerCard.value > 0.0
      ensures Valid() && fresh(cards)
      ensures cards.Length == |cardsImages|
      ensures anglePerCard == AnglePerCard(|cardsImages|, settings.minAnglePerCard)
      ensures activeIndex == 0 && activeAngleOffset == 0.0 && lastFrameTime == 0.0
      ensures forall k :: 0 <= k < cards.Length ==> cards[k] == Selected(k, 0)
      ensures tgRadius == settings.radius
      ensures radiusFn.prev == settings.radius && radiusFn.smoothFactor == 20.0 && radiusFn.stopThreshold == 0.1
      ensures zOffsetFn.prev == -5000.0 && zOffsetFn.smoothFactor == 40.0 && zOffsetFn.stopThreshold == 0.1
      ensures angleOffsetFn.prev == -CIRCLE && angleOffsetFn.smoothFactor == 40.0 && angleOffsetFn.stopThreshold == 0.0001
      ensures curActiveAngleFn.prev == 0.0 && curActiveAngleFn.smoothFactor == 15.0 && curActiveAngleFn.stopThreshold == 0.0001
      ensures radiusFn.multiplier == 1.0 / 20.0 && zOffsetFn.multiplier == 1.0 / 40.0
      ensures angleOffsetFn.multiplier == 1.0 / 40.0 && curActiveAngleFn.multiplier == 1.0 / 15.0
      ensures fresh(radiusFn) && fresh(zOffsetFn) && fresh(angleOffsetFn) && fresh(curActiveAngleFn)
    {
      this.cardsImages := cardsImages;
      this.settings := settings;
      var zOffset := new SmoothedFn(-5000.0, 40.0, 0.1);
      assert zOffset.multiplier == 1.0 / 40.0;
      zOffsetFn := zOffset;
      var angleOffset := new SmoothedFn(-CIRCLE, 40.0, 0.0001);
      assert angleOffset.multiplier == 1.0 / 40.0;
      angleOffsetFn := angleOffset;
      var curActiveAngle := new SmoothedFn(0.0, 15.0, 0.0001);
      assert curActiveAngle.multiplier == 1.0 / 15.0;
      curActiveAngleFn := curActiveAngle;
      cards := new Card[|cardsImages|](_ => Card(false, Auto));
      var perCard := AnglePerCard(|cardsImages|, settings.minAnglePerCard);
      anglePerCard := perCard;
      totalAngle := perCard * |cardsImages| as real;
      var radius := new SmoothedFn(settings.radius, 20.0, 0.1);
      assert radius.multiplier == 1.0 / 20.0;
      radiusFn := radius;
      tgRadius := settings.radius;
      activeIndex := 0;
      lastFrameTime := 0.0;
      activeAngleOffset := 0.0;
      new;
      cards[0] := cards[0].(active := true);
      SetActiveIndex(0);
    }

    /** The `radius` getter: the target radius, not the animated one. */
    function Radius(): (r: real)
      reads this
      ensures r == tgRadius
    {
      tgRadius
    }

    /** The `radius` setter: only the target changes; the radius channel
        approaches it over the following frames. */
    method SetRadius(val: real)
      modifies this`tgRadius
      ensures Radius() == val
    {
      tgRadius := val;
    }

    /** The `activeIndex` getter. */
    function ActiveIndex(): (i: int)
      reads this, cards
      ensures Valid() ==> 0 <= i < cards.Length && cards[i].active && cards[i].willChange == Unset
      ensures Valid() ==> forall k :: 0 <= k < cards.Length && k != i ==> !cards[k].active
    {
      activeIndex
    }

    /** The `activeIndex` setter: marks the selected card active without a
        hint and every other card inactive with the transform hint, then adds
        the shortest rotation from the old selection to the new one to the
        accumulated rotation target. */
    method SetActiveIndex(index: int)
      requires Wellformed() && 0 <= index < cards.Length
      modifies this`activeAngleOffset, this`activeIndex, cards
      ensures Valid()
      ensures forall k :: 0 <= k < cards.Length ==> cards[k] == Selected(k, index)
      ensures ActiveCount(cards[..]) == 1
      ensures ActiveIndex() == index
      ensures activeAngleOffset
              == old(activeAngleOffset) + TargetRotationAngleDelta(old(activeIndex), index, anglePerCard, totalAngle)
      ensures -PI <= activeAngleOffset - old(activeAngleOffset) <= PI
      ensures old(activeIndex) == index ==> activeAngleOffset == old(activeAngleOffset)
    {
      MarkSelected(index);
      RotateTo(index);
    }

    /** The second half of the `activeIndex` setter: accumulate the shortest
        rotation to the new card and record the new index. */
    method RotateTo(index: int)
      requires Wellformed() && 0 <= index < cards.Length
      modifies this`activeAngleOffset, this`activeIndex
      ensures activeIndex == index
      ensures activeAngleOffset
              == old(activeAngleOffset) + TargetRotationAngleDelta(old(activeIndex), index, anglePerCard, totalAngle)
      ensures -PI <= activeAngleOffset - old(activeAngleOffset) <= PI
      ensures old(activeIndex) == index ==> activeAngleOffset == old(activeAngleOffset)
    {
      var angleDelta := GetTargetRotationAngleDelta(index);
      activeAngleOffset := activeAngleOffset + angleDelta;
      activeIndex := index;
    }

    /** `getTargetRotationAngleDelta`: the shortest rotation from the active
        card to the card at `targetIndex`, at most half a turn either way. */
    method GetTargetRotationAngleDelta(targetIndex: int) returns (delta: real)
      requires Wellformed() && 0 <= targetIndex < cards.Length
      ensures delta == TargetRotationAngleDelta(activeIndex, targetIndex, anglePerCard, totalAngle)
      ensures -PI <= delta <= PI
      ensures activeIndex == targetIndex ==> delta == 0.0
    {
      ShortestRotation(activeIndex, targetIndex, cards.Length, anglePerCard, totalAngle);
      delta := TargetRotationAngleDelta(activeIndex, targetIndex, anglePerCard, totalAngle);
    }

    /** The loop of the `activeIndex` setter over the cards. */
    method MarkSelected(index: int)
      requires 0 <= index < cards.Length
      modifies cards
      ensures forall k :: 0 <= k < cards.Length ==> cards[k] == Selected(k, index)
      ensures ActiveCount(cards[..]) == 1
    {
      var i := 0;
      while i < cards.Length
        invariant 0 <= i <= cards.Length
        invariant forall k :: 0 <= k < i ==> cards[k] == Selected(k, index)
      {
        if i == index {
          cards[i] := Card(true, Unset);
        } else {
          cards[i] := Card(false, Transform);
        }
        i := i + 1;
      }
      ExactlyOneActive(cards[..], index);
    }

    /** All four channels report done in `frame`: each sits on its target. */
    ghost predicate Settled(frame: Frame)
      reads this`activeAngleOffset, this`tgRadius
    {
      && frame.zOffset == Z_OFFSET
      && frame.angleOffset == ANGLE_OFFSET
      && frame.curActiveAngle == activeAngleOffset + frame.angleOffset
      && frame.radius == tgRadius
    }

    /** What one update does to the channels and the cards when `frames`
        nominal frames have elapsed since the previous one. */
    twostate predicate UpdatedBy(frames: real, frame: Frame)
      reads this`activeAngleOffset, this`tgRadius, cards, radiusFn, zOffsetFn, angleOffsetFn, curActiveAngleFn
    {
      && zOffsetFn.prev
         == NextValue(old(zOffsetFn.prev), Z_OFFSET, frames, zOffsetFn.multiplier, zOffsetFn.stopThreshold)
      && angleOffsetFn.prev
         == NextValue(old(angleOffsetFn.prev), ANGLE_OFFSET, frames, angleOffsetFn.multiplier, angleOffsetFn.stopThreshold)
      && curActiveAngleFn.prev
         == NextValue(old(curActiveAngleFn.prev), activeAngleOffset + angleOffsetFn.prev, frames,
                      curActiveAngleFn.multiplier, curActiveAngleFn.stopThreshold)
      && radiusFn.prev
         == NextValue(old(radiusFn.prev), tgRadius, frames, radiusFn.multiplier, radiusFn.stopThreshold)
      && frame.zOffset == zOffsetFn.prev && frame.angleOffset == angleOffsetFn.prev
      && frame.curActiveAngle == curActiveAngleFn.prev && frame.radius == radiusFn.prev
      && |frame.angles| == cards.Length
      && (forall i :: 0 <= i < cards.Length ==> frame.angles[i] == frame.curActiveAngle - i as real * anglePerCard)
      && (forall k :: 0 <= k < cards.Length ==>
            cards[k] == if Settled(frame) then old(cards[k]).(willChange := Unset) else old(cards[k]))
    }

    /** The trig-free part of `update`: steps the four channels by the elapsed
        frames, computes every card's angle on the circle, and once all four
        channels are done drops the rendering hint from every card. */
    method Update(deltaTime: real := 0.0) returns (frame: Frame)
      requires Valid()
      modifies cards, radiusFn`prev, zOffsetFn`prev, angleOffsetFn`prev, curActiveAngleFn`prev
      ensures Valid()
      ensures UpdatedBy(FramesDelta(deltaTime), frame)
    {
      var framesDelta := FramesDelta(deltaTime);
      var zOffset, zOffsetDone := zOffsetFn.Step(Z_OFFSET, framesDelta);
      var angleOffset, angleOffsetDone := angleOffsetFn.Step(ANGLE_OFFSET, framesDelta);
      var tgAngle := activeAngleOffset + angleOffset;
      var curActiveAngle, curActiveAngleDone := curActiveAngleFn.Step(tgAngle, framesDelta);
      var radius, radiusDone := radiusFn.Step(tgRadius, framesDelta);

      var angles := CardAngles(curActiveAngle);
      frame := Frame(zOffset, angleOffset, curActiveAngle, radius, angles);
      if zOffsetDone && angleOffsetDone && curActiveAngleDone && radiusDone {
        ClearHints();
      }
    }

    /** The per-card loop of `update` without its trigonometry: each card sits
        `anglePerCard` further round the circle than the one before it,
        starting from the animated active angle. */
    method CardAngles(curActiveAngle: real) returns (angles: seq<real>)
      ensures |angles| == cards.Length
      ensures forall i :: 0 <= i < cards.Length ==> angles[i] == curActiveAngle - i as real * anglePerCard
    {
      angles := [];
      var index := 0;
      while index < cards.Length
        invariant 0 <= index <= cards.Length
        invariant |angles| == index
        invariant forall i :: 0 <= i < index ==> angles[i] == curActiveAngle - i as real * anglePerCard
      {
        var angle := curActiveAngle - index as real * anglePerCard;
        angles := angles + [angle];
        assert angles[index] == angle;
        index := index + 1;
      }
    }

    /** The loop of `update` that runs once all four channels are done: every
        card drops its rendering hint and keeps its active flag. */
    method ClearHints()
      modifies cards
      ensures forall k :: 0 <= k < cards.Length ==> cards[k] == old(cards[k]).(willChange := Unset)
    {
      var k := 0;
      while k < cards.Length
        invariant 0 <= k <= cards.Length
        invariant forall j :: 0 <= j < k ==> cards[j] == old(cards[j]).(willChange := Unset)
        invariant forall j :: k <= j < cards.Length ==> cards[j] == old(cards[j])
      {
        cards[k] := cards[k].(willChange := Unset);
        k := k + 1;
      }
    }

    /** The bookkeeping of `onEnterFrame`: the time since the previous frame
        drives one update, and this frame's time is remembered. */
    method OnEnterFrame(time: real := 0.0) returns (frame: Frame)
      requires Valid()
      modifies this`lastFrameTime, cards, radiusFn`prev, zOffsetFn`prev, angleOffsetFn`prev, curActiveAngleFn`prev
      ensures Valid()
      ensures UpdatedBy(FramesDelta(time - old(lastFrameTime)), frame)
      ensures lastFrameTime == time
    {
      var deltaTime := time - lastFrameTime;
      frame := Update(deltaTime);
      lastFrameTime := time;
    }

    /** `start`: runs the first frame at time zero. */
    method Start() returns (frame: Frame)
      requires Valid()
      modifies this`lastFrameTime, cards, radiusFn`prev, zOffsetFn`prev, angleOffsetFn`prev, curActiveAngleFn`prev
      ensures Valid()
      ensures UpdatedBy(FramesDelta(-old(lastFrameTime)), frame)
      ensures lastFrameTime == 0.0
    {
      frame := OnEnterFrame();
    }
  }
}
