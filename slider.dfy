/** The card sliders of the portal sections (js/second.js). Every
    `.portal-slider` holds at least one card and keeps its own index of the
    first visible card; the number of cards in view follows the window
    width, which each handler reads afresh and so takes as a parameter. */
module PortalSlider {

  const SwipeThreshold: real := 50.0

  /** `getCardsPerView`: one card up to 768 px, two up to 1200 px, else
      three. */
  function CardsPerView(width: int): (v: nat)
    ensures 1 <= v <= 3
  {
    if width <= 768 then 1 else if width <= 1200 then 2 else 3
  }

  /** The breakpoints of `getCardsPerView`, and a wider window never shows
      fewer cards. */
  lemma CardsPerViewRule(width: int, wider: int)
    ensures CardsPerView(width) == 1 <==> width <= 768
    ensures CardsPerView(width) == 3 <==> width > 1200
    ensures width <= wider ==> CardsPerView(width) <= CardsPerView(wider)
  {
  }

  /** `Math.max(0, cards.length - cardsPerView)`: the index at which the
      last card first comes into view. */
  function MaxIndex(count: nat, width: int): (m: nat)
    ensures m + CardsPerView(width) >= count
    ensures m < count || count == 0
    ensures m == 0 || m + CardsPerView(width) == count
  {
    if count >= CardsPerView(width) then count - CardsPerView(width) else 0
  }

  /** A wider window never raises the last start index. */
  lemma MaxIndexAntitone(count: nat, width: int, wider: int)
    requires width <= wider
    ensures MaxIndex(count, wider) <= MaxIndex(count, width)
  {
    CardsPerViewRule(width, wider);
  }

  /** The index after `goToNext`: one step on while the index is at most the
      last start index, so it can reach one past it. */
  function NextIndex(i: nat, count: nat, width: int): nat {
    if i <= MaxIndex(count, width) then i + 1 else i
  }

  /** The index after `goToPrev`: one step back unless already at 0. */
  function PrevIndex(i: nat): nat {
    if i > 0 then i - 1 else i
  }

  /** `k` presses of next from index `i` at a fixed width. */
  function NextTimes(i: nat, count: nat, width: int, k: nat): nat
    decreases k
  {
    if k == 0 then i else NextTimes(NextIndex(i, count, width), count, width, k - 1)
  }

  /** `k` presses of prev from index `i`. */
  function PrevTimes(i: nat, k: nat): nat
    decreases k
  {
    if k == 0 then i else PrevTimes(PrevIndex(i), k - 1)
  }

  /** Pressing next k times from an index in range advances k steps but
      stops one past the last start index, which no number of presses
      passes. */
  lemma {:induction false} NextTimesStops(i: nat, count: nat, width: int, k: nat)
    requires i <= MaxIndex(count, width) + 1
    ensures var m := MaxIndex(count, width);
      NextTimes(i, count, width, k) == if i + k <= m + 1 then i + k else m + 1
    decreases k
  {
    if k > 0 {
      NextTimesStops(NextIndex(i, count, width), count, width, k - 1);
    }
  }

  /** Pressing prev k times steps back k times but never below 0. */
  lemma {:induction false} PrevTimesStops(i: nat, k: nat)
    ensures PrevTimes(i, k) == if i >= k then i - k else 0
  {
    if k > 0 {
      PrevTimesStops(PrevIndex(i), k - 1);
    }
  }

  /** Prev undoes a next that moved, and next undoes a prev that moved
      from an index next could have reached. */
  lemma NextPrevUndo(i: nat, count: nat, width: int)
    ensures i <= MaxIndex(count, width) ==> PrevIndex(NextIndex(i, count, width)) == i
    ensures 0 < i <= MaxIndex(count, width) + 1 ==> NextIndex(PrevIndex(i), count, width) == i
  {
  }

  /** Every index reachable by the buttons from 0 at any widths lies within
      the cards: the last start index plus one is at most the card count. */
  lemma IndexWithinCards(i: nat, count: nat, width: int)
    requires count >= 1 && i <= count
    ensures NextIndex(i, count, width) <= count && PrevIndex(i) <= count
  {
  }

  datatype Swipe = NoSwipe | SwipeNext | SwipePrev

  /** `handleSwipe`: a horizontal move of more than 50 px goes forward when
      the finger moved left, back when it moved right. */
  function SwipeOf(startX: real, endX: real): (s: Swipe)
    ensures s == SwipeNext <==> startX - endX > SwipeThreshold
    ensures s == SwipePrev <==> endX - startX > SwipeThreshold
    ensures s == NoSwipe <==> -SwipeThreshold <= startX - endX <= SwipeThreshold
  {
    var diff := startX - endX;
    var dist := if diff < 0.0 then -diff else diff;
    if dist > SwipeThreshold then (if diff > 0.0 then SwipeNext else SwipePrev) else NoSwipe
  }

  /** The index the debounced resize handler keeps: lowered to the last
      start index when past it. */
  function ResizeIndex(i: nat, count: nat, width: int): nat {
    if i > MaxIndex(count, width) then MaxIndex(count, width) else i
  }

  /** After a resize the index is at most the last start index, an index
      already in range is kept, and resizing again changes nothing. */
  lemma ResizeRule(i: nat, count: nat, width: int)
    ensures ResizeIndex(i, count, width) <= MaxIndex(count, width)
    ensures i <= MaxIndex(count, width) <==> ResizeIndex(i, count, width) == i
    ensures ResizeIndex(ResizeIndex(i, count, width), count, width) == ResizeIndex(i, count, width)
  {
  }

  class Slider {
    const count: nat
    /** Whether the prev and next buttons exist. */
    const hasPrev: bool
    const hasNext: bool
    var current: nat
    /** Whether a button takes clicks: `pointer-events` other than `none`. */
    var prevEnabled: bool
    var nextEnabled: bool
    var touchStartX: real
    var touchEndX: real

    ghost predicate Valid()
      reads this
    {
      count >= 1 && current <= count
    }

    /** A slider with at least one card (the script skips one without
        cards), before the initial update: index 0 and no button style. */
    constructor(count: nat, hasPrev: bool, hasNext: bool)
      requires count >= 1
      ensures Valid() && this.count == count && this.hasPrev == hasPrev && this.hasNext == hasNext
      ensures current == 0 && prevEnabled && nextEnabled && touchStartX == 0.0 && touchEndX == 0.0
    {
      this.count := count;
      this.hasPrev := hasPrev;
      this.hasNext := hasNext;
      current := 0;
      prevEnabled := true;
      nextEnabled := true;
      touchStartX := 0.0;
      touchEndX := 0.0;
    }

    /** Both existing buttons are styled for the current index. */
    ghost predicate Styled(width: int)
      reads this
    {
      && (hasPrev ==> prevEnabled == (current > 0))
      && (hasNext ==> nextEnabled == (current <= MaxIndex(count, width)))
    }

    /** `updateButtons`: prev takes clicks exactly when the index is past 0,
        next exactly when it is at most the last start index; a missing
        button keeps its state. */
    method UpdateButtons(width: int)
      modifies this`prevEnabled, this`nextEnabled
      ensures prevEnabled == (if hasPrev then current > 0 else old(prevEnabled))
      ensures nextEnabled == (if hasNext then current <= MaxIndex(count, width) else old(nextEnabled))
    {
      var maxIndex := MaxIndex(count, width);
      if hasPrev {
        prevEnabled := current > 0;
      }
      if hasNext {
        nextEnabled := current <= maxIndex;
      }
    }

    /** `goToPrev`. */
    method GoToPrev(width: int)
      requires Valid()
      modifies this`current, this`prevEnabled, this`nextEnabled
      ensures Valid() && current == PrevIndex(old(current))
      ensures current != old(current) ==> Styled(width)
      ensures current == old(current) ==> prevEnabled == old(prevEnabled) && nextEnabled == old(nextEnabled)
    {
      if current > 0 {
        current := current - 1;
        UpdateButtons(width);
      }
    }

    /** `goToNext`. */
    method GoToNext(width: int)
      requires Valid()
      modifies this`current, this`prevEnabled, this`nextEnabled
      ensures Valid() && current == NextIndex(old(current), count, width)
      ensures current != old(current) ==> Styled(width)
      ensures current == old(current) ==> prevEnabled == old(prevEnabled) && nextEnabled == old(nextEnabled)
    {
      var maxIndex := MaxIndex(count, width);
      if current <= maxIndex {
        current := current + 1;
        UpdateButtons(width);
      }
    }

    /** A click on the prev button: it reaches `goToPrev` only when the button
        exists and takes clicks. */
    method ClickPrev(width: int)
      requires Valid()
      modifies this`current, this`prevEnabled, this`nextEnabled
      ensures Valid()
      ensures current == if hasPrev && old(prevEnabled) then PrevIndex(old(current)) else old(current)
      ensures current != old(current) ==> Styled(width)
      ensures current == old(current) ==> prevEnabled == old(prevEnabled) && nextEnabled == old(nextEnabled)
    {
      if hasPrev && prevEnabled {
        GoToPrev(width);
      }
    }

    /** A click on the next button. */
    method ClickNext(width: int)
      requires Valid()
      modifies this`current, this`prevEnabled, this`nextEnabled
      ensures Valid()
      ensures current == if hasNext && old(nextEnabled) then NextIndex(old(current), count, width) else old(current)
      ensures current != old(current) ==> Styled(width)
      ensures current == old(current) ==> prevEnabled == old(prevEnabled) && nextEnabled == old(nextEnabled)
    {
      if hasNext && nextEnabled {
        GoToNext(width);
      }
    }

    /** `touchstart`: remember where the finger went down. */
    method TouchStart(screenX: real)
      modifies this`touchStartX
      ensures touchStartX == screenX
    {
      touchStartX := screenX;
    }

    /** `touchend` and `handleSwipe`: a long enough swipe moves one card,
        whatever state the buttons are in. */
    method TouchEnd(screenX: real, width: int)
      requires Valid()
      modifies this`touchEndX, this`current, this`prevEnabled, this`nextEnabled
      ensures Valid() && touchEndX == screenX
      ensures current == match SwipeOf(touchStartX, screenX)
        case NoSwipe => old(current)
        case SwipeNext => NextIndex(old(current), count, width)
        case SwipePrev => PrevIndex(old(current))
      ensures current != old(current) ==> Styled(width)
      ensures current == old(current) ==> prevEnabled == old(prevEnabled) && nextEnabled == old(nextEnabled)
    {
      touchEndX := screenX;
      var swipe := SwipeOf(touchStartX, touchEndX);
      match swipe
      case NoSwipe =>
      case SwipeNext => GoToNext(width);
      case SwipePrev => GoToPrev(width);
    }

    /** The debounced resize handler: pull the index back into range and
        restyle the buttons. */
    method Resize(width: int)
      requires Valid()
      modifies this`current, this`prevEnabled, this`nextEnabled
      ensures Valid() && current == ResizeIndex(old(current), count, width)
      ensures Styled(width) && (hasNext ==> nextEnabled)
    {
      var maxIndex := MaxIndex(count, width);
      if current > maxIndex {
        current := maxIndex;
      }
      UpdateButtons(width);
    }

    /** The initial update, a moment after loading. */
    method Init(width: int)
      requires Valid()
      modifies this`prevEnabled, this`nextEnabled
      ensures Styled(width)
    {
      UpdateButtons(width);
    }
  }
}
