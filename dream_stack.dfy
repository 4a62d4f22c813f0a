/** The journal's card stack (src/components/journal/DreamStack.tsx): the
    dreams shown as a stack, a grid or a list; in the stack the active dream
    is the top card, a horizontal swipe of the top card moves to the next
    or the previous dream, and a row of dots jumps to any dream.

    The drag gesture's offset and velocity are parameters (framer-motion
    measures them); `onDreamClick` is recorded. */
module DreamStack {
  import opened Wrappers
  import opened Types

  const SWIPE_THRESHOLD: real := 50.0
  const SWIPE_POWER: real := 1000.0

  datatype LayoutMode = Stack | Grid | List

  /** A dream as a card draws it: the dream and its place in the stack. */
  datatype Card = Card(dream: Dream, stackPosition: int)

  // ---------------------------------------------------------------------
  // swipes

  datatype Move = Next | Previous | Stay

  function Abs(x: real): real {
    if x < 0.0 then -x else x
  }

  /** `handleDragEnd`'s decision: `swipe` is the horizontal distance times
      the horizontal velocity; a drag past 50 or a swipe past 1000 to the
      left moves to the next dream, otherwise one to the right moves to the
      previous dream. */
  function SwipeMove(offsetX: real, velocityX: real): (m: Move)
    ensures m == Next <==> offsetX < -SWIPE_THRESHOLD || Abs(offsetX) * velocityX < -SWIPE_POWER
    ensures m == Previous <==>
      !(offsetX < -SWIPE_THRESHOLD || Abs(offsetX) * velocityX < -SWIPE_POWER)
      && (offsetX > SWIPE_THRESHOLD || Abs(offsetX) * velocityX > SWIPE_POWER)
  {
    var swipe := Abs(offsetX) * velocityX;
    if offsetX < -SWIPE_THRESHOLD || swipe < -SWIPE_POWER then Next
    else if offsetX > SWIPE_THRESHOLD || swipe > SWIPE_POWER then Previous
    else Stay
  }

  /** A drag that stops within 50 of where it began without moving keeps
      the card; past 50 to the left it moves on, whatever the velocity. */
  lemma SwipeThresholds(offsetX: real, velocityX: real)
    ensures -SWIPE_THRESHOLD <= offsetX <= SWIPE_THRESHOLD && velocityX == 0.0 ==> SwipeMove(offsetX, velocityX) == Stay
    ensures offsetX < -SWIPE_THRESHOLD ==> SwipeMove(offsetX, velocityX) == Next
  {
  }

  /** Left and right are mirror images: a gesture and its mirror move in
      opposite directions, unless the gesture satisfies both tests at once
      (a drag to one side flung towards the other), where left wins. */
  lemma SwipeMirror(offsetX: real, velocityX: real)
    requires !((offsetX < -SWIPE_THRESHOLD || Abs(offsetX) * velocityX < -SWIPE_POWER)
               && (offsetX > SWIPE_THRESHOLD || Abs(offsetX) * velocityX > SWIPE_POWER))
    ensures SwipeMove(offsetX, velocityX) == Next <==> SwipeMove(-offsetX, -velocityX) == Previous
    ensures SwipeMove(offsetX, velocityX) == Stay <==> SwipeMove(-offsetX, -velocityX) == Stay
  {
    assert Abs(-offsetX) == Abs(offsetX);
    assert Abs(-offsetX) * -velocityX == -(Abs(offsetX) * velocityX);
  }

  lemma ModBelow(x: int, n: int)
    requires 0 <= x < n
    ensures x % n == x
  {
  }

  lemma ModWrap(x: int, n: int)
    requires 0 < n <= x < 2 * n
    ensures x % n == x - n
  {
  }

  /** One step round `n` places, either way. */
  lemma ModStep(index: int, n: int)
    requires 0 <= index < n
    ensures (index + 1) % n == if index == n - 1 then 0 else index + 1
    ensures (index - 1 + n) % n == if index == 0 then n - 1 else index - 1
  {
    if index == n - 1 { ModWrap(index + 1, n); } else { ModBelow(index + 1, n); }
    if index == 0 { ModBelow(index - 1 + n, n); } else { ModWrap(index - 1 + n, n); }
  }

  /** The index after a move among `n` dreams: one on, or one back, modulo
      `n`. */
  function Moved(index: int, n: int, m: Move): (r: int)
    requires 0 <= index < n
    ensures 0 <= r < n
    ensures m == Next ==> r == (if index == n - 1 then 0 else index + 1)
    ensures m == Previous ==> r == (if index == 0 then n - 1 else index - 1)
    ensures m == Stay ==> r == index
  {
    ModStep(index, n);
    match m
    case Next => (index + 1) % n
    case Previous => (index - 1 + n) % n
    case Stay => index
  }

  /** A move followed by the opposite move comes back to the same dream. */
  lemma MoveBack(index: int, n: int)
    requires 0 <= index < n
    ensures Moved(Moved(index, n, Next), n, Previous) == index
    ensures Moved(Moved(index, n, Previous), n, Next) == index
  {
  }

  // ---------------------------------------------------------------------
  // card order

  /** The loop's `reordered` list before it is reversed: position `i` holds
      the dream `i` places after the active one, going round. */
  function Pushed(dreams: seq<Dream>, active: nat): (r: seq<Card>)
    ensures |r| == |dreams|
  {
    seq(|dreams|, i requires 0 <= i < |dreams| => Card(dreams[(active + i) % |dreams|], i))
  }

  /** `s.reverse()`. */
  function Reverse<T>(s: seq<T>): (r: seq<T>)
    ensures |r| == |s|
    ensures forall k :: 0 <= k < |s| ==> r[k] == s[|s| - 1 - k]
    decreases |s|
  {
    if |s| == 0 then [] else [s[|s| - 1]] + Reverse(s[..|s| - 1])
  }

  lemma {:induction false} ReverseMultiset<T>(s: seq<T>)
    ensures multiset(Reverse(s)) == multiset(s)
    decreases |s|
  {
    if |s| > 0 {
      ReverseMultiset(s[..|s| - 1]);
      assert s == s[..|s| - 1] + [s[|s| - 1]];
    }
  }

  /** `getStackOrder()`: the dreams from the active one round to the one
      before it, reversed so that the top card comes last. */
  function StackOrder(dreams: seq<Dream>, active: nat): seq<Card> {
    Reverse(Pushed(dreams, active))
  }

  /** The dreams the cards carry, in card order. */
  function DreamsOf(cards: seq<Card>): (r: seq<Dream>)
    ensures |r| == |cards|
  {
    seq(|cards|, k requires 0 <= k < |cards| => cards[k].dream)
  }

  /** Entry `k` of the stack order is the dream `n - 1 - k` places after the
      active one, at stack position `n - 1 - k`: the last card is the active
      dream, at position 0. */
  lemma StackOrderEntries(dreams: seq<Dream>, active: nat)
    requires active < |dreams|
    ensures var r, n := StackOrder(dreams, active), |dreams|;
      && |r| == n
      && (forall k :: 0 <= k < n ==> r[k] == Card(dreams[(active + n - 1 - k) % n], n - 1 - k))
      && r[n - 1] == Card(dreams[active], 0)
  {
    var r, n := StackOrder(dreams, active), |dreams|;
    var pushed := Pushed(dreams, active);
    forall k | 0 <= k < n
      ensures r[k] == Card(dreams[(active + n - 1 - k) % n], n - 1 - k)
    {
      assert r[k] == pushed[n - 1 - k];
    }
    ModBelow(active, n);
    assert r[n - 1] == pushed[0];
  }

  /** Going round from the active dream visits the dreams after it, then
      the dreams before it. */
  lemma PushedIsRotation(dreams: seq<Dream>, active: nat)
    requires active < |dreams|
    ensures DreamsOf(Pushed(dreams, active)) == dreams[active..] + dreams[..active]
  {
    var n := |dreams|;
    var lhs, rhs := DreamsOf(Pushed(dreams, active)), dreams[active..] + dreams[..active];
    forall i | 0 <= i < n ensures lhs[i] == rhs[i] {
      if active + i < n {
        ModBelow(active + i, n);
      } else {
        ModWrap(active + i, n);
      }
    }
  }

  lemma DreamsOfReverse(cards: seq<Card>)
    ensures DreamsOf(Reverse(cards)) == Reverse(DreamsOf(cards))
  {
  }

  /** The stack order is a permutation of the dreams: each appears exactly
      as often as in the list. */
  lemma StackOrderPermutation(dreams: seq<Dream>, active: nat)
    requires active < |dreams|
    ensures multiset(DreamsOf(StackOrder(dreams, active))) == multiset(dreams)
  {
    var pushed := DreamsOf(Pushed(dreams, active));
    DreamsOfReverse(Pushed(dreams, active));
    assert DreamsOf(StackOrder(dreams, active)) == Reverse(pushed);
    ReverseMultiset(pushed);
    PushedIsRotation(dreams, active);
    RotationMultiset(dreams, active);
  }

  /** A rotation keeps every element, as often as before. */
  lemma RotationMultiset<T>(s: seq<T>, m: nat)
    requires m <= |s|
    ensures multiset(s[m..] + s[..m]) == multiset(s)
  {
    assert s == s[..m] + s[m..];
  }

  /** The grid and list layouts: the dreams in their own order, each at the
      stack position of its index. */
  function Indexed(dreams: seq<Dream>): (r: seq<Card>)
    ensures |r| == |dreams|
    ensures DreamsOf(r) == dreams
    ensures forall k :: 0 <= k < |r| ==> r[k].stackPosition == k
  {
    seq(|dreams|, i requires 0 <= i < |dreams| => Card(dreams[i], i))
  }

  // ---------------------------------------------------------------------
  // styles

  datatype Style = Style(top: int, left: int, zIndex: int, rotate: int)

  /** `getLayoutStyles`: in the stack a card sits 8 pixels further down and
      right per position, below the cards in front of it, tilted 2 degrees
      per position from -2 at the top; grid and list cards are flat. */
  function LayoutStyle(layout: LayoutMode, n: int, position: int): Style {
    match layout
    case Stack => Style(position * 8, position * 8, n - position, (position - 1) * 2)
    case Grid => Style(0, 0, 1, 0)
    case List => Style(0, 0, 1, 0)
  }

  /** In the stack a card further back is drawn under, and lower and further
      right than, every card in front of it; the top card is drawn over all
      others, untilted by nothing but its -2 degrees. */
  lemma StackDepth(n: int, p: int, q: int)
    requires 0 <= p < q
    ensures LayoutStyle(Stack, n, p).zIndex > LayoutStyle(Stack, n, q).zIndex
    ensures LayoutStyle(Stack, n, p).top < LayoutStyle(Stack, n, q).top
    ensures LayoutStyle(Stack, n, p).left < LayoutStyle(Stack, n, q).left
    ensures LayoutStyle(Stack, n, 0) == Style(0, 0, n, -2)
  {
  }

  /** Off the stack every card has the same flat style. */
  lemma FlatLayouts(layout: LayoutMode, n: int, p: int, q: int)
    requires layout != Stack
    ensures LayoutStyle(layout, n, p) == LayoutStyle(layout, n, q) == Style(0, 0, 1, 0)
  {
  }

  /** The card that may be dragged: position 0 of the stack. */
  predicate IsTopCard(layout: LayoutMode, c: Card) {
    layout == Stack && c.stackPosition == 0
  }

  // ---------------------------------------------------------------------
  // the component

  class Deck {
    const dreams: seq<Dream>
    var layout: LayoutMode
    var expandedCard: Option<string>
    var activeIndex: int
    var isDragging: bool
    /** The cards passed to `onDreamClick`. */
    var clicks: seq<Card>

    /** The active dream is always one of the dreams. */
    ghost predicate Valid()
      reads this
    {
      0 <= activeIndex && (|dreams| > 0 ==> activeIndex < |dreams|)
    }

    /** With no dreams the component renders nothing. */
    predicate Renders()
      reads this
    {
      |dreams| > 0
    }

    /** `displayDreams`, as a value. */
    function Display(): seq<Card>
      reads this
      requires Valid()
    {
      if layout == Stack then StackOrder(dreams, activeIndex) else Indexed(dreams)
    }

    constructor (dreams: seq<Dream>, defaultLayout: LayoutMode)
      ensures Valid()
      ensures this.dreams == dreams && layout == defaultLayout && expandedCard == None
      ensures activeIndex == 0 && !isDragging && clicks == []
    {
      this.dreams, layout, expandedCard := dreams, defaultLayout, None;
      activeIndex, isDragging, clicks := 0, false, [];
    }

    /** `getStackOrder()`: a loop pushing each dream from the active one
        round, with its position, then a reversal. */
    method GetStackOrder() returns (r: seq<Card>)
      requires Valid()
      ensures r == StackOrder(dreams, activeIndex)
    {
      var n := |dreams|;
      var reordered: seq<Card> := [];
      var i := 0;
      while i < n
        invariant 0 <= i <= n
        invariant reordered == Pushed(dreams, activeIndex)[..i]
      {
        var index := (activeIndex + i) % n;
        reordered := reordered + [Card(dreams[index], i)];
        i := i + 1;
      }
      assert reordered == Pushed(dreams, activeIndex);
      r := Reverse(reordered);
    }

    /** `displayDreams`: the stack order in the stack layout, otherwise the
        dreams in order with their indices. */
    method DisplayDreams() returns (r: seq<Card>)
      requires Valid()
      ensures r == Display()
    {
      if layout == Stack {
        r := GetStackOrder();
      } else {
        r := Indexed(dreams);
      }
    }

    /** A layout button. */
    method SetLayout(mode: LayoutMode)
      modifies this`layout
      ensures layout == mode
    {
      layout := mode;
    }

    /** A drag can start only on the top card of the stack. */
    method DragStart(k: nat)
      requires Valid()
      modifies this`isDragging
      ensures isDragging == (old(isDragging) || (k < |Display()| && IsTopCard(layout, Display()[k])))
    {
      var cards := Display();
      if k < |cards| && IsTopCard(layout, cards[k]) {
        isDragging := true;
      }
    }

    /** `handleDragEnd`: when a card is on screen, the swipe decides the
        move; the drag is over either way. */
    method DragEnd(offsetX: real, velocityX: real)
      requires Valid()
      modifies this`activeIndex, this`isDragging
      ensures Valid()
      ensures !Renders() ==> activeIndex == old(activeIndex) && isDragging == old(isDragging)
      ensures Renders() ==>
        activeIndex == Moved(old(activeIndex), |dreams|, SwipeMove(offsetX, velocityX)) && !isDragging
    {
      if |dreams| > 0 {
        activeIndex := Moved(activeIndex, |dreams|, SwipeMove(offsetX, velocityX));
        isDragging := false;
      }
    }

    /** The dots are drawn in the stack layout with two or more dreams; dot
        `index` makes that dream the active one. */
    method DotClick(index: nat)
      requires Valid()
      modifies this`activeIndex
      ensures Valid()
      ensures layout == Stack && |dreams| > 1 && index < |dreams| ==> activeIndex == index
      ensures !(layout == Stack && |dreams| > 1 && index < |dreams|) ==> activeIndex == old(activeIndex)
    {
      if layout == Stack && |dreams| > 1 && index < |dreams| {
        activeIndex := index;
      }
    }

    /** A click on card `k`: ignored while dragging; otherwise it expands the
        card, or collapses it when it was the expanded one, and reports it. */
    method ClickCard(k: nat)
      requires Valid()
      modifies this`expandedCard, this`clicks
      ensures var shown := Display();
        if k < |shown| && !isDragging then
          && expandedCard == (if old(expandedCard) == Some(shown[k].dream.id) then None else Some(shown[k].dream.id))
          && clicks == old(clicks) + [shown[k]]
        else expandedCard == old(expandedCard) && clicks == old(clicks)
    {
      var cards := Display();
      if k < |cards| && !isDragging {
        var id := cards[k].dream.id;
        expandedCard := if expandedCard == Some(id) then None else Some(id);
        clicks := clicks + [cards[k]];
      }
    }
  }

  /** In the stack exactly one card is the top card, and it carries the
      active dream; in the grid and the list no card can be dragged. */
  lemma TopCardIsActive(dreams: seq<Dream>, active: nat, layout: LayoutMode)
    requires active < |dreams|
    ensures var cards := if layout == Stack then StackOrder(dreams, active) else Indexed(dreams);
      && (layout == Stack ==> forall k :: 0 <= k < |cards| ==> (IsTopCard(layout, cards[k]) <==> k == |cards| - 1))
      && (layout == Stack ==> cards[|cards| - 1].dream == dreams[active])
      && (layout != Stack ==> forall k :: 0 <= k < |cards| ==> !IsTopCard(layout, cards[k]))
  {
    if layout == Stack {
      StackOrderEntries(dreams, active);
    }
  }
}
