/**
  The flashcard viewer: a current card index clamped to the deck by the
  Previous and Next buttons, and a flag saying which face is up. The pure
  functions describe the handlers on indices; `FlashcardViewer` holds the
  component state and its handlers are proved against them.
*/
module FlashcardSection {

  /** One card as decoded from the flashcard reply. */
  datatype Flashcard = Flashcard(front: string, back: string)

  /** `Math.max(0, i - 1)`. */
  function PrevIndex(i: int): int {
    if 0 > i - 1 then 0 else i - 1
  }

  /** `Math.min(n - 1, i + 1)`. */
  function NextIndex(i: int, n: int): int {
    if n - 1 < i + 1 then n - 1 else i + 1
  }

  /** Both buttons keep an index that points into a non-empty deck inside it. */
  lemma NavigationStaysInDeck(i: int, n: int)
    requires 0 <= i < n
    ensures 0 <= PrevIndex(i) < n && 0 <= NextIndex(i, n) < n
    ensures PrevIndex(i) <= i <= NextIndex(i, n)
  {
  }

  /** Previous is disabled (`index === 0`) exactly where it would not move, and likewise Next at the last card. */
  lemma DisabledExactlyAtEnds(i: int, n: int)
    requires 0 <= i < n
    ensures PrevIndex(i) == i <==> i == 0
    ensures NextIndex(i, n) == i <==> i == n - 1
  {
  }

  /** A run of button presses: `true` for Next, `false` for Previous. */
  function Navigate(i: int, n: int, presses: seq<bool>): (r: int)
    decreases |presses|
  {
    if presses == [] then i
    else Navigate(if presses[0] then NextIndex(i, n) else PrevIndex(i), n, presses[1..])
  }

  /** From the first card, any run of presses leaves the index inside the deck. */
  lemma {:induction false} NavigateStaysInDeck(i: int, n: int, presses: seq<bool>)
    requires 0 <= i < n
    ensures 0 <= Navigate(i, n, presses) < n
    decreases |presses|
  {
    if presses != [] {
      NavigationStaysInDeck(i, n);
      NavigateStaysInDeck(if presses[0] then NextIndex(i, n) else PrevIndex(i), n, presses[1..]);
    }
  }

  /** `n - 1` presses of Next from the first card reach the last card, and further presses stay there. */
  lemma {:induction false} NextReachesLast(i: int, n: int, k: nat)
    requires 0 <= i < n && i + k >= n - 1
    ensures Navigate(i, n, seq(k, _ => true)) == n - 1
    decreases k
  {
    var presses := seq(k, _ => true);
    if k > 0 {
      assert presses[1..] == seq(k - 1, _ => true);
      NextReachesLast(NextIndex(i, n), n, k - 1);
    }
  }

  /** The viewer's state, updated in place by its click handlers. */
  class FlashcardViewer {
    const cards: seq<Flashcard>
    var index: int
    var flipped: bool

    /** The card area and buttons are rendered only for a non-empty deck, and the index stays in it. */
    ghost predicate Valid()
      reads this
    {
      0 <= index < |cards|
    }

    constructor (cards: seq<Flashcard>)
      requires |cards| > 0
      ensures this.cards == cards && Valid() && index == 0 && !flipped
    {
      this.cards := cards;
      index := 0;
      flipped := false;
    }

    /** The text currently displayed. */
    function Shown(): (text: string)
      reads this
      requires Valid()
      ensures text == if flipped then cards[index].back else cards[index].front
    {
      var card := cards[index];
      if flipped then card.back else card.front
    }

    /** `disabled={index === 0}`. */
    function PreviousDisabled(): bool
      reads this
    {
      index == 0
    }

    /** `disabled={index === flashcards.length - 1}`. */
    function NextDisabled(): bool
      reads this
    {
      index == |cards| - 1
    }

    method Previous()
      requires Valid()
      modifies this
      ensures Valid() && index == PrevIndex(old(index)) && !flipped
      ensures Shown() == cards[index].front
    {
      index := if 0 > index - 1 then 0 else index - 1;
      flipped := false;
      NavigationStaysInDeck(old(index), |cards|);
    }

    method Next()
      requires Valid()
      modifies this
      ensures Valid() && index == NextIndex(old(index), |cards|) && !flipped
      ensures Shown() == cards[index].front
    {
      index := if |cards| - 1 < index + 1 then |cards| - 1 else index + 1;
      flipped := false;
      NavigationStaysInDeck(old(index), |cards|);
    }

    method Flip()
      requires Valid()
      modifies this
      ensures Valid() && index == old(index) && flipped == !old(flipped)
    {
      flipped := !flipped;
    }
  }

  /** Flipping twice shows the same face of the same card again. */
  method FlipTwiceRestores(v: FlashcardViewer)
    requires v.Valid()
    modifies v
    ensures v.Valid() && v.index == old(v.index) && v.flipped == old(v.flipped) && v.Shown() == old(v.Shown())
  {
    v.Flip();
    v.Flip();
  }
}
