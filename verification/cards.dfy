/**
 * The card deck of a chapter (src/components/Cards.js): the card cursor that
 * swipes and buttons move, the slide animation it starts, and the controls
 * under the card.
 */
module Cards {
  import opened JsValues
  import opened Cursor

  /** One card of a chapter. */
  datatype Card = Card(heading: string, content: string)

  /** The animation class a move starts. */
  datatype Slide = SlideLeft | SlideRight

  /** The right-hand control: "Next" inside the deck, "Next Chapter" on its last card. */
  datatype NextControl = NextCard | NextChapter(disabled: bool)

  /** The controls under the card. */
  datatype CardControls = CardControls(
    position: int,
    total: int,
    previousLabel: string,
    previousDisabled: bool,
    next: NextControl)

  predicate IsFirstCard(i: int) {
    AtFirst(i)
  }

  predicate IsLastCard(i: int, count: int) {
    AtLast(i, count)
  }

  /**
   * The header "Card <i+1> of <n>" and the buttons: "First" and disabled on the
   * first card, "Prev" otherwise; "Next Chapter" replacing "Next" on the last
   * card, disabled exactly in the last chapter.
   */
  function Controls(i: int, count: int, isLastChapter: bool): (c: CardControls)
    ensures c.position == i + 1 && c.total == count
    ensures c.previousDisabled <==> i == 0
    ensures c.previousLabel == (if i == 0 then "First" else "Prev")
    ensures c.next.NextChapter? <==> i == count - 1
    ensures c.next.NextChapter? ==> (c.next.disabled <==> isLastChapter)
  {
    CardControls(i + 1, count, if IsFirstCard(i) then "First" else "Prev", IsFirstCard(i),
      if IsLastCard(i, count) then NextChapter(isLastChapter) else NextCard)
  }

  /**
   * On a card of the deck, the controls offer exactly the moves `navigateCards`
   * makes: "Prev" is enabled exactly when a step back moves, and the plain
   * "Next" is shown exactly when a step on moves.
   */
  lemma ControlsMatchMoves(i: int, count: int, isLastChapter: bool)
    requires InRange(i, count)
    ensures !Controls(i, count, isLastChapter).previousDisabled <==> Backward(i) == i - 1
    ensures Controls(i, count, isLastChapter).next == NextCard <==> Forward(i, count) == i + 1
    ensures 1 <= Controls(i, count, isLastChapter).position <= count
  {
    DisabledExactlyWhenStuck(i, count);
  }

  /** The deck's state: the card shown and the animation last started. */
  class ContentSection {
    const cards: seq<Card>
    var currentCard: int
    var slideDirection: Option<Slide>

    constructor (cards: seq<Card>, initialCard: int)
      ensures this.cards == cards && currentCard == initialCard && slideDirection == None
    {
      this.cards := cards;
      currentCard := initialCard;
      slideDirection := None;
    }

    /**
     * `navigateCards`: "next" steps on with a left slide before the last card,
     * "prev" steps back with a right slide after the first; a blocked move or any
     * other direction changes neither the card nor the slide.
     */
    method NavigateCards(direction: string)
      modifies this`currentCard, this`slideDirection
      ensures direction == "next" ==> currentCard == Forward(old(currentCard), |cards|)
      ensures direction == "prev" ==> currentCard == Backward(old(currentCard))
      ensures currentCard != old(currentCard) ==>
        slideDirection == Some(if direction == "next" then SlideLeft else SlideRight)
      ensures currentCard == old(currentCard) ==> slideDirection == old(slideDirection)
      ensures direction != "next" && direction != "prev" ==> currentCard == old(currentCard)
    {
      if direction == "next" && currentCard < |cards| - 1 {
        slideDirection := Some(SlideLeft);
        currentCard := currentCard + 1;
      } else if direction == "prev" && currentCard > 0 {
        slideDirection := Some(SlideRight);
        currentCard := currentCard - 1;
      }
    }

    function Shown(isLastChapter: bool): CardControls
      reads this
    {
      Controls(currentCard, |cards|, isLastChapter)
    }
  }

  /** The card after a run of presses, `true` for "next" and `false` for "prev", oldest first. */
  function Run(i: int, count: int, moves: seq<bool>): int
    decreases |moves|
  {
    if moves == [] then i
    else
      var j := Run(i, count, moves[..|moves| - 1]);
      if moves[|moves| - 1] then Forward(j, count) else Backward(j)
  }

  /** Any run of presses keeps a cursor that starts on a card on a card. */
  lemma {:induction false} NavigationStaysInDeck(i: int, count: int, moves: seq<bool>)
    requires InRange(i, count)
    ensures InRange(Run(i, count, moves), count)
    decreases |moves|
  {
    if moves != [] {
      NavigationStaysInDeck(i, count, moves[..|moves| - 1]);
      MovesStayInRange(Run(i, count, moves[..|moves| - 1]), count);
    }
  }
}
