/** The card deck: in single mode a click forwards the card id; in universal6
    mode clicks build an ordered, duplicate-free selection of at most
    `maxSelections` ids, and a click on an already-selected card truncates the
    selection back to just before it. */
module TarotCardDeck {
  import opened Wrappers
  import TarotData
  import opened TarotContext

  const MAX_CARDS: nat := 6

  predicate Distinct(s: seq<int>)
  {
    forall i, j :: 0 <= i < j < |s| ==> s[i] != s[j]
  }

  /** `s.indexOf(x)`: the first position of `x`, or -1. */
  function IndexOf(s: seq<int>, x: int): (r: int)
    ensures -1 <= r < |s|
    ensures r == -1 <==> x !in s
    ensures r >= 0 ==> s[r] == x && x !in s[..r]
    decreases |s|
  {
    if |s| == 0 then -1
    else if s[0] == x then 0
    else
      var k := IndexOf(s[1..], x);
      assert k >= 0 ==> s[1..][..k] == s[1..k + 1];
      if k < 0 then -1 else k + 1
  }

  /** The multiple-selection update of `handleCardSelection`: a selected card
      cuts the selection back to a prefix without it; an unselected card is
      appended while there is room and ignored once the selection is full. */
  function NextSelection(sel: seq<int>, cardId: int, maxSelections: nat): (r: seq<int>)
    ensures cardId in sel ==> r <= sel && cardId !in r && |r| < |sel| && sel[|r|] == cardId
    ensures cardId !in sel && |sel| < maxSelections ==> r == sel + [cardId]
    ensures cardId !in sel && |sel| >= maxSelections ==> r == sel
  {
    var existing := IndexOf(sel, cardId);
    if existing >= 0 then sel[..existing]
    else if |sel| < maxSelections then sel + [cardId]
    else sel
  }

  /** Whether the click is an append that fills the selection. */
  predicate Completes(sel: seq<int>, cardId: int, maxSelections: nat)
    ensures Completes(sel, cardId, maxSelections) <==>
      cardId !in sel && NextSelection(sel, cardId, maxSelections) == sel + [cardId] &&
      |NextSelection(sel, cardId, maxSelections)| == maxSelections
  {
    cardId !in sel && |sel| < maxSelections && |sel| + 1 == maxSelections
  }

  predicate Truncates(sel: seq<int>, cardId: int)
  {
    cardId in sel
  }

  predicate Inv(sel: seq<int>, maxSelections: nat)
  {
    |sel| <= maxSelections && Distinct(sel)
  }

  /** Clicking the card at position k keeps exactly the first k selections. */
  lemma ReclickTruncates(sel: seq<int>, k: nat, maxSelections: nat)
    requires Distinct(sel) && k < |sel|
    ensures NextSelection(sel, sel[k], maxSelections) == sel[..k]
  {
  }

  /** An unselected card is appended when there is room and ignored when full. */
  lemma NewCardAppendsOrIgnored(sel: seq<int>, cardId: int, maxSelections: nat)
    requires cardId !in sel
    ensures |sel| < maxSelections ==> NextSelection(sel, cardId, maxSelections) == sel + [cardId]
    ensures |sel| >= maxSelections ==> NextSelection(sel, cardId, maxSelections) == sel
  {
  }

  /** The selection stays within capacity and free of duplicates. */
  lemma {:induction false} NextSelectionKeepsInv(sel: seq<int>, cardId: int, maxSelections: nat)
    requires Inv(sel, maxSelections)
    ensures Inv(NextSelection(sel, cardId, maxSelections), maxSelections)
  {
    var existing := IndexOf(sel, cardId);
    if existing < 0 && |sel| < maxSelections {
      var r := sel + [cardId];
      forall i, j | 0 <= i < j < |r| ensures r[i] != r[j] {
        if j == |sel| {
          assert r[i] == sel[i];
        }
      }
    }
  }

  function TruncCount(sel: seq<int>, clicks: seq<int>, maxSelections: nat): nat
    decreases |clicks|
  {
    if |clicks| == 0 then 0
    else (if Truncates(sel, clicks[0]) then 1 else 0)
         + TruncCount(NextSelection(sel, clicks[0], maxSelections), clicks[1..], maxSelections)
  }

  function CompletionCount(sel: seq<int>, clicks: seq<int>, maxSelections: nat): nat
    decreases |clicks|
  {
    if |clicks| == 0 then 0
    else (if Completes(sel, clicks[0], maxSelections) then 1 else 0)
         + CompletionCount(NextSelection(sel, clicks[0], maxSelections), clicks[1..], maxSelections)
  }

  function AfterClicks(sel: seq<int>, clicks: seq<int>, maxSelections: nat): seq<int>
    decreases |clicks|
  {
    if |clicks| == 0 then sel
    else AfterClicks(NextSelection(sel, clicks[0], maxSelections), clicks[1..], maxSelections)
  }

  function Room(sel: seq<int>, maxSelections: nat): nat
  {
    if |sel| < maxSelections then 1 else 0
  }

  /** The completion callback fires at most once per filling: over any run of
      clicks, the number of completions is bounded by the number of
      truncating clicks, plus one if the selection started with room. */
  lemma {:induction false} CompletionAtMostOncePerFill(sel: seq<int>, clicks: seq<int>, maxSelections: nat)
    requires Inv(sel, maxSelections)
    ensures CompletionCount(sel, clicks, maxSelections) + Room(AfterClicks(sel, clicks, maxSelections), maxSelections)
            <= Room(sel, maxSelections) + TruncCount(sel, clicks, maxSelections)
    decreases |clicks|
  {
    if |clicks| > 0 {
      var next := NextSelection(sel, clicks[0], maxSelections);
      NextSelectionKeepsInv(sel, clicks[0], maxSelections);
      CompletionAtMostOncePerFill(next, clicks[1..], maxSelections);
    }
  }

  /** Starting from an empty selection, clicks that never re-click a selected
      card fire the completion callback at most once. */
  lemma CompletionOnceWithoutReclick(clicks: seq<int>, maxSelections: nat)
    requires TruncCount([], clicks, maxSelections) == 0
    ensures CompletionCount([], clicks, maxSelections) <= 1
  {
    CompletionAtMostOncePerFill([], clicks, maxSelections);
  }

  /** The deck component with its local selection state. */
  class CardDeck {
    const spreadType: SpreadType
    const maxSelections: nat
    const hasCompletionHandler: bool
    var localSelectedCards: seq<int>

    ghost predicate Valid()
      reads this
    {
      Inv(localSelectedCards, maxSelections)
    }

    /** `spreadType` defaults to single and `maxSelections` to `MAX_CARDS`;
        the selection starts empty. */
    constructor (spreadType: Option<SpreadType>, maxSelections: Option<nat>, hasCompletionHandler: bool)
      ensures Valid() && localSelectedCards == []
      ensures this.spreadType == if spreadType.Some? then spreadType.value else Single
      ensures this.hasCompletionHandler == hasCompletionHandler
      ensures this.maxSelections == if maxSelections.Some? then maxSelections.value else MAX_CARDS
    {
      this.spreadType := if spreadType.Some? then spreadType.value else Single;
      this.maxSelections := if maxSelections.Some? then maxSelections.value else MAX_CARDS;
      this.hasCompletionHandler := hasCompletionHandler;
      localSelectedCards := [];
    }

    /** `handleCardSelection`: `clicked` is the id passed to `onCardClick`,
        `completed` the list passed to `onMultipleCardsSelected`. */
    method HandleCardSelection(cardId: int) returns (clicked: Option<int>, completed: Option<seq<int>>)
      requires Valid()
      modifies this
      ensures Valid()
      ensures spreadType == Single ==>
        clicked == Some(cardId) && completed.None? && localSelectedCards == old(localSelectedCards)
      ensures spreadType != Single ==>
        clicked.None? &&
        localSelectedCards == NextSelection(old(localSelectedCards), cardId, maxSelections)
      ensures completed.Some? <==>
        spreadType != Single && hasCompletionHandler && Completes(old(localSelectedCards), cardId, maxSelections)
      ensures completed.Some? ==> completed.value == localSelectedCards && |completed.value| == maxSelections
    {
      clicked, completed := None, None;
      if spreadType == Single {
        clicked := Some(cardId);
        return;
      }
      NextSelectionKeepsInv(localSelectedCards, cardId, maxSelections);
      var newSelectedCards := localSelectedCards;
      var existingIndex := IndexOf(newSelectedCards, cardId);
      if existingIndex >= 0 {
        newSelectedCards := newSelectedCards[..existingIndex];
      } else if |newSelectedCards| < maxSelections {
        newSelectedCards := newSelectedCards + [cardId];
        if |newSelectedCards| == maxSelections && hasCompletionHandler {
          completed := Some(newSelectedCards);
        }
      }
      localSelectedCards := newSelectedCards;
    }

    /** `getSelectionOrder`: the 1-based position of a selected card, or null. */
    function GetSelectionOrder(cardId: int): (order: Option<nat>)
      reads this
      ensures order.Some? <==> cardId in localSelectedCards
      ensures order.Some? ==>
        1 <= order.value <= |localSelectedCards| &&
        localSelectedCards[order.value - 1] == cardId &&
        cardId !in localSelectedCards[..order.value - 1]
    {
      var index := IndexOf(localSelectedCards, cardId);
      if index >= 0 then Some(index + 1) else None
    }

    /** `cardsToDisplay`: in universal6 mode the catalog filtered to ids up to
        21, which is the whole catalog; otherwise the catalog itself. */
    function CardsToDisplay(): (cards: seq<TarotData.TarotCard>)
      ensures cards == TarotData.TarotCards
    {
      TarotData.IdsInRange();
      if spreadType == Universal6 then MajorArcana(TarotData.TarotCards) else TarotData.TarotCards
    }
  }

  /** `cards.filter((card) => card.id <= 21)`. */
  function MajorArcana(cards: seq<TarotData.TarotCard>): (r: seq<TarotData.TarotCard>)
    ensures forall c :: c in r <==> c in cards && c.id <= 21
    ensures (forall i :: 0 <= i < |cards| ==> cards[i].id <= 21) ==> r == cards
    decreases |cards|
  {
    if |cards| == 0 then []
    else
      var rest := MajorArcana(cards[1..]);
      if cards[0].id <= 21 then [cards[0]] + rest else rest
  }

  /** The filter keeps order: filtering a concatenation filters each part. */
  lemma {:induction false} MajorArcanaAppend(xs: seq<TarotData.TarotCard>, ys: seq<TarotData.TarotCard>)
    ensures MajorArcana(xs + ys) == MajorArcana(xs) + MajorArcana(ys)
    decreases |xs|
  {
    if |xs| > 0 {
      assert (xs + ys)[0] == xs[0];
      assert (xs + ys)[1..] == xs[1..] + ys;
      MajorArcanaAppend(xs[1..], ys);
    } else {
      assert xs + ys == ys;
    }
  }

  /** A single card is kept exactly when its id is at most 21. */
  lemma MajorArcanaOne(c: TarotData.TarotCard)
    ensures MajorArcana([c]) == if c.id <= 21 then [c] else []
  {
    assert [c][1..] == [];
  }
}
