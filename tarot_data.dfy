/** The card catalog: the 22 Major Arcana, each with an id, a display name and
    the path of its artwork. */
module TarotData {
  import opened Wrappers

  datatype TarotCard = TarotCard(id: int, name: string, image: string)

  /** `tarotCards`, in declaration order. */
  const TarotCards: seq<TarotCard> := [
    TarotCard(0, "The Fool", Artwork("fool")),
    TarotCard(1, "The Magician", Artwork("magician")),
    TarotCard(2, "The High Priestess", Artwork("high_priestess")),
    TarotCard(3, "The Empress", Artwork("empress")),
    TarotCard(4, "The Emperor", Artwork("emperor")),
    TarotCard(5, "The Hierophant", Artwork("hierophant")),
    TarotCard(6, "The Lovers", Artwork("lovers")),
    TarotCard(7, "The Chariot", Artwork("chariot")),
    TarotCard(8, "Strength", Artwork("strength")),
    TarotCard(9, "The Hermit", Artwork("hermit")),
    TarotCard(10, "Wheel of Fortune", Artwork("wheel_of_fortune")),
    TarotCard(11, "Justice", Artwork("justice")),
    TarotCard(12, "The Hanged Man", Artwork("hanged_man")),
    TarotCard(13, "Death", Artwork("death")),
    TarotCard(14, "Temperance", Artwork("temperance")),
    TarotCard(15, "The Devil", Artwork("devil")),
    TarotCard(16, "The Tower", Artwork("tower")),
    TarotCard(17, "The Star", Artwork("star")),
    TarotCard(18, "The Moon", Artwork("moon")),
    TarotCard(19, "The Sun", Artwork("sun")),
    TarotCard(20, "Judgement", Artwork("judgement")),
    TarotCard(21, "The World", Artwork("world"))
  ]

  /** The second copy of the catalog kept by the reading page (ids and names only). */
  const ReadPageCards: seq<(int, string)> := [
    (0, "The Fool"), (1, "The Magician"), (2, "The High Priestess"),
    (3, "The Empress"), (4, "The Emperor"), (5, "The Hierophant"),
    (6, "The Lovers"), (7, "The Chariot"), (8, "Strength"), (9, "The Hermit"),
    (10, "Wheel of Fortune"), (11, "Justice"), (12, "The Hanged Man"),
    (13, "Death"), (14, "Temperance"), (15, "The Devil"), (16, "The Tower"),
    (17, "The Star"), (18, "The Moon"), (19, "The Sun"), (20, "Judgement"),
    (21, "The World")
  ]

  lemma CatalogSize()
    ensures |TarotCards| == 22
  {
  }

  /** Every entry's id is its position, so indexing the catalog by a card id
      yields that card. */
  lemma IdIsIndex()
    ensures forall i :: 0 <= i < |TarotCards| ==> TarotCards[i].id == i
  {
  }

  /** Every card of the catalog is one of the 22 major arcana: ids 0 to 21. */
  lemma IdsInRange()
    ensures forall i :: 0 <= i < |TarotCards| ==> 0 <= TarotCards[i].id <= 21
  {
    CatalogSize();
    IdIsIndex();
  }

  lemma NamesDistinct()
    ensures forall i, j :: 0 <= i < j < |TarotCards| ==> TarotCards[i].name != TarotCards[j].name
  {
  }

  /** An artwork path: `/image/<file>.png`. */
  predicate IsImagePath(img: string)
  {
    |img| > 11 && img[..7] == "/image/" && img[|img| - 4..] == ".png"
  }

  /** The path of the artwork file `/image/<file>.png`. */
  function Artwork(file: string): (img: string)
    requires |file| > 0
    ensures IsImagePath(img)
  {
    var img := "/image/" + file + ".png";
    assert img[..7] == "/image/";
    assert img[|img| - 4..] == ".png";
    img
  }

  lemma ImagePaths()
    ensures forall i :: 0 <= i < |TarotCards| ==> IsImagePath(TarotCards[i].image)
  {
  }

  /** The reading page's copy agrees with the catalog entry by entry. */
  lemma MatchesReadPageCatalog()
    ensures |ReadPageCards| == |TarotCards|
    ensures forall i :: 0 <= i < |TarotCards| ==>
      ReadPageCards[i].0 == TarotCards[i].id && ReadPageCards[i].1 == TarotCards[i].name
  {
  }

  /** `tarotCards[cardId]`: the card with that id, or `undefined` (None) when
      the id is outside the catalog. */
  function CardById(cardId: int): (c: Option<TarotCard>)
    ensures c.Some? <==> 0 <= cardId < 22
    ensures c.Some? ==> c.value.id == cardId && c.value in TarotCards
  {
    IdIsIndex();
    if 0 <= cardId < |TarotCards| then Some(TarotCards[cardId]) else None
  }
}
