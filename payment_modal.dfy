/** The premium payment modal: what it shows for each reading type, and
    `handleCheckout`, which saves the in-progress reading to local storage,
    asks the checkout endpoint for a payment page and navigates to it. */
module PaymentModal {
  import opened Wrappers
  import opened Strings
  import opened TarotContext
  import CheckoutRoute

  const QuestionKey := "tarot_question"
  const UserInfoKey := "tarot_userInfo"
  const CardIdsKey := "tarot_cardIds"
  const ReadingTypeKey := "tarot_readingType"
  const PaymentFailed := "Could not process payment. Please try again."

  function Price(readingType: SpreadType): (price: string)
    ensures price == "$3.00"
  {
    if readingType == Single then "$3.00" else "$3.00"
  }

  function Features(readingType: SpreadType): (features: seq<string>)
    ensures |features| == if readingType == Single then 4 else 6
    ensures features[|features| - 2..] == ["Unlimited sharing", "Save reading to profile"]
  {
    if readingType == Single then
      [ "Detailed single card interpretation",
        "Personalized insights",
        "Unlimited sharing",
        "Save reading to profile" ]
    else
      [ "Comprehensive 6-card spread analysis",
        "Detailed interpretation for each position",
        "In-depth synthesis of all cards",
        "Personal guidance for each aspect",
        "Unlimited sharing",
        "Save reading to profile" ]
  }

  /** `cardIds.join(",")`. */
  function CardIdsValue(cardIds: seq<nat>): string
  {
    Join(seq(|cardIds|, i requires 0 <= i < |cardIds| => NatToString(cardIds[i])), ",")
  }

  /** Reads a stored card-id list back: the comma-separated pieces as numbers.
      This is the inverse of `CardIdsValue`, used to state what the stored
      value determines. */
  function ParseCardIds(s: string): (ids: seq<nat>)
  {
    var pieces := Split(s, ',');
    seq(|pieces|, i requires 0 <= i < |pieces| => ParseNat(pieces[i]))
  }

  /** The stored card-id list determines the selection, in selection order. */
  lemma CardIdsRoundTrip(cardIds: seq<nat>)
    requires |cardIds| >= 1
    ensures ParseCardIds(CardIdsValue(cardIds)) == cardIds
  {
    var parts := seq(|cardIds|, i requires 0 <= i < |cardIds| => NatToString(cardIds[i]));
    SplitJoin(parts, ',');
    forall i | 0 <= i < |cardIds| ensures ParseNat(parts[i]) == cardIds[i] {
      ParseNatToString(cardIds[i]);
    }
  }

  /** Local storage after the four writes of `handleCheckout`. */
  function StoredForCheckout(items: map<string, string>, question: string, userInfo: string,
                             cardIds: seq<nat>, readingType: SpreadType): (r: map<string, string>)
    ensures r.Keys == items.Keys + {QuestionKey, UserInfoKey, CardIdsKey, ReadingTypeKey}
    ensures r[QuestionKey] == question && r[UserInfoKey] == userInfo
    ensures r[CardIdsKey] == CardIdsValue(cardIds) && r[ReadingTypeKey] == SpreadTypeName(readingType)
    ensures forall k :: k in items && k !in {QuestionKey, UserInfoKey, CardIdsKey, ReadingTypeKey} ==>
      r[k] == items[k]
  {
    items[QuestionKey := question][UserInfoKey := userInfo]
         [CardIdsKey := CardIdsValue(cardIds)][ReadingTypeKey := SpreadTypeName(readingType)]
  }

  /** The browser's local storage. */
  class LocalStorage {
    var items: map<string, string>

    constructor (items: map<string, string>)
      ensures this.items == items
    {
      this.items := items;
    }

    method SetItem(key: string, value: string)
      modifies this
      ensures items == old(items)[key := value]
    {
      items := items[key := value];
    }
  }

  /** What the checkout request produced: a parsed reply with its `url`
      (None when absent or null), or a failure of `fetch` or of parsing. */
  datatype CheckoutReply = Replied(url: Option<string>) | RequestFailed

  class PaymentModal {
    const readingType: SpreadType
    const question: string
    const userInfo: string
    const cardIds: seq<nat>
    var isLoading: bool
    var error: Option<string>

    constructor (readingType: SpreadType, question: string, userInfo: string, cardIds: seq<nat>)
      ensures this.readingType == readingType && this.question == question
      ensures this.userInfo == userInfo && this.cardIds == cardIds
      ensures !isLoading && error.None?
    {
      this.readingType := readingType;
      this.question := question;
      this.userInfo := userInfo;
      this.cardIds := cardIds;
      isLoading := false;
      error := None;
    }

    /** The modal can be dismissed (backdrop or Cancel) only while not loading. */
    predicate CanClose()
      reads this
    {
      !isLoading
    }

    /** `handleCheckout`: `request` is the body sent to the checkout endpoint,
        `navigateTo` the page the browser is sent to, and `pending` the
        (isLoading, error) pair rendered while the request is in flight. */
    method HandleCheckout(storage: LocalStorage, reply: CheckoutReply)
      returns (request: CheckoutRoute.CheckoutBody, navigateTo: Option<string>, ghost pending: (bool, Option<string>))
      modifies this, storage
      ensures pending == (true, None)
      ensures storage.items ==
        StoredForCheckout(old(storage.items), question, userInfo, cardIds, readingType)
      ensures request == CheckoutRoute.CheckoutBody(Some(SpreadTypeName(readingType)))
      ensures !isLoading && CanClose()
      ensures navigateTo.Some? <==> reply.Replied? && reply.url.Some? && reply.url.value != ""
      ensures navigateTo.Some? ==> navigateTo == reply.url && error.None?
      ensures navigateTo.None? ==> error == Some(PaymentFailed)
    {
      isLoading := true;
      error := None;
      pending := (isLoading, error);
      storage.SetItem(QuestionKey, question);
      storage.SetItem(UserInfoKey, userInfo);
      storage.SetItem(CardIdsKey, CardIdsValue(cardIds));
      storage.SetItem(ReadingTypeKey, SpreadTypeName(readingType));
      request := CheckoutRoute.CheckoutBody(Some(SpreadTypeName(readingType)));
      navigateTo := None;
      if reply.Replied? && reply.url.Some? && reply.url.value != "" {
        navigateTo := reply.url;
      } else {
        error := Some(PaymentFailed);
      }
      isLoading := false;
    }
  }

  /** The reading type the modal sends selects the matching product at the
      checkout endpoint and is echoed in the session's metadata. */
  lemma RequestSelectsProduct(readingType: SpreadType, origin: Option<string>, outcome: CheckoutRoute.StripeOutcome)
    ensures var h := CheckoutRoute.Post(origin, Some(CheckoutRoute.CheckoutBody(Some(SpreadTypeName(readingType)))), outcome);
      h.session.Some? &&
      h.session.value.metadataReadingType == SpreadTypeName(readingType) &&
      CheckoutRoute.ProductFor(SpreadTypeName(readingType)) ==
        (if readingType == Single then CheckoutRoute.SingleProduct else CheckoutRoute.Universal6Product)
  {
  }
}
