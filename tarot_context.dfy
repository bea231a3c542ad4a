/** The reading store shared through the React context: whether a request is
    in flight, the last error, the current reading and the saved history. */
module TarotContext {
  import opened Wrappers

  datatype SpreadType = Single | Universal6

  /** The wire name of a spread type. */
  function SpreadTypeName(t: SpreadType): (name: string)
    ensures name == "single" || name == "universal6"
    ensures (name == "single") <==> t == Single
  {
    match t
    case Single => "single"
    case Universal6 => "universal6"
  }

  datatype TarotCard = TarotCard(id: int, name: string)

  datatype StructuredPositionReading =
    StructuredPositionReading(position: int, card: string, description: string, interpretation: string)

  /** The value of `interpretation`, which is whatever the reading endpoint put in
      `response`: a string, an object (with or without the `positions` and
      `overall` keys of a structured reading), or any other JSON value
      (`null`, a number, an array, `undefined`). */
  datatype Interpretation =
    | Text(text: string)
    | Record(positions: Option<seq<StructuredPositionReading>>, overall: Option<string>)
    | Other

  datatype TarotReading = TarotReading(
    cards: seq<TarotCard>,
    spreadType: SpreadType,
    question: string,
    userInfo: string,
    interpretation: Interpretation,
    date: string)

  /** A value thrown inside `getReading`: an `Error` object (from `fetch`, from
      `response.json()` or from the non-ok check) or anything else. */
  datatype Thrown = ErrorObject(message: string) | NonError

  /** What the `/api/tarot` request produced: something thrown, or a parsed
      response with its `ok` flag, its `error` field (None when falsy) and its
      `response` field. */
  datatype FetchOutcome =
    | Threw(thrown: Thrown)
    | Received(ok: bool, errorField: Option<string>, response: Interpretation)

  datatype StoreState = StoreState(
    isLoading: bool,
    error: Option<string>,
    reading: Option<TarotReading>,
    pastReadings: seq<TarotReading>)

  const Initial := StoreState(false, None, None, [])

  const FailedToGetReading := "Failed to get reading"
  const UnknownError := "An unknown error occurred"
  const OutsideProvider := "useTarot must be used within a TarotProvider"

  /** The message `getReading` stores for an outcome that is not a usable reading. */
  function ErrorMessage(outcome: FetchOutcome): (msg: Option<string>)
    ensures msg.None? <==> outcome.Received? && outcome.ok
    ensures outcome.Threw? && outcome.thrown.NonError? ==> msg == Some(UnknownError)
    ensures outcome.Threw? && outcome.thrown.ErrorObject? ==> msg == Some(outcome.thrown.message)
    ensures outcome.Received? && !outcome.ok ==>
      msg == Some(if outcome.errorField.Some? && outcome.errorField.value != ""
                  then outcome.errorField.value else FailedToGetReading)
  {
    match outcome
    case Threw(ErrorObject(m)) => Some(m)
    case Threw(NonError) => Some(UnknownError)
    case Received(ok, e, _) =>
      if ok then None
      else if e.Some? && e.value != "" then Some(e.value)
      else Some(FailedToGetReading)
  }

  /** The state while the request is in flight: loading, error cleared. */
  function Began(s: StoreState): (t: StoreState)
    ensures t.isLoading && t.error.None?
    ensures t.reading == s.reading && t.pastReadings == s.pastReadings
  {
    s.(isLoading := true, error := None)
  }

  /** The state once `getReading` has settled. */
  function Settled(s: StoreState, cards: seq<TarotCard>, question: string, userInfo: string,
                   spreadType: SpreadType, outcome: FetchOutcome, date: string): (t: StoreState)
    ensures !t.isLoading
    ensures t.pastReadings == s.pastReadings
    ensures outcome.Received? && outcome.ok ==>
      t.error == s.error &&
      t.reading == Some(TarotReading(cards, spreadType, question, userInfo, outcome.response, date))
    ensures !(outcome.Received? && outcome.ok) ==>
      t.reading == s.reading && t.error == ErrorMessage(outcome) && t.error.Some?
  {
    var msg := ErrorMessage(outcome);
    if msg.None? then
      s.(isLoading := false,
         reading := Some(TarotReading(cards, spreadType, question, userInfo, outcome.response, date)))
    else
      s.(isLoading := false, error := msg)
  }

  /** `getReading` as a whole; `spreadType` defaults to "single". */
  function AfterGetReading(s: StoreState, cards: seq<TarotCard>, question: string, userInfo: string,
                           spreadType: Option<SpreadType>, outcome: FetchOutcome, date: string): (t: StoreState)
    ensures !t.isLoading
    ensures t.pastReadings == s.pastReadings
    ensures outcome.Received? && outcome.ok <==> t.error.None?
    ensures outcome.Received? && outcome.ok ==>
      t.reading == Some(TarotReading(cards, if spreadType.Some? then spreadType.value else Single,
                                     question, userInfo, outcome.response, date))
    ensures !(outcome.Received? && outcome.ok) ==> t.reading == s.reading
  {
    var spread := if spreadType.Some? then spreadType.value else Single;
    Settled(Began(s), cards, question, userInfo, spread, outcome, date)
  }

  function AfterClear(s: StoreState): (t: StoreState)
    ensures t.reading.None? && t.error.None?
    ensures t.isLoading == s.isLoading && t.pastReadings == s.pastReadings
  {
    s.(reading := None, error := None)
  }

  function AfterSave(s: StoreState): (t: StoreState)
    ensures s.reading.Some? ==> t.pastReadings == s.pastReadings + [s.reading.value]
    ensures s.reading.None? ==> t == s
    ensures t.reading == s.reading && t.error == s.error && t.isLoading == s.isLoading
  {
    if s.reading.Some? then s.(pastReadings := s.pastReadings + [s.reading.value]) else s
  }

  /** One call on the store, as a component makes it. */
  datatype Action =
    | GetReading(cards: seq<TarotCard>, question: string, userInfo: string,
                 spreadType: Option<SpreadType>, outcome: FetchOutcome, date: string)
    | ClearReading
    | SavePastReading

  function Step(s: StoreState, a: Action): StoreState
  {
    match a
    case GetReading(c, q, u, t, o, d) => AfterGetReading(s, c, q, u, t, o, d)
    case ClearReading => AfterClear(s)
    case SavePastReading => AfterSave(s)
  }

  function Run(s: StoreState, actions: seq<Action>): StoreState
    decreases |actions|
  {
    if |actions| == 0 then s else Run(Step(s, actions[0]), actions[1..])
  }

  function SaveCount(s: StoreState, actions: seq<Action>): nat
    decreases |actions|
  {
    if |actions| == 0 then 0
    else (if actions[0].SavePastReading? && s.reading.Some? then 1 else 0)
         + SaveCount(Step(s, actions[0]), actions[1..])
  }

  /** The history is append-only: whatever the calls, the old history is a
      prefix of the new one, which has grown by one entry per save made while
      a reading was present. */
  lemma {:induction false} HistoryAppendOnly(s: StoreState, actions: seq<Action>)
    ensures s.pastReadings <= Run(s, actions).pastReadings
    ensures |Run(s, actions).pastReadings| == |s.pastReadings| + SaveCount(s, actions)
    decreases |actions|
  {
    if |actions| > 0 {
      HistoryAppendOnly(Step(s, actions[0]), actions[1..]);
    }
  }

  /** No sequence of settled calls leaves the store loading. */
  lemma {:induction false} NeverLeftLoading(s: StoreState, actions: seq<Action>)
    requires !s.isLoading
    ensures !Run(s, actions).isLoading
    decreases |actions|
  {
    if |actions| > 0 {
      NeverLeftLoading(Step(s, actions[0]), actions[1..]);
    }
  }

  /** Saving then clearing, as the result screen's "Save & Close" does,
      archives the reading and empties the current one. */
  lemma SaveThenClear(s: StoreState)
    requires s.reading.Some?
    ensures Run(s, [SavePastReading, ClearReading]) ==
      s.(reading := None, error := None, pastReadings := s.pastReadings + [s.reading.value])
  {
    assert [SavePastReading, ClearReading][1..] == [ClearReading];
  }

  /** The provider's state, updated in place by the three operations. */
  class TarotProvider {
    var isLoading: bool
    var error: Option<string>
    var reading: Option<TarotReading>
    var pastReadings: seq<TarotReading>

    function State(): StoreState
      reads this
    {
      StoreState(isLoading, error, reading, pastReadings)
    }

    constructor ()
      ensures State() == Initial
    {
      isLoading, error, reading, pastReadings := false, None, None, [];
    }

    /** `getReading`; `pending` is the state rendered while the request is in flight. */
    method GetReading(cards: seq<TarotCard>, question: string, userInfo: string,
                      spreadType: Option<SpreadType>, outcome: FetchOutcome, date: string)
      returns (ghost pending: StoreState)
      modifies this
      ensures pending == Began(old(State()))
      ensures State() == AfterGetReading(old(State()), cards, question, userInfo, spreadType, outcome, date)
    {
      var spread := if spreadType.Some? then spreadType.value else Single;
      isLoading := true;
      error := None;
      pending := State();
      match outcome {
        case Threw(ErrorObject(m)) =>
          error := Some(m);
        case Threw(NonError) =>
          error := Some(UnknownError);
        case Received(ok, e, response) =>
          if !ok {
            error := Some(if e.Some? && e.value != "" then e.value else FailedToGetReading);
          } else {
            reading := Some(TarotReading(cards, spread, question, userInfo, response, date));
          }
      }
      isLoading := false;
    }

    method ClearReading()
      modifies this
      ensures State() == AfterClear(old(State()))
    {
      reading := None;
      error := None;
    }

    method SavePastReading()
      modifies this
      ensures State() == AfterSave(old(State()))
    {
      if reading.Some? {
        pastReadings := pastReadings + [reading.value];
      }
    }
  }

  /** `useTarot`: the provider in scope, or the error it throws outside one. */
  function UseTarot(context: Option<TarotProvider>): (r: Result<TarotProvider, string>)
    ensures r.Success? <==> context.Some?
    ensures r.Success? ==> r.value == context.value
    ensures r.Failure? ==> r.error == OutsideProvider
  {
    if context.None? then Failure(OutsideProvider) else Success(context.value)
  }
}
