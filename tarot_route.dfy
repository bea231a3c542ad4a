/** The reading endpoint (`POST /api/tarot`): checks the API key, picks the
    six-card or the single-card prompt, builds it line by line, and maps the
    model's outcome to a JSON response. The model call itself is an input. */
module TarotRoute {
  import opened Wrappers
  import opened Strings

  const PositionDescriptions: seq<string> := [
    "How you feel about yourself now",
    "What you most want at this moment",
    "Your fears",
    "What is going for you",
    "What is going against you",
    "The outcome according to your current situation"
  ]

  const MissingApiKey := "API configuration error: Missing API key"
  const NoCardsProvided := "No cards provided for reading"
  const FetchFailed := "Failed to fetch from AI service"
  const GenerationFailed := "Failed to generate content from AI service"
  const ProcessingFailed := "Failed to process message"

  /** A truthy card value from the request; `name` is what `${card.name}` renders. */
  datatype ApiCard = ApiCard(name: string)

  /** The parsed request body. `cards` is None when it is not an array; an
      element or `card` is None when it is falsy (`null`, absent). */
  datatype RequestBody = RequestBody(
    userInfo: string,
    question: string,
    cards: Option<seq<Option<ApiCard>>>,
    card: Option<ApiCard>,
    spreadType: Option<string>)

  /** What `chat.sendMessage(prompt)` and `response.text()` produced. */
  datatype ModelOutcome = Generated(text: string) | FetchError | GenerationError

  datatype ResponseBody = Answer(response: string) | ErrorBody(error: string)

  datatype Response = Response(status: nat, body: ResponseBody)

  /** The response, and the prompt sent to the model (None when no call was made). */
  datatype Handled = Handled(response: Response, prompt: Option<string>)

  /** The prompt line for position i (0-based): its 1-based number, its
      description, then the card's name. */
  function PositionLine(i: nat, name: string): (line: string)
    requires i < 6
    ensures var number := NatToString(i + 1);
      |line| == 9 + |number| + 2 + |PositionDescriptions[i]| + 3 + |name| &&
      line[..9] == "Position " && line[9..9 + |number|] == number &&
      line[|line| - |name|..] == name
  {
    "Position " + NatToString(i + 1) + " (" + PositionDescriptions[i] + "): " + name
  }

  const SixCardIntro := "You are an expert tarot card reader. You will interpret the Universal 6 Card Spread."
  const SixCardSpreadNote := "The Universal 6 Card Spread is a famous spread that has been consulted over 200 million times since 2002. It uses Major Arcana cards to provide a snapshot of the querent's current situation."
  const SixCardListHeading := "Here are the 6 cards drawn in their respective positions:"
  const SixCardInstructions: seq<string> := [
    "Provide a comprehensive reading that first interprets each card in its position, then provides an overall synthesis.",
    "Format your response with clear sections for each position and a conclusion.",
    "For each position, explain what the card means in that specific position and how it relates to the querent's question.",
    "Answer in the language of the querent's question.",
    "Remember that the first reading is always the most appropriate - emphasize accepting this reading rather than seeking another."
  ]
  const SingleCardIntro := "You are a tarot card reader. You will answer the user's question based on the tarot card drawn. The user is "
  const SingleCardInstructions: seq<string> := [
    "Answer in the language of the user's question",
    "Please provide a detailed interpretation of the card in relation to the user's question.",
    "The interpretation should be insightful and relevant to the user's situation."
  ]

  /** The lines of the Universal 6 prompt. */
  function SixCardLines(userInfo: string, question: string, names: seq<string>): (lines: seq<string>)
    requires |names| == 6
    ensures |lines| == 16
    ensures forall i :: 0 <= i < 6 ==> lines[5 + i] == PositionLine(i, names[i])
    ensures lines[1] == "About the querent: " + userInfo
    ensures lines[2] == "The querent has asked: \"" + question + "\""
  {
    [ SixCardIntro,
      "About the querent: " + userInfo,
      "The querent has asked: \"" + question + "\"",
      SixCardSpreadNote,
      SixCardListHeading ]
    + seq(6, i requires 0 <= i < 6 => PositionLine(i, names[i]))
    + SixCardInstructions
  }

  /** The lines of the single-card prompt. */
  function SingleCardLines(userInfo: string, question: string, name: string): (lines: seq<string>)
    ensures |lines| == 6
    ensures lines[2] == "The tarot card drawn is \"" + name + "\"."
    ensures lines[1] == "The user has asked: \"" + question + "\"."
  {
    [ SingleCardIntro + userInfo + ".",
      "The user has asked: \"" + question + "\".",
      "The tarot card drawn is \"" + name + "\"." ]
    + SingleCardInstructions
  }

  /** Whether the six-card prompt is used. */
  predicate UsesSixCardPrompt(body: RequestBody)
  {
    body.spreadType == Some("universal6") && body.cards.Some? && |body.cards.value| == 6
  }

  /** The card of the single-card path: `card || (cards[0] if non-empty)`. */
  function SingleCard(body: RequestBody): (c: Option<ApiCard>)
    ensures body.card.Some? ==> c == body.card
    ensures body.card.None? && body.cards.Some? && |body.cards.value| > 0 ==> c == body.cards.value[0]
    ensures c.None? <==>
      (body.card.None? && (body.cards.None? || |body.cards.value| == 0 || body.cards.value[0].None?))
  {
    if body.card.Some? then body.card
    else if body.cards.Some? && |body.cards.value| > 0 then body.cards.value[0]
    else None
  }

  predicate AllPresent(cards: seq<Option<ApiCard>>)
  {
    forall i :: 0 <= i < |cards| ==> cards[i].Some?
  }

  /** The response for an outcome of the model call. */
  function Reply(outcome: ModelOutcome): (r: Response)
    ensures r.status == 200 <==> outcome.Generated?
    ensures outcome.Generated? ==> r.body == Answer(outcome.text)
    ensures outcome.FetchError? ==> r == Response(500, ErrorBody(FetchFailed))
    ensures outcome.GenerationError? ==> r == Response(500, ErrorBody(GenerationFailed))
  {
    match outcome
    case Generated(text) => Response(200, Answer(text))
    case FetchError => Response(500, ErrorBody(FetchFailed))
    case GenerationError => Response(500, ErrorBody(GenerationFailed))
  }

  /** `POST`. `apiKey` is the environment variable (None when unset), `body`
      the parsed JSON body (None when it cannot be parsed or destructured),
      `outcome` what the model call produces if it is made. */
  function Post(apiKey: Option<string>, body: Option<RequestBody>, outcome: ModelOutcome): (h: Handled)
    // a missing or empty key is rejected before the body is looked at
    ensures apiKey.None? || apiKey == Some("") ==>
      h == Handled(Response(500, ErrorBody(MissingApiKey)), None)
    ensures apiKey.Some? && apiKey != Some("") && body.None? ==>
      h == Handled(Response(500, ErrorBody(ProcessingFailed)), None)
    // the model is called only with one of the two prompts, and its answer is passed through
    ensures h.prompt.Some? ==> h.response == Reply(outcome)
    ensures h.prompt.None? ==> h.response.status != 200
    ensures apiKey.Some? && apiKey != Some("") && body.Some? ==>
      var b := body.value;
      (UsesSixCardPrompt(b) && AllPresent(b.cards.value) ==>
        h.prompt == Some(Join(SixCardLines(b.userInfo, b.question,
                                           seq(6, i requires 0 <= i < 6 => b.cards.value[i].value.name)), "\n")))
      && (UsesSixCardPrompt(b) && !AllPresent(b.cards.value) ==>
        h == Handled(Response(500, ErrorBody(ProcessingFailed)), None))
      && (!UsesSixCardPrompt(b) && SingleCard(b).Some? ==>
        h.prompt == Some(Join(SingleCardLines(b.userInfo, b.question, SingleCard(b).value.name), "\n")))
      && (!UsesSixCardPrompt(b) && SingleCard(b).None? ==>
        h == Handled(Response(400, ErrorBody(NoCardsProvided)), None))
  {
    if apiKey.None? || apiKey.value == "" then
      Handled(Response(500, ErrorBody(MissingApiKey)), None)
    else if body.None? then
      Handled(Response(500, ErrorBody(ProcessingFailed)), None)
    else
      var b := body.value;
      if UsesSixCardPrompt(b) then
        var cards := b.cards.value;
        if !AllPresent(cards) then
          // reading `.name` of a null element throws, and the outer handler answers
          Handled(Response(500, ErrorBody(ProcessingFailed)), None)
        else
          var names := seq(6, i requires 0 <= i < 6 => cards[i].value.name);
          var prompt := Join(SixCardLines(b.userInfo, b.question, names), "\n");
          Handled(Reply(outcome), Some(prompt))
      else
        var single := SingleCard(b);
        if single.None? then
          Handled(Response(400, ErrorBody(NoCardsProvided)), None)
        else
          var prompt := Join(SingleCardLines(b.userInfo, b.question, single.value.name), "\n");
          Handled(Reply(outcome), Some(prompt))
  }

  /** The six-card prompt lists the cards one line each, in card order: the
      line for position i + 1 (its meaning, then card i's name) occurs in the
      prompt, after the line for every earlier position and a newline. */
  lemma SixCardPromptOrder(userInfo: string, question: string, names: seq<string>, i: nat, j: nat)
    returns (at: nat, atLater: nat)
    requires |names| == 6 && i < j < 6
    ensures var prompt := Join(SixCardLines(userInfo, question, names), "\n");
      var line := "Position " + NatToString(i + 1) + " (" + PositionDescriptions[i] + "): " + names[i];
      var later := "Position " + NatToString(j + 1) + " (" + PositionDescriptions[j] + "): " + names[j];
      && at + |line| <= |prompt| && prompt[at..at + |line|] == line
      && atLater + |later| <= |prompt| && prompt[atLater..atLater + |later|] == later
      && at + |line| + 1 <= atLater
  {
    var lines := SixCardLines(userInfo, question, names);
    JoinPartAt(lines, "\n", 5 + i);
    JoinPartAt(lines, "\n", 5 + j);
    PartOffsetIncreasing(lines, "\n", 5 + i, 5 + j);
    at := PartOffset(lines, "\n", 5 + i);
    atLater := PartOffset(lines, "\n", 5 + j);
  }

  /** The single-card prompt contains the card's name in double quotes. */
  lemma SingleCardPromptQuotesName(userInfo: string, question: string, name: string) returns (at: nat)
    ensures var prompt := Join(SingleCardLines(userInfo, question, name), "\n");
      var quoted := "\"" + name + "\"";
      at + |quoted| <= |prompt| && prompt[at..at + |quoted|] == quoted
  {
    var lines := SingleCardLines(userInfo, question, name);
    JoinPartAt(lines, "\n", 2);
    var lead := "The tarot card drawn is ";
    var quoted := "\"" + name + "\"";
    assert lines[2] == lead + quoted + ".";
    InfixOfConcat(lead, quoted, ".");
    var off := PartOffset(lines, "\n", 2);
    InfixOfInfix(Join(lines, "\n"), off, lines[2], |lead|, quoted);
    at := off + |lead|;
  }

  /** A request with no card and no usable first element of `cards` outside
      the six-card path is answered 400 without calling the model. */
  lemma NoCardsIsBadRequest(apiKey: string, body: RequestBody, outcome: ModelOutcome)
    requires apiKey != ""
    requires body.card.None? && (body.cards.None? || |body.cards.value| == 0)
    ensures Post(Some(apiKey), Some(body), outcome) == Handled(Response(400, ErrorBody(NoCardsProvided)), None)
  {
  }
}
