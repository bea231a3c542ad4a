# tarot-ai in Dafny

A model of the logic layer of tarot-ai, a Next.js tarot-reading web app. A
visitor picks one card, or six cards for the Universal 6 Card Spread, asks a
question, and gets an interpretation from a generative model. Premium
readings go through a payment page and then resume.

The model covers these parts of the app:

- **Card catalog** (`TarotData`). The 22 Major Arcana, with the invariant that every id equals its index, and the second copy kept by the reading page.
- **Card deck** (`TarotCardDeck`). The multi-card selection is an ordered, duplicate-free list with a capacity:
  - a new card is appended;
  - a re-click truncates the list back to just before that card;
  - the completion callback fires when an append fills the list.

  `CardDeck` is a class whose method updates the selection in place. A run of clicks is modelled by `AfterClicks`, and a lemma bounds how often the callback fires over the run.
- **Reading store** (`TarotContext`). `TarotProvider` is a class with the four state fields and the operations `getReading`, `clearReading` and `savePastReading`. The same operations are also written as functions on a state value, with lemmas over any sequence of calls: the history is append-only and the store is never left loading.
- **Result sectioning** (`ReadingResult`). `interpretationSections` is a method with a loop. It is proved against its five cases. The chunked case is proved to cover every paragraph exactly once, in order.
- **Reading endpoint** (`TarotRoute`). It checks the API key, chooses between the six-card and the single-card prompt, builds the prompt line by line, and maps the outcome of the model call to a response.
- **Checkout endpoint** (`CheckoutRoute`). It looks up the product with a fallback, describes the payment session to create, and maps errors to status codes.
- **Payment modal** (`PaymentModal`). A class whose `handleCheckout` writes four storage keys, then maps the checkout reply to a navigation or an error. The `cardIds` value is proved to read back as the selection.
- **Success page** (`SuccessPage`). It builds the resume address. The address is proved to be a query string. It reads back as its parameter list when the session id, the reading type and the stored card ids contain no "&"; the page inserts the first two without encoding them.
- **Shared modules.** `Strings` holds `join`, a one-character `split`, and decimal rendering of ids, each with a round-trip lemma. `Wrappers` holds `Option` and `Result`.

Three behaviours of the code as written are stated as lemmas:

- **The paid reading type comes back as "single".** `SuccessPage.PaidSelectionResumes` chains three steps:
  - the checkout writes storage;
  - the payment provider returns to the success address, which carries only `session_id` (app/api/checkout/route.ts line 45);
  - the success page builds the resume address.

  The selection survives this in order. The resume address always says `readingType=single`, even for a Universal 6 purchase, because the success page defaults the missing parameter and never reads `tarot_readingType`.
- **The reading type can inject parameters.** `SuccessPage.ReadingTypeInjectsCardIds` takes a `readingType` query value such as `single&cardIds=9`, which arrives as `single%26cardIds%3D9` and is decoded by `searchParams.get`. The success page puts it into the resume address without `encodeURIComponent` (app/success/page.tsx line 35). The address then carries a `cardIds` parameter ahead of the stored one, and that first one is what a reader of the address gets.
- **Some positions get no text.** `ReadingResult.SevenParagraphsOverSixCards` takes seven paragraphs over six cards. They are cut into chunks of 2, 2, 2, 1, 0 and 0 paragraphs, so the last two tabs show the fallback text.

## Model

| member | source | states |
|---|---|---|
| TarotData.CatalogSize | components/tarot/TarotData.ts:9-32 | the catalog has exactly 22 entries |
| TarotData.IdIsIndex | components/tarot/TarotData.ts:10-31 | every entry's id equals its index, so `tarotCards[id]` is the card with that id |
| TarotData.IdsInRange | components/tarot/TarotData.ts:10-31 | every id lies between 0 and 21 (all 22 cards are Major Arcana) |
| TarotData.NamesDistinct | components/tarot/TarotData.ts:10-31 | card names are pairwise distinct |
| TarotData.Artwork | components/tarot/TarotData.ts:10-31 | an artwork path starts with "/image/" and ends with ".png" |
| TarotData.ImagePaths | components/tarot/TarotData.ts:10-31 | every catalog image path starts with "/image/" and ends with ".png" |
| TarotData.MatchesReadPageCatalog | app/read/page.tsx:9-32 | the reading page's copy has the same length and, entry by entry, the same id and name |
| TarotData.CardById | components/tarot/ReadingResult.tsx:214 | indexing the catalog by a card id gives a card exactly for ids 0..21, and that card has the requested id |
| TarotCardDeck.NextSelection | components/tarot/TarotCardDeck.tsx:36-45 | a selected card cuts the selection to a prefix that no longer holds it; an unselected card is appended when there is room and ignored when the selection is full |
| TarotCardDeck.Completes | components/tarot/TarotCardDeck.tsx:44-53 | the callback condition holds exactly when the click appends the card and the appended selection has `maxSelections` entries |
| TarotCardDeck.IndexOf | components/tarot/TarotCardDeck.tsx:39 | `indexOf` is -1 exactly when the id is absent; otherwise it is the first position holding the id |
| TarotCardDeck.ReclickTruncates | components/tarot/TarotCardDeck.tsx:39-42 | clicking the card at position k of a duplicate-free selection leaves exactly the first k selections |
| TarotCardDeck.NewCardAppendsOrIgnored | components/tarot/TarotCardDeck.tsx:43-45 | an unselected card is appended at the end when there is room and changes nothing when the selection is full |
| TarotCardDeck.NextSelectionKeepsInv | components/tarot/TarotCardDeck.tsx:36-45 | every click keeps the selection within `maxSelections` and free of duplicates |
| TarotCardDeck.CompletionAtMostOncePerFill | components/tarot/TarotCardDeck.tsx:44-53 | over any run of clicks, completions plus the final room are at most the initial room plus the truncating clicks: the callback fires at most once per filling |
| TarotCardDeck.CompletionOnceWithoutReclick | components/tarot/TarotCardDeck.tsx:48-53 | from an empty selection, clicks that never re-click a selected card fire the completion callback at most once |
| TarotCardDeck.CardDeck.constructor | components/tarot/TarotCardDeck.tsx:19-26 | `spreadType` defaults to single and `maxSelections` to `MAX_CARDS` (6); the selection starts empty and valid |
| TarotCardDeck.CardDeck.HandleCardSelection | components/tarot/TarotCardDeck.tsx:28-57 | single mode forwards the id and leaves the selection untouched; otherwise the selection becomes the next selection; the completion callback gets the new list exactly when an append fills it and a handler is present; the invariant is kept |
| TarotCardDeck.CardDeck.GetSelectionOrder | components/tarot/TarotCardDeck.tsx:60-63 | a 1-based position exactly for selected ids, and the selection holds the id first at that position; null otherwise |
| TarotCardDeck.CardDeck.CardsToDisplay | components/tarot/TarotCardDeck.tsx:65-68 | in either mode the deck shown is the whole catalog (the universal6 filter removes nothing) |
| TarotCardDeck.MajorArcana | components/tarot/TarotCardDeck.tsx:67 | a card is in the result exactly when it is in the input with id at most 21; everything is kept when every id is at most 21 |
| TarotCardDeck.MajorArcanaAppend | components/tarot/TarotCardDeck.tsx:67 | filtering a concatenation is the concatenation of the filtered parts, so the filter keeps order and repetitions |
| TarotCardDeck.MajorArcanaOne | components/tarot/TarotCardDeck.tsx:67 | a single card is kept exactly when its id is at most 21 |
| ReadingResult.CardIds | components/tarot/ReadingResult.tsx:55-60 | the id list when non-empty, else the single id when defined, else empty |
| ReadingResult.IsStructured | components/tarot/ReadingResult.tsx:63-67 | defined as: an object interpretation carrying both `positions` and `overall` (no contract; used by `InterpretationSections`) |
| ReadingResult.CeilDiv | components/tarot/ReadingResult.tsx:95-97 | `Math.ceil(a / b)`: the least c with c·b ≥ a |
| ReadingResult.Slice | components/tarot/ReadingResult.tsx:105 | `slice` is the plain sub-sequence for in-range bounds and empty for reversed or out-of-range ones |
| ReadingResult.Chunk | components/tarot/ReadingResult.tsx:99-105 | a non-empty chunk i is the run of consecutive paragraphs starting at position i·size |
| ReadingResult.ChunksPrefix | components/tarot/ReadingResult.tsx:98-107 | the first k chunks, laid end to end, are the first min(k·size, total) paragraphs |
| ReadingResult.ChunksPartition | components/tarot/ReadingResult.tsx:93-107 | n chunks of ceil(total / n) paragraphs, concatenated in order, are exactly the paragraph list |
| ReadingResult.ChunkShape | components/tarot/ReadingResult.tsx:99-105 | a chunk holds at most `size` paragraphs and is empty exactly when it starts at or past the end |
| ReadingResult.SevenParagraphsOverSixCards | components/tarot/ReadingResult.tsx:93-107 | seven paragraphs over six cards give chunks of 2, 2, 2, 1, 0, 0 paragraphs, and tabs 5 and 6 of the six sections show the fallback text |
| ReadingResult.DropBlank | components/tarot/ReadingResult.tsx:85-87 | the kept pieces are exactly the pieces whose trimmed text is non-empty |
| ReadingResult.DropBlankAppend | components/tarot/ReadingResult.tsx:85-87 | filtering a concatenation is the concatenation of the filtered parts, so the filter keeps order and repetitions |
| ReadingResult.DropBlankOne | components/tarot/ReadingResult.tsx:85-87 | a single piece is kept exactly when it is not blank |
| ReadingResult.InterpretationSections | components/tarot/ReadingResult.tsx:70-126 | marker pieces without blanks; otherwise one ceil-sized chunk per card joined with "\n\n" when there are enough paragraphs; else the whole text per card; structured input gives the positions' texts in order; any other case gives one section, the string or "" |
| ReadingResult.TabText | components/tarot/ReadingResult.tsx:233-234 | a tab shows its section, or "No interpretation available for this position." when the section is missing or empty |
| TarotRoute.PositionLine | app/api/tarot/route.ts:83 | the line starts with "Position " and the 1-based position number and ends with the card's name |
| TarotRoute.UsesSixCardPrompt | app/api/tarot/route.ts:70-74 | defined as: the spread type is "universal6" and `cards` is an array of six (no contract; its consequences are stated by `Post`) |
| TarotRoute.SixCardLines | app/api/tarot/route.ts:75-90 | 16 lines; the querent's info and question on lines 1 and 2; line 5 + i is "Position i+1 (description i): name i" |
| TarotRoute.SingleCardLines | app/api/tarot/route.ts:103-110 | 6 lines, with the question on line 1 and the quoted card name on line 2 |
| TarotRoute.SingleCard | app/api/tarot/route.ts:93-94 | `card` when given, else `cards[0]` when non-empty; nothing exactly when neither exists |
| TarotRoute.Reply | app/api/tarot/route.ts:150-171 | status 200 with the model text unchanged exactly for a generated answer; fetch errors and other errors map to 500 with their fixed messages |
| TarotRoute.Post | app/api/tarot/route.ts:23-179 | a missing or empty key gives 500 before the body is read; an unreadable body gives 500; the six-card prompt is used iff the type is "universal6" and `cards` is a 6-element array; no single card gives 400 with no model call; with a prompt the response is the model outcome's |
| TarotRoute.SixCardPromptOrder | app/api/tarot/route.ts:81-90 | each position line occurs in the prompt, and the line of an earlier position ends at least one character (the newline) before the line of a later position starts |
| TarotRoute.SingleCardPromptQuotesName | app/api/tarot/route.ts:103-110 | the single-card prompt contains the card's name in double quotes |
| TarotRoute.NoCardsIsBadRequest | app/api/tarot/route.ts:93-101 | with a key but no `card` and no non-empty `cards`, the answer is 400 "No cards provided for reading" and no prompt is sent |
| TarotContext.SpreadTypeName | context/useTarotContext.tsx:26 | the two spread names, "single" exactly for the single spread |
| TarotContext.ErrorMessage | context/useTarotContext.tsx:82-102 | no error exactly for an ok response; otherwise the body's `error` (or "Failed to get reading"), a thrown Error's message, or "An unknown error occurred" |
| TarotContext.Began | context/useTarotContext.tsx:65-66 | on entry: loading, error cleared, reading and history unchanged |
| TarotContext.Settled | context/useTarotContext.tsx:68-106 | on exit: not loading, history unchanged; an ok response sets the reading with the response as interpretation; a failure keeps the reading and sets the error |
| TarotContext.AfterGetReading | context/useTarotContext.tsx:59-107 | the whole call: not loading afterwards, error absent exactly on success, spread type defaulting to single, history unchanged |
| TarotContext.AfterClear | context/useTarotContext.tsx:110-113 | reading and error cleared; loading flag and history unchanged |
| TarotContext.AfterSave | context/useTarotContext.tsx:116-123 | the current reading is appended to the history; with no reading nothing changes; the reading itself is kept |
| TarotContext.HistoryAppendOnly | context/useTarotContext.tsx:116-123 | over any sequence of calls the old history is a prefix of the new one, grown by one entry per save made while a reading was present |
| TarotContext.NeverLeftLoading | context/useTarotContext.tsx:104-106 | after any sequence of settled calls the store is not loading |
| TarotContext.SaveThenClear | context/useTarotContext.tsx:110-123 | saving then clearing archives the reading and empties the current one |
| TarotContext.TarotProvider.constructor | context/useTarotContext.tsx:52-56 | the store starts not loading, without error or reading, with an empty history |
| TarotContext.TarotProvider.GetReading | context/useTarotContext.tsx:59-107 | the in-flight state is `Began` of the old state and the final state is `AfterGetReading` of it |
| TarotContext.TarotProvider.ClearReading | context/useTarotContext.tsx:110-113 | the new state is `AfterClear` of the old one |
| TarotContext.TarotProvider.SavePastReading | context/useTarotContext.tsx:116-123 | the new state is `AfterSave` of the old one |
| TarotContext.UseTarot | context/useTarotContext.tsx:144-151 | the provider in scope, or the error "useTarot must be used within a TarotProvider" exactly when there is none |
| SuccessPage.ReadingTypeOrDefault | app/success/page.tsx:22 | the `readingType` parameter when present and non-empty, else "single" |
| SuccessPage.SuccessContent | app/success/page.tsx:18-57 | redirect home exactly when `session_id` is absent or empty; otherwise the resume address built from the parameters and the three stored values, and the manual link |
| SuccessPage.ResumeUrl | app/success/page.tsx:34-46 | defined as the address template (no contract; its meaning is stated by `ResumeUrlIsQuery` and `ResumeUrlRoundTrip`) |
| SuccessPage.ReadingNowLink | app/success/page.tsx:126 | the manual link is the resume address with nothing in storage |
| SuccessPage.ReadingNowLinkIgnoresStorage | app/success/page.tsx:126 | the "Go to Reading Now" link is the same whatever the storage holds |
| SuccessPage.ResumeUrlIsQuery | app/success/page.tsx:34-46 | the resume address is "/read?" followed by the parameters `continue`, `session_id`, `readingType`, then `cardIds`, `question` and `userInfo` each only when stored non-empty, then `premium`, joined with "&" |
| SuccessPage.QueryStringRoundTrip | app/success/page.tsx:34-46 | a parameter list with no "&" in keys or values and no "=" in keys reads back from its query string unchanged |
| SuccessPage.ResumeLookups | app/success/page.tsx:35-44 | the parameters give `session_id` and `readingType` as passed, and `cardIds` verbatim when stored non-empty and absent otherwise |
| SuccessPage.ResumeUrlRoundTrip | app/success/page.tsx:34-46 | when the session id, the reading type and the stored card ids contain no "&" and `encode` never outputs "&", the resume address reads back as exactly its parameter list, with those lookups |
| SuccessPage.ReadingTypeInjectsCardIds | app/success/page.tsx:35-41 | a reading type `kind&cardIds=injected` makes the resume address read back with `readingType` equal to `kind` and `cardIds` equal to `injected`, overriding the stored card ids |
| SuccessPage.CardIdsValueSeparable | components/tarot/PaymentModal.tsx:66 | the stored card-id list contains no "&" (digits and commas only) |
| SuccessPage.PaidSelectionResumes | app/success/page.tsx:21-46 | for a non-empty selection and a session id without "&", after the checkout's storage writes and a return carrying only `session_id`, the resume address carries that session, `readingType` "single", and a `cardIds` that reads back as the selection in order |
| CheckoutRoute.ProductFor | app/api/checkout/route.ts:29-31 | "universal6" selects its product; any other type falls back to the single product |
| CheckoutRoute.SamePrice | app/api/checkout/route.ts:8-17 | both products use the same price id |
| CheckoutRoute.OriginText | app/api/checkout/route.ts:45-46 | defined as: the Origin header, or "null" when it is missing (no contract; used by `SessionFor`) |
| CheckoutRoute.SessionFor | app/api/checkout/route.ts:34-50 | one line item of quantity 1 that cannot be adjusted, payment mode, the success and cancel addresses under the origin, and the reading type echoed as sent |
| CheckoutRoute.Reply | app/api/checkout/route.ts:52-66 | a created session answers its url; a payment-provider error answers its message with its status code or 500; any other error answers 500 "An unknown error occurred" |
| CheckoutRoute.Post | app/api/checkout/route.ts:19-68 | `readingType` defaults to "single"; the session requested and the response for any outcome; an unreadable body answers 500 |
| CheckoutRoute.UnknownTypeFallsBack | app/api/checkout/route.ts:26-49 | an unknown type is charged as a single reading, yet the metadata records the type as sent |
| PaymentModal.Price | components/tarot/PaymentModal.tsx:40 | "$3.00" for both reading types |
| PaymentModal.Features | components/tarot/PaymentModal.tsx:41-56 | 4 features for single and 6 for universal6, both ending with the two shared entries |
| PaymentModal.CardIdsValue | components/tarot/PaymentModal.tsx:66 | defined as the decimal ids joined with "," (no contract; its meaning is stated by `CardIdsRoundTrip` and `SuccessPage.CardIdsValueSeparable`) |
| PaymentModal.CardIdsRoundTrip | components/tarot/PaymentModal.tsx:66 | for a non-empty selection, the stored comma-joined id list reads back as the selection, in order (an empty selection is stored as "", which reads back as one id 0) |
| PaymentModal.StoredForCheckout | components/tarot/PaymentModal.tsx:64-67 | exactly the four keys are written, with the question, the user info, the comma-joined ids and the reading type; every other key keeps its value |
| PaymentModal.LocalStorage.SetItem | components/tarot/PaymentModal.tsx:64-67 | one key is set to its value and nothing else changes |
| PaymentModal.PaymentModal.constructor | components/tarot/PaymentModal.tsx:36-37 | the modal starts not loading and without error |
| PaymentModal.PaymentModal.CanClose | components/tarot/PaymentModal.tsx:95 | defined as: not loading, the condition under which the backdrop and Cancel close the modal (no contract; `HandleCheckout` ensures it afterwards) |
| PaymentModal.PaymentModal.HandleCheckout | components/tarot/PaymentModal.tsx:58-90 | loading with no error while in flight; the four keys written; a request carrying only the reading type; navigation exactly to a non-empty reply url, otherwise the fixed payment error; not loading and closable afterwards |
| PaymentModal.RequestSelectsProduct | components/tarot/PaymentModal.tsx:74 | the type the modal sends selects the matching product at the checkout endpoint and is echoed in the session metadata |

## Left out

- Rendering, styling, animation, routing and navigation are not modelled. `redirect`, `router.push` and `window.location` are represented by the values they would receive.
- The Gemini SDK, the Stripe SDK, `fetch`, JSON parsing and `new Date()` are inputs. Their outcomes are the datatypes `ModelOutcome`, `StripeOutcome`, `FetchOutcome` and `CheckoutReply`, and the date is a string parameter.
- `localStorage` is a `map<string, string>`. Exceptions thrown by `setItem` (quota, private mode) are not modelled.
- The success page's 3-second timer and its cleanup are not modelled. `SuccessContent` gives the address the timer would push.
- JavaScript regular expressions are not modelled. `TextSplits` supplies the section-marker split and the paragraph split of an interpretation as inputs, and nothing ties them to the text.
- `encodeURIComponent` is the function parameter `encode`. The round-trip lemmas assume that its output contains no "&". They also require "&"-free session id, reading type and stored card ids.
- SuccessPage.ResumeUrlRoundTrip: the read-back is stated only for a session id, a reading type and stored card ids without "&". `session_id` and `readingType` are inserted into the address unencoded, so a value containing "&" adds parameters. `SuccessPage.ReadingTypeInjectsCardIds` exhibits this for `cardIds`.
- ReadingResult.InterpretationSections: non-array `positions` in a structured interpretation is not modelled. `Interpretation` allows only a list of positions or none.
- `Interpretation.Other` stands for every non-string, non-structured value, and it is not modelled further.
- Request fields are modelled as strings. Non-string JSON values and their `${}` rendering (for example `undefined` in a prompt) are not modelled. A falsy `card` or element of `cards` is `None`.
- CheckoutRoute.ProductFor: keys inherited from `Object.prototype` (such as "toString") are not modelled. In the source these index the product table to a function, not a product. The model treats them like any other unknown type.
- Card ids are mathematical integers (`int`) in `TarotCardDeck`, `ReadingResult` and `TarotData.CardById`, so fractional and non-numeric ids are not modelled. In `PaymentModal` and `SuccessPage` the stored ids are naturals (`nat`), because `String(n)` is modelled for naturals only. `maxSelections` is a natural.
- Re-renders, prop changes and overlapping calls to `getReading` are not modelled. `GetReading` runs to completion and exposes its in-flight state as a ghost result.
- TarotRoute.SingleCardPromptQuotesName: this states that the quoted name occurs in the prompt. It does not state that splitting the prompt on newlines recovers the lines, because user-supplied text may itself contain newlines.
- `PaymentModal.ParseCardIds` is not in the source. It reads a comma-separated id list back and is defined only so the stored `cardIds` value can be stated as a round trip.
- `SuccessPage.ParseQuery` is not in the source. It reads a query string without percent-decoding and is defined only so the resume address can be stated as a round trip. The reading page that consumes the address is not part of this model.
- SuccessPage.ResumeLookups: `question` and `userInfo` are stated as `encode` of the stored values. They are not decoded back.
- `QuestionForm` and `ReadingForm` are left out. Their one guard and their `cardIds` fallback duplicate logic modelled here.
