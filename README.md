# Scripted property-search chat

A Dafny model of the conversation engine of the AdeLiving chat screen
(`src/components/ChatInterface.tsx`): a four-step scripted dialogue that asks whether
the user wants to buy or rent, which Australian city they are interested in and what
their budget is, and then shows a fixed listing of ten property cards.

The model has five modules:

- `Options`: the optional value used for `find` results, object-key lookups and the
  nullable intent.
- `Text`: the three JavaScript string operations the engine relies on (`includes`, `trim`
  and `toLowerCase`). Each has an executable definition and lemmas that tie it to a
  reference characterisation.
- `Listings`: the fixture tables of `generateProperties` and the cards built from them.
  The random price is a caller-supplied `draw` function.
- `Conversation`: the city table, the `find` over it, and `Respond`. `Respond` is a pure
  function that gives the next conversation state and the kind of reply for one input in
  one state, just as `generateResponse` does. Lemmas about it cover each step, the states
  a dialogue can reach, and whole dialogues.
- `Chat`: the component's mutable state as the class `ChatSession`. It holds the
  transcript, the text field and the conversation-state fields. The methods update the
  state in place. `GenerateResponse`, `SendMessage` and `ReceiveReply` are proved against
  `Respond`. `SetInput` only assigns the text field. The constructor establishes the
  class invariant `Valid`, and `SetInput` and `SendMessage` keep it. `GenerateResponse`
  and `ReceiveReply` are steps inside `SendMessage`; `ReceiveReply` keeps the reachability
  of the conversation state, and `SendMessage` restores the transcript part of `Valid`.

At line 227 the source passes `conversationState.intent!`. This is a type-level assertion
with no run-time check: a `null` intent there would reach `generateProperties` and produce
sale-priced cards typed `null`. Every reachable state does have an intent at the budget
step (`Conversation.RespondPreservesReachable`), so `Respond` requires one.

## Model

| member | source | states |
|---|---|---|
| Text.Contains | src/components/ChatInterface.tsx:185 | `includes`; characterised by Text.ContainsIff as occurrence of the sub-string at some position |
| Text.ContainsIff | src/components/ChatInterface.tsx:185 | `includes` holds exactly when the sub-string occurs at some position of the string |
| Text.ContainsPrefix | src/components/ChatInterface.tsx:190 | a string that includes a word also includes every prefix of that word |
| Text.ContainsEmpty | src/components/ChatInterface.tsx:205 | every string includes the empty string |
| Text.TrimStart | src/components/ChatInterface.tsx:154 | the result is a suffix of the input, everything removed is whitespace, and the result does not start with whitespace |
| Text.TrimEnd | src/components/ChatInterface.tsx:154 | the result is a prefix of the input, everything removed is whitespace, and the result does not end with whitespace |
| Text.Trim | src/components/ChatInterface.tsx:154 | a non-empty trimmed string neither starts nor ends with whitespace |
| Text.TrimIsSlice | src/components/ChatInterface.tsx:167 | `trim` returns the contiguous slice of the input between its leading and trailing whitespace |
| Text.TrimEmptyIff | src/components/ChatInterface.tsx:154 | an input is blank (its trim is empty) exactly when every character is whitespace |
| Text.LowerChar | src/components/ChatInterface.tsx:167 | an upper-case letter becomes its lower-case letter; every other character is unchanged |
| Text.ToLower | src/components/ChatInterface.tsx:167 | `toLowerCase`, character by character with Text.LowerChar; Text.LowerIsLower states what it returns, position by position |
| Text.LowerIsLower | src/components/ChatInterface.tsx:167 | lowering keeps the length, turns each upper-case letter into its own lower-case letter (code point plus 32), leaves no upper-case letter, and changes nothing else |
| Text.LowerTrimCommute | src/components/ChatInterface.tsx:167 | lower-casing then trimming gives the same command as trimming then lower-casing |
| Text.LowerTrimStart | src/components/ChatInterface.tsx:167 | lowering commutes with removing leading whitespace |
| Text.LowerTrimEnd | src/components/ChatInterface.tsx:167 | lowering commutes with removing trailing whitespace |
| Text.LowerPrefix | src/components/ChatInterface.tsx:167 | lowering a prefix gives the prefix of the lowered string |
| Listings.PropertyData | src/components/ChatInterface.tsx:69-130 | the fixture rows of `propertyData`, ten per city in the source's order; Listings.ListingShape and Listings.KnownCityListsOwnTable copy them into the cards |
| Listings.DataKey | src/components/ChatInterface.tsx:69-132 | the fixture object has an entry exactly for the five keys Sydney, Melbourne, Brisbane, Perth and Adelaide, and a found entry is the one stored under that key |
| Listings.KeyRoundTrip | src/components/ChatInterface.tsx:69-132 | looking up a city's own key finds that city's table |
| Listings.TableCity | src/components/ChatInterface.tsx:132 | a location with its own entry selects the table stored under it; any other location falls back to Sydney's table |
| Listings.FixturesFor | src/components/ChatInterface.tsx:70-132 | every table a listing is built from has ten rows |
| Listings.PriceOf | src/components/ChatInterface.tsx:138-140 | a rental price is per week, between 200 and 600 dollars; a sale price is between 400,000 and 900,000 dollars (the top value is reached when `Math.random()` returns the largest double below 1, by rounding) |
| Listings.GenerateProperties | src/components/ChatInterface.tsx:68-151 | every listing has ten cards |
| Listings.CardOf | src/components/ChatInterface.tsx:134-150 | the `map` body that builds one card from one fixture row; Listings.ListingShape states each field it sets |
| Listings.ListingShape | src/components/ChatInterface.tsx:134-150 | card k is numbered k + 1 and typed with the intent, its location is the fixture's suburb and the requested location, its other fields are copied from fixture k, and its payment options and price range follow the intent |
| Listings.ListingIdsDistinct | src/components/ChatInterface.tsx:135 | no two cards of a listing share an id |
| Listings.UnknownCityListsSydney | src/components/ChatInterface.tsx:132-137 | a city without its own table gets Sydney's cards, labelled with that city's name |
| Listings.KnownCityListsOwnTable | src/components/ChatInterface.tsx:132-146 | a city with its own table is listed with that table's rows, in order, labelled with the city |
| Listings.BudgetIgnored | src/components/ChatInterface.tsx:68-151 | the listing does not depend on the budget |
| Conversation.CityAt | src/components/ChatInterface.tsx:61-66 | `australianCities`: the 23 cities in the source's order; Conversation.FindFrom searches them by position |
| Conversation.CityTables | src/components/ChatInterface.tsx:61-66 | only the first five cities of the table have fixtures of their own; the other eighteen are listed with Sydney's |
| Conversation.FindFrom | src/components/ChatInterface.tsx:204-206 | the search returns the first matching position of the city table, and returns none exactly when no city matches |
| Conversation.FirstMatchIsFound | src/components/ChatInterface.tsx:61-66 | the first city in table order that matches is the one `find` returns |
| Conversation.FindCity | src/components/ChatInterface.tsx:204-206 | `australianCities.find(...)`; characterised by Conversation.FindCitySpec and Conversation.FirstMatchIsFound |
| Conversation.FindCitySpec | src/components/ChatInterface.tsx:204-206 | a found city is the first match in table order; none is found exactly when no city of the table matches |
| Conversation.Respond | src/components/ChatInterface.tsx:182-240 | `generateResponse`: the next state and reply for one input; characterised step by step by Conversation.IntentChoice, Conversation.CityChoice, Conversation.CityUnknown, Conversation.BudgetShowsListings and Conversation.Terminal, and over whole dialogues by Conversation.RespondPreservesReachable and Conversation.AdvancesByOne |
| Conversation.RentalRedundant | src/components/ChatInterface.tsx:190 | the rent test holds exactly when the input contains "rent" (the "rental" alternative adds nothing) |
| Conversation.IntentChoice | src/components/ChatInterface.tsx:184-200 | at the initial step a buy keyword wins even when rent is also mentioned; otherwise a rent keyword chooses rent; otherwise nothing changes and the user is asked again |
| Conversation.CityChoice | src/components/ChatInterface.tsx:203-216 | at the location step the first matching city is stored, the step moves to budget, and the reply asks for a budget worded by the intent |
| Conversation.CityChosenIsFirst | src/components/ChatInterface.tsx:204-209 | whenever the location step advances, the stored city is the first matching city |
| Conversation.CityUnknown | src/components/ChatInterface.tsx:217-221 | with no matching city the location step changes nothing and says the location is not recognised |
| Conversation.BudgetShowsListings | src/components/ChatInterface.tsx:225-233 | the budget step stores the input verbatim, moves to showing properties, and replies with ten property cards for the stored city and intent |
| Conversation.Terminal | src/components/ChatInterface.tsx:237-239 | after the listing every input gets the default reply and changes nothing |
| Conversation.UnchangedIff | src/components/ChatInterface.tsx:182-240 | the state is unchanged exactly when the reply asks again (for the intent, for a known city, or the default reply) |
| Conversation.AdvancesByOne | src/components/ChatInterface.tsx:182-240 | each input either changes nothing or moves exactly one step forward |
| Conversation.LocationOutcome | src/components/ChatInterface.tsx:203-222 | the location step either changes nothing or moves to the budget step |
| Conversation.NeverSelects | src/components/ChatInterface.tsx:36 | no input ever enters the property_selected step |
| Conversation.InitialReachable | src/components/ChatInterface.tsx:53-58 | the initial state is one of the reachable states |
| Conversation.RespondPreservesReachable | src/components/ChatInterface.tsx:182-240 | from a reachable state every input leads to a reachable state: the intent is set from the location step on, and the location is a city of the table from the budget step on |
| Conversation.RunReachable | src/components/ChatInterface.tsx:182-240 | every dialogue from a reachable state stays among the reachable states |
| Conversation.RunMonotone | src/components/ChatInterface.tsx:182-240 | a dialogue never moves to an earlier step |
| Chat.ChatSession.constructor | src/components/ChatInterface.tsx:44-58 | the transcript is the greeting with id 1, the text field is empty, and the conversation is in its initial state |
| Chat.ChatSession.SetInput | src/components/ChatInterface.tsx:347 | the text field holds what was typed, and the class invariant is kept |
| Chat.ChatSession.GenerateResponse | src/components/ChatInterface.tsx:182-240 | the conversation state moves as `Respond` says and the returned reply is `Respond`'s reply |
| Chat.ChatSession.SendMessage | src/components/ChatInterface.tsx:153-180 | a blank field changes nothing; otherwise the raw text is appended as a user message numbered one past the transcript, the reply to the trimmed, lower-cased text is appended two past it, the field is cleared, and the transcript stays well formed |
| Chat.ChatSession.ReceiveReply | src/components/ChatInterface.tsx:166-177 | the reply to the command is appended as a bot message with the given id, and the conversation state moves as `Respond` says |
| Chat.CommandNonEmpty | src/components/ChatInterface.tsx:154-167 | a field that passes the blank check never gives an empty command |
| Chat.EmptyCommandMatchesSydney | src/components/ChatInterface.tsx:204-206 | the empty command would be recognised as Sydney, the reason the blank check at line 154 matters for the location step |
| Chat.LowerCaseCityIsFound | src/components/ChatInterface.tsx:204-206 | the command "sydney" is recognised as the city Sydney, through the lower-cased city name |
| Chat.ExchangeKeepsWellFormed | src/components/ChatInterface.tsx:156-176 | appending a user message and its reply, numbered as the component numbers them, keeps ids consecutive and user and bot messages alternating |

## Left out

- Rendering, the header and back button (`onBackToHome`), property cards and scrolling (src/components/ChatInterface.tsx:242-361) are display only.
- Message timestamps (`new Date()`) and the clock are not modelled.
- Listings.PriceOf: `Math.random()` is replaced by a caller-supplied `draw(k)`, reduced with `%` into the range the source's formulas can produce, including the top value that floating-point rounding reaches (600 and 900,000). Which draw gives which price is not modelled, only the range. The price is kept as a number: the `$…/week` text and the `toLocaleString()` grouping of sale prices are not modelled.
- Reply texts are modelled as tagged kinds (`Reply`) carrying what their wording depends on (intent, city, listing), not as strings.
- Text.LowerChar: only the ASCII letters A to Z are lowered. The full Unicode case mapping of `toLowerCase` is not modelled. In JavaScript, for example, U+212A lowers to the ASCII letter `k`, and U+0130 lowers to two code points (`i` followed by U+0307), so the real `toLowerCase` can make a string longer. Strings are sequences of characters, not of UTF-16 code units.
- Text.LowerIsLower: "lowering keeps the length" holds for the ASCII lowering of this model, not for JavaScript's full case mapping.
- Chat.ChatSession.SendMessage: the one-second `setTimeout` is modelled as an immediate call to `ReceiveReply`. Stale closures over `messages`, `inputValue` and `conversationState`, and a second send before the reply arrives, are not modelled.
- `selectedProperty` is declared but never set, so it is not modelled.
- Listings.DataKey: keys inherited from the object prototype (such as `constructor`) are not modelled. Only city names from the table ever reach the lookup.
- Conversation.Respond requires an intent at the budget step. The source's `intent!` assumes one there, and every reachable state has one.
