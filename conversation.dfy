/** The scripted dialogue of the chat: the conversation state, the city table and the
    transition taken on each (lower-cased, trimmed) user input. `Respond` is the pure
    specification of `generateResponse`; the class in module Chat runs it in place. */
module Conversation {
  import opened Options
  import opened Text
  import opened Listings

  // ---------------------------------------------------------------------------
  // Cities
  // ---------------------------------------------------------------------------

  /** The number of cities the location step recognises. */
  const CityCount: nat := 23

  /** `australianCities[k]`: the cities in the order the location step tries them. */
  function CityAt(k: nat): string
    requires k < CityCount
  {
    match k
    case 0 => "Sydney"
    case 1 => "Melbourne"
    case 2 => "Brisbane"
    case 3 => "Perth"
    case 4 => "Adelaide"
    case 5 => "Gold Coast"
    case 6 => "Newcastle"
    case 7 => "Canberra"
    case 8 => "Central Coast"
    case 9 => "Wollongong"
    case 10 => "Logan City"
    case 11 => "Geelong"
    case 12 => "Hobart"
    case 13 => "Townsville"
    case 14 => "Cairns"
    case 15 => "Darwin"
    case 16 => "Toowoomba"
    case 17 => "Ballarat"
    case 18 => "Bendigo"
    case 19 => "Albury"
    case 20 => "Launceston"
    case 21 => "Mackay"
    case 22 => "Rockhampton"
  }

  /** `name` is one of the canonical city names. */
  ghost predicate IsCity(name: string)
  {
    exists k :: 0 <= k < CityCount && CityAt(k) == name
  }

  /** The two-way test of the location step: the input names the city, or the input is a
      piece of the city's name. */
  predicate CityMatches(input: string, city: string)
  {
    Contains(input, ToLower(city)) || Contains(ToLower(city), input)
  }

  /** Position `k` holds the first city, at or after position `i`, that matches `input`. */
  ghost predicate IsFirstMatchFrom(input: string, i: nat, k: nat)
  {
    i <= k < CityCount && CityMatches(input, CityAt(k))
    && forall j :: i <= j < k ==> !CityMatches(input, CityAt(j))
  }

  /** The search of `australianCities.find(...)` from position `i` on: the position of the
      first matching city, or none when no city from `i` on matches. */
  function FindFrom(input: string, i: nat): (r: Option<nat>)
    requires i <= CityCount
    ensures r.Some? ==> IsFirstMatchFrom(input, i, r.value)
    ensures r.None? <==> forall k :: i <= k < CityCount ==> !CityMatches(input, CityAt(k))
    decreases CityCount - i
  {
    if i == CityCount then None
    else if CityMatches(input, CityAt(i)) then Some(i)
    else FindFrom(input, i + 1)
  }

  /** The city the location step recognises in `input`: the first city of the table that
      `CityMatches` it, if any. */
  function FindCity(input: string): Option<string>
  {
    match FindFrom(input, 0)
    case Some(k) => Some(CityAt(k))
    case None => None
  }

  /** The first matching city is the one found. */
  lemma FirstMatchIsFound(input: string, k: nat)
    requires IsFirstMatchFrom(input, 0, k)
    ensures FindCity(input) == Some(CityAt(k))
  {
  }

  /** Whenever a city is found, it is the first matching one; when none is found, no city
      matches. */
  lemma FindCitySpec(input: string)
    ensures FindCity(input).Some? ==>
      exists k :: IsFirstMatchFrom(input, 0, k) && FindCity(input) == Some(CityAt(k))
    ensures FindCity(input).None? <==> forall k :: 0 <= k < CityCount ==> !CityMatches(input, CityAt(k))
  {
    var r := FindFrom(input, 0);
    if r.Some? {
      assert IsFirstMatchFrom(input, 0, r.value);
    }
  }

  /** Only the first five cities of the table have fixtures of their own; a listing for
      any of the other eighteen is built from Sydney's. */
  lemma CityTables(k: nat)
    requires k < CityCount
    ensures DataKey(CityAt(k)).Some? <==> k < 5
    ensures k < 5 ==> Key(TableCity(CityAt(k))) == CityAt(k)
    ensures 5 <= k ==> TableCity(CityAt(k)) == Sydney
  {
  }

  // ---------------------------------------------------------------------------
  // Conversation state and replies
  // ---------------------------------------------------------------------------

  /** The step of the dialogue. `PropertySelected` is declared by the source but never
      entered. */
  datatype Step = Initial | Location | Budget | ShowingProperties | PropertySelected

  /** The `ConversationState` record; `intent` is `null` until the first step chooses one. */
  datatype ConversationState = ConversationState(
    step: Step,
    intent: Option<Intent>,
    location: string,
    budget: string)

  const InitialState := ConversationState(Initial, None, "", "")

  /** The kind of each canned reply; the wording of the texts is not modelled, only what
      they depend on. */
  datatype Reply =
    | Greeting                                  // the first bot message of the transcript
    | AskIntent                                 // "please let me know if you're looking to buy or rent"
    | AskLocation(intent: Intent)               // which city, worded for buying or renting
    | UnknownLocation                           // "I don't recognize that location"
    | AskBudget(city: string, buying: bool)     // budget ranges for buying, else weekly rent
    | PropertyCards(city: string, intent: Intent, properties: seq<Property>)
    | Default                                   // the fallback asking for intent, city and budget

  /** `hasPropertyCards` of the reply's message. */
  predicate HasPropertyCards(r: Reply)
  {
    r.PropertyCards?
  }

  datatype Outcome = Outcome(next: ConversationState, reply: Reply)

  /** The input asks to buy. */
  predicate WantsToBuy(input: string)
  {
    Contains(input, "buy") || Contains(input, "purchase")
  }

  /** The input asks to rent, as the source tests it. */
  predicate WantsToRent(input: string)
  {
    Contains(input, "rent") || Contains(input, "rental")
  }

  /** `generateResponse(input)`: the new conversation state and the reply. The listing step
      dereferences the intent with a non-null assertion, so it must have been chosen. */
  function Respond(s: ConversationState, input: string, draw: nat -> nat): Outcome
    requires s.step == Budget ==> s.intent.Some?
  {
    match s.step
    case Initial =>
      if WantsToBuy(input) then Outcome(s.(step := Location, intent := Some(Buy)), AskLocation(Buy))
      else if WantsToRent(input) then Outcome(s.(step := Location, intent := Some(Rent)), AskLocation(Rent))
      else Outcome(s, AskIntent)
    case Location =>
      var found := FindCity(input);
      if found.Some? then
        Outcome(s.(step := Budget, location := found.value), AskBudget(found.value, s.intent == Some(Buy)))
      else Outcome(s, UnknownLocation)
    case Budget =>
      Outcome(s.(step := ShowingProperties, budget := input),
              PropertyCards(s.location, s.intent.value, GenerateProperties(s.location, input, s.intent.value, draw)))
    case ShowingProperties => Outcome(s, Default)
    case PropertySelected => Outcome(s, Default)
  }

  // ---------------------------------------------------------------------------
  // Properties of one step
  // ---------------------------------------------------------------------------

  /** The `rental` keyword adds nothing: every input containing it contains `rent`. */
  lemma RentalRedundant(input: string)
    ensures WantsToRent(input) <==> Contains(input, "rent")
  {
    if Contains(input, "rental") {
      ContainsPrefix(input, "rental", "rent");
    }
  }

  /** The initial step: a buy keyword wins, even when a rent keyword is present too; then a
      rent keyword; otherwise nothing changes and the user is asked again. */
  lemma IntentChoice(s: ConversationState, input: string, draw: nat -> nat)
    requires s.step == Initial
    ensures WantsToBuy(input) ==>
      Respond(s, input, draw) == Outcome(s.(step := Location, intent := Some(Buy)), AskLocation(Buy))
    ensures !WantsToBuy(input) && Contains(input, "rent") ==>
      Respond(s, input, draw) == Outcome(s.(step := Location, intent := Some(Rent)), AskLocation(Rent))
    ensures !WantsToBuy(input) && !Contains(input, "rent") ==>
      Respond(s, input, draw) == Outcome(s, AskIntent)
  {
    RentalRedundant(input);
  }

  /** The location step picks the first city of the table that matches, keeping the intent
      and the budget. */
  lemma CityChoice(s: ConversationState, input: string, draw: nat -> nat, k: nat)
    requires s.step == Location
    requires IsFirstMatchFrom(input, 0, k)
    ensures Respond(s, input, draw)
      == Outcome(s.(step := Budget, location := CityAt(k)), AskBudget(CityAt(k), s.intent == Some(Buy)))
  {
    FirstMatchIsFound(input, k);
  }

  /** Whenever the location step advances, it has chosen the first matching city. */
  lemma CityChosenIsFirst(s: ConversationState, input: string, draw: nat -> nat)
    requires s.step == Location
    requires Respond(s, input, draw).next.step == Budget
    ensures exists k ::
              && IsFirstMatchFrom(input, 0, k)
              && Respond(s, input, draw).next == s.(step := Budget, location := CityAt(k))
  {
    FindCitySpec(input);
  }

  /** With no matching city the location step changes nothing. */
  lemma CityUnknown(s: ConversationState, input: string, draw: nat -> nat)
    requires s.step == Location
    requires forall k :: 0 <= k < CityCount ==> !CityMatches(input, CityAt(k))
    ensures Respond(s, input, draw) == Outcome(s, UnknownLocation)
  {
    FindCitySpec(input);
  }

  /** The budget step stores the input verbatim, keeps intent and location, and always
      shows a non-empty listing for them. */
  lemma BudgetShowsListings(s: ConversationState, input: string, draw: nat -> nat)
    requires s.step == Budget && s.intent.Some?
    ensures var o := Respond(s, input, draw);
      && o.next == s.(step := ShowingProperties, budget := input)
      && HasPropertyCards(o.reply)
      && o.reply.city == s.location && o.reply.intent == s.intent.value
      && o.reply.properties == GenerateProperties(s.location, input, s.intent.value, draw)
      && |o.reply.properties| == 10
  {
  }

  /** Once the listing has been shown, every input gets the default reply and changes
      nothing. */
  lemma Terminal(s: ConversationState, input: string, draw: nat -> nat)
    requires s.step == ShowingProperties || s.step == PropertySelected
    ensures Respond(s, input, draw) == Outcome(s, Default)
  {
  }

  /** The state is left unchanged exactly when the reply is one of the three "try again"
      replies. */
  lemma UnchangedIff(s: ConversationState, input: string, draw: nat -> nat)
    requires s.step == Budget ==> s.intent.Some?
    ensures var o := Respond(s, input, draw);
      o.next == s <==> (o.reply.AskIntent? || o.reply.UnknownLocation? || o.reply.Default?)
  {
  }

  /** The position of a step along the dialogue. */
  function Rank(step: Step): nat
  {
    match step
    case Initial => 0
    case Location => 1
    case Budget => 2
    case ShowingProperties => 3
    case PropertySelected => 4
  }

  /** Each input either changes nothing or moves exactly one step forward. */
  lemma AdvancesByOne(s: ConversationState, input: string, draw: nat -> nat)
    requires s.step == Budget ==> s.intent.Some?
    ensures Respond(s, input, draw).next == s
         || Rank(Respond(s, input, draw).next.step) == Rank(s.step) + 1
  {
    match s.step
    case Initial => IntentChoice(s, input, draw);
    case Location => LocationOutcome(s, input, draw);
    case Budget => BudgetShowsListings(s, input, draw);
    case ShowingProperties => Terminal(s, input, draw);
    case PropertySelected => Terminal(s, input, draw);
  }

  /** The location step either changes nothing or moves to the budget step. */
  lemma LocationOutcome(s: ConversationState, input: string, draw: nat -> nat)
    requires s.step == Location
    ensures Respond(s, input, draw).next == s || Respond(s, input, draw).next.step == Budget
  {
    if FindCity(input).Some? {
      assert Respond(s, input, draw).next.step == Budget;
    } else {
      assert Respond(s, input, draw).next == s;
    }
  }

  /** No input ever enters `PropertySelected`. */
  lemma NeverSelects(s: ConversationState, input: string, draw: nat -> nat)
    requires s.step == Budget ==> s.intent.Some?
    requires s.step != PropertySelected
    ensures Respond(s, input, draw).next.step != PropertySelected
  {
    AdvancesByOne(s, input, draw);
  }

  // ---------------------------------------------------------------------------
  // Reachable states and whole dialogues
  // ---------------------------------------------------------------------------

  /** The states the dialogue can be in when started from `InitialState`. */
  ghost predicate Reachable(s: ConversationState)
  {
    match s.step
    case Initial => s.intent == None && s.location == "" && s.budget == ""
    case Location => s.intent.Some? && s.location == "" && s.budget == ""
    case Budget => s.intent.Some? && IsCity(s.location) && s.budget == ""
    case ShowingProperties => s.intent.Some? && IsCity(s.location)
    case PropertySelected => false
  }

  lemma InitialReachable()
    ensures Reachable(InitialState)
  {
  }

  /** Reachable states stay reachable. */
  lemma RespondPreservesReachable(s: ConversationState, input: string, draw: nat -> nat)
    requires Reachable(s)
    ensures Reachable(Respond(s, input, draw).next)
  {
    if s.step == Location {
      var r := FindFrom(input, 0);
      if r.Some? {
        assert CityAt(r.value) == Respond(s, input, draw).next.location;
      }
    }
  }

  /** The dialogue after the user has sent `inputs`, in order. */
  function Run(s: ConversationState, inputs: seq<string>, draw: nat -> nat): ConversationState
    requires Reachable(s)
    decreases |inputs|
  {
    if inputs == [] then s
    else
      RespondPreservesReachable(s, inputs[0], draw);
      Run(Respond(s, inputs[0], draw).next, inputs[1..], draw)
  }

  /** Every dialogue stays among the reachable states; in particular the intent is chosen
      and the location is one of the table's cities from the budget step on. */
  lemma {:induction false} RunReachable(s: ConversationState, inputs: seq<string>, draw: nat -> nat)
    requires Reachable(s)
    ensures Reachable(Run(s, inputs, draw))
    decreases |inputs|
  {
    if inputs != [] {
      RespondPreservesReachable(s, inputs[0], draw);
      RunReachable(Respond(s, inputs[0], draw).next, inputs[1..], draw);
    }
  }

  /** A dialogue never moves backwards. */
  lemma {:induction false} RunMonotone(s: ConversationState, inputs: seq<string>, draw: nat -> nat)
    requires Reachable(s)
    ensures Rank(s.step) <= Rank(Run(s, inputs, draw).step)
    decreases |inputs|
  {
    if inputs != [] {
      AdvancesByOne(s, inputs[0], draw);
      RespondPreservesReachable(s, inputs[0], draw);
      RunMonotone(Respond(s, inputs[0], draw).next, inputs[1..], draw);
    }
  }
}
