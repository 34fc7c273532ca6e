/** The chat component's mutable state: the transcript, the text field and the
    conversation state, updated in place by sending a message. */
module Chat {
  import opened Options
  import opened Text
  import opened Listings
  import opened Conversation

  /** What a message shows: the user's raw text or a bot reply. */
  datatype Body = UserText(text: string) | BotReply(reply: Reply)

  /** One entry of the transcript (the timestamp is not modelled). */
  datatype Message = Message(id: nat, body: Body, isUser: bool)

  /** Message ids are 1, 2, 3, ... in transcript order; the transcript opens and ends
      with a bot message, and user and bot messages alternate. */
  ghost predicate WellFormedTranscript(ms: seq<Message>)
  {
    && |ms| > 0 && !ms[0].isUser && !ms[|ms| - 1].isUser
    && (forall i :: 0 <= i < |ms| ==> ms[i].id == i + 1)
    && (forall i :: 0 < i < |ms| ==> ms[i].isUser != ms[i - 1].isUser)
  }

  class ChatSession {
    var messages: seq<Message>
    var inputValue: string
    var step: Step
    var intent: Option<Intent>
    var location: string
    var budget: string

    /** The conversation-state record held by the component. */
    function State(): ConversationState
      reads this`step, this`intent, this`location, this`budget
    {
      ConversationState(step, intent, location, budget)
    }

    ghost predicate Valid()
      reads this
    {
      WellFormedTranscript(messages) && Reachable(State())
    }

    /** The component as first rendered: the greeting, an empty text field and the initial
        conversation state. */
    constructor ()
      ensures Valid()
      ensures messages == [Message(1, BotReply(Greeting), false)]
      ensures inputValue == ""
      ensures State() == InitialState
    {
      messages := [Message(1, BotReply(Greeting), false)];
      inputValue := "";
      step, intent, location, budget := Initial, None, "", "";
    }

    /** The text field's `onChange`: the field holds what the user typed. */
    method SetInput(value: string)
      requires Valid()
      modifies this`inputValue
      ensures Valid()
      ensures inputValue == value
    {
      inputValue := value;
    }

    /** `generateResponse(input)`: moves the conversation state on and returns the reply,
        exactly as `Respond` describes. The transcript and the text field are untouched. */
    method GenerateResponse(input: string, draw: nat -> nat) returns (reply: Reply)
      requires step == Budget ==> intent.Some?
      modifies this`step, this`intent, this`location, this`budget
      ensures State() == Respond(old(State()), input, draw).next
      ensures reply == Respond(old(State()), input, draw).reply
    {
      if step == Initial {
        if WantsToBuy(input) {
          step, intent := Location, Some(Buy);
          reply := AskLocation(Buy);
        } else if WantsToRent(input) {
          step, intent := Location, Some(Rent);
          reply := AskLocation(Rent);
        } else {
          reply := AskIntent;
        }
        return;
      }
      if step == Location {
        var matchedCity := FindCity(input);
        if matchedCity.Some? {
          step, location := Budget, matchedCity.value;
          reply := AskBudget(matchedCity.value, intent == Some(Buy));
        } else {
          reply := UnknownLocation;
        }
        return;
      }
      if step == Budget {
        var properties := GenerateProperties(location, input, intent.value, draw);
        step, budget := ShowingProperties, input;
        reply := PropertyCards(location, intent.value, properties);
        return;
      }
      reply := Default;
    }

    /** `handleSendMessage`: a blank text field is ignored. Otherwise the raw text is
        appended as a user message numbered one past the transcript, the field is cleared,
        and the reply to the lower-cased, trimmed text is appended numbered two past the
        old transcript. */
    method SendMessage(draw: nat -> nat)
      requires Valid()
      modifies this
      ensures Valid()
      ensures Trim(old(inputValue)) == [] ==>
        && messages == old(messages) && inputValue == old(inputValue) && State() == old(State())
      ensures Trim(old(inputValue)) != [] ==>
        var o := Respond(old(State()), Trim(ToLower(old(inputValue))), draw);
        && messages == old(messages) + [Message(|old(messages)| + 1, UserText(old(inputValue)), true)]
                                     + [Message(|old(messages)| + 2, BotReply(o.reply), false)]
        && inputValue == ""
        && State() == o.next
    {
      if Trim(inputValue) == [] {
        return;
      }
      var text := inputValue;
      var command := Trim(ToLower(text));
      var n := |messages|;
      ghost var before := messages;
      messages := messages + [Message(n + 1, UserText(text), true)];
      inputValue := "";
      ghost var o := Respond(State(), command, draw);
      ReceiveReply(command, n + 2, draw);
      ExchangeKeepsWellFormed(before, text, o.reply);
    }

    /** The delayed callback of `handleSendMessage`: computes the reply to `input` and
        appends it as a bot message numbered `id`. */
    method ReceiveReply(input: string, id: nat, draw: nat -> nat)
      requires Reachable(State())
      modifies this`messages, this`step, this`intent, this`location, this`budget
      ensures Reachable(State())
      ensures State() == Respond(old(State()), input, draw).next
      ensures messages == old(messages) + [Message(id, BotReply(Respond(old(State()), input, draw).reply), false)]
    {
      RespondPreservesReachable(State(), input, draw);
      var reply := GenerateResponse(input, draw);
      messages := messages + [Message(id, BotReply(reply), false)];
    }
  }

  /** A field that is not blank never becomes an empty command: the reply is always
      computed for at least one character (an empty command would match every city). */
  lemma CommandNonEmpty(v: string)
    requires Trim(v) != []
    ensures Trim(ToLower(v)) != []
  {
    LowerTrimCommute(v);
  }

  /** The empty command would be taken for Sydney, the first city of the table, since
      every city name includes the empty string. */
  lemma EmptyCommandMatchesSydney()
    ensures FindCity("") == Some("Sydney")
  {
    ContainsEmpty(ToLower("Sydney"));
  }

  /** A command naming a city in lower case is recognised as that city. */
  lemma LowerCaseCityIsFound()
    ensures FindCity("sydney") == Some("Sydney")
  {
    assert StartsWith("sydney", ToLower("Sydney"));
  }

  /** Appending one user message and its reply, numbered as `handleSendMessage` numbers
      them, keeps the transcript well formed. */
  lemma ExchangeKeepsWellFormed(ms: seq<Message>, text: string, reply: Reply)
    requires WellFormedTranscript(ms)
    ensures WellFormedTranscript(ms + [Message(|ms| + 1, UserText(text), true)]
                                    + [Message(|ms| + 2, BotReply(reply), false)])
  {
    var ms' := ms + [Message(|ms| + 1, UserText(text), true)] + [Message(|ms| + 2, BotReply(reply), false)];
    forall i | 0 <= i < |ms| ensures ms'[i] == ms[i] {
    }
  }
}
