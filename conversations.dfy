/**
 * One conversation record and what one chat turn does to it.
 */
module Conversations {
  import opened Wrappers
  import opened Text
  import opened Messages
  import opened Catalog
  import opened Titles
  import opened Pipeline

  /**
   * One conversation record. `createdAt` is the ISO timestamp of its
   * creation; `temperature` is carried, never computed with.
   */
  datatype Conversation = Conversation(
    title: string,
    messages: seq<Message>,
    createdAt: string,
    model: string,
    personality: string,
    temperature: real)

  const DefaultTemperature: real := 0.7

  /**
   * The record every creation path builds: no messages, "New Chat", the
   * default settings. It is consistent: its stored title is the one derived
   * from its messages, its model id maps to a catalog name and back, and its
   * personality has a system prompt.
   */
  function NewConversation(createdAt: string): (r: Conversation)
    ensures r.messages == [] && r.createdAt == createdAt
    ensures r.title == Title(r.messages)
    ensures Lookup(Models, ModelNameFor(r.model)) == Some(r.model)
    ensures Lookup(SystemPrompts, r.personality).Some?
  {
    DefaultsResolve();
    Conversation(NewChatTitle, [], createdAt, DefaultModel, DefaultPersonality, DefaultTemperature)
  }

  datatype TurnOutcome =
    | Blank                // whitespace-only input: nothing happens
    | UnknownPersonality   // `system_prompts[...]` raises `KeyError` after the user message is stored;
                           // the page's settings panel keeps every reachable personality a key
    | Answered(request: seq<Message>, reply: string)

  /**
   * The effect of one chat turn on the conversation it runs in, and its
   * outcome: a whitespace-only input changes nothing; otherwise the stripped
   * input is appended as a user message (and titles the conversation when it
   * is the first message), the request is built from the personality's
   * system prompt and the recent messages, and the reply is appended as one
   * assistant message. An unknown personality stops the turn after the user
   * message is stored.
   */
  function Turn(before: Conversation, input: string, deltas: seq<Option<string>>,
                failure: Option<string>, displayFault: Option<string>): (r: (Conversation, TurnOutcome))
    ensures r.1 == Blank <==> AllSpace(input)
    ensures r.1 == Blank ==> r.0 == before
    ensures r.1 == UnknownPersonality <==> !AllSpace(input) && !HasKey(SystemPrompts, before.personality)
  {
    var text := Strip(input);
    if text == [] then (before, Blank)
    else
      var withUser := WithUserMessage(before, text);
      match Lookup(SystemPrompts, before.personality)
      case None => (withUser, UnknownPersonality)
      case Some(prompt) =>
        var reply := Reply(deltas, failure, displayFault);
        (WithAssistantMessage(withUser, reply), Answered(BuildRequest(prompt, withUser.messages), reply))
  }

  /**
   * The user message appended, the settings untouched, and the title derived
   * anew exactly when it is the conversation's first message.
   */
  function WithUserMessage(c: Conversation, text: string): (r: Conversation)
    ensures r.messages == c.messages + [Message(User, text)]
    ensures c.messages == [] ==> r.title == Title(r.messages)
    ensures c.messages != [] ==> r.title == c.title
    ensures (r.createdAt, r.model, r.personality, r.temperature) == (c.createdAt, c.model, c.personality, c.temperature)
  {
    var messages := c.messages + [Message(User, text)];
    c.(messages := messages, title := if |messages| == 1 then Title(messages) else c.title)
  }

  /**
   * The assistant message appended and nothing else changed; the title that
   * the messages determine is unchanged by it.
   */
  function WithAssistantMessage(c: Conversation, reply: string): (r: Conversation)
    ensures r.messages == c.messages + [Message(Assistant, reply)]
    ensures Title(r.messages) == Title(c.messages)
    ensures (r.title, r.createdAt, r.model, r.personality, r.temperature) == (c.title, c.createdAt, c.model, c.personality, c.temperature)
  {
    AppendKeepsTitle(c.messages, Message(Assistant, reply));
    c.(messages := c.messages + [Message(Assistant, reply)])
  }

  /**
   * The stored title stays the one derived from the messages across a turn,
   * for a conversation that is new or already has a user message (every
   * conversation the chat page itself builds).
   */
  lemma TurnKeepsTitleDerived(c: Conversation, input: string, deltas: seq<Option<string>>,
                              failure: Option<string>, displayFault: Option<string>)
    requires c.title == Title(c.messages)
    requires c.messages == [] || FirstUserContent(c.messages).Some?
    ensures var after := Turn(c, input, deltas, failure, displayFault).0;
      after.title == Title(after.messages)
  {
    var text := Strip(input);
    if text != [] {
      var withUser := WithUserMessage(c, text);
      if c.messages != [] {
        AppendKeepsTitle(c.messages, Message(User, text));
      }
      assert withUser.title == Title(withUser.messages);
    }
  }

  /**
   * A turn on non-blank input keeps every earlier message, appends the
   * stripped input as a user message, and then exactly one assistant message
   * holding the reply: the message count grows by exactly two. Only when the
   * personality has no system prompt does it stop after the user message.
   * The settings and the creation time are untouched.
   */
  lemma {:induction false} TurnAppendsMessages(c: Conversation, input: string, deltas: seq<Option<string>>,
                            failure: Option<string>, displayFault: Option<string>)
    requires !AllSpace(input)
    ensures var (after, outcome) := Turn(c, input, deltas, failure, displayFault);
      && after.messages[..|c.messages|] == c.messages
      && |after.messages| > |c.messages|
      && after.messages[|c.messages|] == Message(User, Strip(input))
      && (after.createdAt, after.model, after.personality, after.temperature)
         == (c.createdAt, c.model, c.personality, c.temperature)
      && (outcome == UnknownPersonality <==> Lookup(SystemPrompts, c.personality).None?)
      && (outcome == UnknownPersonality ==> |after.messages| == |c.messages| + 1)
      && (outcome.Answered? ==>
            && |after.messages| == |c.messages| + 2
            && after.messages[|c.messages| + 1] == Message(Assistant, outcome.reply)
            && outcome.reply == Reply(deltas, failure, displayFault))
  {
    TurnKeepsHistory(c, input, deltas, failure, displayFault);
    TurnAppendsReply(c, input, deltas, failure, displayFault);
  }

  /** The history and settings part of `TurnAppendsMessages`. */
  lemma {:induction false} TurnKeepsHistory(c: Conversation, input: string, deltas: seq<Option<string>>,
                                            failure: Option<string>, displayFault: Option<string>)
    requires !AllSpace(input)
    ensures var after := Turn(c, input, deltas, failure, displayFault).0;
      && after.messages[..|c.messages|] == c.messages
      && |after.messages| > |c.messages|
      && after.messages[|c.messages|] == Message(User, Strip(input))
      && (after.createdAt, after.model, after.personality, after.temperature)
         == (c.createdAt, c.model, c.personality, c.temperature)
  {
    var withUser := WithUserMessage(c, Strip(input));
    assert withUser.messages[..|c.messages|] == c.messages;
    if Lookup(SystemPrompts, c.personality).Some? {
      var reply := Reply(deltas, failure, displayFault);
      var after := WithAssistantMessage(withUser, reply);
      assert after.messages == withUser.messages + [Message(Assistant, reply)];
      assert after.messages[..|c.messages|] == c.messages;
    }
  }

  /** The outcome part of `TurnAppendsMessages`. */
  lemma {:induction false} TurnAppendsReply(c: Conversation, input: string, deltas: seq<Option<string>>,
                                            failure: Option<string>, displayFault: Option<string>)
    requires !AllSpace(input)
    ensures var (after, outcome) := Turn(c, input, deltas, failure, displayFault);
      && (outcome == UnknownPersonality <==> Lookup(SystemPrompts, c.personality).None?)
      && (outcome == UnknownPersonality ==> |after.messages| == |c.messages| + 1)
      && (outcome.Answered? ==>
            && |after.messages| == |c.messages| + 2
            && after.messages[|c.messages| + 1] == Message(Assistant, outcome.reply)
            && outcome.reply == Reply(deltas, failure, displayFault))
  {
    var withUser := WithUserMessage(c, Strip(input));
    if Lookup(SystemPrompts, c.personality).Some? {
      var reply := Reply(deltas, failure, displayFault);
      assert WithAssistantMessage(withUser, reply).messages == withUser.messages + [Message(Assistant, reply)];
    }
  }

  /**
   * The stored title changes only on the conversation's first message, and
   * then becomes the title derived from that message: never empty, and the
   * stripped input itself when it has at most 30 code points.
   */
  lemma TurnTitlesFirstMessage(c: Conversation, input: string, deltas: seq<Option<string>>,
                               failure: Option<string>, displayFault: Option<string>)
    requires !AllSpace(input)
    ensures var after := Turn(c, input, deltas, failure, displayFault).0;
      && (c.messages != [] ==> after.title == c.title)
      && (c.messages == [] ==> after.title == Title([Message(User, Strip(input))]) && after.title != [])
      && (c.messages == [] && |Strip(input)| <= TitleLength ==> after.title == Strip(input))
  {
    if c.messages == [] {
      FirstMessageTitle(Strip(input));
      assert c.messages + [Message(User, Strip(input))] == [Message(User, Strip(input))];
    }
  }

  /**
   * The request of an answered turn: the personality's system prompt, then
   * the last `min(20, n)` of the `n` messages including the new user
   * message, which is the request's last entry.
   */
  lemma TurnRequest(c: Conversation, input: string, deltas: seq<Option<string>>,
                    failure: Option<string>, displayFault: Option<string>)
    requires Turn(c, input, deltas, failure, displayFault).1.Answered?
    ensures var request := Turn(c, input, deltas, failure, displayFault).1.request;
      && Lookup(SystemPrompts, c.personality).Some?
      && request[0] == Message(System, Lookup(SystemPrompts, c.personality).value)
      && |request| == 1 + Min(ContextWindow, |c.messages| + 1)
      && request[|request| - 1] == Message(User, Strip(input))
  {
    var text := Strip(input);
    RequestEndsWithNewest(Lookup(SystemPrompts, c.personality).value, c.messages + [Message(User, text)]);
  }

  /**
   * A backend failure during the stream is stored, not dropped: the
   * assistant message is the content received before the fault followed by
   * the error-marked text.
   */
  lemma TurnRecordsBackendFailure(c: Conversation, input: string, deltas: seq<Option<string>>, failure: Option<string>)
    requires failure.Some?
    requires Turn(c, input, deltas, failure, None).1.Answered?
    ensures var after := Turn(c, input, deltas, failure, None).0;
      after.messages[|after.messages| - 1]
      == Message(Assistant, Concat(Present(deltas)) + ErrorMarker + failure.value)
  {
    assert Reply(deltas, failure, None) == Concat(Present(deltas)) + ErrorMarker + failure.value;
  }

  /** The first answered turn of an empty conversation leaves exactly the user message and the reply. */
  lemma {:induction false} FirstTurn(c: Conversation, input: string, deltas: seq<Option<string>>,
                                     failure: Option<string>, displayFault: Option<string>)
    requires c.messages == [] && !AllSpace(input) && HasKey(SystemPrompts, c.personality)
    ensures Turn(c, input, deltas, failure, displayFault).0.messages
      == [Message(User, Strip(input)), Message(Assistant, Reply(deltas, failure, displayFault))]
  {
    var withUser := WithUserMessage(c, Strip(input));
    assert withUser.messages == [Message(User, Strip(input))];
    var after := WithAssistantMessage(withUser, Reply(deltas, failure, displayFault));
    assert after.messages == [Message(User, Strip(input)), Message(Assistant, Reply(deltas, failure, displayFault))];
  }

  /** "Hi" is neither blank nor changed by stripping. */
  lemma HiIsStripped()
    ensures !AllSpace("Hi") && Strip("Hi") == "Hi"
  {
    assert !IsSpace("Hi"[0]);
    StripKeepsStripped("Hi");
  }

  /**
   * A new conversation, the message "Hi", and a backend that streams "Hel"
   * and "lo!": the conversation then holds "Hi" and "Hello!".
   */
  lemma {:induction false} HelloTurn(createdAt: string)
    ensures Turn(NewConversation(createdAt), "Hi", [Some("Hel"), Some("lo!")], None, None).0.messages
      == [Message(User, "Hi"), Message(Assistant, "Hello!")]
  {
    HiIsStripped();
    HelloReply();
    FirstTurn(NewConversation(createdAt), "Hi", [Some("Hel"), Some("lo!")], None, None);
  }

  /** ... and is titled "Hi". */
  lemma HelloTitle(createdAt: string)
    ensures Turn(NewConversation(createdAt), "Hi", [Some("Hel"), Some("lo!")], None, None).0.title == "Hi"
  {
    HiIsStripped();
    TurnTitlesFirstMessage(NewConversation(createdAt), "Hi", [Some("Hel"), Some("lo!")], None, None);
  }
}
