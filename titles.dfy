/** The display title of a conversation, derived from its first user message. */
module Titles {
  import opened Wrappers
  import opened Text
  import opened Messages

  const NewChatTitle: string := "New Chat"
  /** How many code points of the first user message a title keeps. */
  const TitleLength: nat := 30
  const Ellipsis: string := "..."

  /** Message `i` is the first one whose role is `User`. */
  predicate IsFirstUser(messages: seq<Message>, i: int) {
    && 0 <= i < |messages|
    && messages[i].role == User
    && forall j :: 0 <= j < i ==> messages[j].role != User
  }

  /** The content of the first user message, if there is one. */
  function FirstUserContent(messages: seq<Message>): (r: Option<string>)
    ensures r.None? <==> forall i :: 0 <= i < |messages| ==> messages[i].role != User
    ensures r.Some? ==> exists i :: IsFirstUser(messages, i) && messages[i].content == r.value
  {
    if messages == [] then None
    else if messages[0].role == User then
      assert IsFirstUser(messages, 0);
      Some(messages[0].content)
    else
      var r := FirstUserContent(messages[1..]);
      assert forall i :: 1 <= i < |messages| ==> messages[i] == messages[1..][i - 1];
      assert r.Some? ==> exists i :: IsFirstUser(messages, i) && messages[i].content == r.value by {
        if r.Some? {
          var i :| IsFirstUser(messages[1..], i) && messages[1..][i].content == r.value;
          assert IsFirstUser(messages, i + 1);
        }
      }
      r
  }

  /**
   * `get_conversation_title`: "New Chat" when there is no user message;
   * otherwise the first user message cut to 30 code points and stripped,
   * followed by "..." when the message was longer than 30.
   */
  function Title(messages: seq<Message>): (r: string)
    ensures |r| <= TitleLength + |Ellipsis|
    ensures FirstUserContent(messages).None? ==> r == NewChatTitle
  {
    if messages == [] then NewChatTitle
    else match FirstUserContent(messages)
      case None => NewChatTitle
      case Some(content) =>
        var head := if |content| <= TitleLength then content else content[..TitleLength];
        Strip(head) + if |content| > TitleLength then Ellipsis else ""
  }

  /** There is at most one first user message. */
  lemma FirstUserUnique(messages: seq<Message>, i: int, j: int)
    requires IsFirstUser(messages, i) && IsFirstUser(messages, j)
    ensures i == j
  {
  }

  /**
   * The title in terms of the first user message `messages[i]`: unchanged
   * but stripped when it has at most 30 code points, its first 30 stripped
   * and followed by "..." when it is longer.
   */
  lemma TitleOfFirstUser(messages: seq<Message>, i: int)
    requires IsFirstUser(messages, i)
    ensures var content := messages[i].content;
      && (|content| <= TitleLength ==> Title(messages) == Strip(content))
      && (|content| > TitleLength ==> Title(messages) == Strip(content[..TitleLength]) + Ellipsis)
  {
    var r := FirstUserContent(messages);
    var j :| IsFirstUser(messages, j) && messages[j].content == r.value;
    FirstUserUnique(messages, i, j);
  }

  /**
   * Only the first user message decides the title: appending a message
   * keeps it, unless it is the first user message of the list.
   */
  lemma AppendKeepsTitle(messages: seq<Message>, m: Message)
    requires FirstUserContent(messages).Some? || m.role != User
    ensures Title(messages + [m]) == Title(messages)
  {
    var longer := messages + [m];
    assert forall i :: 0 <= i < |messages| ==> longer[i] == messages[i];
    if FirstUserContent(messages).Some? {
      var i :| IsFirstUser(messages, i) && messages[i].content == FirstUserContent(messages).value;
      assert IsFirstUser(longer, i);
      var j :| IsFirstUser(longer, j) && longer[j].content == FirstUserContent(longer).value;
      FirstUserUnique(longer, i, j);
    }
  }

  /**
   * No "..." is appended when the first user message has at most 30 code
   * points: the title is that message stripped, and no longer than it.
   */
  lemma ShortMessageNotSuffixed(messages: seq<Message>, i: int)
    requires IsFirstUser(messages, i)
    requires |messages[i].content| <= TitleLength
    ensures Title(messages) == Strip(messages[i].content)
    ensures |Title(messages)| <= |messages[i].content| <= TitleLength
    ensures IsStripped(messages[i].content) ==> Title(messages) == messages[i].content
  {
    TitleOfFirstUser(messages, i);
    if IsStripped(messages[i].content) {
      StripKeepsStripped(messages[i].content);
    }
  }

  /**
   * The title a conversation gets from its first message when that message
   * is a stripped, non-empty user message (what the chat turn stores): it is
   * never empty, and it is the message itself when that fits in 30 code points.
   */
  lemma FirstMessageTitle(text: string)
    requires text != [] && IsStripped(text)
    ensures Title([Message(User, text)]) != []
    ensures |text| <= TitleLength ==> Title([Message(User, text)]) == text
  {
    var messages := [Message(User, text)];
    assert IsFirstUser(messages, 0);
    TitleOfFirstUser(messages, 0);
    if |text| <= TitleLength {
      StripKeepsStripped(text);
    } else {
      assert !AllSpace(text[..TitleLength]) by {
        assert text[..TitleLength][0] == text[0];
      }
    }
  }
}
