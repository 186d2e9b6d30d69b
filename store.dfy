/**
 * The session's conversations: an insertion-ordered dictionary from
 * conversation id to conversation record plus the id of the active
 * conversation, with the operations the page performs on them, including
 * one chat turn on the active conversation.
 */
module Store {
  import opened Wrappers
  import opened Text
  import opened Messages
  import opened Catalog
  import opened Titles
  import opened Pipeline
  import opened Conversations

  /** A conversation id, `str(uuid.uuid4())` in the page. */
  type Id = string

  predicate NoDuplicates(s: seq<Id>) {
    forall i, j :: 0 <= i < j < |s| ==> s[i] != s[j]
  }

  /** `s` with every occurrence of `x` removed, the rest in order. */
  function Remove(s: seq<Id>, x: Id): (r: seq<Id>)
    ensures forall y :: y in r <==> y in s && y != x
  {
    if s == [] then []
    else if s[0] == x then Remove(s[1..], x)
    else [s[0]] + Remove(s[1..], x)
  }

  lemma {:induction false} RemoveAbsent(s: seq<Id>, x: Id)
    requires x !in s
    ensures Remove(s, x) == s
  {
    if s != [] {
      RemoveAbsent(s[1..], x);
      assert s == [s[0]] + s[1..];
    }
  }

  /**
   * Removing a key that sits at index `i` of a duplicate-free order splices
   * it out: the other keys keep their order, none is repeated, one fewer remains.
   */
  lemma {:induction false} RemoveSplices(s: seq<Id>, x: Id, i: nat)
    requires NoDuplicates(s) && i < |s| && s[i] == x
    ensures Remove(s, x) == s[..i] + s[i + 1..]
    ensures NoDuplicates(Remove(s, x))
    ensures |Remove(s, x)| == |s| - 1
  {
    if i == 0 {
      RemoveAbsent(s[1..], x);
    } else {
      RemoveSplices(s[1..], x, i - 1);
      assert s[1..][..i - 1] + s[1..][i..] == s[1..i] + s[i + 1..];
      assert [s[0]] + s[1..i] == s[..i];
      assert s[0] !in Remove(s[1..], x);
    }
  }

  /** The keys of a map listed without repetition in `order`: as many keys as entries of `order`. */
  lemma {:induction false} KeyCount(order: seq<Id>, m: map<Id, Conversation>)
    requires NoDuplicates(order)
    requires forall id :: id in m <==> id in order
    ensures |m| == |order|
  {
    if order == [] {
      assert m == map[];
    } else {
      var x, rest := order[0], order[1..];
      var m' := m - {x};
      assert forall id :: id in m' <==> id in rest by {
        assert forall id :: id in order <==> id == x || id in rest;
      }
      KeyCount(rest, m');
      assert m.Keys == m'.Keys + {x};
    }
  }

  lemma UpdateTwice(m: map<Id, Conversation>, k: Id, a: Conversation, b: Conversation)
    ensures m[k := a][k := b] == m[k := b]
  {
  }

  datatype DeleteOutcome =
    | Deleted
    | KeptLast   // the only conversation is never deleted
    | Missing    // `del` raises `KeyError` for an id that is not a key

  class ConversationStore {
    /** The ids in insertion order, as Python's `dict` keeps them. */
    var order: seq<Id>
    var conversations: map<Id, Conversation>
    /** `active_conversation` */
    var active: Id

    /** The ids are unique and are exactly the keys, the store is never empty, and the active id is a key. */
    ghost predicate Valid()
      reads this
    {
      && |order| > 0
      && NoDuplicates(order)
      && (forall id :: id in conversations <==> id in order)
      && active in conversations
    }

    /** `initialize_session_state` on a new session: one new conversation, which is active. */
    constructor (id: Id, createdAt: string)
      ensures Valid()
      ensures order == [id]
      ensures conversations == map[id := NewConversation(createdAt)]
      ensures active == id
    {
      order := [id];
      conversations := map[id := NewConversation(createdAt)];
      active := id;
    }

    /** `create_new_conversation`: one new key, appended last, holding a new record and made active. */
    method Create(id: Id, createdAt: string)
      requires Valid()
      requires id !in conversations
      modifies this
      ensures Valid()
      ensures order == old(order) + [id]
      ensures conversations == old(conversations)[id := NewConversation(createdAt)]
      ensures forall other :: other in old(conversations) ==> conversations[other] == old(conversations)[other]
      ensures active == id
    {
      order := order + [id];
      conversations := conversations[id := NewConversation(createdAt)];
      active := id;
    }

    /** Clicking a conversation in the list makes it the active one. */
    method Select(id: Id)
      requires Valid()
      requires id in conversations
      modifies this`active
      ensures Valid()
      ensures active == id
    {
      active := id;
    }

    /**
     * `delete_conversation`: refused while only one conversation exists;
     * otherwise the key is spliced out of the order and, when it was the
     * active one, the first remaining key becomes active.
     */
    method Delete(id: Id) returns (outcome: DeleteOutcome)
      requires Valid()
      modifies this
      ensures Valid()
      ensures old(|conversations|) == 1 ==> outcome == KeptLast
      ensures old(|conversations|) > 1 && id !in old(conversations) ==> outcome == Missing
      ensures outcome != Deleted ==>
        order == old(order) && conversations == old(conversations) && active == old(active)
      ensures outcome == Deleted <==> old(|conversations|) > 1 && id in old(conversations)
      ensures outcome == Deleted ==>
        && order == Remove(old(order), id)
        && |order| == old(|order|) - 1
        && conversations == old(conversations) - {id}
        && active == if old(active) == id then order[0] else old(active)
    {
      KeyCount(order, conversations);
      if |conversations| > 1 {
        if id !in conversations {
          return Missing;
        }
        var i :| 0 <= i < |order| && order[i] == id;
        RemoveSplices(order, id, i);
        conversations := conversations - {id};
        order := Remove(order, id);
        if active == id {
          active := order[0];
        }
        outcome := Deleted;
      } else {
        outcome := KeptLast;
      }
    }

    /**
     * `import_conversation` without the JSON parsing: `parsed` is the parsed
     * record, `None` when parsing failed. A parsed record is stored as it is
     * under a fresh id, which becomes active; a failure changes nothing.
     */
    method Import(id: Id, parsed: Option<Conversation>) returns (imported: bool)
      requires Valid()
      requires id !in conversations
      modifies this
      ensures Valid()
      ensures imported == parsed.Some?
      ensures !imported ==> order == old(order) && conversations == old(conversations) && active == old(active)
      ensures imported ==>
        && order == old(order) + [id]
        && conversations == old(conversations)[id := parsed.value]
        && active == id
    {
      match parsed
      case None =>
        imported := false;
      case Some(conversation) =>
        order := order + [id];
        conversations := conversations[id := conversation];
        active := id;
        imported := true;
    }

    /** "Clear All Chats": the store becomes exactly one new conversation, which is active. */
    method ClearAll(id: Id, createdAt: string)
      requires Valid()
      modifies this
      ensures Valid()
      ensures order == [id]
      ensures conversations == map[id := NewConversation(createdAt)]
      ensures active == id
    {
      order := [id];
      conversations := map[id := NewConversation(createdAt)];
      active := id;
    }

    /**
     * One submitted chat turn on the active conversation, performed step by
     * step on the stored record: `input` is the text area's content,
     * `deltas` and `failure` are what the backend streams (see
     * `StreamChunks`), and `displayFault` is set when rendering the streamed
     * text raises. Only the active conversation changes, as `Turn` says.
     */
    method Submit(input: string, deltas: seq<Option<string>>, failure: Option<string>, displayFault: Option<string>)
      returns (outcome: TurnOutcome)
      requires Valid()
      modifies this
      ensures Valid()
      ensures order == old(order) && active == old(active)
      ensures conversations == old(conversations)[active := Turn(old(conversations)[active], input, deltas, failure, displayFault).0]
      ensures outcome == Turn(old(conversations)[active], input, deltas, failure, displayFault).1
    {
      ghost var start := conversations;
      var text := Strip(input);
      if text == [] {
        return Blank;
      }
      var conversation := conversations[active];
      conversation := conversation.(messages := conversation.messages + [Message(User, text)]);
      if |conversation.messages| == 1 {
        conversation := conversation.(title := Title(conversation.messages));
      }
      assert conversation == WithUserMessage(start[active], text);
      conversations := conversations[active := conversation];
      var prompt := Lookup(SystemPrompts, conversation.personality);
      if prompt.None? {
        return UnknownPersonality;
      }
      var request := BuildRequest(prompt.value, conversation.messages);
      var reply: string;
      if displayFault.Some? {
        reply := GenerationErrorMarker + displayFault.value;
      } else {
        reply := Accumulate(StreamChunks(deltas, failure));
      }
      ghost var withUser := conversation;
      conversation := conversation.(messages := conversation.messages + [Message(Assistant, reply)]);
      assert conversation == WithAssistantMessage(withUser, reply);
      UpdateTwice(start, active, withUser, conversation);
      conversations := conversations[active := conversation];
      outcome := Answered(request, reply);
    }
  }
}
