/**
 * The pure parts of one chat turn: the request sent to the backend, the chunks
 * a streamed answer yields, and the loop that folds them into one reply.
 */
module Pipeline {
  import opened Wrappers
  import opened Messages

  /** How many of the most recent conversation messages a request carries. */
  const ContextWindow: nat := 20

  /** The prefix of the chunk the stream yields in place of a backend exception. */
  const ErrorMarker: string := "\U{274C} Error: "

  /** The prefix of the reply stored when displaying the stream itself raises. */
  const GenerationErrorMarker: string := "\U{274C} Error generating response: "

  function Min(a: nat, b: nat): (r: nat) {
    if a <= b then a else b
  }

  /** `messages[-20:]`: the last `min(20, n)` messages, oldest first. */
  function RecentMessages(messages: seq<Message>): (r: seq<Message>)
    ensures |r| == Min(ContextWindow, |messages|)
    ensures r == messages[|messages| - |r|..]
  {
    if |messages| <= ContextWindow then messages else messages[|messages| - ContextWindow..]
  }

  /**
   * The request of a turn: one system message holding the personality's
   * prompt, then the most recent conversation messages in their order.
   */
  function BuildRequest(prompt: string, messages: seq<Message>): (r: seq<Message>)
    ensures |r| == 1 + Min(ContextWindow, |messages|)
    ensures r[0] == Message(System, prompt)
    ensures forall k :: 1 <= k < |r| ==> r[k] == messages[|messages| - |r| + k]
  {
    [Message(System, prompt)] + RecentMessages(messages)
  }

  /** The newest message is always part of the request, as its last entry. */
  lemma RequestEndsWithNewest(prompt: string, messages: seq<Message>)
    requires messages != []
    ensures BuildRequest(prompt, messages)[|BuildRequest(prompt, messages)| - 1] == messages[|messages| - 1]
  {
  }

  /** A conversation of more than 20 messages sends exactly its last 20. */
  lemma LongConversationWindow(prompt: string, messages: seq<Message>)
    requires |messages| > ContextWindow
    ensures BuildRequest(prompt, messages) == [Message(System, prompt)] + messages[|messages| - ContextWindow..]
    ensures |BuildRequest(prompt, messages)| == ContextWindow + 1
  {
  }

  /** The content the stream yields for raw deltas: every delta that is not `None`, in order. */
  function Present(deltas: seq<Option<string>>): (r: seq<string>)
    ensures |r| <= |deltas|
    ensures forall c :: c in r ==> Some(c) in deltas
    ensures forall k :: 0 <= k < |deltas| && deltas[k].Some? ==> deltas[k].value in r
  {
    if deltas == [] then []
    else
      var init := deltas[..|deltas| - 1];
      var r := Present(init) + match deltas[|deltas| - 1] case Some(c) => [c] case None => [];
      assert forall k :: 0 <= k < |init| ==> deltas[k] == init[k];
      r
  }

  /** A single delta yields its content when it has one, and nothing when it is `None`. */
  lemma PresentSingle(delta: Option<string>)
    ensures Present([delta]) == if delta.Some? then [delta.value] else []
  {
    assert [delta][..0] == [];
  }

  /**
   * The deltas of two consecutive stretches of the stream yield the chunks of
   * the first stretch, then those of the second: nothing is dropped,
   * repeated or reordered.
   */
  lemma {:induction false} PresentAppend(a: seq<Option<string>>, b: seq<Option<string>>)
    ensures Present(a + b) == Present(a) + Present(b)
  {
    if b == [] {
      assert a + b == a;
    } else {
      var init := b[..|b| - 1];
      assert (a + b)[..|a + b| - 1] == a + init;
      assert (a + b)[|a + b| - 1] == b[|b| - 1];
      PresentAppend(a, init);
    }
  }

  /**
   * `stream_response`: the content of every delta received before a fault,
   * skipping deltas whose content is `None`, followed by one error chunk when the backend
   * raised (`failure` holds the exception's text).
   */
  function StreamChunks(deltas: seq<Option<string>>, failure: Option<string>): (r: seq<string>)
    ensures failure.None? ==> r == Present(deltas)
    ensures failure.Some? ==> |r| > 0 && r[..|r| - 1] == Present(deltas) && r[|r| - 1] == ErrorMarker + failure.value
  {
    Present(deltas) + if failure.Some? then [ErrorMarker + failure.value] else []
  }

  /** The summed length of chunks. */
  function TotalLength(chunks: seq<string>): nat {
    if chunks == [] then 0 else TotalLength(chunks[..|chunks| - 1]) + |chunks[|chunks| - 1]|
  }

  /** The in-order concatenation of chunks: as long as all chunks together. */
  function Concat(chunks: seq<string>): (r: string)
    ensures |r| == TotalLength(chunks)
  {
    if chunks == [] then "" else Concat(chunks[..|chunks| - 1]) + chunks[|chunks| - 1]
  }

  /** Concatenation distributes over appending chunk sequences. */
  lemma {:induction false} ConcatAppend(a: seq<string>, b: seq<string>)
    ensures Concat(a + b) == Concat(a) + Concat(b)
  {
    if b == [] {
      assert a + b == a;
    } else {
      var init := b[..|b| - 1];
      assert (a + b)[..|a + b| - 1] == a + init;
      ConcatAppend(a, init);
      assert Concat(b) == Concat(init) + b[|b| - 1];
    }
  }

  /** Appending one chunk appends its text. */
  lemma ConcatSnoc(chunks: seq<string>, chunk: string)
    ensures Concat(chunks + [chunk]) == Concat(chunks) + chunk
  {
    assert (chunks + [chunk])[..|chunks|] == chunks;
  }

  /** Every chunk ends up in the reply, in its place: none is skipped or reordered. */
  lemma {:induction false} ConcatKeepsEachChunk(chunks: seq<string>, i: nat)
    requires i < |chunks|
    ensures Concat(chunks) == Concat(chunks[..i]) + chunks[i] + Concat(chunks[i + 1..])
  {
    var upTo := chunks[..i + 1];
    assert upTo + chunks[i + 1..] == chunks;
    ConcatAppend(upTo, chunks[i + 1..]);
    assert chunks[..i] + [chunks[i]] == upTo;
    ConcatSnoc(chunks[..i], chunks[i]);
  }

  /**
   * The streaming loop of a turn, `response_text += chunk` for every chunk:
   * the reply is the concatenation of all chunks.
   */
  method Accumulate(chunks: seq<string>) returns (text: string)
    ensures text == Concat(chunks)
  {
    text := "";
    var i := 0;
    while i < |chunks|
      invariant 0 <= i <= |chunks|
      invariant text == Concat(chunks[..i])
    {
      assert chunks[..i + 1] == chunks[..i] + [chunks[i]];
      ConcatSnoc(chunks[..i], chunks[i]);
      text := text + chunks[i];
      i := i + 1;
    }
    assert chunks[..i] == chunks;
  }

  /**
   * The assistant message a completed turn stores. When displaying the
   * stream raised, it is the generic error text. Otherwise it is everything
   * streamed, in order; after a backend failure that content is followed by
   * the error marker and the exception's text, so the failure is not lost.
   */
  function Reply(deltas: seq<Option<string>>, failure: Option<string>, displayFault: Option<string>): (r: string)
    ensures displayFault.Some? ==> r == GenerationErrorMarker + displayFault.value
    ensures displayFault.None? && failure.None? ==> r == Concat(Present(deltas))
    ensures displayFault.None? && failure.Some? ==> r == Concat(Present(deltas)) + ErrorMarker + failure.value
  {
    if displayFault.Some? then GenerationErrorMarker + displayFault.value
    else
      var chunks := StreamChunks(deltas, failure);
      if failure.Some? then
        ConcatSnoc(Present(deltas), ErrorMarker + failure.value);
        Concat(chunks)
      else
        Concat(chunks)
  }

  lemma HelloChunks()
    ensures Present([Some("Hel"), Some("lo!")]) == ["Hel", "lo!"]
  {
    PresentSingle(Some("Hel"));
    PresentSingle(Some("lo!"));
    PresentAppend([Some("Hel")], [Some("lo!")]);
    assert [Some("Hel")] + [Some("lo!")] == [Some("Hel"), Some("lo!")];
  }

  lemma HelloText()
    ensures Concat(["Hel", "lo!"]) == "Hello!"
  {
    ConcatSnoc([], "Hel");
    assert [] + ["Hel"] == ["Hel"];
    ConcatSnoc(["Hel"], "lo!");
    assert ["Hel"] + ["lo!"] == ["Hel", "lo!"];
  }

  /** A backend that streams "Hel" and then "lo!" produces the reply "Hello!". */
  lemma HelloReply()
    ensures Reply([Some("Hel"), Some("lo!")], None, None) == "Hello!"
  {
    HelloChunks();
    HelloText();
  }
}
