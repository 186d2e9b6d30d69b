/**
 * The fixed tables a `ChatBot` carries (display name to backend model id,
 * personality to system prompt) and the construction of a `ChatBot` from an
 * API key.
 */
module Catalog {
  import opened Wrappers

  /** An insertion-ordered dictionary from strings to strings. */
  type Table = seq<(string, string)>

  /** The `models` table: display name, then backend model id. */
  const Models: Table := [
    ("Claude Sonnet 4", "anthropic/claude-sonnet-4"),
    ("GPT-4o", "openai/gpt-4o"),
    ("Gemini 2.0 Flash", "google/gemini-2.0-flash-thinking-exp")
  ]

  /** The `system_prompts` table: personality, then the system prompt sent with every request. */
  const SystemPrompts: Table := [
    ("Assistant", "You are a helpful AI assistant. Provide clear, accurate, and helpful responses to user queries."),
    ("Developer", "You are an expert software developer. Help with coding questions, debugging, and best practices."),
    ("Teacher", "You are a patient and knowledgeable teacher. Explain concepts clearly with examples and encourage learning."),
    ("Creative", "You are a creative AI assistant. Help with writing, brainstorming, and creative projects with imagination and flair."),
    ("Analyst", "You are a data analyst and researcher. Provide detailed analysis, insights, and evidence-based responses.")
  ]

  /** The model id and personality every new conversation starts with. */
  const DefaultModel: string := "anthropic/claude-sonnet-4"
  const DefaultPersonality: string := "Assistant"

  predicate HasKey(table: Table, key: string) {
    exists i :: 0 <= i < |table| && table[i].0 == key
  }

  predicate HasValue(table: Table, value: string) {
    exists i :: 0 <= i < |table| && table[i].1 == value
  }

  /** Entry `i` is the first, in insertion order, whose value is `value`. */
  predicate IsFirstWithValue(table: Table, value: string, i: int) {
    && 0 <= i < |table|
    && table[i].1 == value
    && forall j :: 0 <= j < i ==> table[j].1 != value
  }

  /** No key occurs twice, as in any Python dictionary. */
  predicate DistinctKeys(table: Table) {
    forall i, j :: 0 <= i < j < |table| ==> table[i].0 != table[j].0
  }

  /** `table[key]`, or `None` where Python raises `KeyError`. */
  function Lookup(table: Table, key: string): (r: Option<string>)
    ensures r.None? <==> !HasKey(table, key)
    ensures r.Some? ==> (key, r.value) in table
  {
    if table == [] then None
    else if table[0].0 == key then Some(table[0].1)
    else
      var r := Lookup(table[1..], key);
      assert HasKey(table[1..], key) ==> HasKey(table, key) by {
        if HasKey(table[1..], key) {
          var i :| 0 <= i < |table[1..]| && table[1..][i].0 == key;
          assert table[i + 1].0 == key;
        }
      }
      r
  }

  /** The first key, in insertion order, whose value is `value`. */
  function FirstKeyWith(table: Table, value: string): (r: Option<string>)
    ensures r.None? <==> !HasValue(table, value)
    ensures r.Some? ==> exists i :: IsFirstWithValue(table, value, i) && table[i].0 == r.value
  {
    if table == [] then None
    else if table[0].1 == value then
      assert IsFirstWithValue(table, value, 0);
      Some(table[0].0)
    else
      var r := FirstKeyWith(table[1..], value);
      assert r.Some? ==> exists i :: IsFirstWithValue(table, value, i) && table[i].0 == r.value by {
        if r.Some? {
          var i :| IsFirstWithValue(table[1..], value, i) && table[1..][i].0 == r.value;
          assert IsFirstWithValue(table, value, i + 1);
        }
      }
      assert HasValue(table[1..], value) ==> HasValue(table, value) by {
        if HasValue(table[1..], value) {
          var i :| 0 <= i < |table[1..]| && table[1..][i].1 == value;
          assert table[i + 1].1 == value;
        }
      }
      r
  }

  /** In a table with distinct keys, looking up an entry's key gives that entry's value. */
  lemma {:induction false} LookupEntry(table: Table, key: string, value: string)
    requires DistinctKeys(table)
    requires (key, value) in table
    ensures Lookup(table, key) == Some(value)
  {
    if table[0] != (key, value) {
      assert table[0].0 != key by {
        var i :| 0 <= i < |table| && table[i] == (key, value);
        assert i != 0;
      }
      assert (key, value) in table[1..];
      LookupEntry(table[1..], key, value);
    }
  }

  /**
   * The model name the settings panel selects for a conversation's model id:
   * the first catalog name with that id, and the first catalog name when no
   * entry has it.
   */
  function ModelNameFor(modelId: string): (name: string)
    ensures HasKey(Models, name)
    ensures !HasValue(Models, modelId) ==> name == Models[0].0
  {
    match FirstKeyWith(Models, modelId)
    case Some(name) => name
    case None => Models[0].0
  }

  /** No value occurs twice: no two model names share a backend model id. */
  predicate DistinctValues(table: Table) {
    forall i, j :: 0 <= i < j < |table| ==> table[i].1 != table[j].1
  }

  lemma CatalogKeysDistinct()
    ensures DistinctKeys(Models) && DistinctKeys(SystemPrompts)
    ensures DistinctValues(Models)
  {
  }

  /** A model id of the catalog survives the trip id to name to id. */
  lemma ModelNameRoundTrip(modelId: string)
    requires HasValue(Models, modelId)
    ensures Lookup(Models, ModelNameFor(modelId)) == Some(modelId)
  {
    CatalogKeysDistinct();
    LookupEntry(Models, ModelNameFor(modelId), modelId);
  }

  /** The defaults a new conversation starts with resolve in both tables. */
  lemma DefaultsResolve()
    ensures ModelNameFor(DefaultModel) == "Claude Sonnet 4"
    ensures Lookup(Models, ModelNameFor(DefaultModel)) == Some(DefaultModel)
    ensures Lookup(SystemPrompts, DefaultPersonality) == Some(SystemPrompts[0].1)
  {
    assert Models[0] == ("Claude Sonnet 4", DefaultModel);
    ModelNameRoundTrip(DefaultModel);
  }

  /** A configured client: its API key and optional base URL. */
  datatype ChatBot = ChatBot(apiKey: string, baseUrl: Option<string>)

  const MissingKeyError: string := "KodeKey API key is required"

  /** Python truthiness of an optional string: present and non-empty. */
  predicate Truthy(s: Option<string>) {
    s.Some? && s.value != ""
  }

  /**
   * `ChatBot(api_key, base_url)`: each argument falls back to its
   * environment variable when it is falsy, and construction fails when no
   * non-empty key results.
   */
  function NewChatBot(apiKey: Option<string>, baseUrl: Option<string>,
                      envApiKey: Option<string>, envBaseUrl: Option<string>): (r: Result<ChatBot, string>)
    ensures r.Success? <==> Truthy(apiKey) || Truthy(envApiKey)
    ensures r.Failure? ==> r.error == MissingKeyError
    ensures r.Success? ==> r.value.apiKey != ""
    ensures r.Success? && Truthy(apiKey) ==> r.value.apiKey == apiKey.value
    ensures r.Success? && !Truthy(apiKey) ==> r.value.apiKey == envApiKey.value
    ensures r.Success? ==> r.value.baseUrl == if Truthy(baseUrl) then baseUrl else envBaseUrl
  {
    var key := if Truthy(apiKey) then apiKey else envApiKey;
    var url := if Truthy(baseUrl) then baseUrl else envBaseUrl;
    if Truthy(key) then Success(ChatBot(key.value, url)) else Failure(MissingKeyError)
  }
}
