/**
 * The Bedrock model tables: the context size of each known model, in the
 * order the table lists them, and the models that support function calling.
 */
module BedrockModels {
  import opened Wrappers
  import opened Text
  import opened BedrockTypes

  /** `BEDROCK_MODELS`, in insertion order (the order matters for the error message). */
  const BedrockModelTable: seq<(string, nat)> := [
    ("amazon.titan-text-express-v1", 8192),
    ("amazon.titan-text-lite-v1", 4096),
    ("amazon.titan-text-premier-v1:0", 3072),
    ("anthropic.claude-instant-v1", 100000),
    ("anthropic.claude-v1", 100000),
    ("anthropic.claude-v2", 100000),
    ("anthropic.claude-v2:1", 200000),
    ("anthropic.claude-3-sonnet-20240229-v1:0", 200000),
    ("anthropic.claude-3-haiku-20240307-v1:0", 200000),
    ("anthropic.claude-3-opus-20240229-v1:0", 200000),
    ("anthropic.claude-3-5-sonnet-20240620-v1:0", 200000),
    ("ai21.j2-mid-v1", 8192),
    ("ai21.j2-ultra-v1", 8192),
    ("cohere.command-text-v14", 4096),
    ("cohere.command-light-text-v14", 4096),
    ("cohere.command-r-v1:0", 128000),
    ("cohere.command-r-plus-v1:0", 128000),
    ("meta.llama2-13b-chat-v1", 2048),
    ("meta.llama2-70b-chat-v1", 4096),
    ("meta.llama3-8b-instruct-v1:0", 8192),
    ("meta.llama3-70b-instruct-v1:0", 8192),
    ("mistral.mistral-7b-instruct-v0:2", 32000),
    ("mistral.mixtral-8x7b-instruct-v0:1", 32000),
    ("mistral.mistral-large-2402-v1:0", 32000),
    ("mistral.mistral-small-2402-v1:0", 32000)
  ]

  /** `BEDROCK_FUNCTION_CALLING_MODELS`. */
  const FunctionCallingModels: seq<string> := [
    "anthropic.claude-3-sonnet-20240229-v1:0",
    "anthropic.claude-3-haiku-20240307-v1:0",
    "anthropic.claude-3-opus-20240229-v1:0",
    "anthropic.claude-3-5-sonnet-20240620-v1:0",
    "cohere.command-r-v1:0",
    "cohere.command-r-plus-v1:0",
    "mistral.mistral-large-2402-v1:0"
  ]

  /** The model names of a table, in order (`BEDROCK_MODELS.keys()`). */
  function Names(table: seq<(string, nat)>): (r: seq<string>)
    ensures |r| == |table| && forall i :: 0 <= i < |table| ==> r[i] == table[i].0
  {
    if table == [] then [] else [table[0].0] + Names(table[1..])
  }

  /** The value stored under `name`: that of its first entry in the table. */
  function Lookup(table: seq<(string, nat)>, name: string): (r: Option<nat>)
    ensures r.None? <==> name !in Names(table)
    ensures r.Some? ==> exists i :: 0 <= i < |table| && table[i] == (name, r.value)
  {
    if table == [] then None
    else if table[0].0 == name then Some(table[0].1)
    else Lookup(table[1..], name)
  }

  /** Looking up the name of entry `i` finds that entry's value when no earlier entry has the same name. */
  lemma {:induction false} LookupAt(table: seq<(string, nat)>, i: nat)
    requires i < |table|
    requires forall j :: 0 <= j < i ==> table[j].0 != table[i].0
    ensures Lookup(table, table[i].0) == Some(table[i].1)
  {
    if i > 0 {
      LookupAt(table[1..], i - 1);
    }
  }

  /** `is_bedrock_function_calling_model`: membership in the list; every listed model is a known one. */
  predicate IsFunctionCallingModel(name: string)
    ensures IsFunctionCallingModel(name) ==> name in Names(BedrockModelTable)
  {
    FunctionCallingModelsListed();
    name in FunctionCallingModels
  }

  lemma FunctionCallingModelsListed()
    ensures forall k :: 0 <= k < |FunctionCallingModels| ==> FunctionCallingModels[k] in Names(BedrockModelTable)
  {
    forall k | 0 <= k < |FunctionCallingModels| ensures FunctionCallingModels[k] in Names(BedrockModelTable) {
      var i := FunctionCallingIndex(k);
      assert Names(BedrockModelTable)[i] == FunctionCallingModels[k];
    }
  }

  /** The ValueError text for an unknown name: it opens with "Unknown model: " and the name. */
  function UnknownModelMessage(table: seq<(string, nat)>, name: string): (r: string)
    ensures |r| > 15 + |name| && r[..15] == "Unknown model: " && r[15..15 + |name|] == name
  {
    var head, note := "Unknown model: ", KnownModelsNote(table);
    assert |head| == 15 && (head + name + note)[..15] == head && (head + name + note)[15..15 + |name|] == name;
    head + name + note
  }

  /** The part of the message after the model's name: a hint and the known names, comma-separated. */
  function KnownModelsNote(table: seq<(string, nat)>): string
  {
    ". Please provide a valid Bedrock model name. " + "Known models are: " + Join(", ", Names(table))
  }

  /** The lookup of `bedrock_modelname_to_context_size` over a given table. */
  function ContextSizeIn(table: seq<(string, nat)>, name: string): (r: Result<nat, BedrockError>)
    ensures r.Ok? <==> name in Names(table)
    ensures r.Ok? ==> (name, r.value) in table
    ensures r.Err? ==> r.error == ValueError(UnknownModelMessage(table, name))
  {
    match Lookup(table, name)
    case Some(n) => Ok(n)
    case None => Err(ValueError(UnknownModelMessage(table, name)))
  }

  /** `bedrock_modelname_to_context_size`: the table value, or ValueError for an unknown name. */
  function ContextSize(name: string): Result<nat, BedrockError>
  {
    ContextSizeIn(BedrockModelTable, name)
  }

  /** No model is listed twice, so the table is a function of the name. */
  lemma ModelNamesDistinct()
    ensures forall i, j :: 0 <= i < j < |BedrockModelTable| ==> BedrockModelTable[i].0 != BedrockModelTable[j].0
  {
  }

  /** A known model's context size is the value listed for it. */
  lemma ContextSizeOfKnownModel(i: nat)
    requires i < |BedrockModelTable|
    ensures ContextSize(BedrockModelTable[i].0) == Ok(BedrockModelTable[i].1)
  {
    ModelNamesDistinct();
    LookupAt(BedrockModelTable, i);
  }

  /** Where each function-calling model sits in the context-size table. */
  function FunctionCallingIndex(k: nat): (i: nat)
    requires k < |FunctionCallingModels|
    ensures i < |BedrockModelTable| && BedrockModelTable[i].0 == FunctionCallingModels[k]
    ensures BedrockModelTable[i].1 >= 32000
  {
    [7, 8, 9, 10, 15, 16, 23][k]
  }

  /** Every function-calling model is a known model with a context window of at least 32000 tokens. */
  lemma FunctionCallingModelsKnown(name: string)
    requires IsFunctionCallingModel(name)
    ensures ContextSize(name).Ok? && ContextSize(name).value >= 32000
  {
    var k :| 0 <= k < |FunctionCallingModels| && FunctionCallingModels[k] == name;
    var i := FunctionCallingIndex(k);
    ContextSizeOfKnownModel(i);
  }

  /** The error message names the unknown model first. */
  lemma UnknownModelMessageNamesModel(table: seq<(string, nat)>, name: string)
    requires name !in Names(table)
    ensures ContextSizeIn(table, name).Err? && ContextSizeIn(table, name).error.ValueError?
    ensures var m := ContextSizeIn(table, name).error.message;
            |m| > 15 + |name| && m[..15] == "Unknown model: " && m[15..15 + |name|] == name
  {
    var m, head, note := UnknownModelMessage(table, name), "Unknown model: ", KnownModelsNote(table);
    assert m == head + name + note;
    assert |head| == 15 && (head + name + note)[..15] == head && (head + name + note)[15..15 + |name|] == name;
  }
}
