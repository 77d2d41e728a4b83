/**
 * Tool specifications for a Converse request, and the post-processing that
 * keeps only the first tool call of a response.
 */
module BedrockTools {
  import opened Wrappers
  import opened BedrockTypes
  import opened BedrockMessages

  /** The function a function tool wraps: its `__name__` and its docstring. */
  datatype ToolFunction = ToolFunction(name: string, doc: Option<string>)

  /**
   * What the conversion reads of a tool: its own `name` and `description`
   * attributes, those of its metadata, the wrapped function if there is one,
   * and the parameter schema (`metadata.get_parameters_dict()`, kept opaque).
   */
  datatype Tool = Tool(
    name: Option<string>,
    description: Option<string>,
    metadataName: Option<string>,
    metadataDescription: Option<string>,
    fn: Option<ToolFunction>,
    parameters: Value)

  /** `{"toolSpec": {"name": ..., "description": ..., "inputSchema": {"json": ...}}}`. */
  datatype ToolSpec = ToolSpec(name: string, description: string, inputSchema: Value)

  predicate Present(s: Option<string>) { s.Some? && s.value != "" }

  const MissingNameOrDescription := "Tool does not have a name or description."

  /**
   * The name and description of one tool: its own when both are truthy;
   * otherwise the metadata name and, for a function tool, the docstring (and
   * the function's name when the metadata has none), else the metadata
   * description; ValueError when either is still missing.
   */
  function ToolSpecOf(t: Tool): (r: Result<ToolSpec, BedrockError>)
    ensures r.Ok? ==> r.value.name != "" && r.value.description != "" && r.value.inputSchema == t.parameters
    ensures r.Err? ==> r.error == ValueError(MissingNameOrDescription)
    ensures Present(t.name) && Present(t.description) ==>
              r == Ok(ToolSpec(t.name.value, t.description.value, t.parameters))
    ensures !(Present(t.name) && Present(t.description)) && t.fn.None? ==>
              (r.Ok? <==> Present(t.metadataName) && Present(t.metadataDescription))
    ensures !(Present(t.name) && Present(t.description)) && t.fn.None? && r.Ok? ==>
              r.value == ToolSpec(t.metadataName.value, t.metadataDescription.value, t.parameters)
    ensures !(Present(t.name) && Present(t.description)) && t.fn.Some? ==>
              (r.Ok? <==> (Present(t.metadataName) || t.fn.value.name != "") && Present(t.fn.value.doc))
    ensures !(Present(t.name) && Present(t.description)) && t.fn.Some? && r.Ok? ==>
              && r.value.name == (if Present(t.metadataName) then t.metadataName.value else t.fn.value.name)
              && r.value.description == t.fn.value.doc.value
  {
    if Present(t.name) && Present(t.description) then
      Ok(ToolSpec(t.name.value, t.description.value, t.parameters))
    else
      var name: Option<string> :=
        if t.fn.Some? && !Present(t.metadataName) then Some(t.fn.value.name) else t.metadataName;
      var description := if t.fn.Some? then t.fn.value.doc else t.metadataDescription;
      if Present(name) && Present(description) then Ok(ToolSpec(name.value, description.value, t.parameters))
      else Err(ValueError(MissingNameOrDescription))
  }

  /** A function tool without names anywhere falls back to the function's own name and docstring. */
  lemma FunctionToolFallback(f: ToolFunction, parameters: Value)
    requires f.name != "" && Present(f.doc)
    ensures ToolSpecOf(Tool(None, None, None, None, Some(f), parameters))
            == Ok(ToolSpec(f.name, f.doc.value, parameters))
  {
  }

  /** `tools_to_converse_tools`: one specification per tool, in order, or the first tool's ValueError. */
  method ToolsToConverseTools(tools: seq<Tool>) returns (r: Result<seq<ToolSpec>, BedrockError>)
    ensures r.Ok? <==> forall i :: 0 <= i < |tools| ==> ToolSpecOf(tools[i]).Ok?
    ensures r.Ok? ==> |r.value| == |tools| && forall i :: 0 <= i < |tools| ==> ToolSpecOf(tools[i]) == Ok(r.value[i])
    ensures r.Err? ==> r == Err(ValueError(MissingNameOrDescription))
  {
    var converseTools: seq<ToolSpec> := [];
    for i := 0 to |tools|
      invariant |converseTools| == i
      invariant forall j :: 0 <= j < i ==> ToolSpecOf(tools[j]) == Ok(converseTools[j])
    {
      var spec := ToolSpecOf(tools[i]);
      if spec.Err? {
        return Err(spec.error);
      }
      converseTools := converseTools + [spec.value];
    }
    r := Ok(converseTools);
  }

  // ---------------------------------------------------------------------------
  // force_single_tool_call

  /** The kwargs with the tool calls cut down to the first one when there are several. */
  function SingleToolCall(k: AdditionalKwargs): (r: AdditionalKwargs)
    ensures r.toolCallId == k.toolCallId && r.status == k.status
    ensures r.toolCalls.Some? <==> k.toolCalls.Some?
    ensures r.toolCalls.Some? ==> |r.toolCalls.value| <= 1
    ensures r.toolCalls.Some? && |k.toolCalls.value| > 0 ==> r.toolCalls.value == [k.toolCalls.value[0]]
    ensures k.toolCalls.None? || |k.toolCalls.value| <= 1 ==> r == k
  {
    if k.toolCalls.Some? && |k.toolCalls.value| > 1 then k.(toolCalls := Some([k.toolCalls.value[0]])) else k
  }

  lemma SingleToolCallIdempotent(k: AdditionalKwargs)
    ensures SingleToolCall(SingleToolCall(k)) == SingleToolCall(k)
  {
  }

  /** A chat response, whose message the post-processing edits in place. */
  class ChatResponse {
    var message: ChatMessage

    constructor (message: ChatMessage)
      ensures this.message == message
    {
      this.message := message;
    }

    /** `force_single_tool_call(response)`. */
    method ForceSingleToolCall()
      modifies this
      ensures message == old(message).(additionalKwargs := SingleToolCall(old(message).additionalKwargs))
    {
      var toolCalls := if message.additionalKwargs.toolCalls.Some? then message.additionalKwargs.toolCalls.value else [];
      if |toolCalls| > 1 {
        message := message.(additionalKwargs := message.additionalKwargs.(toolCalls := Some([toolCalls[0]])));
      }
    }
  }
}
