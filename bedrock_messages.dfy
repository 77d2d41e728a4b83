/**
 * The message shaping of the Bedrock Converse utilities: chat messages become
 * Converse messages plus a system prompt, consecutive messages of one role are
 * merged, tools become tool specifications and a response is cut down to a
 * single tool call.
 */
module BedrockMessages {
  import opened Wrappers
  import opened Text
  import opened BedrockTypes

  datatype MessageRole = SYSTEM | USER | ASSISTANT | FUNCTION | TOOL | CHATBOT | MODEL

  /** `MessageRole.value`. */
  function RoleValue(role: MessageRole): string
  {
    match role
    case SYSTEM => "system"
    case USER => "user"
    case ASSISTANT => "assistant"
    case FUNCTION => "function"
    case TOOL => "tool"
    case CHATBOT => "chatbot"
    case MODEL => "model"
  }

  /** A tool call as the model returned it: a dict that must hold `toolUseId`, `input` and `name`. */
  type ToolCall = map<string, Value>

  /**
   * The entries of `additional_kwargs` the conversion reads; `None` is an absent key.
   */
  datatype AdditionalKwargs = AdditionalKwargs(
    toolCallId: Option<Value>,
    status: Option<Value>,
    toolCalls: Option<seq<ToolCall>>)

  datatype ChatMessage = ChatMessage(role: MessageRole, content: Option<string>, additionalKwargs: AdditionalKwargs)

  /** One item of a Converse message's `content` list. */
  datatype ContentBlock =
    | TextBlock(text: string)
    | ToolUseBlock(toolUse: ToolCall)
    | ToolResultBlock(toolUseId: Value, resultText: Option<string>, status: Option<Value>)

  /** A Converse message: `{"role": ..., "content": [...]}`. */
  datatype ConverseMessage = ConverseMessage(role: string, content: seq<ContentBlock>)

  // ---------------------------------------------------------------------------
  // Merging consecutive messages of one role

  function Roles(ms: seq<ConverseMessage>): (r: seq<string>)
    ensures |r| == |ms|
  {
    if ms == [] then [] else Roles(ms[..|ms| - 1]) + [ms[|ms| - 1].role]
  }

  lemma {:induction false} RolesAt(ms: seq<ConverseMessage>, i: nat)
    requires i < |ms|
    ensures Roles(ms)[i] == ms[i].role
  {
    if i < |ms| - 1 {
      RolesAt(ms[..|ms| - 1], i);
    }
  }

  /** All content items of the messages, in order. */
  function Contents(ms: seq<ConverseMessage>): seq<ContentBlock>
  {
    if ms == [] then [] else Contents(ms[..|ms| - 1]) + ms[|ms| - 1].content
  }

  predicate NoAdjacentRepeats(ms: seq<ConverseMessage>)
  {
    forall i :: 0 < i < |ms| ==> ms[i - 1].role != ms[i].role
  }

  /** A sequence with every run of equal neighbours collapsed to one element. */
  function Dedup(rs: seq<string>): seq<string>
  {
    if rs == [] then []
    else if |rs| > 1 && rs[|rs| - 1] == rs[|rs| - 2] then Dedup(rs[..|rs| - 1])
    else Dedup(rs[..|rs| - 1]) + [rs[|rs| - 1]]
  }

  /** One step of the merge: a message whose role matches the last one extends it, else it is appended. */
  function MergeStep(r: seq<ConverseMessage>, m: ConverseMessage): (q: seq<ConverseMessage>)
    ensures |r| <= |q| <= |r| + 1 && q != [] && q[|q| - 1].role == m.role
    ensures forall i :: 0 <= i < |q| - 1 ==> q[i] == r[i]
  {
    if r != [] && r[|r| - 1].role == m.role then
      r[..|r| - 1] + [ConverseMessage(r[|r| - 1].role, r[|r| - 1].content + m.content)]
    else r + [m]
  }

  /** The result of merging the messages one at a time, first to last. */
  function Merged(ms: seq<ConverseMessage>): (q: seq<ConverseMessage>)
    ensures |q| <= |ms|
    ensures ms != [] ==> q != [] && q[|q| - 1].role == ms[|ms| - 1].role
  {
    if ms == [] then [] else MergeStep(Merged(ms[..|ms| - 1]), ms[|ms| - 1])
  }

  lemma ContentsSnoc(xs: seq<ConverseMessage>, x: ConverseMessage)
    ensures Contents(xs + [x]) == Contents(xs) + x.content
  {
    assert (xs + [x])[..|xs|] == xs;
  }

  lemma MergeStepProperties(r: seq<ConverseMessage>, m: ConverseMessage)
    ensures Contents(MergeStep(r, m)) == Contents(r) + m.content
    ensures Roles(MergeStep(r, m)) == if r != [] && r[|r| - 1].role == m.role then Roles(r) else Roles(r) + [m.role]
    ensures NoAdjacentRepeats(r) ==> NoAdjacentRepeats(MergeStep(r, m))
    ensures |MergeStep(r, m)| <= |r| + 1
    ensures MergeStep(r, m) != [] && MergeStep(r, m)[|MergeStep(r, m)| - 1].role == m.role
  {
    if r != [] && r[|r| - 1].role == m.role {
      var front, last := r[..|r| - 1], r[|r| - 1];
      assert r == front + [last];
      ContentsSnoc(front, last);
      ContentsSnoc(front, ConverseMessage(last.role, last.content + m.content));
    } else {
      ContentsSnoc(r, m);
    }
  }

  /** Merging keeps every content item, in order. */
  lemma {:induction false} MergedContents(ms: seq<ConverseMessage>)
    ensures Contents(Merged(ms)) == Contents(ms)
  {
    if ms != [] {
      var init, m := ms[..|ms| - 1], ms[|ms| - 1];
      assert ms == init + [m];
      assert Merged(ms) == MergeStep(Merged(init), m);
      MergedContents(init);
      MergeStepProperties(Merged(init), m);
      ContentsSnoc(init, m);
      assert Contents(ms) == Contents(init) + m.content;
    }
  }

  /** After merging no two neighbours share a role, nothing is longer, and the last role is the input's. */
  lemma {:induction false} MergedNoRepeats(ms: seq<ConverseMessage>)
    ensures NoAdjacentRepeats(Merged(ms))
    ensures |Merged(ms)| <= |ms|
    ensures ms != [] ==> Merged(ms) != [] && Merged(ms)[|Merged(ms)| - 1].role == ms[|ms| - 1].role
  {
    if ms != [] {
      var init, m := ms[..|ms| - 1], ms[|ms| - 1];
      MergedNoRepeats(init);
      MergeStepProperties(Merged(init), m);
    }
  }

  lemma RolesSnoc(xs: seq<ConverseMessage>, x: ConverseMessage)
    ensures Roles(xs + [x]) == Roles(xs) + [x.role]
  {
    assert (xs + [x])[..|xs|] == xs;
  }

  lemma DedupSnoc(rs: seq<string>, x: string)
    ensures Dedup(rs + [x]) == if rs != [] && rs[|rs| - 1] == x then Dedup(rs) else Dedup(rs) + [x]
  {
    assert (rs + [x])[..|rs|] == rs;
  }

  /** The roles after merging are the input's roles with runs collapsed. */
  lemma {:induction false} MergedRoles(ms: seq<ConverseMessage>)
    ensures Roles(Merged(ms)) == Dedup(Roles(ms))
  {
    if ms != [] {
      var init, m := ms[..|ms| - 1], ms[|ms| - 1];
      var r := Merged(init);
      assert ms == init + [m];
      MergedRoles(init);
      MergedNoRepeats(init);
      MergeStepProperties(r, m);
      RolesSnoc(init, m);
      DedupSnoc(Roles(init), m.role);
      if init != [] { RolesAt(init, |init| - 1); }
      assert (r != [] && r[|r| - 1].role == m.role) <==> (Roles(init) != [] && Roles(init)[|Roles(init)| - 1] == m.role);
    }
  }

  lemma MergedProperties(ms: seq<ConverseMessage>)
    ensures NoAdjacentRepeats(Merged(ms)) && |Merged(ms)| <= |ms|
    ensures Contents(Merged(ms)) == Contents(ms)
    ensures Roles(Merged(ms)) == Dedup(Roles(ms))
  {
    MergedContents(ms);
    MergedNoRepeats(ms);
    MergedRoles(ms);
  }

  /** Messages whose neighbours already differ in role are left as they are. */
  lemma {:induction false} MergedUnchanged(ms: seq<ConverseMessage>)
    requires NoAdjacentRepeats(ms)
    ensures Merged(ms) == ms
  {
    if ms != [] {
      var init, m := ms[..|ms| - 1], ms[|ms| - 1];
      MergedUnchanged(init);
      assert init != [] ==> init[|init| - 1].role != m.role;
      assert MergeStep(init, m) == init + [m];
      assert ms == init + [m];
    }
  }

  /** Merging twice is merging once. */
  lemma MergedIdempotent(ms: seq<ConverseMessage>)
    ensures Merged(Merged(ms)) == Merged(ms)
  {
    MergedProperties(ms);
    MergedUnchanged(Merged(ms));
  }

  lemma MergedPrefix(ms: seq<ConverseMessage>, i: nat)
    requires i < |ms|
    ensures Merged(ms[..i + 1]) == MergeStep(Merged(ms[..i]), ms[i])
  {
    assert ms[..i + 1][..i] == ms[..i];
  }

  /** One iteration: extend the last message when it has the same role, append the message otherwise. */
  method MergeMessage(postprocessed: seq<ConverseMessage>, message: ConverseMessage) returns (r: seq<ConverseMessage>)
    ensures r == MergeStep(postprocessed, message)
  {
    if postprocessed != [] && postprocessed[|postprocessed| - 1].role == message.role {
      var last := postprocessed[|postprocessed| - 1];
      r := postprocessed[..|postprocessed| - 1] + [ConverseMessage(last.role, last.content + message.content)];
    } else {
      r := postprocessed + [message];
    }
  }

  /** `__merge_common_role_msgs`: the loop that appends a message or extends the last one. */
  method MergeCommonRoleMsgs(messages: seq<ConverseMessage>) returns (postprocessed: seq<ConverseMessage>)
    ensures postprocessed == Merged(messages)
    ensures NoAdjacentRepeats(postprocessed) && |postprocessed| <= |messages|
    ensures Contents(postprocessed) == Contents(messages)
  {
    postprocessed := [];
    for i := 0 to |messages|
      invariant postprocessed == Merged(messages[..i])
    {
      MergedPrefix(messages, i);
      postprocessed := MergeMessage(postprocessed, messages[i]);
    }
    assert messages[..|messages|] == messages;
    MergedProperties(messages);
  }

  // ---------------------------------------------------------------------------
  // Converting chat messages

  /** The key whose absence fails the first assertion on a tool call, if any. */
  function MissingToolCallKey(call: ToolCall): Option<string>
  {
    if "toolUseId" !in call then Some("toolUseId")
    else if "input" !in call then Some("input")
    else if "name" !in call then Some("name")
    else None
  }

  /** The `toolUse` items for a message's tool calls, or the assertion that fails first. */
  function ToolUseBlocks(calls: seq<ToolCall>): (r: Result<seq<ContentBlock>, BedrockError>)
    ensures r.Ok? <==> forall i :: 0 <= i < |calls| ==> MissingToolCallKey(calls[i]).None?
    ensures r.Ok? ==> r.value == seq(|calls|, i requires 0 <= i < |calls| => ToolUseBlock(calls[i]))
    ensures r.Err? ==> exists i :: 0 <= i < |calls| && MissingToolCallKey(calls[i]).Some?
                                   && r.error == AssertionError(MissingToolCallKey(calls[i]).value)
                                   && forall j :: 0 <= j < i ==> MissingToolCallKey(calls[j]).None?
  {
    if calls == [] then Ok([])
    else match MissingToolCallKey(calls[0])
      case Some(k) => Err(AssertionError(k))
      case None =>
        match ToolUseBlocks(calls[1..])
        case Err(e) =>
          ghost var i :| 0 <= i < |calls[1..]| && MissingToolCallKey(calls[1..][i]).Some?
                         && e == AssertionError(MissingToolCallKey(calls[1..][i]).value)
                         && forall j :: 0 <= j < i ==> MissingToolCallKey(calls[1..][j]).None?;
          assert MissingToolCallKey(calls[i + 1]).Some?;
          Err(e)
        case Ok(rest) =>
          assert calls == [calls[0]] + calls[1..];
          Ok([ToolUseBlock(calls[0])] + rest)
  }

  /** A text item for a truthy content, nothing otherwise. */
  function TextItems(content: Option<string>): seq<ContentBlock>
  {
    if content.Some? && content.value != "" then [TextBlock(content.value)] else []
  }

  /**
   * One non-system message in the Converse format: a tool or function message
   * becomes a user message holding one `toolResult`; any other keeps its role
   * and holds its text (when non-empty) followed by one `toolUse` per tool call.
   */
  function ConvertMessage(m: ChatMessage): (r: Result<ConverseMessage, BedrockError>)
    requires m.role != SYSTEM
    ensures (m.role == FUNCTION || m.role == TOOL) ==>
              (r.Err? <==> m.additionalKwargs.toolCallId.None?)
              && (r.Err? ==> r.error == KeyError("tool_call_id"))
              && (r.Ok? ==> r.value.role == "user" && |r.value.content| == 1
                            && r.value.content[0].ToolResultBlock?
                            && r.value.content[0].toolUseId == m.additionalKwargs.toolCallId.value
                            && r.value.content[0].resultText == m.content
                            && (r.value.content[0].status.Some? <==>
                                  m.additionalKwargs.status.Some? && Truthy(m.additionalKwargs.status.value))
                            && (r.value.content[0].status.Some? ==>
                                  r.value.content[0].status == m.additionalKwargs.status))
    ensures !(m.role == FUNCTION || m.role == TOOL) && r.Ok? ==>
              r.value.role == RoleValue(m.role)
              && (m.content.Some? && m.content.value != "" ==>
                    |r.value.content| > 0 && r.value.content[0] == TextBlock(m.content.value))
              && (m.content.None? || m.content.value == "" ==>
                    |r.value.content| == 0 || !r.value.content[0].TextBlock?)
    ensures !(m.role == FUNCTION || m.role == TOOL) ==>
              var calls := if m.additionalKwargs.toolCalls.Some? then m.additionalKwargs.toolCalls.value else [];
              var t := |TextItems(m.content)|;
              && (r.Err? <==> exists i :: 0 <= i < |calls| && MissingToolCallKey(calls[i]).Some?)
              && (r.Ok? ==> |r.value.content| == t + |calls|
                            && forall i :: 0 <= i < |calls| ==> r.value.content[t + i] == ToolUseBlock(calls[i]))
  {
    if m.role == FUNCTION || m.role == TOOL then
      match m.additionalKwargs.toolCallId
      case None => Err(KeyError("tool_call_id"))
      case Some(id) =>
        var status := m.additionalKwargs.status;
        var kept := if status.Some? && Truthy(status.value) then status else None;
        Ok(ConverseMessage("user", [ToolResultBlock(id, m.content, kept)]))
    else
      var calls := if m.additionalKwargs.toolCalls.Some? then m.additionalKwargs.toolCalls.value else [];
      match ToolUseBlocks(calls)
      case Err(e) => Err(e)
      case Ok(uses) => Ok(ConverseMessage(RoleValue(m.role), TextItems(m.content) + uses))
  }

  /** What a system message adds to the prompt: its content and a newline (None + "\n" is a TypeError). */
  function SystemPart(m: ChatMessage): Result<string, BedrockError>
  {
    if m.content.None? then Err(TypeError) else Ok(m.content.value + "\n")
  }

  /** The error a message raises during the conversion, if any. */
  function MessageError(m: ChatMessage): Option<BedrockError>
  {
    if m.role == SYSTEM then (if SystemPart(m).Err? then Some(SystemPart(m).error) else None)
    else if ConvertMessage(m).Err? then Some(ConvertMessage(m).error)
    else None
  }

  /** The loop of `messages_to_converse_messages` before merging and stripping, message by message. */
  function ConvertAll(ms: seq<ChatMessage>): (r: Result<(seq<ConverseMessage>, string), BedrockError>)
    ensures r.Ok? ==> |r.value.0| <= |ms|
    ensures r.Err? ==> exists i :: 0 <= i < |ms| && MessageError(ms[i]) == Some(r.error)
  {
    if ms == [] then Ok(([], ""))
    else
      match ConvertAll(ms[..|ms| - 1])
      case Err(e) => Err(e)
      case Ok(acc) =>
        var m := ms[|ms| - 1];
        if m.role == SYSTEM then
          (match SystemPart(m)
           case Err(e) => Err(e)
           case Ok(p) => Ok((acc.0, acc.1 + p)))
        else
          (match ConvertMessage(m)
           case Err(e) => Err(e)
           case Ok(c) => Ok((acc.0 + [c], acc.1)))
  }

  /** `messages_to_converse_messages`: the merged Converse messages and the stripped system prompt. */
  function MessagesToConverse(ms: seq<ChatMessage>): (r: Result<(seq<ConverseMessage>, string), BedrockError>)
    ensures r.Ok? ==> NoAdjacentRepeats(r.value.0) && |r.value.0| <= |ms|
    ensures r.Err? ==> exists i :: 0 <= i < |ms| && MessageError(ms[i]) == Some(r.error)
  {
    match ConvertAll(ms)
    case Err(e) => Err(e)
    case Ok(acc) => MergedNoRepeats(acc.0); Ok((Merged(acc.0), Strip(acc.1)))
  }

  /** The system messages' contents, each followed by a newline, in order. */
  function SystemText(ms: seq<ChatMessage>): string
  {
    if ms == [] then ""
    else (if ms[0].role == SYSTEM && ms[0].content.Some? then ms[0].content.value + "\n" else "") + SystemText(ms[1..])
  }

  /** The chat messages that are not system messages, in order. */
  function NonSystem(ms: seq<ChatMessage>): (r: seq<ChatMessage>)
    ensures forall i :: 0 <= i < |r| ==> r[i].role != SYSTEM
  {
    if ms == [] then [] else (if ms[0].role != SYSTEM then [ms[0]] else []) + NonSystem(ms[1..])
  }

  lemma {:induction false} SystemTextSnoc(ms: seq<ChatMessage>, m: ChatMessage)
    ensures SystemText(ms + [m]) == SystemText(ms) + (if m.role == SYSTEM && m.content.Some? then m.content.value + "\n" else "")
    ensures NonSystem(ms + [m]) == NonSystem(ms) + (if m.role != SYSTEM then [m] else [])
  {
    if ms != [] {
      assert (ms + [m])[1..] == ms[1..] + [m];
      SystemTextSnoc(ms[1..], m);
    }
  }

  /** What the conversion of `ms + [m]` is, given that of `ms`. */
  lemma ConvertAllSnoc(ms: seq<ChatMessage>, m: ChatMessage)
    requires ConvertAll(ms).Ok?
    ensures ConvertAll(ms + [m]) ==
              if m.role == SYSTEM then
                (if SystemPart(m).Err? then Err(SystemPart(m).error)
                 else Ok((ConvertAll(ms).value.0, ConvertAll(ms).value.1 + SystemPart(m).value)))
              else
                (if ConvertMessage(m).Err? then Err(ConvertMessage(m).error)
                 else Ok((ConvertAll(ms).value.0 + [ConvertMessage(m).value], ConvertAll(ms).value.1)))
  {
    assert (ms + [m])[..|ms|] == ms;
  }

  /**
   * When the conversion succeeds, the prompt is the system messages' text and
   * the messages are the other messages converted one for one, in order.
   */
  lemma {:induction false} ConvertAllMeaning(ms: seq<ChatMessage>)
    requires ConvertAll(ms).Ok?
    ensures ConvertAll(ms).value.1 == SystemText(ms)
    ensures var ns := NonSystem(ms);
            |ConvertAll(ms).value.0| == |ns|
            && forall i :: 0 <= i < |ns| ==> ConvertMessage(ns[i]) == Ok(ConvertAll(ms).value.0[i])
  {
    if ms != [] {
      var init, m := ms[..|ms| - 1], ms[|ms| - 1];
      assert ms == init + [m];
      assert ConvertAll(init).Ok?;
      ConvertAllMeaning(init);
      ConvertAllSnoc(init, m);
      SystemTextSnoc(init, m);
      var acc, ns := ConvertAll(init).value, NonSystem(init);
      if m.role != SYSTEM {
        var cs := acc.0 + [ConvertMessage(m).value];
        assert ConvertAll(ms).value.0 == cs && NonSystem(ms) == ns + [m];
        forall i | 0 <= i < |ns| + 1
          ensures ConvertMessage((ns + [m])[i]) == Ok(cs[i])
        {
          if i < |ns| { assert (ns + [m])[i] == ns[i] && cs[i] == acc.0[i]; }
        }
      }
    }
  }

  /**
   * The conversion fails exactly when some message fails, and then with the
   * error of the first message that fails.
   */
  lemma {:induction false} ConvertAllError(ms: seq<ChatMessage>)
    ensures ConvertAll(ms).Err? <==> exists i :: 0 <= i < |ms| && MessageError(ms[i]).Some?
    ensures ConvertAll(ms).Err? ==>
              exists i :: 0 <= i < |ms| && MessageError(ms[i]) == Some(ConvertAll(ms).error)
                          && forall j :: 0 <= j < i ==> MessageError(ms[j]).None?
  {
    if ms != [] {
      var init, m := ms[..|ms| - 1], ms[|ms| - 1];
      ConvertAllError(init);
      assert forall i :: 0 <= i < |init| ==> ms[i] == init[i];
      if ConvertAll(init).Ok? && MessageError(m).None? {
        assert forall i :: 0 <= i < |ms| ==> MessageError(ms[i]).None? by {
          forall i | 0 <= i < |ms| ensures MessageError(ms[i]).None? {
            if i < |init| { assert ms[i] == init[i]; }
          }
        }
      }
    }
  }

  /**
   * The system prompt is the stripped concatenation of the system contents,
   * each followed by a newline, and the Converse messages alternate roles.
   */
  lemma SystemPrompt(ms: seq<ChatMessage>)
    requires MessagesToConverse(ms).Ok?
    ensures MessagesToConverse(ms).value.1 == Strip(SystemText(ms))
    ensures NoAdjacentRepeats(MessagesToConverse(ms).value.0)
  {
    ConvertAllMeaning(ms);
    MergedProperties(ConvertAll(ms).value.0);
  }

  /** No Converse message carries the system role: system messages only feed the prompt. */
  lemma NoSystemMessages(ms: seq<ChatMessage>)
    requires MessagesToConverse(ms).Ok?
    ensures forall c :: c in MessagesToConverse(ms).value.0 ==> c.role != "system"
  {
    var converted, ns := ConvertAll(ms).value.0, NonSystem(ms);
    ConvertAllMeaning(ms);
    forall c | c in converted ensures c.role != "system" {
      var i :| 0 <= i < |converted| && converted[i] == c;
      ConvertedRole(ns[i], c);
    }
    MergedRolesFrom(converted);
    assert MessagesToConverse(ms).value.0 == Merged(converted);
  }

  lemma ConvertedRole(m: ChatMessage, c: ConverseMessage)
    requires m.role != SYSTEM && ConvertMessage(m) == Ok(c)
    ensures c.role != "system"
  {
  }

  lemma MergedRolesFrom(ms: seq<ConverseMessage>)
    ensures forall c :: c in Merged(ms) ==> exists d :: d in ms && d.role == c.role
  {
    MergedProperties(ms);
    DedupElements(Roles(ms));
    forall c | c in Merged(ms) ensures exists d :: d in ms && d.role == c.role {
      var i :| 0 <= i < |Merged(ms)| && Merged(ms)[i] == c;
      RolesAt(Merged(ms), i);
      assert c.role in Roles(ms);
      var j :| 0 <= j < |ms| && Roles(ms)[j] == c.role;
      RolesAt(ms, j);
      assert ms[j] in ms;
    }
  }

  lemma {:induction false} DedupElements(rs: seq<string>)
    ensures forall x :: x in Dedup(rs) ==> x in rs
  {
    if rs != [] {
      DedupElements(rs[..|rs| - 1]);
    }
  }

  /** Once a prefix of the messages fails, the whole conversion fails the same way. */
  lemma {:induction false} ConvertAllErrorSticks(ms: seq<ChatMessage>, n: nat)
    requires n <= |ms| && ConvertAll(ms[..n]).Err?
    ensures ConvertAll(ms) == ConvertAll(ms[..n])
    decreases |ms| - n
  {
    if n < |ms| {
      assert ms[..n + 1][..n] == ms[..n];
      ConvertAllErrorSticks(ms, n + 1);
    } else {
      assert ms[..n] == ms;
    }
  }

  /** The tool-call loop of `messages_to_converse_messages`. */
  method ConvertToolCalls(toolCalls: seq<ToolCall>) returns (r: Result<seq<ContentBlock>, BedrockError>)
    ensures r == ToolUseBlocks(toolCalls)
  {
    var content: seq<ContentBlock> := [];
    for i := 0 to |toolCalls|
      invariant forall j :: 0 <= j < i ==> MissingToolCallKey(toolCalls[j]).None?
      invariant content == seq(i, j requires 0 <= j < i => ToolUseBlock(toolCalls[j]))
    {
      var missing := MissingToolCallKey(toolCalls[i]);
      if missing.Some? {
        return Err(AssertionError(missing.value));
      }
      content := content + [ToolUseBlock(toolCalls[i])];
    }
    r := Ok(content);
  }

  /** `messages_to_converse_messages`. */
  method MessagesToConverseMessages(messages: seq<ChatMessage>)
    returns (r: Result<(seq<ConverseMessage>, string), BedrockError>)
    ensures r == MessagesToConverse(messages)
  {
    var converse: seq<ConverseMessage> := [];
    var systemPrompt := "";
    for i := 0 to |messages|
      invariant ConvertAll(messages[..i]) == Ok((converse, systemPrompt))
    {
      var message := messages[i];
      assert messages[..i + 1][..i] == messages[..i];
      if message.role == SYSTEM {
        if message.content.None? {
          ConvertAllErrorSticks(messages, i + 1);
          return Err(TypeError);
        }
        systemPrompt := systemPrompt + (message.content.value + "\n");
      } else if message.role == FUNCTION || message.role == TOOL {
        if message.additionalKwargs.toolCallId.None? {
          ConvertAllErrorSticks(messages, i + 1);
          return Err(KeyError("tool_call_id"));
        }
        var status := message.additionalKwargs.status;
        var kept := if status.Some? && Truthy(status.value) then status else None;
        var content := [ToolResultBlock(message.additionalKwargs.toolCallId.value, message.content, kept)];
        converse := converse + [ConverseMessage("user", content)];
      } else {
        var content := TextItems(message.content);
        var calls := if message.additionalKwargs.toolCalls.Some? then message.additionalKwargs.toolCalls.value else [];
        var uses := ConvertToolCalls(calls);
        if uses.Err? {
          ConvertAllErrorSticks(messages, i + 1);
          return Err(uses.error);
        }
        converse := converse + [ConverseMessage(RoleValue(message.role), content + uses.value)];
      }
    }
    assert messages[..|messages|] == messages;
    var merged := MergeCommonRoleMsgs(converse);
    r := Ok((merged, Strip(systemPrompt)));
  }
}
