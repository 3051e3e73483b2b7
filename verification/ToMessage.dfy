/** The non-streaming mapping from a Responses result to an Anthropic message. */
module ToMessage {
  import opened Optional
  import opened Wire
  import Bridge

  datatype Content =
    | TextContent(text: string)
    | ToolUseContent(id: string, name: string, input: string)

  datatype MessageUsage = MessageUsage(input: int, output: int, cacheCreation: int, cacheRead: int)

  datatype Message = Message(content: seq<Content>, stopReason: string, usage: MessageUsage)

  datatype Result<+T> = Ok(value: T) | Err(message: string)

  const FAILED := "upstream response failed"
  const INCOMPLETE := "upstream response incomplete"
  const NOT_COMPLETE := "upstream response is not complete"
  const INVALID_ARGUMENTS := "invalid upstream function arguments"

  /** What has been collected from a prefix of the output items. */
  datatype Mapped = Mapped(content: seq<Content>, tools: nat, refusal: bool)

  function TextIf(text: string): seq<Content> {
    if text == "" then [] else [TextContent(text)]
  }

  function PartContent(part: Part): seq<Content> {
    match part
    case OutputText(text) => TextIf(text)
    case RefusalPart(refusal) => TextIf(refusal)
    case OtherPart => []
  }

  function PartsContent(parts: seq<Part>): seq<Content> {
    if parts == [] then [] else PartsContent(parts[..|parts| - 1]) + PartContent(parts[|parts| - 1])
  }

  predicate AnyRefusal(parts: seq<Part>) {
    exists i | 0 <= i < |parts| :: parts[i].RefusalPart?
  }

  /** The id a tool block gets: the call id, else the item id, else a new one. */
  function BlockID(call: Item, n: nat): string
    requires call.FunctionCall?
  {
    if call.callID != "" then call.callID else if call.id != "" then call.id else Bridge.FreshID("toolu_", n)
  }

  function MapItem(valid: string -> bool, mapped: Mapped, item: Item, n: nat): Result<Mapped> {
    match item
    case MessageItem(_, parts, text) =>
      Ok(mapped.(content := mapped.content + PartsContent(parts) + TextIf(text), refusal := mapped.refusal || AnyRefusal(parts)))
    case FunctionCall(_, _, name, arguments) =>
      if arguments != "" && !valid(arguments) then Err(INVALID_ARGUMENTS)
      else
        Ok(mapped.(content := mapped.content + [ToolUseContent(BlockID(item, n), name, if arguments == "" then "{}" else arguments)],
                   tools := mapped.tools + 1))
    case _ => Ok(mapped)
  }

  function MapItems(valid: string -> bool, items: seq<Item>): Result<Mapped> {
    if items == [] then Ok(Mapped([], 0, false))
    else
      var front := MapItems(valid, items[..|items| - 1]);
      if front.Err? then front else MapItem(valid, front.value, items[|items| - 1], |items| - 1)
  }

  /** The reason a response cannot be mapped at all, if there is one. */
  function StatusError(response: Response): Option<string> {
    if response.status == "failed" || response.status == "cancelled" then Some(FAILED)
    else if response.status == "incomplete" && response.incompleteReason != Some("max_output_tokens") then Some(INCOMPLETE)
    else if response.status != "" && response.status != "completed" && response.status != "incomplete" then Some(NOT_COMPLETE)
    else None
  }

  function StopReason(response: Response, mapped: Mapped): string {
    if response.incompleteReason == Some("max_output_tokens") then "max_tokens"
    else if mapped.tools > 0 then "tool_use"
    else if mapped.refusal then "refusal"
    else "end_turn"
  }

  function OrZero(o: Option<int>): int {
    if o.Some? then o.value else 0
  }

  function MapUsage(response: Response): MessageUsage {
    if response.usage.None? then MessageUsage(0, 0, 0, 0)
    else
      var usage := response.usage.value;
      if usage.details.None? then MessageUsage(OrZero(usage.input), OrZero(usage.output), 0, 0)
      else
        var cached, written := OrZero(usage.details.value.cached), OrZero(usage.details.value.cacheWrite);
        var input := OrZero(usage.input) - (cached + written);
        MessageUsage(if input < 0 then 0 else input, OrZero(usage.output), written, cached)
  }

  function Convert(valid: string -> bool, response: Response): Result<Message> {
    if StatusError(response).Some? then Err(StatusError(response).value)
    else
      var mapped := MapItems(valid, response.output);
      if mapped.Err? then Err(mapped.message)
      else Ok(Message(mapped.value.content, StopReason(response, mapped.value), MapUsage(response)))
  }

  /** The inner loop over one message's content parts. */
  method AppendParts(before: seq<Content>, refused: bool, parts: seq<Part>) returns (content: seq<Content>, refusal: bool)
    ensures content == before + PartsContent(parts)
    ensures refusal == (refused || AnyRefusal(parts))
  {
    content := before;
    refusal := refused;
    for j := 0 to |parts|
      invariant content == before + PartsContent(parts[..j])
      invariant refusal == (refused || AnyRefusal(parts[..j]))
    {
      assert parts[..j + 1][..j] == parts[..j];
      RefusalGrows(parts, j);
      match parts[j]
      case OutputText(t) =>
        if t != "" { content := content + [TextContent(t)]; }
      case RefusalPart(r) =>
        refusal := true;
        if r != "" { content := content + [TextContent(r)]; }
      case OtherPart =>
    }
    assert parts[..|parts|] == parts;
  }

  /** The conversion as the loop the gateway runs, accumulating content, the
      number of tools and whether a refusal was seen. */
  method ConvertResponse(valid: string -> bool, response: Response) returns (result: Result<Message>)
    ensures result == Convert(valid, response)
  {
    var problem := StatusError(response);
    if problem.Some? {
      return Err(problem.value);
    }
    var content: seq<Content> := [];
    var toolCount: nat := 0;
    var refusal := false;
    for i := 0 to |response.output|
      invariant MapItems(valid, response.output[..i]) == Ok(Mapped(content, toolCount, refusal))
    {
      var item := response.output[i];
      assert response.output[..i + 1][..i] == response.output[..i];
      match item
      case MessageItem(_, parts, text) =>
        content, refusal := AppendParts(content, refusal, parts);
        if text != "" {
          content := content + [TextContent(text)];
        } else {
          assert content + TextIf(text) == content;
        }
      case FunctionCall(_, _, name, arguments) =>
        if arguments != "" && !valid(arguments) {
          MapItemsStop(valid, response.output, i + 1);
          return Err(INVALID_ARGUMENTS);
        }
        content := content + [ToolUseContent(BlockID(item, i), name, if arguments == "" then "{}" else arguments)];
        toolCount := toolCount + 1;
      case _ =>
    }
    assert response.output[..|response.output|] == response.output;
    var stop := StopReason(response, Mapped(content, toolCount, refusal));
    result := Ok(Message(content, stop, MapUsage(response)));
  }

  lemma RefusalGrows(parts: seq<Part>, j: nat)
    requires j < |parts|
    ensures AnyRefusal(parts[..j + 1]) <==> AnyRefusal(parts[..j]) || parts[j].RefusalPart?
  {
    if AnyRefusal(parts[..j]) {
      var i :| 0 <= i < j && parts[..j][i].RefusalPart?;
      assert parts[..j + 1][i].RefusalPart?;
    }
    if parts[j].RefusalPart? {
      assert parts[..j + 1][j].RefusalPart?;
    }
  }

  lemma {:induction false} MapItemsStop(valid: string -> bool, items: seq<Item>, n: nat)
    requires n <= |items| && MapItems(valid, items[..n]).Err?
    ensures MapItems(valid, items) == MapItems(valid, items[..n])
    decreases |items| - n
  {
    if n < |items| {
      assert items[..n + 1][..n] == items[..n];
      MapItemsStop(valid, items, n + 1);
    } else {
      assert items[..n] == items;
    }
  }
}
