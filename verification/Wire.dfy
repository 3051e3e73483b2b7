/** The vocabulary shared by the two stream translators: the Responses events
    one produces and the other consumes, and the Anthropic events a Messages
    client receives. JSON payloads are represented by the fields the code reads. */
module Wire {
  import opened Optional

  // ---------------------------------------------------------------- Responses

  datatype Part =
    | OutputText(text: string)
    | RefusalPart(refusal: string)
    | OtherPart

  /** An output item. `MessageItem.text` is the top-level text field that some
      upstreams put beside the content parts. */
  datatype Item =
    | ReasoningItem(id: string, content: string)
    | MessageItem(id: string, parts: seq<Part>, text: string)
    | FunctionCall(id: string, callID: string, name: string, arguments: string)
    | OtherItem

  /** Token counters as they appear on the wire, each of them optional. */
  datatype TokenDetails = TokenDetails(cached: Option<int>, cacheWrite: Option<int>)
  datatype TokenUsage = TokenUsage(input: Option<int>, output: Option<int>, details: Option<TokenDetails>)

  datatype Response = Response(
    status: string,
    output: seq<Item>,
    usage: Option<TokenUsage>,
    incompleteReason: Option<string>)

  /** One constructor per event name the translators distinguish. An absent
      output index is `None`; an absent string field is the empty string. */
  datatype Body =
    | Created(response: Response)
    | ItemAdded(outputIndex: Option<int>, item: Item)
    | PartAdded(itemID: string, outputIndex: Option<int>, part: Part)
    | TextDelta(itemID: string, outputIndex: Option<int>, delta: string)
    | TextDone(itemID: string, outputIndex: Option<int>, text: string)
    | RefusalDelta(itemID: string, outputIndex: Option<int>, delta: string)
    | RefusalDone(itemID: string, outputIndex: Option<int>, refusal: string)
    | PartDone(itemID: string, outputIndex: Option<int>, part: Part)
    | ReasoningDelta(itemID: string, outputIndex: Option<int>, delta: string)
    | ReasoningDone(itemID: string, outputIndex: Option<int>, text: string)
    | ArgumentsDelta(itemID: string, outputIndex: Option<int>, delta: string)
    | ArgumentsDone(itemID: string, outputIndex: Option<int>, arguments: string)
    | ItemDone(outputIndex: Option<int>, item: Item)
    | Completed(response: Response)
    | Incomplete(response: Response)
    | Failed
    | ErrorBody
    | Unrecognised
    | Malformed

  /** A Responses stream event with its sequence number and the usage object
      that may sit at the top level of the payload. */
  datatype Event = Event(number: int, usage: Option<TokenUsage>, body: Body)

  // ------------------------------------------------------------------ Messages

  datatype BlockKind =
    | TextBlock
    | ToolUse(id: string, name: string)

  datatype Fragment =
    | TextFragment(text: string)
    | JsonFragment(json: string)

  /** Counters of the closing message_delta; `None` means the field is omitted. */
  datatype Counters = Counters(
    input: Option<int>,
    output: Option<int>,
    cacheCreation: Option<int>,
    cacheRead: Option<int>)

  datatype ClientEvent =
    | MessageStart
    | BlockStart(index: nat, kind: BlockKind)
    | BlockDelta(index: nat, fragment: Fragment)
    | BlockStop(index: nat)
    | MessageDelta(stopReason: string, counters: Counters)
    | MessageStop
    | StreamError(message: string)
    | Ping

  /** The events after which the stream is over. */
  predicate IsTerminal(event: ClientEvent) {
    event.MessageStop? || event.StreamError?
  }
}
