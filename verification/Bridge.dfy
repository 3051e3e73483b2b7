/** The Chat-Completions-to-Responses bridge as a fold over the pieces of its
    chunks. The log is everything ever queued, in order; an event's sequence
    number is its position there. Output items are slots in the order they were
    opened. */
module Bridge {
  import opened Optional
  import opened Wire

  // ------------------------------------------------------------------- chunks

  datatype ChatUsage = ChatUsage(prompt: int, completion: int, total: int, cached: int, cacheWrite: int)

  datatype CallDelta = CallDelta(index: int, id: string, name: string, arguments: string)

  datatype Choice = Choice(
    index: int,
    content: string,
    refusal: string,
    reasoning: string,
    calls: seq<CallDelta>,
    finish: string)

  datatype Chunk = Chunk(usage: ChatUsage, choices: seq<Choice>)

  /** What a chunk says, in the order the bridge acts on it. */
  datatype Piece =
    | Usage(usage: ChatUsage)
    | Text(delta: string)
    | Refusal(delta: string)
    | Reasoning(delta: string)
    | CallPart(call: CallDelta)
    | Finish(reason: string)

  function CallPieces(calls: seq<CallDelta>): seq<Piece> {
    seq(|calls|, i requires 0 <= i < |calls| => CallPart(calls[i]))
  }

  function ChoicePieces(choice: Choice): seq<Piece> {
    if choice.index != 0 then []
    else [Text(choice.content), Refusal(choice.refusal), Reasoning(choice.reasoning)] +
         CallPieces(choice.calls) + [Finish(choice.finish)]
  }

  function ChoicesPieces(choices: seq<Choice>): seq<Piece> {
    if choices == [] then []
    else ChoicesPieces(choices[..|choices| - 1]) + ChoicePieces(choices[|choices| - 1])
  }

  function ChunkPieces(chunk: Chunk): seq<Piece> {
    [Usage(chunk.usage)] + ChoicesPieces(chunk.choices)
  }

  function Pieces(chunks: seq<Chunk>): seq<Piece> {
    if chunks == [] then []
    else Pieces(chunks[..|chunks| - 1]) + ChunkPieces(chunks[|chunks| - 1])
  }

  // -------------------------------------------------------------------- state

  /** One tool call; `at` is its output slot once it has started. The two opened
      fields remember the identity announced when it started. */
  datatype Call = Call(
    callID: string,
    name: string,
    arguments: string,
    at: Option<nat>,
    openedID: string,
    openedName: string)

  datatype Slot =
    | ReasoningSlot
    | TextSlot
    | RefusalSlot
    | CallSlot(call: int)

  datatype State = State(
    expose: bool,
    finish: string,
    text: string,
    refusal: string,
    reasoning: string,
    reasoningClosed: bool,
    reasoningAt: Option<nat>,
    textAt: Option<nat>,
    refusalAt: Option<nat>,
    slots: seq<Slot>,
    calls: map<int, Call>,
    usage: Option<ChatUsage>,
    log: seq<Event>)

  /** Item identifiers come from the n-th generated UUID; each opened item draws
      one, so `n` is the item's output index. */
  function FreshID(prefix: string, n: nat): string {
    prefix + seq(n, _ => '0')
  }

  lemma FreshIDInjective(prefix: string, m: nat, n: nat)
    requires FreshID(prefix, m) == FreshID(prefix, n)
    ensures m == n
  {
    assert |FreshID(prefix, m)| == |prefix| + m;
    assert |FreshID(prefix, n)| == |prefix| + n;
  }

  function ReasoningID(n: nat): string { FreshID("rs_", n) }

  function MessageID(n: nat): string { FreshID("msg_", n) }

  function CallItemID(n: nat): string { FreshID("fc_", n) }

  function Enqueue(s: State, body: Body): State {
    s.(log := s.log + [Event(|s.log|, None, body)])
  }

  function ResponseUsage(s: State): Option<TokenUsage> {
    match s.usage
    case None => None
    case Some(u) =>
      Some(TokenUsage(Some(u.prompt), Some(u.completion), Some(TokenDetails(Some(u.cached), Some(u.cacheWrite)))))
  }

  function Begin(expose: bool): State {
    Enqueue(State(expose, "", "", "", "", false, None, None, None, [], map[], None, []),
            Created(Response("in_progress", [], None, None)))
  }

  // --------------------------------------------------------------- operations

  function CloseReasoning(s: State): State {
    if s.reasoningAt.None? || s.reasoningClosed then s
    else
      var n := s.reasoningAt.value;
      Enqueue(Enqueue(s.(reasoningClosed := true), ReasoningDone(ReasoningID(n), Some(n), s.reasoning)),
              ItemDone(Some(n), ReasoningItem(ReasoningID(n), s.reasoning)))
  }

  function OpenReasoning(s: State): State {
    var n := |s.slots|;
    Enqueue(s.(reasoningAt := Some(n), slots := s.slots + [ReasoningSlot]),
            ItemAdded(Some(n), ReasoningItem(ReasoningID(n), "")))
  }

  function AddReasoning(s: State, delta: string): State {
    if delta == "" then s
    else
      var noted := s.(reasoning := s.reasoning + delta);
      if !s.expose || s.reasoningClosed then noted
      else
        var open := if s.reasoningAt.None? then OpenReasoning(noted) else noted;
        Enqueue(open, ReasoningDelta(ReasoningID(open.reasoningAt.value), open.reasoningAt, delta))
  }

  function OpenText(s: State): State {
    var n := |s.slots|;
    Enqueue(Enqueue(s.(textAt := Some(n), slots := s.slots + [TextSlot]),
                    ItemAdded(Some(n), MessageItem(MessageID(n), [], ""))),
            PartAdded(MessageID(n), Some(n), OutputText("")))
  }

  function AddText(s: State, delta: string): State {
    if delta == "" then s
    else
      var open := if s.textAt.None? then OpenText(CloseReasoning(s)) else s;
      Enqueue(open.(text := open.text + delta), TextDelta(MessageID(open.textAt.value), open.textAt, delta))
  }

  function OpenRefusal(s: State): State {
    var n := |s.slots|;
    Enqueue(Enqueue(s.(refusalAt := Some(n), slots := s.slots + [RefusalSlot]),
                    ItemAdded(Some(n), MessageItem(MessageID(n), [], ""))),
            PartAdded(MessageID(n), Some(n), RefusalPart("")))
  }

  function AddRefusal(s: State, delta: string): State {
    if delta == "" then s
    else
      var open := if s.refusalAt.None? then OpenRefusal(CloseReasoning(s)) else s;
      Enqueue(open.(refusal := open.refusal + delta), RefusalDelta(MessageID(open.refusalAt.value), open.refusalAt, delta))
  }

  function Merge(s: State, delta: CallDelta): Call {
    var call := if delta.index in s.calls then s.calls[delta.index] else Call("", "", "", None, "", "");
    call.(callID := if delta.id != "" then delta.id else call.callID,
          name := call.name + delta.name,
          arguments := call.arguments + delta.arguments)
  }

  function OpenCall(s: State, index: int, merged: Call): State {
    var n := |s.slots|;
    var open := merged.(at := Some(n), openedID := merged.callID, openedName := merged.name);
    Enqueue(s.(slots := s.slots + [CallSlot(index)], calls := s.calls[index := open]),
            ItemAdded(Some(n), FunctionCall(CallItemID(n), merged.callID, merged.name, "")))
  }

  function AddCall(s: State, delta: CallDelta): State {
    var merged := Merge(s, delta);
    if merged.at.Some? then
      var noted := s.(calls := s.calls[delta.index := merged]);
      if delta.arguments == "" then noted
      else Enqueue(noted, ArgumentsDelta(CallItemID(merged.at.value), merged.at, delta.arguments))
    else if merged.callID != "" && merged.name != "" then
      var n := |CloseReasoning(s).slots|;
      var open := OpenCall(CloseReasoning(s), delta.index, merged);
      if merged.arguments == "" then open
      else Enqueue(open, ArgumentsDelta(CallItemID(n), Some(n), merged.arguments))
    else s.(calls := s.calls[delta.index := merged])
  }

  function CaptureUsage(s: State, usage: ChatUsage): State {
    if usage.prompt == 0 && usage.completion == 0 && usage.total == 0 then s
    else s.(usage := Some(usage))
  }

  function Step(s: State, piece: Piece): State {
    match piece
    case Usage(usage) => CaptureUsage(s, usage)
    case Text(delta) => AddText(s, delta)
    case Refusal(delta) => AddRefusal(s, delta)
    case Reasoning(delta) => AddReasoning(s, delta)
    case CallPart(call) => AddCall(s, call)
    case Finish(reason) => if reason == "" then s else s.(finish := reason)
  }

  function Run(expose: bool, pieces: seq<Piece>): State {
    if pieces == [] then Begin(expose)
    else Step(Run(expose, pieces[..|pieces| - 1]), pieces[|pieces| - 1])
  }

  // ---------------------------------------------------------------- the end

  function FinalArguments(call: Call): string {
    if call.arguments == "" then "{}" else call.arguments
  }

  function FinalCall(call: Call, n: nat): Item {
    FunctionCall(CallItemID(n), call.callID, call.name, FinalArguments(call))
  }

  function FinishText(s: State): State {
    match s.textAt
    case None => s
    case Some(n) =>
      Enqueue(Enqueue(Enqueue(s,
        TextDone(MessageID(n), Some(n), s.text)),
        PartDone(MessageID(n), Some(n), OutputText(s.text))),
        ItemDone(Some(n), MessageItem(MessageID(n), [OutputText(s.text)], "")))
  }

  function FinishRefusal(s: State): State {
    match s.refusalAt
    case None => s
    case Some(n) =>
      Enqueue(Enqueue(Enqueue(s,
        RefusalDone(MessageID(n), Some(n), s.refusal)),
        PartDone(MessageID(n), Some(n), RefusalPart(s.refusal))),
        ItemDone(Some(n), MessageItem(MessageID(n), [RefusalPart(s.refusal)], "")))
  }

  function FinishCall(s: State, call: Call, n: nat): State {
    Enqueue(Enqueue(s, ArgumentsDone(CallItemID(n), Some(n), FinalArguments(call))),
            ItemDone(Some(n), FinalCall(call, n)))
  }

  /** The done events of the calls in the first `n` slots, in slot order. */
  function FinishCalls(s: State, n: nat): State
    requires n <= |s.slots|
    ensures FinishCalls(s, n).(log := s.log) == s
  {
    if n == 0 then s
    else
      var before := FinishCalls(s, n - 1);
      var slot := s.slots[n - 1];
      if slot.CallSlot? && slot.call in s.calls then FinishCall(before, s.calls[slot.call], n - 1) else before
  }

  function FinishItems(s: State): State {
    var texts := FinishRefusal(FinishText(CloseReasoning(s)));
    FinishCalls(texts, |texts.slots|)
  }

  /** Every call that appeared was given an id and a name. */
  predicate CallsStarted(s: State) {
    forall index | index in s.calls :: s.calls[index].at.Some?
  }

  function SlotItem(s: State, n: nat): Item
    requires n < |s.slots|
  {
    match s.slots[n]
    case ReasoningSlot => ReasoningItem(ReasoningID(n), s.reasoning)
    case TextSlot => MessageItem(MessageID(n), [OutputText(s.text)], "")
    case RefusalSlot => MessageItem(MessageID(n), [RefusalPart(s.refusal)], "")
    case CallSlot(index) => if index in s.calls then FinalCall(s.calls[index], n) else OtherItem
  }

  function Output(s: State): seq<Item> {
    seq(|s.slots|, n requires 0 <= n < |s.slots| => SlotItem(s, n))
  }

  function FinalResponse(s: State): Response {
    if s.finish == "length" then Response("incomplete", Output(s), ResponseUsage(s), Some("max_output_tokens"))
    else Response("completed", Output(s), ResponseUsage(s), None)
  }

  function FinalBody(s: State): Body {
    if s.finish == "length" then Incomplete(FinalResponse(s)) else Completed(FinalResponse(s))
  }

  /** The whole event stream of a run that ends without a transport error and
      with every call complete. */
  function Complete(s: State): seq<Event> {
    Enqueue(FinishItems(s), FinalBody(FinishItems(s))).log
  }

  /** What the iterator delivers up to its first false: a transport error or an
      incomplete call ends the stream after the chunk events, with none of the
      done events. */
  function Delivered(expose: bool, chunks: seq<Chunk>, transportError: bool): seq<Event> {
    var s := Run(expose, Pieces(chunks));
    if transportError || !CallsStarted(s) then s.log else Complete(s)
  }
}
