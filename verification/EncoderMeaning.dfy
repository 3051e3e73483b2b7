/** What a Messages client is left with, said from the upstream events alone. The
    reference below looks at the whole history each time and keeps no state: which
    calls were opened, what was addressed to each, where text was interrupted and
    how the stream ended. The encoder, with its arena, indexes, flags and finishing
    loop, gives the client exactly that, for every upstream event sequence. */
module EncoderMeaning {
  import opened Optional
  import opened Wire
  import opened Least
  import opened MessagesReader
  import E = Encoder
  import T = EncoderTrace
  import I = Interleaving

  // ------------------------------------------------------ what the history says

  datatype Opening = Opening(id: string, output: int, callID: string, name: string)

  /** An item added that is a function call. */
  predicate Calls(body: Body) {
    body.ItemAdded? && body.item.FunctionCall?
  }

  function OpeningOf(body: Body): Opening
    requires Calls(body)
  {
    Opening(body.item.id, if body.outputIndex.Some? then body.outputIndex.value else 0, body.item.callID, body.item.name)
  }

  /** The calls opened so far, in order. */
  function Openings(stream: seq<Event>): seq<Opening> {
    if stream == [] then []
    else
      var body := stream[|stream| - 1].body;
      Openings(stream[..|stream| - 1]) + if Calls(body) then [OpeningOf(body)] else []
  }

  /** The event that ends a call's arguments, under either of its two names. */
  predicate Ends(body: Body, id: string, at: int) {
    match body
    case ArgumentsDone(itemID, output, _) => I.Names(itemID, output, id, at)
    case ItemDone(output, FunctionCall(itemID, _, _, _)) => I.Names(itemID, output, id, at)
    case _ => false
  }

  /** The final arguments such an event carries. */
  function FinalOf(body: Body): string {
    match body
    case ArgumentsDone(_, _, arguments) => arguments
    case ItemDone(_, FunctionCall(_, _, _, arguments)) => arguments
    case _ => ""
  }

  predicate Ended(stream: seq<Event>, id: string, at: int) {
    stream != [] && (Ended(stream[..|stream| - 1], id, at) || Ends(stream[|stream| - 1].body, id, at))
  }

  /** The first non-empty final arguments sent for a call. */
  function Final(stream: seq<Event>, id: string, at: int): string {
    if stream == [] then ""
    else
      var first := Final(stream[..|stream| - 1], id, at);
      var body := stream[|stream| - 1].body;
      if first == "" && Ends(body, id, at) then FinalOf(body) else first
  }

  /** What was sent for a call: its fragments if there were any, else the first
      non-empty final arguments, else an empty object once it was ended. */
  function Content(stream: seq<Event>, id: string, at: int): string {
    if I.Own(stream, id, at) != "" then I.Own(stream, id, at)
    else if Final(stream, id, at) != "" then Final(stream, id, at)
    else if Ended(stream, id, at) then "{}"
    else ""
  }

  function Settle(arguments: string): string {
    if arguments == "" then "{}" else arguments
  }

  /** The refused text: all refusal fragments, or a whole refusal sent at once. */
  function Refused(stream: seq<Event>): string {
    if stream == [] then ""
    else
      var before := Refused(stream[..|stream| - 1]);
      match stream[|stream| - 1].body
      case RefusalDelta(_, _, delta) => before + delta
      case RefusalDone(_, _, refusal) => if before == "" then refusal else before
      case _ => before
  }

  /** Why the answer stops: what the last refusal or opened call says. */
  function Reason(stream: seq<Event>): string {
    if stream == [] then "end_turn"
    else
      match stream[|stream| - 1].body
      case RefusalDelta(_, _, _) => "refusal"
      case RefusalDone(_, _, _) => "refusal"
      case ItemAdded(_, FunctionCall(_, _, _, _)) => "tool_use"
      case _ => Reason(stream[..|stream| - 1])
  }

  /** The visible text an event adds. */
  function Said(before: seq<Event>, body: Body): string {
    match body
    case TextDelta(_, _, delta) => delta
    case RefusalDelta(_, _, delta) => delta
    case RefusalDone(_, _, refusal) => if Refused(before) == "" then refusal else ""
    case _ => ""
  }

  /** After these, further text starts a new block. */
  predicate Interrupts(body: Body) {
    body.TextDone? || body.PartDone? || body.RefusalDone? || Calls(body)
  }

  datatype Entry =
    | Words(text: string)
    | Call(opening: Opening)

  /** The answer as runs of text and calls in the order they began. */
  datatype Script = Script(entries: seq<Entry>, talking: bool)

  predicate Sane(t: Script) {
    t.talking ==> t.entries != [] && t.entries[|t.entries| - 1].Words?
  }

  function Speak(t: Script, said: string): (next: Script)
    requires Sane(t)
    ensures Sane(next)
  {
    var last := |t.entries| - 1;
    if said == "" then t
    else if t.talking then t.(entries := t.entries[last := Words(t.entries[last].text + said)])
    else Script(t.entries + [Words(said)], true)
  }

  function Told(stream: seq<Event>): (t: Script)
    ensures Sane(t)
  {
    if stream == [] then Script([], false)
    else
      var front, body := stream[..|stream| - 1], stream[|stream| - 1].body;
      var before := Told(front);
      if Said(front, body) != "" then Speak(before, Said(front, body))
      else if Calls(body) then Script(before.entries + [Call(OpeningOf(body))], false)
      else if Interrupts(body) then before.(talking := false)
      else before
  }

  // ------------------------------------------------------------ the client's view

  function Shown(stream: seq<Event>, entry: Entry, talking: bool): Block {
    match entry
    case Words(text) => Block(TextBlock, text, talking)
    case Call(o) => Block(ToolUse(o.callID, o.name), Content(stream, o.id, o.output), !Ended(stream, o.id, o.output))
  }

  /** The blocks while the stream goes on. */
  ghost predicate Blocks(stream: seq<Event>, blocks: seq<Block>) {
    var t := Told(stream);
    && |blocks| == |t.entries|
    && forall i :: 0 <= i < |blocks| ==> blocks[i] == Shown(stream, t.entries[i], t.talking && i == |blocks| - 1)
  }

  function Sealed(stream: seq<Event>, entry: Entry): Block {
    match entry
    case Words(text) => Block(TextBlock, text, false)
    case Call(o) => Block(ToolUse(o.callID, o.name), Settle(Content(stream, o.id, o.output)), false)
  }

  /** The blocks after a normal end. */
  ghost predicate SealedBlocks(stream: seq<Event>, blocks: seq<Block>) {
    var t := Told(stream);
    && |blocks| == |t.entries|
    && forall i :: 0 <= i < |blocks| ==> blocks[i] == Sealed(stream, t.entries[i])
  }

  /** Reference `id`, `output` names the opened call `o`. */
  predicate NamesCall(id: string, output: Option<int>, o: Opening) {
    I.Names(id, output, o.id, o.output)
  }

  ghost predicate Unmatched(before: seq<Event>, id: string, output: Option<int>) {
    forall o :: o in Openings(before) ==> !NamesCall(id, output, o)
  }

  ghost predicate Over(before: seq<Event>, id: string, output: Option<int>) {
    exists o :: o in Openings(before) && NamesCall(id, output, o) && Ended(before, o.id, o.output)
  }

  ghost predicate Contradicts(before: seq<Event>, id: string, output: Option<int>, final: string) {
    final != "" && exists o :: o in Openings(before) && NamesCall(id, output, o) &&
                               Content(before, o.id, o.output) != "" && Content(before, o.id, o.output) != final
  }

  ghost predicate Taken(before: seq<Event>, id: string, output: int) {
    exists o :: o in Openings(before) && (o.id == id || o.output == output)
  }

  ghost predicate SomeInvalid(valid: string -> bool, before: seq<Event>) {
    exists o :: o in Openings(before) && !valid(Settle(Content(before, o.id, o.output)))
  }

  /** The failure an event causes after a history that has not ended. */
  ghost function ErrorOf(valid: string -> bool, before: seq<Event>, body: Body): Option<string> {
    match body
    case Malformed => Some("invalid upstream stream event")
    case Failed => Some("upstream response failed")
    case ErrorBody => Some("upstream response failed")
    case RefusalDone(_, _, refusal) =>
      if Refused(before) != "" && refusal != Refused(before) then Some("upstream refusal text mismatch") else None
    case ItemAdded(output, FunctionCall(id, callID, name, _)) =>
      if id == "" || callID == "" || name == "" || output.None? then Some("incomplete upstream function call")
      else if Taken(before, id, output.value) then Some("duplicate upstream function call")
      else None
    case ArgumentsDelta(id, output, _) =>
      if Unmatched(before, id, output) || Over(before, id, output) then Some("unmatched upstream function arguments") else None
    case ArgumentsDone(id, output, final) =>
      if Unmatched(before, id, output) then Some("unmatched upstream function arguments")
      else if Contradicts(before, id, output, final) then Some("upstream function arguments mismatch")
      else None
    case ItemDone(output, FunctionCall(id, _, _, final)) =>
      if Unmatched(before, id, output) then Some("unmatched upstream function call")
      else if Contradicts(before, id, output, final) then Some("upstream function arguments mismatch")
      else None
    case Completed(_) => if SomeInvalid(valid, before) then Some("invalid upstream function arguments") else None
    case Incomplete(response) =>
      if response.incompleteReason == Some("max_output_tokens") then None else Some("upstream response incomplete")
    case _ => None
  }

  /** The stop reason of an event that ends the stream. */
  function EndOf(before: seq<Event>, body: Body): Option<string> {
    if body.Completed? then Some(Reason(before))
    else if body.Incomplete? then Some("max_tokens")
    else None
  }

  /** What a client has in its hands after `stream`. The first event that fails
      leaves the blocks as they were; the first that ends the stream seals them;
      and what comes later is not seen. */
  ghost predicate View(valid: string -> bool, stream: seq<Event>, r: Reader, success: bool) {
    if stream == [] then r == Reader(Streaming, []) && !success
    else
      var front, body := stream[..|stream| - 1], stream[|stream| - 1].body;
      if Live(valid, front) then
        match ErrorOf(valid, front, body)
        case Some(message) => r.phase == Errored(message) && Blocks(front, r.blocks) && !success
        case None =>
          if EndOf(front, body).Some? then
            r.phase == Finished(EndOf(front, body).value) && SealedBlocks(front, r.blocks) && success == body.Completed?
          else r.phase == Streaming && Blocks(stream, r.blocks) && !success
      else View(valid, front, r, success)
  }

  /** No event so far has failed or ended the stream. */
  ghost predicate Live(valid: string -> bool, stream: seq<Event>) {
    stream == [] ||
    (var front, body := stream[..|stream| - 1], stream[|stream| - 1].body;
     Live(valid, front) && ErrorOf(valid, front, body).None? && EndOf(front, body).None?)
  }

  // ------------------------------------------------- the encoder against the view

  ghost predicate ToolHeard(tool: E.Tool, o: Opening, stream: seq<Event>) {
    && tool.itemID == o.id != "" && tool.output == o.output && tool.callID == o.callID
    && tool.arguments == Content(stream, o.id, o.output)
    && tool.closed == Ended(stream, o.id, o.output)
    && (Final(stream, o.id, o.output) == "" || Final(stream, o.id, o.output) == tool.arguments)
  }

  ghost predicate Silent(stream: seq<Event>, id: string, at: int) {
    I.Own(stream, id, at) == "" && Final(stream, id, at) == "" && !Ended(stream, id, at)
  }

  /** The arena holds what was sent for each opened call. */
  ghost predicate Heard(r: E.Registry, stream: seq<Event>) {
    && |r.tools| == |Openings(stream)|
    && (forall k :: 0 <= k < |r.tools| ==> ToolHeard(r.tools[k], Openings(stream)[k], stream))
    && (forall id: string, at: int :: id !in r.byItem && at !in r.byOutput ==> Silent(stream, id, at))
  }

  predicate BlockShows(block: Block, entry: Entry, open: bool) {
    match entry
    case Words(text) => block == Block(TextBlock, text, open)
    case Call(o) => block.kind == ToolUse(o.callID, o.name)
  }

  ghost predicate Shows(s: E.State, blocks: seq<Block>, t: Script) {
    && |blocks| == |t.entries|
    && s.textOpen == t.talking
    && (t.talking ==> s.textIndex == |t.entries| - 1)
    && forall i :: 0 <= i < |blocks| ==> BlockShows(blocks[i], t.entries[i], t.talking && i == |blocks| - 1)
  }

  /** Each tool's block is where its call begins. */
  ghost predicate Placed(tools: seq<E.Tool>, openings: seq<Opening>, entries: seq<Entry>) {
    && |tools| == |openings|
    && forall k :: 0 <= k < |tools| ==> tools[k].index < |entries| && entries[tools[k].index] == Call(openings[k])
  }

  ghost predicate Agree(s: E.State, r: Reader, stream: seq<Event>) {
    && E.Indexed(s.registry) && T.Linked(s, r) && !s.success
    && Heard(s.registry, stream)
    && Shows(s, r.blocks, Told(stream))
    && Placed(s.registry.tools, Openings(stream), Told(stream).entries)
    && s.refusalText == Refused(stream)
    && s.stopReason == Reason(stream)
  }

  lemma AgreeBlocks(s: E.State, r: Reader, stream: seq<Event>)
    requires Agree(s, r, stream)
    ensures Blocks(stream, r.blocks)
  {
    var t := Told(stream);
    forall i: nat | i < |r.blocks| ensures r.blocks[i] == Shown(stream, t.entries[i], t.talking && i == |r.blocks| - 1) {
      assert BlockShows(r.blocks[i], t.entries[i], t.talking && i == |r.blocks| - 1);
      if t.entries[i].Call? {
        assert T.Owned(s.registry.tools, i);
        var k :| 0 <= k < |s.registry.tools| && s.registry.tools[k].index == i;
        assert T.ToolLinked(s.registry.tools[k], r);
        assert ToolHeard(s.registry.tools[k], Openings(stream)[k], stream);
      }
    }
  }

  // ------------------------------------------------------------- one more event

  lemma OneMore(stream: seq<Event>, event: Event)
    ensures (stream + [event])[..|stream + [event]| - 1] == stream
    ensures (stream + [event])[|stream + [event]| - 1] == event
  {
  }

  lemma ContentSnoc(stream: seq<Event>, event: Event, id: string, at: int)
    ensures I.Own(stream + [event], id, at) == I.Own(stream, id, at) + I.OwnFragment(event.body, id, at)
    ensures Ended(stream + [event], id, at) == (Ended(stream, id, at) || Ends(event.body, id, at))
    ensures Final(stream + [event], id, at)
            == if Final(stream, id, at) == "" && Ends(event.body, id, at) then FinalOf(event.body) else Final(stream, id, at)
  {
    OneMore(stream, event);
    I.OwnSnoc(stream, event, id, at);
  }

  lemma OpeningsSnoc(stream: seq<Event>, event: Event)
    ensures Openings(stream + [event]) == Openings(stream) + if Calls(event.body) then [OpeningOf(event.body)] else []
  {
    OneMore(stream, event);
  }

  lemma {:induction false} FinalEnds(stream: seq<Event>, id: string, at: int)
    ensures Final(stream, id, at) != "" ==> Ended(stream, id, at)
  {
    if stream != [] {
      FinalEnds(stream[..|stream| - 1], id, at);
    }
  }

  /** Events that say nothing for any tool. */
  predicate Unaddressed(body: Body) {
    !Calls(body) && !body.ArgumentsDelta? && !body.ArgumentsDone? && !(body.ItemDone? && body.item.FunctionCall?)
  }

  lemma StillHeard(r: E.Registry, stream: seq<Event>, event: Event)
    requires Heard(r, stream) && Unaddressed(event.body)
    ensures Heard(r, stream + [event])
  {
    OpeningsSnoc(stream, event);
    forall id: string, at: int
      ensures I.Own(stream + [event], id, at) == I.Own(stream, id, at)
      ensures Final(stream + [event], id, at) == Final(stream, id, at)
      ensures Ended(stream + [event], id, at) == Ended(stream, id, at)
    {
      ContentSnoc(stream, event, id, at);
    }
    hide I.Own, Final, Ended, Openings;
    var after := stream + [event];
    forall k | 0 <= k < |r.tools| ensures ToolHeard(r.tools[k], Openings(after)[k], after) {
      assert ToolHeard(r.tools[k], Openings(stream)[k], stream);
    }
    forall id: string, at: int | id !in r.byItem && at !in r.byOutput ensures Silent(after, id, at) {
      assert Silent(stream, id, at);
    }
  }

  /** What one addressed event does to a tool it does not name. */
  lemma OthersHeard(tool: E.Tool, o: Opening, stream: seq<Event>, event: Event)
    requires ToolHeard(tool, o, stream)
    requires I.OwnFragment(event.body, o.id, o.output) == "" && !Ends(event.body, o.id, o.output)
    ensures ToolHeard(tool, o, stream + [event])
  {
    ContentSnoc(stream, event, o.id, o.output);
    hide I.Own, Final, Ended;
  }

  lemma StaysSilent(stream: seq<Event>, event: Event, id: string, at: int)
    requires Silent(stream, id, at)
    requires I.OwnFragment(event.body, id, at) == "" && !Ends(event.body, id, at)
    ensures Silent(stream + [event], id, at)
  {
    ContentSnoc(stream, event, id, at);
  }

  lemma DeltaToolHeard(tool: E.Tool, o: Opening, stream: seq<Event>, event: Event)
    requires ToolHeard(tool, o, stream) && !tool.closed
    requires event.body.ArgumentsDelta? && I.Names(event.body.itemID, event.body.outputIndex, o.id, o.output)
    ensures ToolHeard(tool.(arguments := tool.arguments + event.body.delta), o, stream + [event])
  {
    ContentSnoc(stream, event, o.id, o.output);
    FinalEnds(stream, o.id, o.output);
    hide I.Own, Final, Ended;
  }

  /** What an event that names tool `k` must leave of it for the arena to agree. */
  lemma NamedHeard(r: E.Registry, stream: seq<Event>, event: Event, id: string, output: Option<int>, k: nat, tool: E.Tool)
    requires E.Indexed(r) && Heard(r, stream) && E.FindTool(r, id, output) == Some(k)
    requires !Calls(event.body)
    requires forall i: string, at: int :: !I.Names(id, output, i, at) ==>
               I.OwnFragment(event.body, i, at) == "" && !Ends(event.body, i, at)
    requires ToolHeard(tool, Openings(stream)[k], stream + [event])
    ensures Heard(E.Replace(r, k, tool), stream + [event])
  {
    I.FoundNames(r, id, output, k);
    OpeningsSnoc(stream, event);
    hide E.Indexed, E.FindTool, I.Names, I.OwnFragment, Ends, ToolHeard;
    var after, r' := stream + [event], E.Replace(r, k, tool);
    forall j | 0 <= j < |r'.tools| ensures ToolHeard(r'.tools[j], Openings(after)[j], after) {
      if j != k {
        assert ToolHeard(r.tools[j], Openings(stream)[j], stream);
        HeardKeys(r.tools[j], Openings(stream)[j], stream);
        assert !I.Names(id, output, r.tools[j].itemID, r.tools[j].output);
        OthersHeard(r.tools[j], Openings(stream)[j], stream, event);
      }
    }
    forall i: string, at: int | i !in r'.byItem && at !in r'.byOutput ensures Silent(after, i, at) {
      StaysSilent(stream, event, i, at);
    }
  }

  lemma HeardKeys(tool: E.Tool, o: Opening, stream: seq<Event>)
    requires ToolHeard(tool, o, stream)
    ensures tool.itemID == o.id && tool.output == o.output
  {
  }

  lemma DeltaHeard(r: E.Registry, stream: seq<Event>, event: Event, k: nat)
    requires E.Indexed(r) && Heard(r, stream) && event.body.ArgumentsDelta?
    requires E.FindTool(r, event.body.itemID, event.body.outputIndex) == Some(k) && !r.tools[k].closed
    ensures Heard(E.Replace(r, k, r.tools[k].(arguments := r.tools[k].arguments + event.body.delta)), stream + [event])
  {
    I.FoundNames(r, event.body.itemID, event.body.outputIndex, k);
    assert ToolHeard(r.tools[k], Openings(stream)[k], stream);
    DeltaToolHeard(r.tools[k], Openings(stream)[k], stream, event);
    NamedHeard(r, stream, event, event.body.itemID, event.body.outputIndex, k,
               r.tools[k].(arguments := r.tools[k].arguments + event.body.delta));
  }

  /** An event that ends a call's arguments. */
  predicate Dones(body: Body) {
    body.ArgumentsDone? || (body.ItemDone? && body.item.FunctionCall?)
  }

  function DoneID(body: Body): string
    requires Dones(body)
  {
    if body.ArgumentsDone? then body.itemID else body.item.id
  }

  predicate Clashes(arguments: string, final: string) {
    final != "" && arguments != "" && arguments != final
  }

  /** The tool after an end that does not contradict it. */
  function Closed(tool: E.Tool, final: string): E.Tool {
    if tool.closed then tool
    else tool.(arguments := if tool.arguments != "" then tool.arguments else if final != "" then final else "{}", closed := true)
  }

  lemma FinishToolIs(s: E.State, k: nat, final: string)
    requires k < |s.registry.tools| && !s.terminal
    requires s.registry.tools[k].closed ==> s.registry.tools[k].arguments != ""
    ensures Clashes(s.registry.tools[k].arguments, final) ==>
              E.FinishTool(s, k, final) == E.Fail(s, "upstream function arguments mismatch")
    ensures !Clashes(s.registry.tools[k].arguments, final) ==>
              E.FinishTool(s, k, final).state == s.(registry := E.Replace(s.registry, k, Closed(s.registry.tools[k], final)))
  {
    var tool := s.registry.tools[k];
    assert E.Replace(s.registry, k, tool) == s.registry by {
      assert s.registry.tools[k := tool] == s.registry.tools;
    }
    var missing := if tool.arguments != "" then "" else if final != "" then final else "{}";
    assert tool.arguments + missing == if tool.arguments != "" then tool.arguments else missing;
  }

  lemma DoneToolHeard(tool: E.Tool, o: Opening, stream: seq<Event>, event: Event)
    requires ToolHeard(tool, o, stream) && Dones(event.body)
    requires I.Names(DoneID(event.body), event.body.outputIndex, o.id, o.output) && !Clashes(tool.arguments, FinalOf(event.body))
    ensures ToolHeard(Closed(tool, FinalOf(event.body)), o, stream + [event])
  {
    ContentSnoc(stream, event, o.id, o.output);
    FinalEnds(stream, o.id, o.output);
    assert I.Own(stream, o.id, o.output) + "" == I.Own(stream, o.id, o.output);
    hide I.Own, Final, Ended;
  }

  lemma DoneHeard(r: E.Registry, stream: seq<Event>, event: Event, k: nat)
    requires E.Indexed(r) && Heard(r, stream) && Dones(event.body)
    requires E.FindTool(r, DoneID(event.body), event.body.outputIndex) == Some(k) && !Clashes(r.tools[k].arguments, FinalOf(event.body))
    ensures Heard(E.Replace(r, k, Closed(r.tools[k], FinalOf(event.body))), stream + [event])
  {
    I.FoundNames(r, DoneID(event.body), event.body.outputIndex, k);
    assert ToolHeard(r.tools[k], Openings(stream)[k], stream);
    DoneToolHeard(r.tools[k], Openings(stream)[k], stream, event);
    NamedHeard(r, stream, event, DoneID(event.body), event.body.outputIndex, k, Closed(r.tools[k], FinalOf(event.body)));
  }

  lemma NewToolHeard(stream: seq<Event>, event: Event, tool: E.Tool)
    requires Calls(event.body) && event.body.outputIndex.Some? && Silent(stream, tool.itemID, tool.output)
    requires tool.itemID == event.body.item.id != "" && tool.output == event.body.outputIndex.value
    requires tool.callID == event.body.item.callID && tool.arguments == event.body.item.arguments && !tool.closed
    ensures ToolHeard(tool, OpeningOf(event.body), stream + [event])
  {
    ContentSnoc(stream, event, tool.itemID, tool.output);
    assert "" + tool.arguments == tool.arguments;
    hide I.Own, Final, Ended;
  }

  lemma OpenLeavesHeard(r: E.Registry, stream: seq<Event>, event: Event, j: nat)
    requires E.Indexed(r) && Heard(r, stream) && Calls(event.body) && event.body.outputIndex.Some? && j < |r.tools|
    requires event.body.item.id !in r.byItem && event.body.outputIndex.value !in r.byOutput
    ensures ToolHeard(r.tools[j], Openings(stream)[j], stream + [event])
  {
    assert ToolHeard(r.tools[j], Openings(stream)[j], stream);
    assert r.tools[j].itemID in r.byItem;
    OthersHeard(r.tools[j], Openings(stream)[j], stream, event);
    hide I.Own, Final, Ended, Openings;
  }

  lemma OpenLeavesSilent(r: E.Registry, stream: seq<Event>, event: Event, id: string, at: int)
    requires Heard(r, stream) && Calls(event.body) && event.body.outputIndex.Some?
    requires id !in r.byItem && at !in r.byOutput && id != event.body.item.id
    ensures Silent(stream + [event], id, at)
  {
    assert Silent(stream, id, at);
    StaysSilent(stream, event, id, at);
    hide I.Own, Final, Ended, Openings;
  }

  lemma OpenHeard(r: E.Registry, stream: seq<Event>, event: Event, tool: E.Tool)
    requires E.Indexed(r) && Heard(r, stream) && Calls(event.body) && event.body.outputIndex.Some?
    requires tool.itemID == event.body.item.id != "" && tool.output == event.body.outputIndex.value
    requires tool.callID == event.body.item.callID && tool.arguments == event.body.item.arguments && !tool.closed
    requires tool.itemID !in r.byItem && tool.output !in r.byOutput
    ensures Heard(E.Register(r, tool), stream + [event])
  {
    OpeningsSnoc(stream, event);
    assert Silent(stream, tool.itemID, tool.output);
    NewToolHeard(stream, event, tool);
    var after, r' := stream + [event], E.Register(r, tool);
    assert |r.tools| == |Openings(stream)|;
    forall j | 0 <= j < |r'.tools| ensures ToolHeard(r'.tools[j], Openings(after)[j], after) {
      if j < |r.tools| { OpenLeavesHeard(r, stream, event, j); }
    }
    forall id: string, at: int | id !in r'.byItem && at !in r'.byOutput ensures Silent(after, id, at) {
      OpenLeavesSilent(r, stream, event, id, at);
    }
    hide Openings, Silent, ToolHeard, E.Indexed;
  }

  // ------------------------------------------------------------ blocks and script

  lemma TalkShows(s: E.State, r: Reader, t: Script, delta: string)
    requires T.Linked(s, r) && Sane(t) && Shows(s, r.blocks, t)
    ensures Shows(E.AddText(s, delta).state, Read(r, E.AddText(s, delta).events).blocks, Speak(t, delta))
  {
    if delta != "" {
      if s.textOpen {
        assert BlockShows(r.blocks[s.textIndex], t.entries[s.textIndex], true);
        ReadOne(r, BlockDelta(s.textIndex, TextFragment(delta)));
      } else {
        ReadTwo(r, BlockStart(s.nextIndex, TextBlock), BlockDelta(s.nextIndex, TextFragment(delta)));
        assert "" + delta == delta;
      }
    }
  }

  lemma CloseShows(s: E.State, r: Reader, t: Script)
    requires T.Linked(s, r) && Sane(t) && Shows(s, r.blocks, t)
    ensures Shows(E.CloseText(s).state, Read(r, E.CloseText(s).events).blocks, t.(talking := false))
  {
    if s.textOpen {
      assert BlockShows(r.blocks[s.textIndex], t.entries[s.textIndex], true);
      ReadOne(r, BlockStop(s.textIndex));
    }
  }

  lemma OpenAfterText(r: Reader, t: Script, o: Opening, arguments: string)
    requires r.phase.Streaming? && |r.blocks| == |t.entries| && !t.talking
    requires forall i :: 0 <= i < |r.blocks| ==> BlockShows(r.blocks[i], t.entries[i], false)
    ensures var open := [BlockStart(|r.blocks|, ToolUse(o.callID, o.name))] +
                        if arguments == "" then [] else [BlockDelta(|r.blocks|, JsonFragment(arguments))];
            var next := Read(r, open).blocks;
            |next| == |t.entries| + 1 &&
            forall i :: 0 <= i < |next| ==> BlockShows(next[i], (t.entries + [Call(o)])[i], false)
  {
    T.ReadOpening(r, ToolUse(o.callID, o.name), arguments);
  }

  lemma OpenShows(s: E.State, r: Reader, t: Script, output: int, call: Item)
    requires T.Linked(s, r) && Sane(t) && Shows(s, r.blocks, t) && call.FunctionCall?
    ensures var next := Script(t.entries + [Call(Opening(call.id, output, call.callID, call.name))], false);
            Shows(E.OpenTool(s, output, call).state, Read(r, E.OpenTool(s, output, call).events).blocks, next)
  {
    hide T.Linked, BlockShows, Read;
    var text := E.CloseText(s);
    CloseShows(s, r, t);
    T.CloseTextLinked(s, r);
    var closed := Read(r, text.events);
    LinkedStreams(text.state, closed);
    var o := Opening(call.id, output, call.callID, call.name);
    OpenAfterText(closed, t.(talking := false), o, call.arguments);
    var open := [BlockStart(s.nextIndex, ToolUse(call.callID, call.name))] +
                if call.arguments == "" then [] else [BlockDelta(s.nextIndex, JsonFragment(call.arguments))];
    ReadConcat(r, text.events, open);
    assert E.OpenTool(s, output, call).events == text.events + open;
  }

  lemma ArgumentsShow(s: E.State, r: Reader, t: Script, k: nat, fragment: string)
    requires T.Linked(s, r) && Shows(s, r.blocks, t) && k < |s.registry.tools| && !s.registry.tools[k].closed
    ensures Shows(E.AddArguments(s, k, fragment).state, Read(r, E.AddArguments(s, k, fragment).events).blocks, t)
  {
    var tool := s.registry.tools[k];
    assert T.ToolLinked(tool, r);
    ReadOne(r, BlockDelta(tool.index, JsonFragment(fragment)));
    assert BlockShows(r.blocks[tool.index], t.entries[tool.index], t.talking && tool.index == |r.blocks| - 1);
  }

  lemma FinishShows(s: E.State, r: Reader, t: Script, k: nat, final: string)
    requires T.Linked(s, r) && Shows(s, r.blocks, t) && k < |s.registry.tools| && !s.terminal
    requires !Clashes(s.registry.tools[k].arguments, final)
    ensures Shows(E.FinishTool(s, k, final).state, Read(r, E.FinishTool(s, k, final).events).blocks, t)
  {
    var tool := s.registry.tools[k];
    assert T.ToolLinked(tool, r) && r.phase.Streaming?;
    hide T.Linked, Read;
    assert BlockShows(r.blocks[tool.index], t.entries[tool.index], t.talking && tool.index == |r.blocks| - 1);
    if !tool.closed {
      T.ReadClosing(r, tool.index, if tool.arguments != "" then "" else if final != "" then final else "{}");
    }
  }

  lemma SpeakPlaced(tools: seq<E.Tool>, openings: seq<Opening>, t: Script, said: string)
    requires Sane(t) && Placed(tools, openings, t.entries)
    ensures Placed(tools, openings, Speak(t, said).entries)
  {
    forall k | 0 <= k < |tools| ensures tools[k].index < |Speak(t, said).entries| && Speak(t, said).entries[tools[k].index] == Call(openings[k]) {
      assert t.entries[tools[k].index] == Call(openings[k]);
    }
  }

  // --------------------------------------------------------------- event by event

  lemma ToldSnoc(stream: seq<Event>, event: Event)
    ensures var before, said, body := Told(stream), Said(stream, event.body), event.body;
            Told(stream + [event]) == if said != "" then Speak(before, said)
                                      else if Calls(body) then Script(before.entries + [Call(OpeningOf(body))], false)
                                      else if Interrupts(body) then before.(talking := false)
                                      else before
    ensures Refused(stream + [event]) == if event.body.RefusalDelta? then Refused(stream) + event.body.delta
                                         else if event.body.RefusalDone? && Refused(stream) == "" then event.body.refusal
                                         else Refused(stream)
    ensures Reason(stream + [event]) == if event.body.RefusalDelta? || event.body.RefusalDone? then "refusal"
                                        else if Calls(event.body) then "tool_use" else Reason(stream)
  {
    OneMore(stream, event);
  }

  /** The event did what the reference says: it failed, or the stream goes on. */
  ghost predicate Stepped(valid: string -> bool, step: E.Step, r: Reader, stream: seq<Event>, event: Event) {
    match ErrorOf(valid, stream, event.body)
    case Some(message) => step.events == [StreamError(message)] && step.state.terminal && !step.state.success
    case None => !step.state.terminal && Agree(step.state, Read(r, step.events), stream + [event])
  }

  lemma Refusing(s: E.State, r: Reader, t: Script, refusalText: string)
    requires T.Linked(s, r) && Shows(s, r.blocks, t)
    ensures var now := s.(stopReason := "refusal", refusalText := refusalText); T.Linked(now, r) && Shows(now, r.blocks, t)
  {
    T.RefusedLinked(s, refusalText, r);
  }

  lemma TextStepped(valid: string -> bool, s: E.State, r: Reader, stream: seq<Event>, event: Event)
    requires Agree(s, r, stream) && !s.terminal && (event.body.TextDelta? || event.body.RefusalDelta?)
    ensures Stepped(valid, E.HandleBody(valid, s, event.body), r, stream, event)
  {
    hide T.Linked, Heard, Shows, Placed, Told, Openings, E.Indexed, Read;
    var body := event.body;
    var delta := Said(stream, body);
    var now := if body.TextDelta? then s else s.(stopReason := "refusal", refusalText := s.refusalText + delta);
    Refusing(s, r, Told(stream), s.refusalText + delta);
    assert E.HandleBody(valid, s, body) == E.AddText(now, delta);
    T.AddTextLinked(now, delta, r);
    TalkShows(now, r, Told(stream), delta);
    SpeakPlaced(s.registry.tools, Openings(stream), Told(stream), delta);
    StillHeard(s.registry, stream, event);
    OpeningsSnoc(stream, event);
    ToldSnoc(stream, event);
    assert Openings(stream) + [] == Openings(stream);
  }

  lemma RefusalWhole(s: E.State, r: Reader, stream: seq<Event>, event: Event)
    requires Agree(s, r, stream) && !s.terminal && event.body.RefusalDone? && s.refusalText == "" && event.body.refusal != ""
    ensures var step := E.AddText(s.(stopReason := "refusal", refusalText := event.body.refusal), event.body.refusal);
            Agree(step.state, Read(r, step.events), stream + [event])
  {
    hide T.Linked, Heard, Shows, Placed, Told, Openings, E.Indexed, Read, Refused, Reason;
    var refusal := event.body.refusal;
    var now := s.(stopReason := "refusal", refusalText := refusal);
    Refusing(s, r, Told(stream), refusal);
    T.AddTextLinked(now, refusal, r);
    TalkShows(now, r, Told(stream), refusal);
    SpeakPlaced(s.registry.tools, Openings(stream), Told(stream), refusal);
    StillHeard(s.registry, stream, event);
    OpeningsSnoc(stream, event);
    ToldSnoc(stream, event);
    assert Openings(stream) + [] == Openings(stream);
  }

  lemma RefusalClosed(s: E.State, r: Reader, stream: seq<Event>, event: Event)
    requires Agree(s, r, stream) && !s.terminal && event.body.RefusalDone? && s.refusalText == event.body.refusal
    ensures var step := E.CloseText(s.(stopReason := "refusal"));
            Agree(step.state, Read(r, step.events), stream + [event])
  {
    hide T.Linked, Heard, Shows, Placed, Told, Openings, E.Indexed, Read, Refused, Reason;
    var now := s.(stopReason := "refusal");
    assert now == s.(stopReason := "refusal", refusalText := s.refusalText);
    Refusing(s, r, Told(stream), s.refusalText);
    T.CloseTextLinked(now, r);
    CloseShows(now, r, Told(stream));
    StillHeard(s.registry, stream, event);
    OpeningsSnoc(stream, event);
    ToldSnoc(stream, event);
    assert Openings(stream) + [] == Openings(stream);
  }

  lemma RefusalStepped(valid: string -> bool, s: E.State, r: Reader, stream: seq<Event>, event: Event)
    requires Agree(s, r, stream) && !s.terminal && event.body.RefusalDone?
    ensures Stepped(valid, E.HandleBody(valid, s, event.body), r, stream, event)
  {
    assert s.refusalText == Refused(stream) && !s.success;
    if event.body.refusal == s.refusalText {
      RefusalClosed(s, r, stream, event);
    } else if s.refusalText == "" {
      RefusalWhole(s, r, stream, event);
    }
    hide Agree, Refused, Read;
  }

  lemma CloseStepped(valid: string -> bool, s: E.State, r: Reader, stream: seq<Event>, event: Event)
    requires Agree(s, r, stream) && !s.terminal && (event.body.TextDone? || event.body.PartDone?)
    ensures Stepped(valid, E.HandleBody(valid, s, event.body), r, stream, event)
  {
    hide T.Linked, Heard, Shows, Placed, Told, Openings, E.Indexed, Read;
    T.CloseTextLinked(s, r);
    CloseShows(s, r, Told(stream));
    StillHeard(s.registry, stream, event);
    OpeningsSnoc(stream, event);
    ToldSnoc(stream, event);
    assert Openings(stream) + [] == Openings(stream);
    assert E.HandleBody(valid, s, event.body) == E.CloseText(s);
  }

  /** Events the encoder passes over. */
  predicate Ignored(body: Body) {
    || body.Created? || body.PartAdded? || body.ReasoningDelta? || body.ReasoningDone? || body.Unrecognised?
    || (body.ItemAdded? && !body.item.FunctionCall?) || (body.ItemDone? && !body.item.FunctionCall?)
  }

  lemma IgnoredAgree(s: E.State, r: Reader, stream: seq<Event>, event: Event)
    requires Agree(s, r, stream) && Ignored(event.body)
    ensures Agree(s, r, stream + [event])
  {
    hide T.Linked, Heard, Shows, Placed, Told, Openings, E.Indexed, Read, Refused, Reason;
    StillHeard(s.registry, stream, event);
    OpeningsSnoc(stream, event);
    ToldSnoc(stream, event);
    assert Openings(stream) + [] == Openings(stream);
  }

  lemma IgnoredStepped(valid: string -> bool, s: E.State, r: Reader, stream: seq<Event>, event: Event)
    requires Agree(s, r, stream) && !s.terminal && Ignored(event.body)
    ensures Stepped(valid, E.HandleBody(valid, s, event.body), r, stream, event)
  {
    hide Agree;
    AgreeBasics(s, r, stream);
    IgnoredAgree(s, r, stream, event);
    assert E.HandleBody(valid, s, event.body) == E.Step(s, []);
    assert Read(r, []) == r;
    hide E.HandleBody;
    hide Read;
  }

  /** Keys of the arena and calls of the history are the same. */
  lemma TakenMeans(s: E.State, r: Reader, stream: seq<Event>, id: string, output: int)
    requires Agree(s, r, stream)
    ensures Taken(stream, id, output) <==> id in s.registry.byItem || output in s.registry.byOutput
  {
    hide T.Linked, Shows, Placed, Told, Openings, Content;
    var tools, calls := s.registry.tools, Openings(stream);
    forall k: nat | k < |tools| ensures tools[k].itemID == calls[k].id && tools[k].output == calls[k].output && calls[k] in calls {
      HeardKeys(tools[k], calls[k], stream);
    }
    if id in s.registry.byItem {
      assert calls[s.registry.byItem[id]].id == id;
    } else if output in s.registry.byOutput {
      assert calls[s.registry.byOutput[output]].output == output;
    }
    forall o | o in calls && (o.id == id || o.output == output) ensures id in s.registry.byItem || output in s.registry.byOutput {
      var k :| 0 <= k < |calls| && calls[k] == o;
      assert tools[k].itemID == o.id && tools[k].output == o.output;
    }
  }

  lemma OpenPlaced(s: E.State, r: Reader, tools: seq<E.Tool>, openings: seq<Opening>, t: Script, tool: E.Tool, o: Opening)
    requires T.Linked(s, r) && Shows(s, r.blocks, t) && Placed(tools, openings, t.entries) && tool.index == s.nextIndex
    ensures Placed(tools + [tool], openings + [o], t.entries + [Call(o)])
  {
  }

  lemma CallStepped(valid: string -> bool, s: E.State, r: Reader, stream: seq<Event>, event: Event)
    requires Agree(s, r, stream) && !s.terminal && Calls(event.body)
    ensures Stepped(valid, E.HandleBody(valid, s, event.body), r, stream, event)
  {
    var call, output := event.body.item, event.body.outputIndex;
    if call.id != "" && call.callID != "" && call.name != "" && output.Some? {
      TakenMeans(s, r, stream, call.id, output.value);
      if call.id !in s.registry.byItem && output.value !in s.registry.byOutput {
        var tool := E.Tool(call.id, output.value, call.callID, s.nextIndex, call.arguments, false);
        T.OpenToolLinked(s, output.value, call, r);
        OpenShows(s, r, Told(stream), output.value, call);
        OpenPlaced(s, r, s.registry.tools, Openings(stream), Told(stream), tool, OpeningOf(event.body));
        OpenHeard(s.registry, stream, event, tool);
        E.OpenToolIndexed(s, output.value, call);
        OpeningsSnoc(stream, event);
        ToldSnoc(stream, event);
      }
    }
    hide T.Linked, Heard, Shows, Placed, Told, Openings, E.Indexed, Read, Taken;
  }

  /** A reference finds the tool of the one opened call it names, or none. */
  lemma FoundMeans(s: E.State, r: Reader, stream: seq<Event>, id: string, output: Option<int>)
    requires Agree(s, r, stream)
    ensures var found := E.FindTool(s.registry, id, output);
            if found.None? then Unmatched(stream, id, output)
            else found.value < |Openings(stream)| && ToolHeard(s.registry.tools[found.value], Openings(stream)[found.value], stream)
                 && forall o :: o in Openings(stream) ==> (NamesCall(id, output, o) <==> o == Openings(stream)[found.value])
  {
    hide T.Linked, Shows, Placed, Told, Openings, Content;
    var tools, calls := s.registry.tools, Openings(stream);
    var found := E.FindTool(s.registry, id, output);
    if found.Some? { I.FoundNames(s.registry, id, output, found.value); }
    forall o | o in calls ensures if found.Some? then NamesCall(id, output, o) <==> o == calls[found.value] else !NamesCall(id, output, o) {
      var k :| 0 <= k < |calls| && calls[k] == o;
      HeardKeys(tools[k], calls[k], stream);
      if found.Some? {
        HeardKeys(tools[found.value], calls[found.value], stream);
        assert I.Names(id, output, tools[k].itemID, tools[k].output) <==> k == found.value;
      } else {
        assert tools[k].itemID in s.registry.byItem && tools[k].output in s.registry.byOutput;
      }
    }
  }

  lemma EmptyDeltaAgree(s: E.State, r: Reader, stream: seq<Event>, event: Event, k: nat)
    requires Agree(s, r, stream) && !s.terminal && event.body.ArgumentsDelta? && event.body.delta == ""
    requires E.FindTool(s.registry, event.body.itemID, event.body.outputIndex) == Some(k) && !s.registry.tools[k].closed
    ensures Agree(s, r, stream + [event])
  {
    hide T.Linked, Heard, Shows, Placed, Told, Openings, E.Indexed, Read, Refused, Reason, E.FindTool;
    DeltaHeard(s.registry, stream, event, k);
    I.EmptyDelta(s.registry, k);
    OpeningsSnoc(stream, event);
    ToldSnoc(stream, event);
    assert Openings(stream) + [] == Openings(stream);
  }

  lemma DeltaAgree(s: E.State, r: Reader, stream: seq<Event>, event: Event, k: nat)
    requires Agree(s, r, stream) && !s.terminal && event.body.ArgumentsDelta?
    requires E.FindTool(s.registry, event.body.itemID, event.body.outputIndex) == Some(k) && !s.registry.tools[k].closed
    ensures var step := E.AddArguments(s, k, event.body.delta);
            Agree(step.state, Read(r, step.events), stream + [event])
  {
    hide T.Linked, Heard, Shows, Placed, Told, Openings, E.Indexed, Read, Refused, Reason;
    var delta := event.body.delta;
    DeltaHeard(s.registry, stream, event, k);
    T.AddArgumentsLinked(s, k, delta, r);
    ArgumentsShow(s, r, Told(stream), k, delta);
    E.AddArgumentsIndexed(s, k, delta);
    OpeningsSnoc(stream, event);
    ToldSnoc(stream, event);
    SamePlaced(s.registry, k, s.registry.tools[k].(arguments := s.registry.tools[k].arguments + delta), stream);
    assert Openings(stream) + [] == Openings(stream);
  }

  lemma SamePlaced(r: E.Registry, k: nat, tool: E.Tool, stream: seq<Event>)
    requires k < |r.tools| && tool.index == r.tools[k].index
    requires Placed(r.tools, Openings(stream), Told(stream).entries)
    ensures Placed(E.Replace(r, k, tool).tools, Openings(stream), Told(stream).entries)
  {
  }

  lemma OverMeans(s: E.State, stream: seq<Event>, id: string, output: Option<int>, k: nat)
    requires k < |Openings(stream)| && k < |s.registry.tools| && ToolHeard(s.registry.tools[k], Openings(stream)[k], stream)
    requires forall o :: o in Openings(stream) ==> (NamesCall(id, output, o) <==> o == Openings(stream)[k])
    ensures !Unmatched(stream, id, output)
    ensures Over(stream, id, output) <==> s.registry.tools[k].closed
  {
    hide Openings, Content, Final, NamesCall;
    var o := Openings(stream)[k];
    assert o in Openings(stream) && NamesCall(id, output, o);
  }

  lemma DeltaStepped(valid: string -> bool, s: E.State, r: Reader, stream: seq<Event>, event: Event)
    requires Agree(s, r, stream) && !s.terminal && event.body.ArgumentsDelta?
    ensures Stepped(valid, E.HandleBody(valid, s, event.body), r, stream, event)
  {
    var id, output := event.body.itemID, event.body.outputIndex;
    var found := E.FindTool(s.registry, id, output);
    assert E.Indexed(s.registry) && !s.success;
    FoundMeans(s, r, stream, id, output);
    assert Read(r, []) == r;
    if found.Some? {
      OverMeans(s, stream, id, output, found.value);
      if !s.registry.tools[found.value].closed {
        if event.body.delta == "" {
          EmptyDeltaAgree(s, r, stream, event, found.value);
        } else {
          DeltaAgree(s, r, stream, event, found.value);
        }
      }
    }
    hide Agree, E.Indexed, ToolHeard, Unmatched, Over, Openings, Read, E.FindTool, E.AddArguments;
  }

  lemma DoneAgree(s: E.State, r: Reader, stream: seq<Event>, event: Event, k: nat)
    requires Agree(s, r, stream) && !s.terminal && Dones(event.body)
    requires E.FindTool(s.registry, DoneID(event.body), event.body.outputIndex) == Some(k)
    requires !Clashes(s.registry.tools[k].arguments, FinalOf(event.body))
    requires s.registry.tools[k].closed ==> s.registry.tools[k].arguments != ""
    ensures var step := E.FinishTool(s, k, FinalOf(event.body));
            !step.state.terminal && Agree(step.state, Read(r, step.events), stream + [event])
  {
    hide T.Linked, Heard, Shows, Placed, Told, Openings, E.Indexed, Read, Refused, Reason, E.FinishTool, E.Replace,
         Clashes;
    var final := FinalOf(event.body);
    DoneHeard(s.registry, stream, event, k);
    FinishToolIs(s, k, final);
    T.FinishToolLinked(s, k, final, r);
    FinishShows(s, r, Told(stream), k, final);
    E.FinishToolIndexed(s, k, final);
    OpeningsSnoc(stream, event);
    ToldSnoc(stream, event);
    SamePlaced(s.registry, k, Closed(s.registry.tools[k], final), stream);
    assert Openings(stream) + [] == Openings(stream);
  }

  /** A closed tool has something to show. */
  lemma ClosedSaid(tool: E.Tool, o: Opening, stream: seq<Event>)
    requires ToolHeard(tool, o, stream)
    ensures tool.closed ==> tool.arguments != ""
  {
  }

  lemma DoneStepped(valid: string -> bool, s: E.State, r: Reader, stream: seq<Event>, event: Event)
    requires Agree(s, r, stream) && !s.terminal && Dones(event.body)
    ensures Stepped(valid, E.HandleBody(valid, s, event.body), r, stream, event)
  {
    var id, output, final := DoneID(event.body), event.body.outputIndex, FinalOf(event.body);
    var found := E.FindTool(s.registry, id, output);
    FoundMeans(s, r, stream, id, output);
    if found.Some? {
      var o, tool := Openings(stream)[found.value], s.registry.tools[found.value];
      assert o in Openings(stream) && NamesCall(id, output, o);
      ClosedSaid(tool, o, stream);
      assert tool.arguments == Content(stream, o.id, o.output);
      assert Contradicts(stream, id, output, final) <==> Clashes(tool.arguments, final);
      FinishToolIs(s, found.value, final);
      if !Clashes(tool.arguments, final) { DoneAgree(s, r, stream, event, found.value); }
    }
    hide T.Linked, Heard, Shows, Placed, Told, Openings, Read, E.FindTool, E.FinishTool, NamesCall, Content;
  }

  // ------------------------------------------------------------- the finishing loop

  function SettledTool(tool: E.Tool): E.Tool {
    tool.(arguments := Settle(tool.arguments), closed := true)
  }

  /** The tools of the outputs in `todo` are settled, the others are as before. */
  ghost predicate SettledIn(before: E.Registry, after: E.Registry, todo: set<int>) {
    && |after.tools| == |before.tools|
    && forall k :: 0 <= k < |before.tools| ==>
         after.tools[k] == if before.tools[k].output in todo then SettledTool(before.tools[k]) else before.tools[k]
  }

  /** Text blocks are the same and tool blocks keep their names. */
  ghost predicate SameWords(a: seq<Block>, b: seq<Block>) {
    && |a| == |b|
    && forall i :: 0 <= i < |a| ==> a[i].kind == b[i].kind && (a[i].kind.TextBlock? ==> a[i] == b[i])
  }

  ghost predicate ClosedHaveSaid(r: E.Registry) {
    forall k :: 0 <= k < |r.tools| && r.tools[k].closed ==> r.tools[k].arguments != ""
  }

  ghost predicate InvalidIn(valid: string -> bool, r: E.Registry, todo: set<int>) {
    exists k :: 0 <= k < |r.tools| && r.tools[k].output in todo && !valid(Settle(r.tools[k].arguments))
  }

  lemma SettleWords(s: E.State, k: nat, r: Reader)
    requires T.Linked(s, r) && !s.terminal && k < |s.registry.tools| && !s.registry.tools[k].closed
    ensures SameWords(r.blocks, Read(r, E.FinishTool(s, k, "").events).blocks)
  {
    var tool := s.registry.tools[k];
    assert T.ToolLinked(tool, r) && r.phase.Streaming?;
    hide T.Linked;
    var missing := if tool.arguments != "" then "" else "{}";
    T.ReadClosing(r, tool.index, missing);
    assert E.FinishTool(s, k, "").events
           == (if missing == "" then [] else [BlockDelta(tool.index, JsonFragment(missing))]) + [BlockStop(tool.index)];
    hide E.FinishTool, Read;
  }

  lemma SettledSaid(r: E.Registry, k: nat)
    requires ClosedHaveSaid(r) && k < |r.tools|
    ensures ClosedHaveSaid(E.Replace(r, k, SettledTool(r.tools[k])))
    ensures r.tools[k].closed ==> r.tools[k].arguments != "" && E.Replace(r, k, SettledTool(r.tools[k])) == r
  {
    assert r.tools[k].closed ==> r.tools[k := SettledTool(r.tools[k])] == r.tools;
  }

  lemma SettleOpen(s: E.State, k: nat, r: Reader)
    requires E.Indexed(s.registry) && T.Linked(s, r) && !s.terminal && k < |s.registry.tools| && !s.registry.tools[k].closed
    ensures var done := E.FinishTool(s, k, "");
            && done.state == s.(registry := E.Replace(s.registry, k, SettledTool(s.registry.tools[k])))
            && E.Indexed(done.state.registry) && done.state.registry.byOutput == s.registry.byOutput
            && T.Linked(done.state, Read(r, done.events))
            && SameWords(r.blocks, Read(r, done.events).blocks)
  {
    hide T.Linked, E.Indexed, E.FinishTool, Read, E.Replace;
    FinishToolIs(s, k, "");
    E.FinishToolIndexed(s, k, "");
    T.FinishToolLinked(s, k, "", r);
    SettleWords(s, k, r);
  }

  lemma SettleOne(s: E.State, o: int, r: Reader) returns (done: E.Step)
    requires E.Indexed(s.registry) && T.Linked(s, r) && !s.terminal && ClosedHaveSaid(s.registry) && o in s.registry.byOutput
    ensures var k := s.registry.byOutput[o];
            && done == (if s.registry.tools[k].closed then E.Step(s, []) else E.FinishTool(s, k, ""))
            && !done.state.terminal && E.Indexed(done.state.registry) && done.state.registry.byOutput == s.registry.byOutput
            && T.Linked(done.state, Read(r, done.events)) && ClosedHaveSaid(done.state.registry)
            && done.state == s.(registry := E.Replace(s.registry, k, SettledTool(s.registry.tools[k])))
            && SameWords(r.blocks, Read(r, done.events).blocks)
  {
    hide T.Linked, E.FinishTool, ClosedHaveSaid, SettledTool, E.Replace;
    var k := s.registry.byOutput[o];
    SettledSaid(s.registry, k);
    if s.registry.tools[k].closed {
      done := E.Step(s, []);
    } else {
      done := E.FinishTool(s, k, "");
      SettleOpen(s, k, r);
    }
    hide Read, E.Indexed;
  }

  lemma SameWordsChain(a: seq<Block>, b: seq<Block>, c: seq<Block>)
    requires SameWords(a, b) && SameWords(b, c)
    ensures SameWords(a, c)
  {
  }

  lemma SettledChain(before: E.Registry, mid: E.Registry, after: E.Registry, o: int, todo: set<int>)
    requires E.Indexed(before) && o in before.byOutput && o in todo
    requires mid == E.Replace(before, before.byOutput[o], SettledTool(before.tools[before.byOutput[o]]))
    requires SettledIn(mid, after, todo - {o})
    ensures SettledIn(before, after, todo)
  {
  }

  lemma InvalidChain(valid: string -> bool, r: E.Registry, o: int, todo: set<int>)
    requires E.Indexed(r) && o in r.byOutput && o in todo
    ensures var k := r.byOutput[o];
            InvalidIn(valid, r, todo) <==> !valid(Settle(r.tools[k].arguments)) ||
                                           InvalidIn(valid, E.Replace(r, k, SettledTool(r.tools[k])), todo - {o})
  {
    var k := r.byOutput[o];
    var r' := E.Replace(r, k, SettledTool(r.tools[k]));
    if InvalidIn(valid, r', todo - {o}) {
      var j :| 0 <= j < |r'.tools| && r'.tools[j].output in todo - {o} && !valid(Settle(r'.tools[j].arguments));
      assert r.tools[j].output in todo && r.tools[j] == r'.tools[j];
    }
    if InvalidIn(valid, r, todo) {
      var j :| 0 <= j < |r.tools| && r.tools[j].output in todo && !valid(Settle(r.tools[j].arguments));
      if j != k { assert r'.tools[j] == r.tools[j] && r'.tools[j].output in todo - {o}; }
    }
  }

  lemma {:induction false} FinishToolsSettle(valid: string -> bool, s: E.State, todo: set<int>, stopReason: string, events: seq<ClientEvent>, r: Reader)
    requires E.Indexed(s.registry) && todo <= s.registry.byOutput.Keys && !s.terminal && !s.success
    requires T.Linked(s, Read(r, events)) && ClosedHaveSaid(s.registry)
    ensures var done := E.FinishTools(valid, s, todo, stopReason, events);
            if stopReason != "max_tokens" && InvalidIn(valid, s.registry, todo)
            then done.events == [StreamError("invalid upstream function arguments")] && done.state.terminal && !done.state.success
            else !done.state.terminal && T.Linked(done.state, Read(r, done.events))
                 && SettledIn(s.registry, done.state.registry, todo) && SameWords(Read(r, events).blocks, Read(r, done.events).blocks)
    decreases |todo|
  {
    if todo != {} {
      var o := LeastOf(todo);
      var k := s.registry.byOutput[o];
      var done := SettleOne(s, o, Read(r, events));
      ReadConcat(r, events, done.events);
      InvalidChain(valid, s.registry, o, todo);
      assert done.state.registry.tools[k].arguments == Settle(s.registry.tools[k].arguments);
      if stopReason == "max_tokens" || valid(Settle(s.registry.tools[k].arguments)) {
        FinishToolsSettle(valid, done.state, todo - {o}, stopReason, events + done.events, r);
        var last := E.FinishTools(valid, done.state, todo - {o}, stopReason, events + done.events);
        if !last.state.terminal {
          SettledChain(s.registry, done.state.registry, last.state.registry, o, todo);
          SameWordsChain(Read(r, events).blocks, Read(r, events + done.events).blocks, Read(r, last.events).blocks);
        }
      }
      hide T.Linked, E.Indexed, E.FinishTool, Read, SameWords, SettledIn, ClosedHaveSaid, InvalidIn;
    }
  }

  lemma {:induction false} ReasonIs(stream: seq<Event>)
    ensures Reason(stream) == "end_turn" || Reason(stream) == "refusal" || Reason(stream) == "tool_use"
  {
    if stream != [] {
      ReasonIs(stream[..|stream| - 1]);
    }
  }

  lemma HeardSaid(r: E.Registry, stream: seq<Event>)
    requires Heard(r, stream)
    ensures ClosedHaveSaid(r)
  {
    hide Openings, Content, ToolHeard;
    forall k | 0 <= k < |r.tools| && r.tools[k].closed ensures r.tools[k].arguments != "" {
      assert ToolHeard(r.tools[k], Openings(stream)[k], stream);
      ClosedSaid(r.tools[k], Openings(stream)[k], stream);
    }
  }

  lemma HeardContent(tool: E.Tool, o: Opening, stream: seq<Event>)
    requires ToolHeard(tool, o, stream)
    ensures tool.arguments == Content(stream, o.id, o.output) && tool.callID == o.callID
  {
  }

  lemma InvalidMeans(valid: string -> bool, r: E.Registry, stream: seq<Event>)
    requires E.Indexed(r) && Heard(r, stream)
    ensures InvalidIn(valid, r, r.byOutput.Keys) <==> SomeInvalid(valid, stream)
  {
    hide Openings, Content, ToolHeard, Settle;
    var calls := Openings(stream);
    forall k | 0 <= k < |r.tools|
      ensures r.tools[k].arguments == Content(stream, calls[k].id, calls[k].output) && r.tools[k].output in r.byOutput.Keys && calls[k] in calls
    {
      assert ToolHeard(r.tools[k], calls[k], stream);
      HeardContent(r.tools[k], calls[k], stream);
    }
    if SomeInvalid(valid, stream) {
      var o :| o in calls && !valid(Settle(Content(stream, o.id, o.output)));
      var k :| 0 <= k < |calls| && calls[k] == o;
      assert !valid(Settle(r.tools[k].arguments));
    }
  }

  /** Settling every tool seals the blocks. */
  lemma SettledSeals(s: E.State, blocks: seq<Block>, after: E.State, last: Reader, stream: seq<Event>)
    requires Heard(s.registry, stream) && Placed(s.registry.tools, Openings(stream), Told(stream).entries)
    requires E.Indexed(s.registry) && SettledIn(s.registry, after.registry, s.registry.byOutput.Keys)
    requires Shows(s, blocks, Told(stream).(talking := false)) && SameWords(blocks, last.blocks) && T.Linked(after, last)
    ensures SealedBlocks(stream, last.blocks)
  {
    hide Openings, Content, Told, ToolHeard, Settle;
    var t, tools, calls := Told(stream), after.registry.tools, Openings(stream);
    forall i | 0 <= i < |last.blocks| ensures last.blocks[i] == Sealed(stream, t.entries[i]) {
      assert BlockShows(blocks[i], t.entries[i], false);
      if t.entries[i].Call? {
        assert T.Owned(tools, i);
        var k :| 0 <= k < |tools| && tools[k].index == i;
        assert T.ToolLinked(tools[k], last);
        assert s.registry.tools[k].output in s.registry.byOutput.Keys;
        assert tools[k] == SettledTool(s.registry.tools[k]);
        assert t.entries[s.registry.tools[k].index] == Call(calls[k]);
        HeardContent(s.registry.tools[k], calls[k], stream);
      }
    }
  }

  lemma SealedClosed(stream: seq<Event>, blocks: seq<Block>)
    requires SealedBlocks(stream, blocks)
    ensures forall i :: 0 <= i < |blocks| ==> !blocks[i].open
  {
  }

  lemma FinishMeans(valid: string -> bool, s: E.State, r: Reader, stream: seq<Event>, stopReason: string)
    requires Agree(s, r, stream) && !s.terminal
    ensures var done := E.Finish(valid, s, stopReason);
            if stopReason != "max_tokens" && SomeInvalid(valid, stream)
            then done.events == [StreamError("invalid upstream function arguments")] && done.state.terminal && !done.state.success
            else done.state.terminal && done.state.success && Read(r, done.events).phase == Finished(stopReason)
                 && SealedBlocks(stream, Read(r, done.events).blocks)
  {
    hide T.Linked, Heard, Shows, Placed, Told, Openings, E.Indexed, Read, Refused, Reason, SettledIn, SameWords,
         SealedBlocks, SomeInvalid, InvalidIn, E.FinishTools;
    var text := E.CloseText(s);
    var keys := s.registry.byOutput.Keys;
    T.CloseTextLinked(s, r);
    CloseShows(s, r, Told(stream));
    HeardSaid(s.registry, stream);
    InvalidMeans(valid, s.registry, stream);
    FinishToolsSettle(valid, text.state, keys, stopReason, text.events, r);
    var done := E.FinishTools(valid, text.state, keys, stopReason, text.events);
    if !done.state.terminal {
      var last := Read(r, done.events);
      SettledSeals(text.state, Read(r, text.events).blocks, done.state, last, stream);
      SealedClosed(stream, last.blocks);
      assert last.phase.Streaming? by { LinkedStreams(done.state, last); }
      ReadConcat(r, done.events, [MessageDelta(stopReason, done.state.counters), MessageStop]);
      ReadTwo(last, MessageDelta(stopReason, done.state.counters), MessageStop);
    }
  }

  lemma LinkedStreams(s: E.State, r: Reader)
    requires T.Linked(s, r)
    ensures r.phase.Streaming? && |r.blocks| == s.nextIndex
  {
  }

  /** What one event does, whatever it is. */
  ghost predicate Happened(valid: string -> bool, step: E.Step, r: Reader, stream: seq<Event>, event: Event) {
    match ErrorOf(valid, stream, event.body)
    case Some(message) => step.events == [StreamError(message)] && step.state.terminal && !step.state.success
    case None =>
      if EndOf(stream, event.body).Some? then
        && step.state.terminal && step.state.success == event.body.Completed?
        && Read(r, step.events).phase == Finished(EndOf(stream, event.body).value)
        && SealedBlocks(stream, Read(r, step.events).blocks)
      else !step.state.terminal && Agree(step.state, Read(r, step.events), stream + [event])
  }

  lemma CompletedHappens(valid: string -> bool, s: E.State, r: Reader, stream: seq<Event>, event: Event)
    requires Agree(s, r, stream) && E.Indexed(s.registry) && !s.terminal && event.body.Completed?
    ensures Happened(valid, E.HandleBody(valid, s, event.body), r, stream, event)
  {
    hide Agree, E.Indexed, Read, E.Finish, SealedBlocks, SomeInvalid, Reason;
    ReasonIs(stream);
    AgreeBasics(s, r, stream);
    var reason := s.stopReason;
    assert reason != "max_tokens" by { assert |reason| < |"max_tokens"|; }
    FinishMeans(valid, s, r, stream, reason);
    assert E.HandleBody(valid, s, event.body) == E.Finish(valid, s, reason);
    assert EndOf(stream, event.body) == Some(reason);
    hide E.HandleBody;
  }

  lemma CutShortHappens(valid: string -> bool, s: E.State, r: Reader, stream: seq<Event>, event: Event)
    requires Agree(s, r, stream) && E.Indexed(s.registry) && !s.success && !s.terminal && event.body.Incomplete?
    ensures Happened(valid, E.HandleBody(valid, s, event.body), r, stream, event)
  {
    hide Agree, E.Indexed, Read, E.Finish, SealedBlocks, SomeInvalid, Reason;
    FinishMeans(valid, s, r, stream, "max_tokens");
  }

  lemma BodyHappens(valid: string -> bool, s: E.State, r: Reader, stream: seq<Event>, event: Event)
    requires Agree(s, r, stream) && !s.terminal && !event.body.Malformed?
    ensures Happened(valid, E.HandleBody(valid, s, event.body), r, stream, event)
  {
    hide Agree, Read, E.Indexed, SealedBlocks, Unmatched, Over, Contradicts, Taken, SomeInvalid;
    assert E.Indexed(s.registry) && !s.success by { AgreeBasics(s, r, stream); }
    if event.body.Completed? {
      CompletedHappens(valid, s, r, stream, event);
    } else if event.body.Incomplete? {
      CutShortHappens(valid, s, r, stream, event);
    } else if event.body.Failed? || event.body.ErrorBody? {
    } else {
      GoesOn(valid, s, r, stream, event);
      assert EndOf(stream, event.body).None?;
    }
    hide E.HandleBody, ErrorOf;
  }

  lemma AgreeBasics(s: E.State, r: Reader, stream: seq<Event>)
    requires Agree(s, r, stream)
    ensures E.Indexed(s.registry) && !s.success && r.phase.Streaming? && s.stopReason == Reason(stream)
  {
  }

  lemma GoesOn(valid: string -> bool, s: E.State, r: Reader, stream: seq<Event>, event: Event)
    requires Agree(s, r, stream) && !s.terminal
    requires !event.body.Malformed? && !event.body.Completed? && !event.body.Incomplete? && !event.body.Failed? && !event.body.ErrorBody?
    ensures Stepped(valid, E.HandleBody(valid, s, event.body), r, stream, event)
  {
    hide Agree, Stepped, E.Indexed, E.HandleBody;
    if event.body.TextDelta? || event.body.RefusalDelta? {
      TextStepped(valid, s, r, stream, event);
    } else if event.body.RefusalDone? {
      RefusalStepped(valid, s, r, stream, event);
    } else if event.body.TextDone? || event.body.PartDone? {
      CloseStepped(valid, s, r, stream, event);
    } else if Calls(event.body) {
      CallStepped(valid, s, r, stream, event);
    } else if event.body.ArgumentsDelta? {
      DeltaStepped(valid, s, r, stream, event);
    } else if Dones(event.body) {
      DoneStepped(valid, s, r, stream, event);
    } else {
      IgnoredStepped(valid, s, r, stream, event);
    }
  }

  lemma CountedAgree(s: E.State, r: Reader, stream: seq<Event>, event: Event)
    requires Agree(s, r, stream)
    ensures Agree(E.Count(s, event), r, stream)
  {
    T.CountLinked(s, event, r);
    hide T.Linked, Heard;
  }

  // -------------------------------------------------------------- whole streams

  lemma StartAgrees()
    ensures Agree(E.Start(E.INITIAL).state, Read(START, E.Start(E.INITIAL).events), [])
  {
    ReadOne(START, MessageStart);
  }

  /** As long as the reference goes on, the encoder agrees with it. */
  ghost predicate Right(valid: string -> bool, step: E.Step, stream: seq<Event>) {
    var r := Read(START, step.events);
    && step.state.terminal == !Live(valid, stream)
    && (Live(valid, stream) ==> Agree(step.state, r, stream))
    && View(valid, stream, r, step.state.success)
  }

  lemma HandleHappens(valid: string -> bool, s: E.State, r: Reader, stream: seq<Event>, event: Event)
    requires Agree(s, r, stream) && !s.terminal && E.Indexed(s.registry)
    ensures Happened(valid, E.Handle(valid, s, event), r, stream, event)
  {
    CountedAgree(s, r, stream, event);
    AgreeBasics(s, r, stream);
    hide Agree, E.Indexed, E.HandleBody, E.Count;
    if event.body.Malformed? {
      assert ErrorOf(valid, stream, event.body) == Some("invalid upstream stream event");
    } else {
      assert E.Count(s, event).registry == s.registry && E.Count(s, event).terminal == s.terminal by { CountedSame(s, event); }
      BodyHappens(valid, E.Count(s, event), r, stream, event);
    }
    hide ErrorOf;
  }

  lemma CountedSame(s: E.State, event: Event)
    ensures E.Count(s, event).registry == s.registry && E.Count(s, event).terminal == s.terminal
  {
  }

  lemma LiveNext(valid: string -> bool, stream: seq<Event>, event: Event)
    requires Live(valid, stream)
    ensures Live(valid, stream + [event]) <==> ErrorOf(valid, stream, event.body).None? && EndOf(stream, event.body).None?
  {
    hide ErrorOf, EndOf;
    OneMore(stream, event);
  }

  lemma FailedView(valid: string -> bool, stream: seq<Event>, event: Event, r: Reader)
    requires Live(valid, stream) && ErrorOf(valid, stream, event.body).Some? && Blocks(stream, r.blocks)
    ensures View(valid, stream + [event], r.(phase := Errored(ErrorOf(valid, stream, event.body).value)), false)
  {
    hide ErrorOf, EndOf, Blocks, SealedBlocks, Live;
    OneMore(stream, event);
  }

  lemma LiveView(valid: string -> bool, stream: seq<Event>, event: Event, r: Reader)
    requires Live(valid, stream) && ErrorOf(valid, stream, event.body).None?
    requires EndOf(stream, event.body).None?
    requires r.phase.Streaming? && Blocks(stream + [event], r.blocks)
    ensures View(valid, stream + [event], r, false)
  {
    hide ErrorOf, EndOf, Blocks, SealedBlocks, Live;
    OneMore(stream, event);
  }

  lemma EndedView(valid: string -> bool, stream: seq<Event>, event: Event, r: Reader)
    requires Live(valid, stream) && ErrorOf(valid, stream, event.body).None? && EndOf(stream, event.body).Some?
    requires r.phase == Finished(EndOf(stream, event.body).value) && SealedBlocks(stream, r.blocks)
    ensures View(valid, stream + [event], r, event.body.Completed?)
  {
    hide ErrorOf, EndOf, Blocks, SealedBlocks, Live;
    OneMore(stream, event);
  }

  lemma RightNext(valid: string -> bool, before: E.Step, step: E.Step, stream: seq<Event>, event: Event)
    requires Right(valid, before, stream) && Live(valid, stream)
    requires Happened(valid, step, Read(START, before.events), stream, event)
    ensures Right(valid, E.Step(step.state, before.events + step.events), stream + [event])
  {
    hide Agree, Read, E.Indexed, Blocks, SealedBlocks, ErrorOf, EndOf, View, Live;
    var r := Read(START, before.events);
    var next := Read(r, step.events);
    ReadConcat(START, before.events, step.events);
    AgreeBasics(before.state, r, stream);
    AgreeBlocks(before.state, r, stream);
    LiveNext(valid, stream, event);
    if ErrorOf(valid, stream, event.body).Some? {
      ReadOne(r, StreamError(ErrorOf(valid, stream, event.body).value));
      FailedView(valid, stream, event, r);
    } else if EndOf(stream, event.body).None? {
      AgreeBasics(step.state, next, stream + [event]);
      AgreeBlocks(step.state, next, stream + [event]);
      LiveView(valid, stream, event, next);
    } else {
      EndedView(valid, stream, event, next);
    }
  }

  lemma LiveAgree(valid: string -> bool, before: E.Step, event: Event, stream: seq<Event>)
    requires Right(valid, before, stream) && Live(valid, stream) && E.Indexed(before.state.registry)
    ensures var step := E.Handle(valid, before.state, event);
            Right(valid, E.Step(step.state, before.events + step.events), stream + [event])
  {
    HandleHappens(valid, before.state, Read(START, before.events), stream, event);
    RightNext(valid, before, E.Handle(valid, before.state, event), stream, event);
  }

  /** For every upstream event sequence, the client is left with exactly what the
      reference says, and the encoder's own verdict is the reference's. */
  lemma StartRight(valid: string -> bool)
    ensures Right(valid, E.Encode(valid, []), [])
  {
    StartAgrees();
    ReadOne(START, MessageStart);
    hide Agree;
  }

  lemma OverNext(valid: string -> bool, stream: seq<Event>, event: Event, r: Reader, success: bool)
    requires !Live(valid, stream) && View(valid, stream, r, success)
    ensures !Live(valid, stream + [event]) && View(valid, stream + [event], r, success)
  {
    hide ErrorOf, EndOf, Blocks, SealedBlocks;
    OneMore(stream, event);
  }

  lemma EncodeOver(valid: string -> bool, front: seq<Event>, event: Event)
    requires E.Encode(valid, front).state.terminal
    ensures E.Encode(valid, front + [event]) == E.Encode(valid, front)
  {
    OneMore(front, event);
    assert E.Encode(valid, front).events + [] == E.Encode(valid, front).events;
  }

  lemma EncodeNext(valid: string -> bool, front: seq<Event>, event: Event)
    ensures var before := E.Encode(valid, front);
            var step := E.Handle(valid, before.state, event);
            E.Encode(valid, front + [event]) == E.Step(step.state, before.events + step.events)
  {
    OneMore(front, event);
  }

  /** For every upstream event sequence, the client is left with exactly what the
      reference says, and the encoder's own verdict is the reference's. */
  lemma {:induction false} EncodeMeans(valid: string -> bool, stream: seq<Event>)
    ensures Right(valid, E.Encode(valid, stream), stream)
  {
    hide Agree, Read, Live, View, E.Encode, E.Handle, E.Indexed;
    if stream == [] {
      StartRight(valid);
    } else {
      var front, event := stream[..|stream| - 1], stream[|stream| - 1];
      var before := E.Encode(valid, front);
      EncodeMeans(valid, front);
      assert front + [event] == stream;
      if Live(valid, front) {
        LiveAgree(valid, before, event, front);
        EncodeNext(valid, front, event);
      } else {
        EncodeOver(valid, front, event);
        OverNext(valid, front, event, Read(START, before.events), before.state.success);
      }
    }
  }

  lemma {:induction false} ViewTells(valid: string -> bool, stream: seq<Event>, r: Reader) returns (n: nat)
    requires View(valid, stream, r, true)
    ensures n < |stream| && Live(valid, stream[..n]) && stream[n].body.Completed? && !SomeInvalid(valid, stream[..n])
    ensures r.phase == Finished(Reason(stream[..n])) && SealedBlocks(stream[..n], r.blocks)
  {
    hide SealedBlocks, Blocks, SomeInvalid, Reason;
    n := |stream| - 1;
    if !Live(valid, stream[..n]) {
      var m := ViewTells(valid, stream[..n], r);
      assert stream[..n][..m] == stream[..m];
      n := m;
    }
  }

  /** A stream the encoder counts as a success: some event completed it, nothing
      before that failed, and every call shows what was sent for it. */
  lemma SuccessTells(valid: string -> bool, stream: seq<Event>) returns (n: nat)
    requires E.Encode(valid, stream).state.success
    ensures n < |stream| && Live(valid, stream[..n]) && stream[n].body.Completed? && !SomeInvalid(valid, stream[..n])
    ensures var r := Read(START, E.Encode(valid, stream).events);
            r.phase == Finished(Reason(stream[..n])) && SealedBlocks(stream[..n], r.blocks)
  {
    EncodeMeans(valid, stream);
    n := ViewTells(valid, stream, Read(START, E.Encode(valid, stream).events));
  }

  // ----------------------------------------------------- nothing added, nothing lost

  function CallsIn(entries: seq<Entry>): seq<Opening> {
    if entries == [] then []
    else
      var last := entries[|entries| - 1];
      CallsIn(entries[..|entries| - 1]) + if last.Call? then [last.opening] else []
  }

  function WordsIn(entries: seq<Entry>): string {
    if entries == [] then ""
    else
      var last := entries[|entries| - 1];
      WordsIn(entries[..|entries| - 1]) + if last.Words? then last.text else ""
  }

  /** All visible text, in order. */
  function AllSaid(stream: seq<Event>): string {
    if stream == [] then ""
    else AllSaid(stream[..|stream| - 1]) + Said(stream[..|stream| - 1], stream[|stream| - 1].body)
  }

  lemma EntrySnoc(entries: seq<Entry>, entry: Entry)
    ensures CallsIn(entries + [entry]) == CallsIn(entries) + if entry.Call? then [entry.opening] else []
    ensures WordsIn(entries + [entry]) == WordsIn(entries) + if entry.Words? then entry.text else ""
  {
    assert (entries + [entry])[..|entries|] == entries;
  }

  lemma SpeakAdds(t: Script, said: string)
    requires Sane(t)
    ensures CallsIn(Speak(t, said).entries) == CallsIn(t.entries)
    ensures WordsIn(Speak(t, said).entries) == WordsIn(t.entries) + said
  {
    if said != "" {
      if t.talking {
        var last := |t.entries| - 1;
        var front, text := t.entries[..last], t.entries[last].text;
        assert t.entries == front + [Words(text)] && Speak(t, said).entries == front + [Words(text + said)];
        EntrySnoc(front, Words(text));
        EntrySnoc(front, Words(text + said));
        assert WordsIn(front) + (text + said) == WordsIn(front) + text + said;
      } else {
        EntrySnoc(t.entries, Words(said));
      }
    }
  }

  /** The blocks hold every call once, in the order the calls were opened, and all
      the text in its order. */
  lemma {:induction false} ToldConserves(stream: seq<Event>)
    ensures CallsIn(Told(stream).entries) == Openings(stream)
    ensures WordsIn(Told(stream).entries) == AllSaid(stream)
  {
    if stream != [] {
      var front, body := stream[..|stream| - 1], stream[|stream| - 1].body;
      ToldConserves(front);
      SpeakAdds(Told(front), Said(front, body));
      if Calls(body) { EntrySnoc(Told(front).entries, Call(OpeningOf(body))); }
      assert Openings(front) + [] == Openings(front);
      assert AllSaid(front) + "" == AllSaid(front);
    }
  }

  // ------------------------------------------------------------------ token counts

  /** The usage an event reports: its response's, or else its own. */
  function UsageIn(event: Event): Option<TokenUsage> {
    match event.body
    case Created(response) => if response.usage.Some? then response.usage else event.usage
    case Completed(response) => if response.usage.Some? then response.usage else event.usage
    case Incomplete(response) => if response.usage.Some? then response.usage else event.usage
    case _ => event.usage
  }

  function CachedOf(usage: TokenUsage): Option<int> {
    if usage.details.Some? then usage.details.value.cached else None
  }

  function WrittenOf(usage: TokenUsage): Option<int> {
    if usage.details.Some? then usage.details.value.cacheWrite else None
  }

  /** Input tokens that were neither read from nor written to a cache. */
  function FreshOf(usage: TokenUsage): Option<int> {
    var cached := if CachedOf(usage).Some? then CachedOf(usage).value else 0;
    var written := if WrittenOf(usage).Some? then WrittenOf(usage).value else 0;
    if usage.input.None? then None
    else if usage.input.value <= cached + written then Some(0)
    else Some(usage.input.value - cached - written)
  }

  /** The last value reported. */
  function LastOf(stream: seq<Event>, pick: TokenUsage -> Option<int>): Option<int> {
    if stream == [] then None
    else
      var usage := UsageIn(stream[|stream| - 1]);
      if usage.Some? && pick(usage.value).Some? then pick(usage.value) else LastOf(stream[..|stream| - 1], pick)
  }

  function Tally(stream: seq<Event>): Counters {
    Counters(LastOf(stream, FreshOf), LastOf(stream, (usage: TokenUsage) => usage.output),
             LastOf(stream, WrittenOf), LastOf(stream, CachedOf))
  }

  lemma TallySnoc(s: E.State, stream: seq<Event>, event: Event)
    requires s.counters == Tally(stream)
    ensures E.Count(s, event).counters == Tally(stream + [event])
  {
    OneMore(stream, event);
  }

  lemma {:induction false} ToolsUncounted(valid: string -> bool, s: E.State, todo: set<int>, stopReason: string, events: seq<ClientEvent>)
    requires E.Indexed(s.registry) && todo <= s.registry.byOutput.Keys && !s.terminal
    ensures var done := E.FinishTools(valid, s, todo, stopReason, events).state;
            done.counters == s.counters && (done.terminal ==> !done.success)
    decreases |todo|
  {
    if todo != {} {
      var o := LeastOf(todo);
      var k := s.registry.byOutput[o];
      E.FinishToolIndexed(s, k, "");
      var done := if s.registry.tools[k].closed then E.Step(s, []) else E.FinishTool(s, k, "");
      if !done.state.terminal && (stopReason == "max_tokens" || valid(done.state.registry.tools[k].arguments)) {
        ToolsUncounted(valid, done.state, todo - {o}, stopReason, events + done.events);
      }
    }
  }

  lemma FinishCounts(valid: string -> bool, s: E.State, stopReason: string)
    requires E.Indexed(s.registry) && !s.terminal
    ensures var done := E.Finish(valid, s, stopReason);
            done.state.counters == s.counters &&
            (done.state.success ==>
               |done.events| >= 2 && done.events[|done.events| - 2..] == [MessageDelta(stopReason, s.counters), MessageStop])
  {
    var text := E.CloseText(s);
    ToolsUncounted(valid, text.state, s.registry.byOutput.Keys, stopReason, text.events);
    hide E.FinishTools, E.Indexed;
  }

  lemma ToolCounts(valid: string -> bool, s: E.State, body: Body)
    requires E.Indexed(s.registry) && !s.terminal
    requires body.ItemAdded? || body.ItemDone? || body.ArgumentsDelta? || body.ArgumentsDone?
    ensures E.HandleBody(valid, s, body).state.counters == s.counters
  {
    hide E.Indexed, E.FindTool, E.Register, E.Replace, E.Finish;
  }

  lemma TextCounts(valid: string -> bool, s: E.State, body: Body)
    requires E.Indexed(s.registry) && !s.terminal
    requires !body.ItemAdded? && !body.ItemDone? && !body.ArgumentsDelta? && !body.ArgumentsDone?
    ensures E.HandleBody(valid, s, body).state.counters == s.counters
  {
    hide E.Finish, E.FindTool, E.FinishTool, E.Indexed;
    FinishCounts(valid, s, s.stopReason);
    FinishCounts(valid, s, "max_tokens");
  }

  lemma BodyCounts(valid: string -> bool, s: E.State, body: Body)
    requires E.Indexed(s.registry) && !s.terminal
    ensures E.HandleBody(valid, s, body).state.counters == s.counters
  {
    hide E.HandleBody, E.Indexed;
    if body.ItemAdded? || body.ItemDone? || body.ArgumentsDelta? || body.ArgumentsDone? {
      ToolCounts(valid, s, body);
    } else {
      TextCounts(valid, s, body);
    }
  }

  lemma EndingCounts(valid: string -> bool, s: E.State, r: Reader, front: seq<Event>, event: Event)
    requires Agree(s, r, front) && E.Indexed(s.registry) && !s.terminal && s.stopReason == Reason(front)
    requires ErrorOf(valid, front, event.body).None? && EndOf(front, event.body).Some?
    ensures var log := E.HandleBody(valid, s, event.body).events;
            |log| >= 2 && log[|log| - 2..] == [MessageDelta(EndOf(front, event.body).value, s.counters), MessageStop]
  {
    hide Agree, E.Indexed, E.Finish, Read, SealedBlocks, SomeInvalid, Reason;
    if event.body.Completed? {
      FinishMeans(valid, s, r, front, s.stopReason);
      FinishCounts(valid, s, s.stopReason);
    } else {
      FinishMeans(valid, s, r, front, "max_tokens");
      FinishCounts(valid, s, "max_tokens");
    }
  }

  /** What the encoder holds when the event after a live stream is handled. */
  lemma AtLive(valid: string -> bool, front: seq<Event>, event: Event)
    requires Live(valid, front)
    requires E.Encode(valid, front).state.counters == Tally(front)
    ensures var s := E.Encode(valid, front).state;
            !s.terminal && E.Count(s, event).counters == Tally(front + [event]) &&
            !E.Count(s, event).terminal && E.Count(s, event).stopReason == Reason(front) &&
            Agree(E.Count(s, event), Read(START, E.Encode(valid, front).events), front)
  {
    hide Agree, Read, Tally, Live;
    var before := E.Encode(valid, front);
    EncodeMeans(valid, front);
    TallySnoc(before.state, front, event);
    AgreeBasics(before.state, Read(START, before.events), front);
    CountedAgree(before.state, Read(START, before.events), front, event);
  }

  lemma CountsNext(valid: string -> bool, front: seq<Event>, event: Event)
    requires Live(valid, front) && !event.body.Malformed? && E.Encode(valid, front).state.counters == Tally(front)
    ensures E.Encode(valid, front + [event]).state.counters == Tally(front + [event])
  {
    hide Agree, Read, Tally, E.HandleBody, E.Count, Live, E.Indexed;
    AtLive(valid, front, event);
    OneMore(front, event);
    AgreeBasics(E.Count(E.Encode(valid, front).state, event), Read(START, E.Encode(valid, front).events), front);
    BodyCounts(valid, E.Count(E.Encode(valid, front).state, event), event.body);
  }

  lemma LiveSplit(valid: string -> bool, stream: seq<Event>)
    requires Live(valid, stream) && stream != []
    ensures Live(valid, stream[..|stream| - 1]) && !stream[|stream| - 1].body.Malformed?
  {
  }

  lemma StartCounts(valid: string -> bool)
    ensures E.Encode(valid, []).state.counters == Tally([])
  {
  }

  lemma {:induction false} EncodeCounts(valid: string -> bool, stream: seq<Event>)
    requires Live(valid, stream)
    ensures E.Encode(valid, stream).state.counters == Tally(stream)
  {
    hide E.Encode, Tally, Live;
    if stream == [] {
      StartCounts(valid);
    } else {
      var front, event := stream[..|stream| - 1], stream[|stream| - 1];
      LiveSplit(valid, stream);
      EncodeCounts(valid, front);
      assert front + [event] == stream;
      CountsNext(valid, front, event);
    }
  }

  /** A normal end reports the last counts of the whole stream, its final event
      included, and the last two client events are the message_delta with them and
      the message_stop. */
  lemma ClosingCounts(valid: string -> bool, front: seq<Event>, event: Event)
    requires Live(valid, front) && ErrorOf(valid, front, event.body).None? && EndOf(front, event.body).Some?
    ensures var log := E.Encode(valid, front + [event]).events;
            |log| >= 2 && log[|log| - 2..] == [MessageDelta(EndOf(front, event.body).value, Tally(front + [event])), MessageStop]
  {
    var before := E.Encode(valid, front);
    var s := E.Count(before.state, event);
    OneMore(front, event);
    EncodeCounts(valid, front);
    AtLive(valid, front, event);
    assert !event.body.Malformed?;
    AgreeBasics(s, Read(START, before.events), front);
    EndingCounts(valid, s, Read(START, before.events), front, event);
    hide Agree, Read, Tally, E.HandleBody, E.Count, ErrorOf, EndOf, E.Indexed, Live;
  }
}
