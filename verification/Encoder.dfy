/** The Responses-to-Anthropic stream encoder as a state machine on values: what
    each method of the encoder object does to its state and which client events
    it returns. Tools live in an arena so that the item index and the output
    index can name the same tool. */
module Encoder {
  import opened Optional
  import opened Wire
  import opened Least

  datatype Tool = Tool(itemID: string, output: int, callID: string, index: nat, arguments: string, closed: bool)

  /** The tools in the order they were opened, and the two indexes over them. */
  datatype Registry = Registry(tools: seq<Tool>, byItem: map<string, nat>, byOutput: map<int, nat>)

  datatype State = State(
    nextIndex: nat,
    textOpen: bool,
    textIndex: nat,
    refusalText: string,
    stopReason: string,
    started: bool,
    terminal: bool,
    success: bool,
    counters: Counters,
    registry: Registry)

  datatype Step = Step(state: State, events: seq<ClientEvent>)

  const INITIAL := State(0, false, 0, "", "end_turn", false, false, false,
                         Counters(None, None, None, None), Registry([], map[], map[]))

  const INVALID_EVENT := "invalid upstream stream event"
  const INCOMPLETE_CALL := "incomplete upstream function call"
  const DUPLICATE_CALL := "duplicate upstream function call"
  const UNMATCHED_ARGUMENTS := "unmatched upstream function arguments"
  const UNMATCHED_CALL := "unmatched upstream function call"
  const MISMATCHED_ARGUMENTS := "upstream function arguments mismatch"
  const MISMATCHED_REFUSAL := "upstream refusal text mismatch"
  const INVALID_ARGUMENTS := "invalid upstream function arguments"
  const UPSTREAM_INCOMPLETE := "upstream response incomplete"
  const UPSTREAM_FAILED := "upstream response failed"

  /** The two indexes agree: each names every tool of the arena exactly once,
      under that tool's own key. */
  ghost predicate Indexed(r: Registry) {
    && (forall id :: id in r.byItem ==> r.byItem[id] < |r.tools| && r.tools[r.byItem[id]].itemID == id)
    && (forall o :: o in r.byOutput ==> r.byOutput[o] < |r.tools| && r.tools[r.byOutput[o]].output == o)
    && (forall k :: 0 <= k < |r.tools| ==> r.tools[k].itemID in r.byItem && r.byItem[r.tools[k].itemID] == k)
    && (forall k :: 0 <= k < |r.tools| ==> r.tools[k].output in r.byOutput && r.byOutput[r.tools[k].output] == k)
  }

  function Register(r: Registry, tool: Tool): Registry {
    Registry(r.tools + [tool], r.byItem[tool.itemID := |r.tools|], r.byOutput[tool.output := |r.tools|])
  }

  function Replace(r: Registry, k: nat, tool: Tool): Registry
    requires k < |r.tools|
  {
    r.(tools := r.tools[k := tool])
  }

  lemma RegisterIndexed(r: Registry, tool: Tool)
    requires Indexed(r) && tool.itemID !in r.byItem && tool.output !in r.byOutput
    ensures Indexed(Register(r, tool))
  {
  }

  lemma ReplaceIndexed(r: Registry, k: nat, tool: Tool)
    requires Indexed(r) && k < |r.tools|
    requires tool.itemID == r.tools[k].itemID && tool.output == r.tools[k].output
    ensures Indexed(Replace(r, k, tool))
  {
  }

  // ------------------------------------------------------------------- usage

  function OrElse(o: Option<int>, default: int): int {
    if o.Some? then o.value else default
  }

  /** The usage object the encoder looks at: the response's own if it has one,
      otherwise the one at the top level. */
  function UsageOf(event: Event): Option<TokenUsage> {
    if (event.body.Created? || event.body.Completed? || event.body.Incomplete?) && event.body.response.usage.Some?
    then event.body.response.usage
    else event.usage
  }

  /** Counters reported by one event; input excludes both kinds of cached
      tokens and never drops below zero. */
  function ExtractUsage(event: Event): Counters {
    match UsageOf(event)
    case None => Counters(None, None, None, None)
    case Some(usage) =>
      var details := if usage.details.Some? then usage.details.value else TokenDetails(None, None);
      var uncached := OrElse(usage.input, 0) - (OrElse(details.cached, 0) + OrElse(details.cacheWrite, 0));
      Counters(if usage.input.None? then None else Some(if uncached < 0 then 0 else uncached),
               usage.output, details.cacheWrite, details.cached)
  }

  function Latest(before: Option<int>, seen: Option<int>): Option<int> {
    if seen.Some? then seen else before
  }

  function Count(s: State, event: Event): State {
    var seen := ExtractUsage(event);
    s.(counters := Counters(Latest(s.counters.input, seen.input), Latest(s.counters.output, seen.output),
                            Latest(s.counters.cacheCreation, seen.cacheCreation),
                            Latest(s.counters.cacheRead, seen.cacheRead)))
  }

  // -------------------------------------------------------------- operations

  function Start(s: State): Step {
    if s.started then Step(s, []) else Step(s.(started := true), [MessageStart])
  }

  function Fail(s: State, message: string): Step {
    if s.terminal then Step(s, [])
    else Step(s.(terminal := true, success := false), [StreamError(message)])
  }

  function AddText(s: State, delta: string): Step {
    if delta == "" then Step(s, [])
    else if s.textOpen then Step(s, [BlockDelta(s.textIndex, TextFragment(delta))])
    else
      Step(s.(textIndex := s.nextIndex, nextIndex := s.nextIndex + 1, textOpen := true),
           [BlockStart(s.nextIndex, TextBlock), BlockDelta(s.nextIndex, TextFragment(delta))])
  }

  function CloseText(s: State): Step {
    if !s.textOpen then Step(s, []) else Step(s.(textOpen := false), [BlockStop(s.textIndex)])
  }

  /** The arena position an upstream reference resolves to. */
  function FindTool(r: Registry, itemID: string, output: Option<int>): (found: Option<nat>)
    requires Indexed(r)
    ensures found.Some? ==> found.value < |r.tools|
  {
    if itemID != "" then
      if itemID in r.byItem then
        var k := r.byItem[itemID];
        assert k < |r.tools|;
        Some(k)
      else None
    else if output.Some? && output.value in r.byOutput then
      var o: int := output.value;
      assert o in r.byOutput;
      assert r.byOutput[o] < |r.tools|;
      Some(r.byOutput[o])
    else None
  }

  function AddArguments(s: State, k: nat, fragment: string): Step
    requires k < |s.registry.tools|
  {
    var tool := s.registry.tools[k];
    Step(s.(registry := Replace(s.registry, k, tool.(arguments := tool.arguments + fragment))),
         [BlockDelta(tool.index, JsonFragment(fragment))])
  }

  /** Closing a tool: the final arguments, if any, either complete an empty tool
      or must agree with what was streamed; a tool left empty gets an empty
      object. */
  function FinishTool(s: State, k: nat, final: string): Step
    requires k < |s.registry.tools|
  {
    var tool := s.registry.tools[k];
    if tool.closed then
      if final != "" && final != tool.arguments then Fail(s, MISMATCHED_ARGUMENTS) else Step(s, [])
    else if final != "" && tool.arguments != "" && tool.arguments != final then Fail(s, MISMATCHED_ARGUMENTS)
    else
      var missing := if tool.arguments != "" then "" else if final != "" then final else "{}";
      Step(s.(registry := Replace(s.registry, k, tool.(arguments := tool.arguments + missing, closed := true))),
           (if missing == "" then [] else [BlockDelta(tool.index, JsonFragment(missing))]) + [BlockStop(tool.index)])
  }

  function OpenTool(s: State, output: int, call: Item): Step
    requires call.FunctionCall?
  {
    var text := CloseText(s);
    var tool := Tool(call.id, output, call.callID, s.nextIndex, call.arguments, false);
    Step(text.state.(nextIndex := s.nextIndex + 1, stopReason := "tool_use", registry := Register(s.registry, tool)),
         text.events + [BlockStart(s.nextIndex, ToolUse(call.callID, call.name))] +
         (if call.arguments == "" then [] else [BlockDelta(s.nextIndex, JsonFragment(call.arguments))]))
  }

  /** The finishing loop over the output indexes still to visit, lowest first;
      `events` are those already collected, which a failure discards. */
  ghost function FinishTools(valid: string -> bool, s: State, todo: set<int>, stopReason: string, events: seq<ClientEvent>): Step
    requires Indexed(s.registry) && todo <= s.registry.byOutput.Keys
    decreases |todo|
  {
    if todo == {} then Step(s, events)
    else
      var o := LeastOf(todo);
      var k := s.registry.byOutput[o];
      var done := if s.registry.tools[k].closed then Step(s, []) else FinishTool(s, k, "");
      if done.state.terminal then done
      else if stopReason != "max_tokens" && !valid(done.state.registry.tools[k].arguments) then
        Fail(done.state, INVALID_ARGUMENTS)
      else
        FinishTools(valid, done.state, todo - {o}, stopReason, events + done.events)
  }

  ghost function Finish(valid: string -> bool, s: State, stopReason: string): Step
    requires Indexed(s.registry)
  {
    if s.terminal then Step(s, [])
    else
      var text := CloseText(s);
      var done := FinishTools(valid, text.state, text.state.registry.byOutput.Keys, stopReason, text.events);
      if done.state.terminal then done
      else
        Step(done.state.(stopReason := stopReason, terminal := true, success := true),
             done.events + [MessageDelta(stopReason, done.state.counters), MessageStop])
  }

  ghost function HandleBody(valid: string -> bool, s: State, body: Body): Step
    requires Indexed(s.registry)
  {
    match body
    case TextDelta(_, _, delta) => AddText(s, delta)
    case RefusalDelta(_, _, delta) =>
      AddText(s.(stopReason := "refusal", refusalText := s.refusalText + delta), delta)
    case RefusalDone(_, _, refusal) =>
      var refused := s.(stopReason := "refusal");
      if refusal != s.refusalText then
        if s.refusalText == "" && refusal != "" then AddText(refused.(refusalText := refusal), refusal)
        else Fail(refused, MISMATCHED_REFUSAL)
      else CloseText(refused)
    case TextDone(_, _, _) => CloseText(s)
    case PartDone(_, _, _) => CloseText(s)
    case ItemAdded(output, item) =>
      if !item.FunctionCall? then Step(s, [])
      else if item.id == "" || item.callID == "" || item.name == "" || output.None? then Fail(s, INCOMPLETE_CALL)
      else if item.id in s.registry.byItem || output.value in s.registry.byOutput then Fail(s, DUPLICATE_CALL)
      else OpenTool(s, output.value, item)
    case ArgumentsDelta(itemID, output, delta) =>
      var found := FindTool(s.registry, itemID, output);
      if found.None? || s.registry.tools[found.value].closed then Fail(s, UNMATCHED_ARGUMENTS)
      else if delta == "" then Step(s, [])
      else AddArguments(s, found.value, delta)
    case ArgumentsDone(itemID, output, arguments) =>
      var found := FindTool(s.registry, itemID, output);
      if found.None? then Fail(s, UNMATCHED_ARGUMENTS) else FinishTool(s, found.value, arguments)
    case ItemDone(output, item) =>
      if !item.FunctionCall? then Step(s, [])
      else
        var found := FindTool(s.registry, item.id, output);
        if found.None? then Fail(s, UNMATCHED_CALL) else FinishTool(s, found.value, item.arguments)
    case Completed(_) => Finish(valid, s, s.stopReason)
    case Incomplete(response) =>
      if response.incompleteReason == Some("max_output_tokens") then
        var done := Finish(valid, s, "max_tokens");
        done.(state := done.state.(success := false))
      else Fail(s, UPSTREAM_INCOMPLETE)
    case Failed => Fail(s, UPSTREAM_FAILED)
    case ErrorBody => Fail(s, UPSTREAM_FAILED)
    case _ => Step(s, [])
  }

  ghost function Handle(valid: string -> bool, s: State, event: Event): Step
    requires Indexed(s.registry)
  {
    if s.terminal then Step(s, [])
    else if event.body.Malformed? then Fail(s, INVALID_EVENT)
    else HandleBody(valid, Count(s, event), event.body)
  }

  // ---------------------------------------------- the two indexes stay in step

  lemma AddArgumentsIndexed(s: State, k: nat, fragment: string)
    requires Indexed(s.registry) && k < |s.registry.tools|
    ensures Indexed(AddArguments(s, k, fragment).state.registry)
  {
    ReplaceIndexed(s.registry, k, s.registry.tools[k].(arguments := s.registry.tools[k].arguments + fragment));
  }

  lemma FinishToolIndexed(s: State, k: nat, final: string)
    requires Indexed(s.registry) && k < |s.registry.tools|
    ensures Indexed(FinishTool(s, k, final).state.registry)
    ensures FinishTool(s, k, final).state.registry.byOutput == s.registry.byOutput
  {
    var tool := s.registry.tools[k];
    var missing := if tool.arguments != "" then "" else if final != "" then final else "{}";
    ReplaceIndexed(s.registry, k, tool.(arguments := tool.arguments + missing, closed := true));
  }

  lemma {:induction false} FinishToolsIndexed(valid: string -> bool, s: State, todo: set<int>, stopReason: string, events: seq<ClientEvent>)
    requires Indexed(s.registry) && todo <= s.registry.byOutput.Keys
    ensures Indexed(FinishTools(valid, s, todo, stopReason, events).state.registry)
    decreases |todo|
  {
    if todo != {} {
      var o := LeastOf(todo);
      var k := s.registry.byOutput[o];
      FinishToolIndexed(s, k, "");
      var done := if s.registry.tools[k].closed then Step(s, []) else FinishTool(s, k, "");
      if !done.state.terminal && (stopReason == "max_tokens" || valid(done.state.registry.tools[k].arguments)) {
        FinishToolsIndexed(valid, done.state, todo - {o}, stopReason, events + done.events);
      }
    }
  }

  lemma OpenToolIndexed(s: State, output: int, call: Item)
    requires call.FunctionCall?
    requires Indexed(s.registry) && call.id !in s.registry.byItem && output !in s.registry.byOutput
    ensures Indexed(OpenTool(s, output, call).state.registry)
  {
    RegisterIndexed(s.registry, Tool(call.id, output, call.callID, s.nextIndex, call.arguments, false));
  }

  lemma ToolEventIndexed(valid: string -> bool, s: State, body: Body)
    requires Indexed(s.registry) && (body.ItemAdded? || body.ItemDone? || body.ArgumentsDelta? || body.ArgumentsDone?)
    ensures Indexed(HandleBody(valid, s, body).state.registry)
  {
    match body
    case ItemAdded(output, item) =>
      if item.FunctionCall? && output.Some? && item.id !in s.registry.byItem && output.value !in s.registry.byOutput {
        OpenToolIndexed(s, output.value, item);
      }
      hide OpenTool;
    case ArgumentsDelta(itemID, output, delta) =>
      var found := FindTool(s.registry, itemID, output);
      if found.Some? { AddArgumentsIndexed(s, found.value, delta); }
      hide AddArguments;
    case ArgumentsDone(itemID, output, arguments) =>
      var found := FindTool(s.registry, itemID, output);
      if found.Some? { FinishToolIndexed(s, found.value, arguments); }
      hide FinishTool;
    case ItemDone(output, item) =>
      if item.FunctionCall? {
        var found := FindTool(s.registry, item.id, output);
        if found.Some? { FinishToolIndexed(s, found.value, item.arguments); }
      }
      hide FinishTool;
  }

  /** Every event, well formed or not, leaves the two indexes over the same tools. */
  lemma HandleBodyIndexed(valid: string -> bool, s: State, body: Body)
    requires Indexed(s.registry)
    ensures Indexed(HandleBody(valid, s, body).state.registry)
  {
    if body.ItemAdded? || body.ItemDone? || body.ArgumentsDelta? || body.ArgumentsDone? {
      ToolEventIndexed(valid, s, body);
    } else {
      FinishToolsIndexed(valid, CloseText(s).state, s.registry.byOutput.Keys, s.stopReason, CloseText(s).events);
      FinishToolsIndexed(valid, CloseText(s).state, s.registry.byOutput.Keys, "max_tokens", CloseText(s).events);
      hide Indexed;
      hide FinishTools;
    }
  }

  /** Everything the encoder has done after a whole upstream stream: its state
      and the complete client log, opening event included. */
  ghost function Encode(valid: string -> bool, stream: seq<Event>): (r: Step)
    ensures Indexed(r.state.registry)
  {
    if stream == [] then Start(INITIAL)
    else
      var before := Encode(valid, stream[..|stream| - 1]);
      var event := stream[|stream| - 1];
      HandleBodyIndexed(valid, Count(before.state, event), event.body);
      var step := Handle(valid, before.state, event);
      Step(step.state, before.events + step.events)
  }
}
