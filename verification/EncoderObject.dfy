/** The encoder as the object it is: mutable fields, tool objects shared between
    the item index and the output index, and methods that return client events.
    Every method is proved against its step of `Encoder`. */
module EncoderObject {
  import opened Optional
  import opened Wire
  import opened Least
  import E = Encoder

  class StreamTool {
    const itemID: string
    const callID: string
    const index: nat
    var arguments: string
    var closed: bool
    ghost const output: int
    ghost const position: nat

    constructor (itemID: string, callID: string, index: nat, ghost output: int, ghost position: nat)
      ensures Value() == E.Tool(itemID, output, callID, index, "", false) && this.position == position
      ensures this.index == index && this.callID == callID
    {
      this.itemID, this.callID, this.index, this.output, this.position := itemID, callID, index, output, position;
      arguments, closed := "", false;
    }

    ghost function Value(): E.Tool
      reads this
    {
      E.Tool(itemID, output, callID, index, arguments, closed)
    }
  }

  predicate Ascending(indices: seq<int>) {
    forall i, j :: 0 <= i < j < |indices| ==> indices[i] < indices[j]
  }

  /** The elements from position `i` on. */
  function Rest(indices: seq<int>, i: nat): set<int>
    requires i <= |indices|
  {
    set x | x in indices[i..]
  }

  lemma RestStep(indices: seq<int>, i: nat)
    requires Ascending(indices) && i < |indices|
    ensures IsLeast(Rest(indices, i), indices[i])
    ensures Rest(indices, i + 1) == Rest(indices, i) - {indices[i]}
    ensures forall j :: i <= j < |indices| ==> indices[j] in Rest(indices, i)
  {
    var rest := indices[i..];
    assert rest[0] == indices[i];
    forall j | i <= j < |indices| ensures indices[j] in rest {
      assert rest[j - i] == indices[j];
    }
    assert indices[i + 1..] == rest[1..];
    forall x | x in rest ensures indices[i] <= x && (x == indices[i] || x in indices[i + 1..]) {
      var j :| 0 <= j < |rest| && rest[j] == x;
      assert j > 0 ==> rest[1..][j - 1] == x;
    }
    forall x | x in indices[i + 1..] ensures x in rest && indices[i] < x {
      var j :| 0 <= j < |rest[1..]| && rest[1..][j] == x;
      assert rest[j + 1] == x;
    }
  }

  /** The keys of the output index in ascending order. */
  method SortedKeys(keys: set<int>) returns (indices: seq<int>)
    ensures Ascending(indices) && Rest(indices, 0) == keys
  {
    indices := [];
    var rest := keys;
    while rest != {}
      invariant rest <= keys
      invariant Ascending(indices)
      invariant forall x :: x in indices <==> x in keys - rest
      invariant forall x, y :: x in indices && y in rest ==> x < y
      decreases |rest|
    {
      var least := TakeLeast(rest);
      var before := indices;
      indices := indices + [least];
      assert forall x :: x in indices <==> x in before || x == least;
      assert forall i :: 0 <= i < |before| ==> before[i] in before;
      rest := rest - {least};
    }
    assert indices[0..] == indices;
    assert forall x :: x in Rest(indices, 0) <==> x in keys;
  }

  method TakeLeast(s: set<int>) returns (least: int)
    requires s != {}
    ensures IsLeast(s, least)
  {
    Inhabited(s);
    least :| least in s;
    var rest := s - {least};
    while rest != {}
      invariant least in s && rest <= s
      invariant forall x :: x in s && x !in rest ==> least <= x
      decreases |rest|
    {
      Inhabited(rest);
      var x :| x in rest;
      rest := rest - {x};
      if x < least { least := x; }
    }
  }

  /** The maps of tool objects lead to the arena positions the registry's maps give. */
  ghost predicate Leads(toolsByItem: map<string, StreamTool>, toolsByOutput: map<int, StreamTool>, arena: seq<StreamTool>,
                        byItem: map<string, nat>, byOutput: map<int, nat>)
  {
    && (forall k :: 0 <= k < |arena| ==> arena[k].position == k)
    && toolsByItem.Keys == byItem.Keys
    && toolsByOutput.Keys == byOutput.Keys
    && (forall id :: id in toolsByItem ==> byItem[id] < |arena| && toolsByItem[id] == arena[byItem[id]])
    && (forall o :: o in toolsByOutput ==> byOutput[o] < |arena| && toolsByOutput[o] == arena[byOutput[o]])
  }

  ghost predicate Mirrors(arena: seq<StreamTool>, tools: seq<E.Tool>)
    requires |arena| == |tools|
    reads arena
  {
    forall k :: 0 <= k < |arena| ==> arena[k].Value() == tools[k]
  }

  lemma LeadsExtend(toolsByItem: map<string, StreamTool>, toolsByOutput: map<int, StreamTool>, arena: seq<StreamTool>,
                    byItem: map<string, nat>, byOutput: map<int, nat>, tool: StreamTool, id: string, output: int)
    requires Leads(toolsByItem, toolsByOutput, arena, byItem, byOutput) && tool.position == |arena|
    ensures Leads(toolsByItem[id := tool], toolsByOutput[output := tool], arena + [tool], byItem[id := |arena|], byOutput[output := |arena|])
  {
  }

  lemma MirrorsExtend(arena: seq<StreamTool>, tools: seq<E.Tool>, tool: StreamTool)
    requires |arena| == |tools| && Mirrors(arena, tools)
    ensures Mirrors(arena + [tool], tools + [tool.Value()])
  {
  }

  class StreamEncoder {
    var nextIndex: nat
    var textOpen: bool
    var textIndex: nat
    var refusalText: string
    var stopReason: string
    var started: bool
    var terminal: bool
    var success: bool
    var counters: Counters
    var toolsByItem: map<string, StreamTool>
    var toolsByOutput: map<int, StreamTool>
    ghost var arena: seq<StreamTool>
    ghost var registry: E.Registry

    /** Both indexes lead to the tools of the arena, whose values the registry
        records. */
    ghost predicate Valid()
      reads this, arena
    {
      && E.Indexed(registry)
      && |arena| == |registry.tools|
      && Leads(toolsByItem, toolsByOutput, arena, registry.byItem, registry.byOutput)
      && Mirrors(arena, registry.tools)
    }

    ghost function State(): E.State
      reads this
    {
      E.State(nextIndex, textOpen, textIndex, refusalText, stopReason, started, terminal, success, counters, registry)
    }

    constructor ()
      ensures Valid() && State() == E.INITIAL && arena == []
    {
      nextIndex, textOpen, textIndex := 0, false, 0;
      refusalText, stopReason := "", "end_turn";
      started, terminal, success := false, false, false;
      counters := Counters(None, None, None, None);
      toolsByItem, toolsByOutput := map[], map[];
      arena, registry := [], E.Registry([], map[], map[]);
    }

    method StartEvents() returns (events: seq<ClientEvent>)
      requires Valid()
      modifies `started
      ensures Valid()
      ensures E.Step(State(), events) == E.Start(old(State()))
    {
      if started { return []; }
      started := true;
      events := [MessageStart];
    }

    method Fail(message: string) returns (events: seq<ClientEvent>)
      requires Valid()
      modifies `terminal, `success
      ensures Valid()
      ensures E.Step(State(), events) == E.Fail(old(State()), message)
    {
      if terminal { return []; }
      terminal, success := true, false;
      events := [StreamError(message)];
    }

    method TextDelta(delta: string) returns (events: seq<ClientEvent>)
      requires Valid()
      modifies `textIndex, `nextIndex, `textOpen
      ensures Valid()
      ensures E.Step(State(), events) == E.AddText(old(State()), delta)
    {
      if delta == "" { return []; }
      events := [];
      if !textOpen {
        textIndex := nextIndex;
        nextIndex := nextIndex + 1;
        textOpen := true;
        events := events + [BlockStart(textIndex, TextBlock)];
      }
      events := events + [BlockDelta(textIndex, TextFragment(delta))];
    }

    method CloseText() returns (events: seq<ClientEvent>)
      requires Valid()
      modifies `textOpen
      ensures Valid()
      ensures E.Step(State(), events) == E.CloseText(old(State()))
    {
      if !textOpen { return []; }
      textOpen := false;
      events := [BlockStop(textIndex)];
    }

    /** The tool object at arena position `k`, as the registry records it. */
    ghost predicate Holds(k: nat, tool: StreamTool)
      reads this, tool
    {
      k < |arena| && arena[k] == tool && k < |registry.tools| && tool.Value() == registry.tools[k]
    }

    method FindTool(itemID: string, output: Option<int>) returns (tool: StreamTool?)
      requires Valid()
      ensures var found := E.FindTool(registry, itemID, output);
              if found.None? then tool == null else tool != null && Holds(found.value, tool) && tool in arena
    {
      if itemID != "" {
        if itemID in toolsByItem { return toolsByItem[itemID]; }
        return null;
      }
      if output.Some? && output.value in toolsByOutput {
        return toolsByOutput[output.value];
      }
      return null;
    }

    method ToolDelta(tool: StreamTool, ghost k: nat, fragment: string) returns (event: ClientEvent)
      requires Valid() && Holds(k, tool)
      modifies `registry, tool
      ensures Valid() && Holds(k, tool)
      ensures E.Step(State(), [event]) == E.AddArguments(old(State()), k, fragment)
    {
      assert tool.position == k;
      hide E.Indexed;
      hide Leads;
      E.AddArgumentsIndexed(State(), k, fragment);
      tool.arguments := tool.arguments + fragment;
      registry := E.Replace(registry, k, tool.Value());
      event := BlockDelta(tool.index, JsonFragment(fragment));
    }

    method Seal(tool: StreamTool, ghost k: nat)
      requires Valid() && Holds(k, tool)
      modifies `registry, tool
      ensures Valid() && Holds(k, tool)
      ensures State() == Sealed(old(State()), k)
    {
      assert tool.position == k;
      hide E.Indexed;
      hide Leads;
      E.ReplaceIndexed(registry, k, registry.tools[k].(closed := true));
      tool.closed := true;
      registry := E.Replace(registry, k, tool.Value());
    }

    /** An open tool gets an empty object if it is still empty, and is closed. */
    method CloseTool(tool: StreamTool, ghost k: nat) returns (events: seq<ClientEvent>)
      requires Valid() && Holds(k, tool) && !tool.closed
      modifies `registry, tool
      ensures Valid() && Holds(k, tool)
      ensures E.Step(State(), events) == E.FinishTool(old(State()), k, "")
    {
      hide E.Indexed;
      hide Leads;
      hide Mirrors;
      CloseBySealing(State(), k);
      events := [];
      if tool.arguments == "" {
        var delta := ToolDelta(tool, k, "{}");
        events := [delta];
      }
      Seal(tool, k);
      events := events + [BlockStop(tool.index)];
    }

    method FinishTool(tool: StreamTool, ghost k: nat, final: string) returns (events: seq<ClientEvent>)
      requires Valid() && Holds(k, tool)
      modifies `registry, `terminal, `success, tool
      ensures Valid() && Holds(k, tool)
      ensures E.Step(State(), events) == E.FinishTool(old(State()), k, final)
    {
      hide E.Indexed;
      hide Leads;
      hide Mirrors;
      if tool.closed {
        if final != "" && final != tool.arguments {
          events := Fail(E.MISMATCHED_ARGUMENTS);
          return;
        }
        return [];
      }
      events := FinishOpenTool(tool, k, final);
    }

    method FinishOpenTool(tool: StreamTool, ghost k: nat, final: string) returns (events: seq<ClientEvent>)
      requires Valid() && Holds(k, tool) && !tool.closed
      modifies `registry, `terminal, `success, tool
      ensures Valid() && Holds(k, tool)
      ensures E.Step(State(), events) == E.FinishTool(old(State()), k, final)
    {
      hide E.Indexed;
      hide Leads;
      hide Mirrors;
      FinishByFilling(State(), k, final);
      events := [];
      if final != "" && tool.arguments == "" {
        var delta := ToolDelta(tool, k, final);
        events := [delta];
      }
      if final != "" && tool.arguments != final {
        events := Fail(E.MISMATCHED_ARGUMENTS);
        return;
      }
      var more := CloseTool(tool, k);
      events := events + more;
    }

    /** A new tool object enters both indexes. */
    method Enlist(tool: StreamTool, output: int)
      requires Valid() && tool.position == |arena| && tool.output == output
      requires tool.itemID !in registry.byItem && output !in registry.byOutput
      modifies `toolsByItem, `toolsByOutput, `arena, `registry
      ensures Valid() && arena == old(arena) + [tool]
      ensures State() == old(State()).(registry := E.Register(old(registry), tool.Value()))
    {
      hide E.Indexed;
      hide Leads;
      hide Mirrors;
      E.RegisterIndexed(registry, tool.Value());
      LeadsExtend(toolsByItem, toolsByOutput, arena, registry.byItem, registry.byOutput, tool, tool.itemID, output);
      MirrorsExtend(arena, registry.tools, tool);
      toolsByItem := toolsByItem[tool.itemID := tool];
      toolsByOutput := toolsByOutput[output := tool];
      arena := arena + [tool];
      registry := E.Register(registry, tool.Value());
    }

    method Admit(tool: StreamTool, output: int)
      requires Valid() && tool.position == |arena| && tool.output == output && tool.index == nextIndex
      requires tool.itemID !in registry.byItem && output !in registry.byOutput
      modifies this
      ensures Valid() && arena == old(arena) + [tool]
      ensures State() == Admitted(old(State()), tool.Value())
    {
      nextIndex, stopReason := nextIndex + 1, "tool_use";
      Enlist(tool, output);
    }

    method Introduce(output: int, item: Item) returns (tool: StreamTool)
      requires Valid() && item.FunctionCall? && item.id !in registry.byItem && output !in registry.byOutput
      modifies this
      ensures Valid() && arena == old(arena) + [tool] && fresh(tool) && Holds(|old(arena)|, tool)
      ensures tool.Value() == Introduced(old(State()), output, item)
      ensures State() == Admitted(old(State()), tool.Value())
    {
      tool := new StreamTool(item.id, item.callID, nextIndex, output, |arena|);
      Admit(tool, output);
    }

    method OpenTool(output: int, item: Item) returns (tool: StreamTool, events: seq<ClientEvent>)
      requires Valid() && item.FunctionCall? && item.id !in registry.byItem && output !in registry.byOutput
      modifies this
      ensures Valid() && arena == old(arena) + [tool] && fresh(tool)
      ensures E.Step(State(), events) == E.OpenTool(old(State()), output, item)
    {
      OpenByAdmitting(State(), output, item);
      hide E.Indexed;
      hide Leads;
      hide Mirrors;
      hide E.OpenTool;
      events := CloseText();
      tool := Introduce(output, item);
      events := events + [BlockStart(tool.index, ToolUse(tool.callID, item.name))];
      if item.arguments != "" {
        var delta := ToolDelta(tool, |old(arena)|, item.arguments);
        events := events + [delta];
      }
    }

    /** Only newly created tools have been added to the arena. */
    twostate predicate Grown()
      reads this
    {
      && old(arena) <= arena
      && fresh(arena[|old(arena)|..])
    }

    lemma Led()
      requires Valid()
      ensures toolsByItem.Keys == registry.byItem.Keys && toolsByOutput.Keys == registry.byOutput.Keys
      ensures forall o :: o in toolsByOutput ==> toolsByOutput[o] in arena
    {
    }

    /** One turn of the finishing loop: close the tool if it is open, then check
        its arguments. */
    method FinishOne(valid: string -> bool, output: int, stopReason: string) returns (stop: bool, events: seq<ClientEvent>)
      requires Valid() && !terminal && output in toolsByOutput
      modifies `registry, `terminal, `success, toolsByOutput[output]
      ensures Valid()
      ensures var turn := Turn(valid, old(State()), output, stopReason); stop == turn.stop && E.Step(State(), events) == turn.step
    {
      var tool := toolsByOutput[output];
      ghost var k := registry.byOutput[output];
      assert Holds(k, tool);
      hide E.Indexed;
      hide Leads;
      hide Mirrors;
      events := [];
      if !tool.closed {
        events := FinishTool(tool, k, "");
        if terminal { return true, events; }
      }
      if stopReason != "max_tokens" && !valid(tool.arguments) {
        events := Fail(E.INVALID_ARGUMENTS);
        return true, events;
      }
      stop := false;
    }

    /** The same turn as part of the loop over the indexes still to visit. */
    method FinishNext(valid: string -> bool, ghost todo: set<int>, output: int, stopReason: string, collected: seq<ClientEvent>)
      returns (stop: bool, events: seq<ClientEvent>)
      requires Valid() && !terminal && todo <= registry.byOutput.Keys && IsLeast(todo, output)
      modifies `registry, `terminal, `success, arena
      ensures Valid() && registry.byOutput == old(registry).byOutput
      ensures stop ==> E.Step(State(), events) == E.FinishTools(valid, old(State()), todo, stopReason, collected)
      ensures !stop ==> !terminal && E.FinishTools(valid, State(), todo - {output}, stopReason, events) ==
                                     E.FinishTools(valid, old(State()), todo, stopReason, collected)
    {
      Led();
      hide E.Indexed;
      hide Leads;
      hide Mirrors;
      NextTurn(valid, State(), todo, output, stopReason, collected);
      assert toolsByOutput[output] in arena;
      stop, events := FinishOne(valid, output, stopReason);
      if !stop { events := collected + events; }
    }

    /** The finishing loop over the output indexes in ascending order. */
    method FinishAll(valid: string -> bool, stopReason: string, collected: seq<ClientEvent>) returns (events: seq<ClientEvent>)
      requires Valid() && !terminal
      modifies `registry, `terminal, `success, arena
      ensures Valid()
      ensures E.Step(State(), events) == E.FinishTools(valid, old(State()), old(registry).byOutput.Keys, stopReason, collected)
    {
      Led();
      hide E.Indexed;
      hide Leads;
      hide Mirrors;
      events := collected;
      var indices := SortedKeys(toolsByOutput.Keys);
      for i := 0 to |indices|
        invariant Valid() && !terminal && registry.byOutput == old(registry.byOutput)
        invariant Rest(indices, i) <= old(registry).byOutput.Keys
        invariant E.FinishTools(valid, State(), Rest(indices, i), stopReason, events) ==
                  E.FinishTools(valid, old(State()), old(registry).byOutput.Keys, stopReason, collected)
      {
        RestStep(indices, i);
        var stop;
        stop, events := FinishNext(valid, Rest(indices, i), indices[i], stopReason, events);
        if stop { return; }
      }
      assert Rest(indices, |indices|) == {};
    }

    method Finish(valid: string -> bool, stopReason: string) returns (events: seq<ClientEvent>)
      requires Valid()
      modifies `registry, `terminal, `success, `stopReason, `textOpen, arena
      ensures Valid()
      ensures E.Step(State(), events) == E.Finish(valid, old(State()), stopReason)
    {
      hide E.Indexed;
      hide Leads;
      hide Mirrors;
      if terminal { return []; }
      events := CloseText();
      events := FinishAll(valid, stopReason, events);
      if terminal { return; }
      this.stopReason, terminal, success := stopReason, true, true;
      events := events + [MessageDelta(stopReason, counters), MessageStop];
    }

    // ---------------------------------------------------------- upstream events

    method OnRefusalDelta(delta: string) returns (events: seq<ClientEvent>)
      requires Valid()
      modifies `stopReason, `refusalText, `textIndex, `nextIndex, `textOpen
      ensures Valid()
      ensures E.Step(State(), events) == E.AddText(old(State()).(stopReason := "refusal", refusalText := old(refusalText) + delta), delta)
    {
      stopReason := "refusal";
      refusalText := refusalText + delta;
      events := TextDelta(delta);
    }

    method OnRefusalDone(ghost valid: string -> bool, refusal: string) returns (events: seq<ClientEvent>)
      requires Valid()
      modifies `stopReason, `refusalText, `textIndex, `nextIndex, `textOpen, `terminal, `success
      ensures Valid()
      ensures E.Step(State(), events) == E.HandleBody(valid, old(State()), RefusalDone("", None, refusal))
    {
      hide Leads;
      hide Mirrors;
      stopReason := "refusal";
      if refusal != refusalText {
        if refusalText == "" && refusal != "" {
          refusalText := refusal;
          events := TextDelta(refusal);
          return;
        }
        events := Fail(E.MISMATCHED_REFUSAL);
        return;
      }
      events := CloseText();
    }

    method OnItemAdded(ghost valid: string -> bool, output: Option<int>, item: Item) returns (events: seq<ClientEvent>)
      requires Valid()
      modifies this
      ensures Valid() && Grown()
      ensures E.Step(State(), events) == E.HandleBody(valid, old(State()), ItemAdded(output, item))
    {
      Led();
      hide E.Indexed;
      hide Leads;
      hide Mirrors;
      if !item.FunctionCall? { return []; }
      if item.id == "" || item.callID == "" || item.name == "" || output.None? {
        events := Fail(E.INCOMPLETE_CALL);
        return;
      }
      if item.id in toolsByItem || output.value in toolsByOutput {
        events := Fail(E.DUPLICATE_CALL);
        return;
      }
      var tool;
      tool, events := OpenTool(output.value, item);
    }

    method OnArgumentsDelta(ghost valid: string -> bool, itemID: string, output: Option<int>, delta: string) returns (events: seq<ClientEvent>)
      requires Valid()
      modifies `registry, `terminal, `success, arena
      ensures Valid()
      ensures E.Step(State(), events) == E.HandleBody(valid, old(State()), ArgumentsDelta(itemID, output, delta))
    {
      hide E.Indexed;
      hide Leads;
      hide Mirrors;
      var tool := FindTool(itemID, output);
      ghost var found := E.FindTool(registry, itemID, output);
      if tool == null || tool.closed {
        events := Fail(E.UNMATCHED_ARGUMENTS);
        return;
      }
      if delta == "" { return []; }
      var event := ToolDelta(tool, found.value, delta);
      events := [event];
    }

    /** An arguments-done event, or the end of a function-call item. */
    method OnToolDone(itemID: string, output: Option<int>, final: string, unmatched: string) returns (events: seq<ClientEvent>)
      requires Valid()
      modifies `registry, `terminal, `success, arena
      ensures Valid()
      ensures var found := E.FindTool(old(registry), itemID, output);
              E.Step(State(), events) ==
              if found.None? then E.Fail(old(State()), unmatched) else E.FinishTool(old(State()), found.value, final)
    {
      hide E.Indexed;
      hide Leads;
      hide Mirrors;
      var tool := FindTool(itemID, output);
      ghost var found := E.FindTool(registry, itemID, output);
      if tool == null {
        events := Fail(unmatched);
      } else {
        events := FinishTool(tool, found.value, final);
      }
    }

    method OnIncomplete(valid: string -> bool, reason: Option<string>) returns (events: seq<ClientEvent>)
      requires Valid()
      modifies `registry, `terminal, `success, `stopReason, `textOpen, arena
      ensures Valid()
      ensures E.Step(State(), events) ==
              if reason == Some("max_output_tokens") then
                var done := E.Finish(valid, old(State()), "max_tokens"); done.(state := done.state.(success := false))
              else E.Fail(old(State()), E.UPSTREAM_INCOMPLETE)
    {
      hide Leads;
      hide Mirrors;
      if reason == Some("max_output_tokens") {
        events := Finish(valid, "max_tokens");
        success := false;
      } else {
        events := Fail(E.UPSTREAM_INCOMPLETE);
      }
    }

    /** The end of an item matters only if the item is a call. */
    method OnItemDone(ghost valid: string -> bool, output: Option<int>, item: Item) returns (events: seq<ClientEvent>)
      requires Valid()
      modifies `registry, `terminal, `success, arena
      ensures Valid()
      ensures E.Step(State(), events) == E.HandleBody(valid, old(State()), ItemDone(output, item))
    {
      hide E.Indexed;
      hide Leads;
      hide Mirrors;
      hide E.FinishTool;
      hide E.Fail;
      if !item.FunctionCall? { return []; }
      events := OnToolDone(item.id, output, item.arguments, E.UNMATCHED_CALL);
    }

    method Dispatch(valid: string -> bool, body: Body) returns (events: seq<ClientEvent>)
      requires Valid()
      modifies this, arena
      ensures Valid() && Grown()
      ensures E.Step(State(), events) == E.HandleBody(valid, old(State()), body)
    {
      hide E.Indexed;
      hide Leads;
      hide Mirrors;
      hide E.HandleBody;
      if body.TextDelta? || body.RefusalDelta? || body.RefusalDone? || body.TextDone? || body.PartDone? {
        events := DispatchText(valid, body);
      } else {
        events := DispatchOther(valid, body);
      }
    }

    method DispatchText(ghost valid: string -> bool, body: Body) returns (events: seq<ClientEvent>)
      requires Valid() && (body.TextDelta? || body.RefusalDelta? || body.RefusalDone? || body.TextDone? || body.PartDone?)
      modifies `stopReason, `refusalText, `textIndex, `nextIndex, `textOpen, `terminal, `success
      ensures Valid()
      ensures E.Step(State(), events) == E.HandleBody(valid, old(State()), body)
    {
      hide E.Indexed;
      hide Leads;
      hide Mirrors;
      hide E.AddText;
      hide E.CloseText;
      hide E.Fail;
      match body
      case TextDelta(_, _, delta) => events := TextDelta(delta);
      case RefusalDelta(_, _, delta) => events := OnRefusalDelta(delta);
      case RefusalDone(_, _, refusal) => events := OnRefusalDone(valid, refusal);
      case TextDone(_, _, _) => events := CloseText();
      case PartDone(_, _, _) => events := CloseText();
    }

    method DispatchOther(valid: string -> bool, body: Body) returns (events: seq<ClientEvent>)
      requires Valid() && !body.TextDelta? && !body.RefusalDelta? && !body.RefusalDone? && !body.TextDone? && !body.PartDone?
      modifies this, arena
      ensures Valid() && Grown()
      ensures E.Step(State(), events) == E.HandleBody(valid, old(State()), body)
    {
      hide E.Indexed;
      hide Leads;
      hide Mirrors;
      hide E.FinishTool;
      hide E.Finish;
      hide E.Fail;
      match body
      case ItemAdded(output, item) => events := OnItemAdded(valid, output, item);
      case ArgumentsDelta(itemID, output, delta) => events := OnArgumentsDelta(valid, itemID, output, delta);
      case ArgumentsDone(itemID, output, arguments) => events := OnToolDone(itemID, output, arguments, E.UNMATCHED_ARGUMENTS);
      case ItemDone(output, item) => events := OnItemDone(valid, output, item);
      case Completed(_) => events := Finish(valid, stopReason);
      case Incomplete(response) => events := OnIncomplete(valid, response.incompleteReason);
      case Failed => events := Fail(E.UPSTREAM_FAILED);
      case ErrorBody => events := Fail(E.UPSTREAM_FAILED);
      case _ => events := [];
    }

    method CountUsage(event: Event)
      requires Valid()
      modifies `counters
      ensures Valid()
      ensures State() == E.Count(old(State()), event)
    {
      var seen := E.ExtractUsage(event);
      if seen.input.Some? { counters := counters.(input := seen.input); }
      if seen.output.Some? { counters := counters.(output := seen.output); }
      if seen.cacheCreation.Some? { counters := counters.(cacheCreation := seen.cacheCreation); }
      if seen.cacheRead.Some? { counters := counters.(cacheRead := seen.cacheRead); }
    }

    method HandleResponsesEvent(valid: string -> bool, event: Event) returns (events: seq<ClientEvent>)
      requires Valid()
      modifies this, arena
      ensures Valid() && Grown()
      ensures E.Step(State(), events) == E.Handle(valid, old(State()), event)
    {
      hide E.Indexed;
      hide Leads;
      hide Mirrors;
      hide E.HandleBody;
      if terminal { return []; }
      if event.body.Malformed? {
        events := Fail(E.INVALID_EVENT);
        return;
      }
      CountUsage(event);
      events := Dispatch(valid, event.body);
    }
  }

  function Introduced(s: E.State, output: int, item: Item): E.Tool
    requires item.FunctionCall?
  {
    E.Tool(item.id, output, item.callID, s.nextIndex, "", false)
  }

  function Admitted(s: E.State, tool: E.Tool): E.State {
    s.(nextIndex := s.nextIndex + 1, stopReason := "tool_use", registry := E.Register(s.registry, tool))
  }

  /** Opening a tool with arguments is opening it empty and then adding them. */
  lemma OpenByAdmitting(s: E.State, output: int, item: Item)
    requires item.FunctionCall?
    ensures var closed := E.CloseText(s);
            var admitted := Admitted(closed.state, Introduced(s, output, item));
            var start := closed.events + [BlockStart(s.nextIndex, ToolUse(item.callID, item.name))];
            E.OpenTool(s, output, item) ==
            if item.arguments == "" then E.Step(admitted, start)
            else
              var said := E.AddArguments(admitted, |s.registry.tools|, item.arguments);
              E.Step(said.state, start + said.events)
  {
    var tool := Introduced(s, output, item);
    assert "" + item.arguments == item.arguments;
    assert (s.registry.tools + [tool])[|s.registry.tools| := tool.(arguments := item.arguments)] ==
           s.registry.tools + [tool.(arguments := item.arguments)];
  }

  datatype LoopTurn = LoopTurn(stop: bool, step: E.Step)

  /** What one turn of the finishing loop amounts to on the encoder's state. */
  ghost function Turn(valid: string -> bool, s: E.State, output: int, stopReason: string): (turn: LoopTurn)
    requires E.Indexed(s.registry) && output in s.registry.byOutput
    ensures E.Indexed(turn.step.state.registry) && turn.step.state.registry.byOutput == s.registry.byOutput
  {
    var k := s.registry.byOutput[output];
    E.FinishToolIndexed(s, k, "");
    var done := if s.registry.tools[k].closed then E.Step(s, []) else E.FinishTool(s, k, "");
    if done.state.terminal then LoopTurn(true, done)
    else if stopReason != "max_tokens" && !valid(done.state.registry.tools[k].arguments) then
      LoopTurn(true, E.Fail(done.state, E.INVALID_ARGUMENTS))
    else LoopTurn(false, done)
  }

  /** The loop of the specification is made of such turns. */
  lemma NextTurn(valid: string -> bool, s: E.State, todo: set<int>, output: int, stopReason: string, events: seq<ClientEvent>)
    requires E.Indexed(s.registry) && todo <= s.registry.byOutput.Keys && IsLeast(todo, output)
    ensures var turn := Turn(valid, s, output, stopReason);
            E.FinishTools(valid, s, todo, stopReason, events) ==
            if turn.stop then turn.step
            else E.FinishTools(valid, turn.step.state, todo - {output}, stopReason, events + turn.step.events)
  {
    LeastIsUnique(todo, LeastOf(todo), output);
  }

  ghost function Sealed(s: E.State, k: nat): E.State
    requires k < |s.registry.tools|
  {
    s.(registry := E.Replace(s.registry, k, s.registry.tools[k].(closed := true)))
  }

  lemma CloseBySealing(s: E.State, k: nat)
    requires k < |s.registry.tools| && !s.registry.tools[k].closed
    ensures var tool := s.registry.tools[k];
            var filled := if tool.arguments == "" then E.AddArguments(s, k, "{}") else E.Step(s, []);
            E.FinishTool(s, k, "") == E.Step(Sealed(filled.state, k), filled.events + [BlockStop(tool.index)])
  {
    var tool := s.registry.tools[k];
    var missing := if tool.arguments != "" then "" else "{}";
    var more := tool.(arguments := tool.arguments + missing);
    assert s.registry.tools[k := more][k := more.(closed := true)] == s.registry.tools[k := more.(closed := true)];
    assert tool.arguments + "" == tool.arguments;
  }

  /** Finishing an open tool with final arguments is adding them if it is empty,
      and then finishing it with none. */
  lemma FinishByFilling(s: E.State, k: nat, final: string)
    requires k < |s.registry.tools| && !s.registry.tools[k].closed
    ensures var tool := s.registry.tools[k];
            var filled := if final != "" && tool.arguments == "" then E.AddArguments(s, k, final) else E.Step(s, []);
            var done := E.FinishTool(filled.state, k, "");
            E.FinishTool(s, k, final) ==
            if final != "" && filled.state.registry.tools[k].arguments != final then E.Fail(s, E.MISMATCHED_ARGUMENTS)
            else E.Step(done.state, filled.events + done.events)
  {
    var tool := s.registry.tools[k];
    if final != "" && tool.arguments == "" {
      assert "" + final == final && final + "" == final;
      var more := tool.(arguments := final);
      assert s.registry.tools[k := more][k := more.(closed := true)] == s.registry.tools[k := more.(closed := true)];
    }
  }

  lemma EncodeNext(valid: string -> bool, stream: seq<Event>, i: nat)
    requires i < |stream|
    ensures var before := E.Encode(valid, stream[..i]);
            var step := E.Handle(valid, before.state, stream[i]);
            E.Encode(valid, stream[..i + 1]) == E.Step(step.state, before.events + step.events)
  {
    assert stream[..i + 1][..i] == stream[..i];
  }

  /** Feeding a whole upstream stream to a new encoder object gives the log of
      the specification, to which every theorem about that log applies. */
  method EncodeStream(valid: string -> bool, stream: seq<Event>) returns (log: seq<ClientEvent>, success: bool)
    ensures log == E.Encode(valid, stream).events
    ensures success == E.Encode(valid, stream).state.success
  {
    var encoder := new StreamEncoder();
    log := encoder.StartEvents();
    assert stream[..0] == [];
    assert E.Encode(valid, stream[..0]) == E.Start(E.INITIAL);
    hide E.Indexed;
    hide Leads;
    hide Mirrors;
    hide E.Handle;
    hide E.Encode;
    hide E.HandleBody;
    for i := 0 to |stream|
      invariant encoder.Valid() && fresh(encoder) && fresh(encoder.arena)
      invariant E.Encode(valid, stream[..i]) == E.Step(encoder.State(), log)
    {
      EncodeNext(valid, stream, i);
      assert fresh(encoder.arena);
      ghost var before := encoder.arena;
      var events := encoder.HandleResponsesEvent(valid, stream[i]);
      log := log + events;
      assert encoder.arena == before + encoder.arena[|before|..];
    }
    assert stream[..|stream|] == stream;
    success := encoder.success;
  }
}
