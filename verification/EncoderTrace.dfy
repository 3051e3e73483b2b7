/** Over every upstream event sequence, however malformed, the encoder's client
    log is accepted by the client's own reader; and the reader's block table is
    at all times the one the encoder believes in. */
module EncoderTrace {
  import opened Wire
  import opened Least
  import opened MessagesReader
  import E = Encoder

  ghost predicate Owned(tools: seq<E.Tool>, i: nat) {
    exists k :: 0 <= k < |tools| && tools[k].index == i
  }

  /** The block table seen by the client agrees with the encoder's fields. */
  ghost predicate Linked(s: E.State, r: Reader) {
    var tools := s.registry.tools;
    && r.phase.Streaming?
    && |r.blocks| == s.nextIndex
    && (s.textOpen ==> s.textIndex < s.nextIndex && r.blocks[s.textIndex].kind.TextBlock? && r.blocks[s.textIndex].open)
    && (forall k :: 0 <= k < |tools| ==> ToolLinked(tools[k], r))
    && (forall j, k :: 0 <= j < k < |tools| ==> tools[j].index < tools[k].index)
    && (forall i: nat :: i < |r.blocks| && r.blocks[i].open && r.blocks[i].kind.TextBlock? ==> s.textOpen && i == s.textIndex)
    && (forall i: nat :: i < |r.blocks| && r.blocks[i].kind.ToolUse? ==> Owned(tools, i))
  }

  ghost predicate ToolLinked(tool: E.Tool, r: Reader) {
    && tool.index < |r.blocks|
    && r.blocks[tool.index].kind.ToolUse?
    && r.blocks[tool.index].kind.id == tool.callID
    && r.blocks[tool.index].content == tool.arguments
    && r.blocks[tool.index].open == !tool.closed
  }

  lemma AddTextLinked(s: E.State, delta: string, r: Reader)
    requires Linked(s, r)
    ensures Linked(E.AddText(s, delta).state, Read(r, E.AddText(s, delta).events))
  {
    if delta != "" {
      if s.textOpen {
        ReadOne(r, BlockDelta(s.textIndex, TextFragment(delta)));
      } else {
        ReadTwo(r, BlockStart(s.nextIndex, TextBlock), BlockDelta(s.nextIndex, TextFragment(delta)));
      }
    }
  }

  lemma CloseTextLinked(s: E.State, r: Reader)
    requires Linked(s, r)
    ensures Linked(E.CloseText(s).state, Read(r, E.CloseText(s).events))
  {
    if s.textOpen {
      ReadOne(r, BlockStop(s.textIndex));
    }
  }

  /** Replacing one tool and its block together keeps the tables linked. */
  lemma ReplaceLinked(s: E.State, k: nat, tool: E.Tool, r: Reader, block: Block)
    requires Linked(s, r) && k < |s.registry.tools|
    requires tool.index == s.registry.tools[k].index
    requires block.kind == r.blocks[tool.index].kind && block.kind.ToolUse? && block.kind.id == tool.callID
    requires block.content == tool.arguments && block.open == !tool.closed
    ensures Linked(s.(registry := E.Replace(s.registry, k, tool)), r.(blocks := r.blocks[tool.index := block]))
  {
    var tools := s.registry.tools;
    var after := tools[k := tool];
    var r' := r.(blocks := r.blocks[tool.index := block]);
    forall j | 0 <= j < |after| ensures ToolLinked(after[j], r') {
      if j != k {
        assert tools[j].index != tool.index;
        assert ToolLinked(tools[j], r);
      }
    }
    forall i: nat | i < |r'.blocks| && r'.blocks[i].kind.ToolUse? ensures Owned(after, i) {
      assert Owned(tools, i);
      var j :| 0 <= j < |tools| && tools[j].index == i;
      assert after[j].index == i;
    }
  }

  lemma AddArgumentsLinked(s: E.State, k: nat, fragment: string, r: Reader)
    requires Linked(s, r) && k < |s.registry.tools| && !s.registry.tools[k].closed
    ensures Linked(E.AddArguments(s, k, fragment).state, Read(r, E.AddArguments(s, k, fragment).events))
  {
    var tool := s.registry.tools[k];
    assert ToolLinked(tool, r);
    var block := r.blocks[tool.index];
    ReplaceLinked(s, k, tool.(arguments := tool.arguments + fragment), r, block.(content := block.content + fragment));
    ReadOne(r, BlockDelta(tool.index, JsonFragment(fragment)));
  }

  /** What a client makes of the events that close one tool block. */
  lemma ReadClosing(r: Reader, index: nat, missing: string)
    requires r.phase.Streaming? && index < |r.blocks| && r.blocks[index].open && r.blocks[index].kind.ToolUse?
    ensures Read(r, (if missing == "" then [] else [BlockDelta(index, JsonFragment(missing))]) + [BlockStop(index)])
            == r.(blocks := r.blocks[index := r.blocks[index].(content := r.blocks[index].content + missing, open := false)])
  {
    var delta := BlockDelta(index, JsonFragment(missing));
    if missing == "" {
      assert [] + [BlockStop(index)] == [BlockStop(index)];
      assert r.blocks[index].content + missing == r.blocks[index].content;
      ReadOne(r, BlockStop(index));
    } else {
      assert [delta] + [BlockStop(index)] == [delta, BlockStop(index)];
      ReadTwo(r, delta, BlockStop(index));
    }
  }

  lemma FinishToolLinked(s: E.State, k: nat, final: string, r: Reader)
    requires Linked(s, r) && k < |s.registry.tools| && !s.terminal
    ensures E.FinishTool(s, k, final).state.terminal ||
            Linked(E.FinishTool(s, k, final).state, Read(r, E.FinishTool(s, k, final).events))
  {
    var tool := s.registry.tools[k];
    if !tool.closed && (final == "" || tool.arguments == "" || tool.arguments == final) {
      assert ToolLinked(tool, r);
      var missing := if tool.arguments != "" then "" else if final != "" then final else "{}";
      var block := r.blocks[tool.index];
      ReadClosing(r, tool.index, missing);
      ReplaceLinked(s, k, tool.(arguments := tool.arguments + missing, closed := true), r,
                    block.(content := block.content + missing, open := false));
    }
  }

  lemma RegisterLinked(s: E.State, tool: E.Tool, r: Reader, name: string)
    requires Linked(s, r) && tool.index == s.nextIndex && !tool.closed
    ensures Linked(s.(nextIndex := s.nextIndex + 1, registry := E.Register(s.registry, tool)),
                   r.(blocks := r.blocks + [Block(ToolUse(tool.callID, name), tool.arguments, true)]))
  {
    var tools := s.registry.tools;
    var after := tools + [tool];
    var r' := r.(blocks := r.blocks + [Block(ToolUse(tool.callID, name), tool.arguments, true)]);
    forall j | 0 <= j < |after| ensures ToolLinked(after[j], r') {
      if j < |tools| { assert ToolLinked(tools[j], r); }
    }
    forall j, k | 0 <= j < k < |after| ensures after[j].index < after[k].index {
      assert ToolLinked(tools[j], r);
    }
    forall i: nat | i < |r'.blocks| && r'.blocks[i].kind.ToolUse? ensures Owned(after, i) {
      if i < |r.blocks| {
        assert Owned(tools, i);
        var j :| 0 <= j < |tools| && tools[j].index == i;
        assert after[j].index == i;
      } else {
        assert after[|tools|].index == i;
      }
    }
  }

  lemma ReadArguments(r: Reader, block: Block, arguments: string)
    requires r.phase.Streaming? && block.kind.ToolUse? && block.open && block.content == ""
    ensures Receive(r.(blocks := r.blocks + [block]), BlockDelta(|r.blocks|, JsonFragment(arguments)))
            == r.(blocks := r.blocks + [block.(content := arguments)])
  {
    assert "" + arguments == arguments;
    assert (r.blocks + [block])[|r.blocks| := block.(content := arguments)] == r.blocks + [block.(content := arguments)];
  }

  lemma ReadOpening(r: Reader, kind: BlockKind, arguments: string)
    requires r.phase.Streaming? && kind.ToolUse?
    ensures Read(r, [BlockStart(|r.blocks|, kind)] + if arguments == "" then [] else [BlockDelta(|r.blocks|, JsonFragment(arguments))])
            == r.(blocks := r.blocks + [Block(kind, arguments, true)])
  {
    var start := BlockStart(|r.blocks|, kind);
    ReadOne(r, start);
    if arguments == "" {
      assert [start] + [] == [start];
    } else {
      var delta := BlockDelta(|r.blocks|, JsonFragment(arguments));
      ReadConcat(r, [start], [delta]);
      ReadArguments(r, Block(kind, "", true), arguments);
      ReadOne(Receive(r, start), delta);
    }
  }

  lemma OpenToolLinked(s: E.State, output: int, call: Item, r: Reader)
    requires Linked(s, r) && call.FunctionCall?
    ensures Linked(E.OpenTool(s, output, call).state, Read(r, E.OpenTool(s, output, call).events))
  {
    var text := E.CloseText(s);
    CloseTextLinked(s, r);
    OpenToolLinkedAfterText(text.state, output, call, Read(r, text.events));
    var rest := [BlockStart(s.nextIndex, ToolUse(call.callID, call.name))] +
                if call.arguments == "" then [] else [BlockDelta(s.nextIndex, JsonFragment(call.arguments))];
    ReadConcat(r, text.events, rest);
    assert E.OpenTool(s, output, call).events == text.events + rest;
  }

  lemma OpenToolLinkedAfterText(s: E.State, output: int, call: Item, r: Reader)
    requires Linked(s, r) && call.FunctionCall?
    ensures var tool := E.Tool(call.id, output, call.callID, s.nextIndex, call.arguments, false);
            Linked(s.(nextIndex := s.nextIndex + 1, stopReason := "tool_use", registry := E.Register(s.registry, tool)),
                   Read(r, [BlockStart(s.nextIndex, ToolUse(call.callID, call.name))] +
                           if call.arguments == "" then [] else [BlockDelta(s.nextIndex, JsonFragment(call.arguments))]))
  {
    ReadOpening(r, ToolUse(call.callID, call.name), call.arguments);
    RegisterLinked(s, E.Tool(call.id, output, call.callID, s.nextIndex, call.arguments, false), r, call.name);
  }

  /** A failure reported while streaming ends the client's stream. */
  lemma FailTerminates(s: E.State, message: string, r: Reader)
    requires r.phase.Streaming? && !s.terminal
    ensures Read(r, E.Fail(s, message).events) == r.(phase := Errored(message))
  {
    ReadOne(r, StreamError(message));
  }

  ghost predicate ClosedThrough(s: E.State, done: set<int>) {
    forall k :: 0 <= k < |s.registry.tools| && s.registry.tools[k].output in done ==> s.registry.tools[k].closed
  }

  /** One round of the finishing loop: the tool named by `o` ends up closed. */
  lemma FinishOneLinked(s: E.State, o: int, todo: set<int>, r: Reader) returns (done: E.Step)
    requires E.Indexed(s.registry) && o in s.registry.byOutput && o in todo && !s.terminal && Linked(s, r)
    requires ClosedThrough(s, s.registry.byOutput.Keys - todo)
    ensures done == if s.registry.tools[s.registry.byOutput[o]].closed then E.Step(s, []) else E.FinishTool(s, s.registry.byOutput[o], "")
    ensures !done.state.terminal && E.Indexed(done.state.registry) && done.state.registry.byOutput == s.registry.byOutput
    ensures Linked(done.state, Read(r, done.events))
    ensures ClosedThrough(done.state, done.state.registry.byOutput.Keys - (todo - {o}))
  {
    var k := s.registry.byOutput[o];
    var tool := s.registry.tools[k];
    if tool.closed {
      done := E.Step(s, []);
    } else {
      done := E.FinishTool(s, k, "");
      FinishToolLinked(s, k, "", r);
      E.FinishToolIndexed(s, k, "");
    }
    VisitedClosed(s, o, done.state, todo);
  }

  /** The finishing loop either fails, with one error event and nothing else,
      or closes every tool it visits. */
  lemma {:induction false} FinishToolsLinked(valid: string -> bool, s: E.State, todo: set<int>, stopReason: string, events: seq<ClientEvent>, r: Reader)
    requires E.Indexed(s.registry) && todo <= s.registry.byOutput.Keys && !s.terminal
    requires Linked(s, Read(r, events)) && r.phase.Streaming?
    requires ClosedThrough(s, s.registry.byOutput.Keys - todo)
    ensures var done := E.FinishTools(valid, s, todo, stopReason, events);
            if done.state.terminal then !done.state.success && Read(r, done.events).phase.Errored?
            else Linked(done.state, Read(r, done.events)) && ClosedThrough(done.state, done.state.registry.byOutput.Keys)
    decreases |todo|
  {
    if todo != {} {
      var o := LeastOf(todo);
      var k := s.registry.byOutput[o];
      var done := FinishOneLinked(s, o, todo, Read(r, events));
      ReadConcat(r, events, done.events);
      if stopReason != "max_tokens" && !valid(done.state.registry.tools[k].arguments) {
        FailTerminates(done.state, E.INVALID_ARGUMENTS, r);
      } else {
        FinishToolsLinked(valid, done.state, todo - {o}, stopReason, events + done.events, r);
      }
    }
  }

  lemma VisitedClosed(s: E.State, o: int, after: E.State, todo: set<int>)
    requires E.Indexed(s.registry) && E.Indexed(after.registry)
    requires o in s.registry.byOutput && o in todo
    requires var k := s.registry.byOutput[o];
             after.registry.byOutput == s.registry.byOutput && k < |after.registry.tools| && |after.registry.tools| == |s.registry.tools| &&
             after.registry.tools[k].closed &&
             forall j :: 0 <= j < |after.registry.tools| && j != k ==> after.registry.tools[j] == s.registry.tools[j]
    requires ClosedThrough(s, s.registry.byOutput.Keys - todo)
    ensures ClosedThrough(after, after.registry.byOutput.Keys - (todo - {o}))
  {
  }

  lemma NothingOpen(s: E.State, r: Reader)
    requires E.Indexed(s.registry) && Linked(s, r) && !s.textOpen
    requires ClosedThrough(s, s.registry.byOutput.Keys)
    ensures forall i :: 0 <= i < |r.blocks| ==> !r.blocks[i].open
  {
    var tools := s.registry.tools;
    forall i: nat | i < |r.blocks| ensures !r.blocks[i].open {
      if r.blocks[i].kind.ToolUse? {
        assert Owned(tools, i);
        var k :| 0 <= k < |tools| && tools[k].index == i;
        assert ToolLinked(tools[k], r);
        assert tools[k].output in s.registry.byOutput.Keys;
      }
    }
  }

  lemma FinishTextStays(valid: string -> bool, s: E.State, todo: set<int>, stopReason: string, events: seq<ClientEvent>)
    requires E.Indexed(s.registry) && todo <= s.registry.byOutput.Keys
    ensures E.FinishTools(valid, s, todo, stopReason, events).state.textOpen == s.textOpen
    decreases |todo|
  {
    if todo != {} {
      var o := LeastOf(todo);
      var k := s.registry.byOutput[o];
      E.FinishToolIndexed(s, k, "");
      var done := if s.registry.tools[k].closed then E.Step(s, []) else E.FinishTool(s, k, "");
      if !done.state.terminal && (stopReason == "max_tokens" || valid(done.state.registry.tools[k].arguments)) {
        FinishTextStays(valid, done.state, todo - {o}, stopReason, events + done.events);
      }
    }
  }

  /** Finishing ends the client's stream: normally, with every block closed, or
      with one error event. */
  lemma FinishTerminates(valid: string -> bool, s: E.State, stopReason: string, r: Reader)
    requires E.Indexed(s.registry) && Linked(s, r) && !s.terminal
    ensures var done := E.Finish(valid, s, stopReason);
            done.state.terminal &&
            (if done.state.success then Read(r, done.events).phase == Finished(stopReason)
             else Read(r, done.events).phase.Errored?)
    ensures E.Finish(valid, s, stopReason).state.success ==> E.Finish(valid, s, stopReason).state.stopReason == stopReason
  {
    var text := E.CloseText(s);
    CloseTextLinked(s, r);
    var keys := s.registry.byOutput.Keys;
    FinishToolsLinked(valid, text.state, keys, stopReason, text.events, r);
    FinishTextStays(valid, text.state, keys, stopReason, text.events);
    E.FinishToolsIndexed(valid, text.state, keys, stopReason, text.events);
    var done := E.FinishTools(valid, text.state, keys, stopReason, text.events);
    if !done.state.terminal {
      var last := Read(r, done.events);
      NothingOpen(done.state, last);
      ReadConcat(r, done.events, [MessageDelta(stopReason, done.state.counters), MessageStop]);
      ReadTwo(last, MessageDelta(stopReason, done.state.counters), MessageStop);
    }
  }

  // ------------------------------------------------------- whole event streams

  /** What holds between events: the stream is open and the tables agree, or it
      is over and the client saw exactly one ending: a normal one after a success
      and after an answer cut short, and otherwise an error. */
  ghost predicate Sound(step: E.Step) {
    var r := Read(START, step.events);
    Outcome(step.state, r)
  }

  lemma CountLinked(s: E.State, event: Event, r: Reader)
    requires Linked(s, r)
    ensures Linked(E.Count(s, event), r)
  {
  }

  ghost predicate Outcome(s: E.State, r: Reader) {
    if !s.terminal then Linked(s, r)
    else if s.success then r.phase == Finished(s.stopReason)
    else r.phase.Errored? || (r.phase == Finished("max_tokens") && s.stopReason == "max_tokens")
  }

  lemma ToolEventSound(s: E.State, k: nat, final: string, r: Reader)
    requires E.Indexed(s.registry) && Linked(s, r) && !s.terminal && k < |s.registry.tools|
    ensures Outcome(E.FinishTool(s, k, final).state, Read(r, E.FinishTool(s, k, final).events))
  {
    FinishToolLinked(s, k, final, r);
    if E.FinishTool(s, k, final).state.terminal {
      FailTerminates(s, E.MISMATCHED_ARGUMENTS, r);
    }
  }

  lemma FinishSound(valid: string -> bool, s: E.State, stopReason: string, r: Reader)
    requires E.Indexed(s.registry) && Linked(s, r) && !s.terminal
    ensures Outcome(E.Finish(valid, s, stopReason).state, Read(r, E.Finish(valid, s, stopReason).events))
    ensures stopReason == "max_tokens" ==>
              Outcome(E.Finish(valid, s, stopReason).state.(success := false), Read(r, E.Finish(valid, s, stopReason).events))
  {
    FinishTerminates(valid, s, stopReason, r);
  }

  lemma RefusedLinked(s: E.State, refusalText: string, r: Reader)
    requires Linked(s, r)
    ensures Linked(s.(stopReason := "refusal"), r) && Linked(s.(stopReason := "refusal", refusalText := refusalText), r)
  {
  }

  lemma RefusalDoneSound(valid: string -> bool, s: E.State, body: Body, r: Reader)
    requires E.Indexed(s.registry) && Linked(s, r) && !s.terminal && body.RefusalDone?
    ensures Outcome(E.HandleBody(valid, s, body).state, Read(r, E.HandleBody(valid, s, body).events))
  {
    var refused := s.(stopReason := "refusal");
    RefusedLinked(s, body.refusal, r);
    AddTextLinked(refused.(refusalText := body.refusal), body.refusal, r);
    CloseTextLinked(refused, r);
    assert r.phase.Streaming?;
    FailTerminates(refused, E.MISMATCHED_REFUSAL, r);
    hide Linked;
    hide Read;
    hide E.Indexed;
  }

  lemma TextEventSound(valid: string -> bool, s: E.State, body: Body, r: Reader)
    requires E.Indexed(s.registry) && Linked(s, r) && !s.terminal
    requires body.TextDelta? || body.RefusalDelta? || body.RefusalDone? || body.TextDone? || body.PartDone?
    ensures Outcome(E.HandleBody(valid, s, body).state, Read(r, E.HandleBody(valid, s, body).events))
  {
    match body
    case TextDelta(_, _, delta) => AddTextLinked(s, delta, r);
    case RefusalDelta(_, _, delta) =>
      RefusedLinked(s, s.refusalText + delta, r);
      AddTextLinked(s.(stopReason := "refusal", refusalText := s.refusalText + delta), delta, r);
    case RefusalDone(_, _, _) => RefusalDoneSound(valid, s, body, r);
    case _ => CloseTextLinked(s, r);
  }

  lemma ItemAddedSound(valid: string -> bool, s: E.State, body: Body, r: Reader)
    requires E.Indexed(s.registry) && Linked(s, r) && !s.terminal && body.ItemAdded?
    ensures Outcome(E.HandleBody(valid, s, body).state, Read(r, E.HandleBody(valid, s, body).events))
  {
    FailTerminates(s, E.INCOMPLETE_CALL, r);
    FailTerminates(s, E.DUPLICATE_CALL, r);
    if body.item.FunctionCall? && body.outputIndex.Some? { OpenToolLinked(s, body.outputIndex.value, body.item, r); }
  }

  lemma ArgumentsSound(valid: string -> bool, s: E.State, body: Body, r: Reader)
    requires E.Indexed(s.registry) && Linked(s, r) && !s.terminal && body.ArgumentsDelta?
    ensures Outcome(E.HandleBody(valid, s, body).state, Read(r, E.HandleBody(valid, s, body).events))
  {
    FailTerminates(s, E.UNMATCHED_ARGUMENTS, r);
    var found := E.FindTool(s.registry, body.itemID, body.outputIndex);
    if found.Some? && !s.registry.tools[found.value].closed { AddArgumentsLinked(s, found.value, body.delta, r); }
  }

  lemma ToolDoneSound(valid: string -> bool, s: E.State, body: Body, r: Reader)
    requires E.Indexed(s.registry) && Linked(s, r) && !s.terminal && (body.ArgumentsDone? || body.ItemDone?)
    ensures Outcome(E.HandleBody(valid, s, body).state, Read(r, E.HandleBody(valid, s, body).events))
  {
    FailTerminates(s, E.UNMATCHED_ARGUMENTS, r);
    FailTerminates(s, E.UNMATCHED_CALL, r);
    if body.ArgumentsDone? || body.item.FunctionCall? {
      var itemID, final := if body.ArgumentsDone? then body.itemID else body.item.id,
                           if body.ArgumentsDone? then body.arguments else body.item.arguments;
      var found := E.FindTool(s.registry, itemID, body.outputIndex);
      if found.Some? { ToolEventSound(s, found.value, final, r); }
    }
  }

  lemma BodySound(valid: string -> bool, s: E.State, body: Body, r: Reader)
    requires E.Indexed(s.registry) && Linked(s, r) && !s.terminal
    ensures Outcome(E.HandleBody(valid, s, body).state, Read(r, E.HandleBody(valid, s, body).events))
  {
    if body.TextDelta? || body.RefusalDelta? || body.RefusalDone? || body.TextDone? || body.PartDone? {
      TextEventSound(valid, s, body, r);
    } else if body.ItemAdded? {
      ItemAddedSound(valid, s, body, r);
    } else if body.ArgumentsDelta? {
      ArgumentsSound(valid, s, body, r);
    } else if body.ArgumentsDone? || body.ItemDone? {
      ToolDoneSound(valid, s, body, r);
    } else {
      FailTerminates(s, E.UPSTREAM_INCOMPLETE, r);
      FailTerminates(s, E.UPSTREAM_FAILED, r);
      FinishSound(valid, s, s.stopReason, r);
      FinishSound(valid, s, "max_tokens", r);
    }
  }

  /** One event, malformed or not, after a sound history. */
  lemma HandleSound(valid: string -> bool, before: E.Step, event: Event)
    requires E.Indexed(before.state.registry) && Sound(before)
    ensures var step := E.Handle(valid, before.state, event); Sound(E.Step(step.state, before.events + step.events))
  {
    var step := E.Handle(valid, before.state, event);
    var r := Read(START, before.events);
    ReadConcat(START, before.events, step.events);
    if !before.state.terminal {
      if event.body.Malformed? {
        FailTerminates(before.state, E.INVALID_EVENT, r);
      } else {
        CountLinked(before.state, event, r);
        BodySound(valid, E.Count(before.state, event), event.body, r);
      }
    } else {
      assert before.events + step.events == before.events;
    }
  }

  /** Soundness of the encoder over every upstream stream. */
  lemma {:induction false} EncodeSound(valid: string -> bool, stream: seq<Event>)
    ensures Sound(E.Encode(valid, stream))
  {
    if stream == [] {
      ReadOne(START, MessageStart);
    } else {
      EncodeSound(valid, stream[..|stream| - 1]);
      HandleSound(valid, E.Encode(valid, stream[..|stream| - 1]), stream[|stream| - 1]);
    }
  }

  /** The client log of every upstream stream is well formed: block starts are
      numbered 0, 1, 2, ..., deltas and stops name a block that is open, nothing
      follows the one terminal event, and a normal end closes every block once. */
  lemma EncodeWellFormed(valid: string -> bool, stream: seq<Event>)
    ensures WellFormed(E.Encode(valid, stream).events)
    ensures E.Encode(valid, stream).state.terminal <==>
            exists i :: 0 <= i < |E.Encode(valid, stream).events| && IsTerminal(E.Encode(valid, stream).events[i])
  {
    EncodeSound(valid, stream);
    var log := E.Encode(valid, stream).events;
    AcceptedIsWellFormed(log);
    PhaseTrail(log);
  }
}
