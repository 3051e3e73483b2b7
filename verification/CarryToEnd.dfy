/** The end of a bridged stream: the done events close every client block, and
    the final event either completes the message or reports invalid tool
    arguments. No other encoder failure can occur. */
module CarryToEnd {
  import opened Optional
  import opened Wire
  import opened Bridge
  import opened BridgeShape
  import opened Carry
  import E = Encoder
  import M = MessagesReader
  import EncoderTrace
  import BridgeGrammar
  import Least
  import Agreement

  /** Tools in slots below `k` are closed with their final arguments. */
  ghost predicate ToolEnding(tool: E.Tool, n: nat, call: Call, told: seq<Entry>, index: int, k: nat) {
    && tool.itemID == CallItemID(n) && tool.output == n
    && tool.closed == (n < k)
    && tool.arguments == (if n < k then FinalArguments(call) else call.arguments)
    && tool.index < |told| && told[tool.index] == CallEntry(index)
  }

  ghost predicate ToolsEnding(slots: seq<Slot>, calls: map<int, Call>, told: seq<Entry>, r: E.Registry, k: nat) {
    && E.Indexed(r)
    && (forall n: nat :: n < |slots| && slots[n].CallSlot? ==>
          n in r.byOutput && r.byOutput[n] < |r.tools| && slots[n].call in calls &&
          ToolEnding(r.tools[r.byOutput[n]], n, calls[slots[n].call], told, slots[n].call, k))
    && (forall o :: o in r.byOutput ==> 0 <= o < |slots| && slots[o].CallSlot?)
  }

  ghost predicate BlockEnding(calls: map<int, Call>, told: seq<Entry>, i: nat, block: M.Block, textOpen: bool, k: nat)
    requires i < |told|
  {
    match told[i]
    case Words(text) => block == M.Block(TextBlock, text, textOpen && i == |told| - 1)
    case CallEntry(c) =>
      c in calls && calls[c].at.Some? &&
      block == M.Block(ToolUse(calls[c].openedID, calls[c].openedName),
                       if calls[c].at.value < k then FinalArguments(calls[c]) else calls[c].arguments,
                       calls[c].at.value >= k)
  }

  ghost predicate BlocksEnding(calls: map<int, Call>, told: seq<Entry>, r: M.Reader, textOpen: bool, k: nat) {
    && r.phase.Streaming?
    && |r.blocks| == |told|
    && (forall i: nat :: i < |told| ==> BlockEnding(calls, told, i, r.blocks[i], textOpen, k))
    && (forall i: nat, j: nat :: i < j < |told| && told[i].CallEntry? ==> told[i] != told[j])
  }

  ghost predicate Hushed(told: seq<Entry>, e: E.State) {
    && !e.terminal
    && e.counters == Counters(None, None, None, None)
    && (e.textOpen ==> LastWords(told) && e.textIndex == |told| - 1)
  }

  ghost predicate Closing(s: State, told: seq<Entry>, e: E.State, r: M.Reader, k: nat) {
    && ToolsEnding(s.slots, s.calls, told, e.registry, k)
    && Hushed(told, e)
    && BlocksEnding(s.calls, told, r, e.textOpen, k)
    && Stopping(s, e)
  }

  lemma CarriedCloses(s: State, told: seq<Entry>, e: E.State, r: M.Reader)
    requires Carried(s, told, e, r)
    ensures Closing(s, told, e, r, 0)
  {
    forall n: nat | n < |s.slots| && s.slots[n].CallSlot?
      ensures ToolEnding(e.registry.tools[e.registry.byOutput[n]], n, s.calls[s.slots[n].call], told, s.slots[n].call, 0)
    {
      assert ToolMatches(e.registry.tools[e.registry.byOutput[n]], n, s.calls[s.slots[n].call], told, s.slots[n].call);
    }
    forall i: nat | i < |told| ensures BlockEnding(s.calls, told, i, r.blocks[i], e.textOpen, 0) {
      assert BlockTold(s.calls, told, i, r.blocks[i]);
    }
  }

  /** What the encoder and the client have reached after the queued events. */
  ghost predicate Ends(valid: string -> bool, s: State, told: seq<Entry>, k: nat) {
    var sent := E.Encode(valid, s.log);
    Closing(s, told, sent.state, M.Read(M.START, sent.events), k)
  }

  lemma SilentEnds(valid: string -> bool, s: State, told: seq<Entry>, k: nat, body: Body)
    requires Ends(valid, s, told, k) && Silent(body)
    ensures E.Encode(valid, Enqueue(s, body).log) == E.Encode(valid, s.log)
    ensures Ends(valid, Enqueue(s, body), told, k)
  {
    EncodeSilent(valid, s, body);
  }

  // ------------------------------------------------------------- text and refusal

  lemma CloseTextEnds(s: State, told: seq<Entry>, e: E.State, r: M.Reader, k: nat)
    requires Closing(s, told, e, r, k)
    ensures var step := E.CloseText(e);
            Closing(s, told, step.state, M.Read(r, step.events), k) && !step.state.textOpen
  {
    if e.textOpen {
      var i := |told| - 1;
      assert BlockEnding(s.calls, told, i, r.blocks[i], true, k);
      M.ReadOne(r, BlockStop(i));
      var r' := M.Read(r, E.CloseText(e).events);
      forall j: nat | j < |told| ensures BlockEnding(s.calls, told, j, r'.blocks[j], false, k) {
        assert BlockEnding(s.calls, told, j, r.blocks[j], true, k);
      }
    }
  }

  lemma TextDoneEnds(valid: string -> bool, s: State, told: seq<Entry>, k: nat, body: Body)
    requires Ends(valid, s, told, k) && (body.TextDone? || body.PartDone?)
    ensures Ends(valid, Enqueue(s, body), told, k) && !E.Encode(valid, Enqueue(s, body).log).state.textOpen
    ensures E.Encode(valid, Enqueue(s, body).log).state.stopReason == E.Encode(valid, s.log).state.stopReason
  {
    var sent := E.Encode(valid, s.log);
    EncodeEnqueue(valid, s, body);
    NotCounted(sent.state, |s.log|, body);
    CloseTextEnds(s, told, sent.state, M.Read(M.START, sent.events), k);
    M.ReadConcat(M.START, sent.events, E.CloseText(sent.state).events);
  }

  lemma RefusalDoneEnds(valid: string -> bool, s: State, told: seq<Entry>, k: nat, id: string, at: Option<nat>)
    requires Ends(valid, s, told, k) && s.refusalAt.Some?
    ensures var after := Enqueue(s, RefusalDone(id, at, s.refusal));
            Ends(valid, after, told, k) && !E.Encode(valid, after.log).state.textOpen &&
            E.Encode(valid, after.log).state.stopReason == "refusal"
  {
    var sent := E.Encode(valid, s.log);
    var body := RefusalDone(id, at, s.refusal);
    EncodeEnqueue(valid, s, body);
    NotCounted(sent.state, |s.log|, body);
    var refused := sent.state.(stopReason := "refusal");
    CloseTextEnds(s, told, refused, M.Read(M.START, sent.events), k);
    M.ReadConcat(M.START, sent.events, E.CloseText(refused).events);
  }

  /** No words are left open once the text and refusal items are done. */
  ghost predicate Quieted(valid: string -> bool, s: State, told: seq<Entry>) {
    && Ends(valid, s, told, 0)
    && !E.Encode(valid, s.log).state.textOpen
    && (s.refusalAt.Some? ==> E.Encode(valid, s.log).state.stopReason == "refusal")
  }

  lemma FinishTextEnds(valid: string -> bool, s: State, told: seq<Entry>)
    requires Ends(valid, s, told, 0) && s.textAt.Some?
    ensures Ends(valid, FinishText(s), told, 0) && !E.Encode(valid, FinishText(s).log).state.textOpen
  {
    var n := s.textAt.value;
    var first := Enqueue(s, TextDone(MessageID(n), Some(n), s.text));
    TextDoneEnds(valid, s, told, 0, TextDone(MessageID(n), Some(n), s.text));
    var second := Enqueue(first, PartDone(MessageID(n), Some(n), OutputText(s.text)));
    TextDoneEnds(valid, first, told, 0, PartDone(MessageID(n), Some(n), OutputText(s.text)));
    SilentEnds(valid, second, told, 0, ItemDone(Some(n), MessageItem(MessageID(n), [OutputText(s.text)], "")));
  }

  lemma FinishRefusalEnds(valid: string -> bool, s: State, told: seq<Entry>)
    requires Ends(valid, s, told, 0) && s.refusalAt.Some?
    ensures Quieted(valid, FinishRefusal(s), told)
  {
    var n := s.refusalAt.value;
    var first := Enqueue(s, RefusalDone(MessageID(n), Some(n), s.refusal));
    RefusalDoneEnds(valid, s, told, 0, MessageID(n), Some(n));
    var second := Enqueue(first, PartDone(MessageID(n), Some(n), RefusalPart(s.refusal)));
    TextDoneEnds(valid, first, told, 0, PartDone(MessageID(n), Some(n), RefusalPart(s.refusal)));
    SilentEnds(valid, second, told, 0, ItemDone(Some(n), MessageItem(MessageID(n), [RefusalPart(s.refusal)], "")));
  }

  lemma FinishTextsEnd(valid: string -> bool, s: State, told: seq<Entry>)
    requires Ends(valid, s, told, 0)
    requires s.textAt.None? && s.refusalAt.None? ==> !LastWords(told)
    ensures Quieted(valid, FinishRefusal(FinishText(s)), told)
  {
    if s.textAt.Some? { FinishTextEnds(valid, s, told); }
    if s.refusalAt.Some? { FinishRefusalEnds(valid, FinishText(s), told); }
  }

  // ---------------------------------------------------------------------- tools

  /** Closing an open tool with the bridge's final arguments. */
  lemma SealTool(e: E.State, k: nat, final: string)
    requires k < |e.registry.tools| && !e.registry.tools[k].closed
    requires final == if e.registry.tools[k].arguments == "" then "{}" else e.registry.tools[k].arguments
    ensures var tool := e.registry.tools[k];
            E.FinishTool(e, k, final) ==
            E.Step(e.(registry := E.Replace(e.registry, k, tool.(arguments := final, closed := true))),
                   (if tool.arguments == "" then [BlockDelta(tool.index, JsonFragment("{}"))] else []) + [BlockStop(tool.index)])
  {
    var tool := e.registry.tools[k];
    assert tool.arguments + "" == tool.arguments;
    assert "" + "{}" == "{}";
  }

  lemma SealedTools(slots: seq<Slot>, calls: map<int, Call>, told: seq<Entry>, r: E.Registry, n: nat)
    requires ToolsEnding(slots, calls, told, r, n) && n < |slots| && slots[n].CallSlot?
    ensures n in r.byOutput && r.byOutput[n] < |r.tools|
    ensures var k := r.byOutput[n];
            ToolsEnding(slots, calls, told,
                        E.Replace(r, k, r.tools[k].(arguments := FinalArguments(calls[slots[n].call]), closed := true)), n + 1)
  {
    var k := r.byOutput[n];
    var tool := r.tools[k].(arguments := FinalArguments(calls[slots[n].call]), closed := true);
    E.ReplaceIndexed(r, k, tool);
    var r' := E.Replace(r, k, tool);
    forall m: nat | m < |slots| && slots[m].CallSlot?
      ensures ToolEnding(r'.tools[r'.byOutput[m]], m, calls[slots[m].call], told, slots[m].call, n + 1)
    {
      assert ToolEnding(r.tools[r.byOutput[m]], m, calls[slots[m].call], told, slots[m].call, n);
      assert m != n ==> r.byOutput[m] != k;
    }
  }

  lemma SealedBlocks(calls: map<int, Call>, told: seq<Entry>, r: M.Reader, n: nat, c: int, i: nat)
    requires BlocksEnding(calls, told, r, false, n)
    requires i < |told| && told[i] == CallEntry(c) && c in calls && calls[c].at == Some(n)
    requires forall d :: d in calls && calls[d].at == Some(n) ==> d == c
    ensures var block := M.Block(ToolUse(calls[c].openedID, calls[c].openedName), FinalArguments(calls[c]), false);
            BlocksEnding(calls, told, r.(blocks := r.blocks[i := block]), false, n + 1)
  {
    var block := M.Block(ToolUse(calls[c].openedID, calls[c].openedName), FinalArguments(calls[c]), false);
    var r' := r.(blocks := r.blocks[i := block]);
    forall j: nat | j < |told| ensures BlockEnding(calls, told, j, r'.blocks[j], false, n + 1) {
      assert BlockEnding(calls, told, j, r.blocks[j], false, n);
    }
  }

  /** The done event of one call's arguments, seen from the client. */
  lemma SealReads(calls: map<int, Call>, told: seq<Entry>, r: M.Reader, n: nat, c: int, i: nat)
    requires BlocksEnding(calls, told, r, false, n)
    requires i < |told| && told[i] == CallEntry(c) && c in calls && calls[c].at == Some(n)
    ensures var block := M.Block(ToolUse(calls[c].openedID, calls[c].openedName), FinalArguments(calls[c]), false);
            M.Read(r, (if calls[c].arguments == "" then [BlockDelta(i, JsonFragment("{}"))] else []) + [BlockStop(i)])
            == r.(blocks := r.blocks[i := block])
  {
    assert BlockEnding(calls, told, i, r.blocks[i], false, n);
    hide BlocksEnding;
    hide M.Read;
    EncoderTrace.ReadClosing(r, i, if calls[c].arguments == "" then "{}" else "");
    assert "" + "{}" == "{}";
    assert calls[c].arguments + "" == calls[c].arguments;
  }

  lemma CallSealed(s: State, told: seq<Entry>, e: E.State, r: M.Reader, n: nat)
    requires Closing(s, told, e, r, n) && CallsPlaced(s.calls, s.slots) && !e.textOpen
    requires n < |s.slots| && s.slots[n].CallSlot?
    ensures n in e.registry.byOutput && e.registry.byOutput[n] < |e.registry.tools|
    ensures var k := e.registry.byOutput[n];
            var step := E.FinishTool(e, k, FinalArguments(s.calls[s.slots[n].call]));
            && Closing(s, told, step.state, M.Read(r, step.events), n + 1)
            && !step.state.textOpen && step.state.stopReason == e.stopReason
            && step.state.registry.byItem == e.registry.byItem && step.state.registry.byOutput == e.registry.byOutput
            && step.state.registry.tools[k].closed && step.state.registry.tools[k].arguments == FinalArguments(s.calls[s.slots[n].call])
  {
    var c := s.slots[n].call;
    var k := e.registry.byOutput[n];
    var tool := e.registry.tools[k];
    assert ToolEnding(tool, n, s.calls[c], told, c, n);
    SealTool(e, k, FinalArguments(s.calls[c]));
    SealedTools(s.slots, s.calls, told, e.registry, n);
    assert forall d :: d in s.calls && s.calls[d].at == Some(n) ==> s.slots[n] == CallSlot(d);
    SealReads(s.calls, told, r, n, c, tool.index);
    SealedBlocks(s.calls, told, r, n, c, tool.index);
  }

  lemma FoundCall(slots: seq<Slot>, calls: map<int, Call>, told: seq<Entry>, r: E.Registry, n: nat, k: nat)
    requires ToolsEnding(slots, calls, told, r, k) && n < |slots| && slots[n].CallSlot?
    ensures n in r.byOutput && r.byOutput[n] < |r.tools|
    ensures E.FindTool(r, CallItemID(n), Some(n)) == Some(r.byOutput[n])
  {
    assert |CallItemID(n)| >= 3;
    assert ToolEnding(r.tools[r.byOutput[n]], n, calls[slots[n].call], told, slots[n].call, k);
  }

  lemma ArgumentsDoneEncodes(valid: string -> bool, s: State, told: seq<Entry>, n: nat, final: string)
    requires Ends(valid, s, told, n) && n < |s.slots| && s.slots[n].CallSlot?
    ensures var sent := E.Encode(valid, s.log);
            && n in sent.state.registry.byOutput && sent.state.registry.byOutput[n] < |sent.state.registry.tools|
            && (var step := E.FinishTool(sent.state, sent.state.registry.byOutput[n], final);
                E.Encode(valid, Enqueue(s, ArgumentsDone(CallItemID(n), Some(n), final)).log) == E.Step(step.state, sent.events + step.events))
  {
    var sent := E.Encode(valid, s.log);
    var body := ArgumentsDone(CallItemID(n), Some(n), final);
    FoundCall(s.slots, s.calls, told, sent.state.registry, n, n);
    EncodeEnqueue(valid, s, body);
    NotCounted(sent.state, |s.log|, body);
  }

  /** A second done event for a tool already closed the same way is silent. */
  lemma ItemDoneEncodes(valid: string -> bool, s: State, told: seq<Entry>, n: nat, k: nat, call: Call)
    requires Ends(valid, s, told, k) && n < k && n < |s.slots| && s.slots[n].CallSlot? && call == s.calls[s.slots[n].call]
    ensures E.Encode(valid, Enqueue(s, ItemDone(Some(n), FinalCall(call, n))).log) == E.Encode(valid, s.log)
  {
    var sent := E.Encode(valid, s.log);
    var registry := sent.state.registry;
    var body := ItemDone(Some(n), FinalCall(call, n));
    FoundCall(s.slots, s.calls, told, registry, n, k);
    assert ToolEnding(registry.tools[registry.byOutput[n]], n, call, told, s.slots[n].call, k);
    EncodeEnqueue(valid, s, body);
    NotCounted(sent.state, |s.log|, body);
    AlreadyDone(valid, sent.state, n, call);
    assert sent.events + [] == sent.events;
    hide E.Encode;
    hide E.Indexed;
    hide E.HandleBody;
    hide ToolsEnding;
    hide BlocksEnding;
    hide Stopping;
    hide M.Read;
  }

  lemma AlreadyDone(valid: string -> bool, e: E.State, n: nat, call: Call)
    requires E.Indexed(e.registry) && E.FindTool(e.registry, CallItemID(n), Some(n)).Some?
    requires var tool := e.registry.tools[E.FindTool(e.registry, CallItemID(n), Some(n)).value];
             tool.closed && tool.arguments == FinalArguments(call)
    ensures E.HandleBody(valid, e, ItemDone(Some(n), FinalCall(call, n))) == E.Step(e, [])
  {
    hide E.Indexed;
  }

  ghost predicate Sealing(valid: string -> bool, s: State, told: seq<Entry>, k: nat, stopReason: string) {
    && Ends(valid, s, told, k)
    && !E.Encode(valid, s.log).state.textOpen
    && E.Encode(valid, s.log).state.stopReason == stopReason
  }

  lemma FinishCallSeals(valid: string -> bool, s: State, told: seq<Entry>, n: nat, stopReason: string)
    requires Sealing(valid, s, told, n, stopReason) && CallsPlaced(s.calls, s.slots)
    requires n < |s.slots| && s.slots[n].CallSlot?
    ensures Sealing(valid, FinishCall(s, s.calls[s.slots[n].call], n), told, n + 1, stopReason)
  {
    var call := s.calls[s.slots[n].call];
    var sent := E.Encode(valid, s.log);
    var body := ArgumentsDone(CallItemID(n), Some(n), FinalArguments(call));
    ArgumentsDoneEncodes(valid, s, told, n, FinalArguments(call));
    CallSealed(s, told, sent.state, M.Read(M.START, sent.events), n);
    M.ReadConcat(M.START, sent.events, E.FinishTool(sent.state, sent.state.registry.byOutput[n], FinalArguments(call)).events);
    var after := Enqueue(s, body);
    assert Ends(valid, after, told, n + 1);
    ItemDoneEncodes(valid, after, told, n, n + 1, call);
  }

  lemma SkipSlot(s: State, told: seq<Entry>, e: E.State, r: M.Reader, n: nat)
    requires Closing(s, told, e, r, n) && CallsPlaced(s.calls, s.slots)
    requires n < |s.slots| && !s.slots[n].CallSlot?
    ensures Closing(s, told, e, r, n + 1)
  {
    forall m: nat | m < |s.slots| && s.slots[m].CallSlot?
      ensures ToolEnding(e.registry.tools[e.registry.byOutput[m]], m, s.calls[s.slots[m].call], told, s.slots[m].call, n + 1)
    {
      assert ToolEnding(e.registry.tools[e.registry.byOutput[m]], m, s.calls[s.slots[m].call], told, s.slots[m].call, n);
    }
    forall i: nat | i < |told| ensures BlockEnding(s.calls, told, i, r.blocks[i], e.textOpen, n + 1) {
      assert BlockEnding(s.calls, told, i, r.blocks[i], e.textOpen, n);
    }
  }

  lemma SealSlot(valid: string -> bool, s: State, told: seq<Entry>, n: nat, stopReason: string)
    requires Sealing(valid, s, told, n, stopReason) && CallsPlaced(s.calls, s.slots) && n < |s.slots|
    ensures Sealing(valid, if s.slots[n].CallSlot? then FinishCall(s, s.calls[s.slots[n].call], n) else s, told, n + 1, stopReason)
  {
    if s.slots[n].CallSlot? {
      FinishCallSeals(valid, s, told, n, stopReason);
    } else {
      var sent := E.Encode(valid, s.log);
      SkipSlot(s, told, sent.state, M.Read(M.START, sent.events), n);
    }
  }

  lemma FinishCallsStep(s: State, n: nat)
    requires CallsPlaced(s.calls, s.slots) && 0 < n <= |s.slots|
    ensures var before := FinishCalls(s, n - 1);
            && before.slots == s.slots && before.calls == s.calls
            && FinishCalls(s, n) == if s.slots[n - 1].CallSlot? then FinishCall(before, s.calls[s.slots[n - 1].call], n - 1) else before
  {
    assert FinishCalls(s, n - 1).(log := s.log) == s;
  }

  lemma {:induction false} FinishCallsSeal(valid: string -> bool, s: State, told: seq<Entry>, n: nat, stopReason: string)
    requires Sealing(valid, s, told, 0, stopReason) && CallsPlaced(s.calls, s.slots) && n <= |s.slots|
    ensures Sealing(valid, FinishCalls(s, n), told, n, stopReason)
  {
    if n == 0 {
      assert FinishCalls(s, n) == s;
    } else {
      FinishCallsSeal(valid, s, told, n - 1, stopReason);
      FinishCallsStep(s, n);
      hide Sealing;
      hide CallsPlaced;
      hide FinishCall;
      SealSlot(valid, FinishCalls(s, n - 1), told, n - 1, stopReason);
    }
  }

  // ------------------------------------------------------------ the final event

  ghost predicate AllValid(valid: string -> bool, r: E.Registry, todo: set<int>)
    requires E.Indexed(r) && todo <= r.byOutput.Keys
  {
    forall o :: o in todo ==> valid(r.tools[r.byOutput[o]].arguments)
  }

  /** With every tool already closed the finishing loop only validates. */
  lemma {:induction false} FinishClosedTools(valid: string -> bool, e: E.State, todo: set<int>, stopReason: string, events: seq<ClientEvent>)
    requires E.Indexed(e.registry) && todo <= e.registry.byOutput.Keys && !e.terminal
    requires forall k :: 0 <= k < |e.registry.tools| ==> e.registry.tools[k].closed
    ensures E.FinishTools(valid, e, todo, stopReason, events) ==
            if stopReason == "max_tokens" || AllValid(valid, e.registry, todo) then E.Step(e, events)
            else E.Fail(e, E.INVALID_ARGUMENTS)
    decreases |todo|
  {
    if todo != {} {
      var o := Least.LeastOf(todo);
      var k := e.registry.byOutput[o];
      if stopReason == "max_tokens" || valid(e.registry.tools[k].arguments) {
        FinishClosedTools(valid, e, todo - {o}, stopReason, events);
        assert events + [] == events;
        if valid(e.registry.tools[k].arguments) && AllValid(valid, e.registry, todo - {o}) {
          forall p | p in todo ensures valid(e.registry.tools[e.registry.byOutput[p]].arguments) {
            assert p == o || p in todo - {o};
          }
        }
      }
    }
  }

  /** The blocks the client ends up with. */
  function FinalBlocks(calls: map<int, Call>, told: seq<Entry>): seq<M.Block> {
    seq(|told|, i requires 0 <= i < |told| => FinalBlock(calls, told[i]))
  }

  function FinalBlock(calls: map<int, Call>, entry: Entry): M.Block {
    match entry
    case Words(text) => M.Block(TextBlock, text, false)
    case CallEntry(c) =>
      if c in calls then M.Block(ToolUse(calls[c].openedID, calls[c].openedName), FinalArguments(calls[c]), false)
      else M.Block(TextBlock, "", false)
  }

  /** Every started call carries a JSON object. */
  ghost predicate ArgumentsValid(valid: string -> bool, s: State) {
    forall n: nat :: n < |s.slots| && s.slots[n].CallSlot? && s.slots[n].call in s.calls ==> valid(FinalArguments(s.calls[s.slots[n].call]))
  }

  lemma AllSealed(s: State, told: seq<Entry>, e: E.State, r: M.Reader)
    requires Closing(s, told, e, r, |s.slots|) && !e.textOpen && CallsPlaced(s.calls, s.slots)
    ensures forall k :: 0 <= k < |e.registry.tools| ==> e.registry.tools[k].closed
    ensures r.blocks == FinalBlocks(s.calls, told)
  {
    forall k | 0 <= k < |e.registry.tools| ensures e.registry.tools[k].closed {
      var o := e.registry.tools[k].output;
      assert o in e.registry.byOutput;
      assert ToolEnding(e.registry.tools[e.registry.byOutput[o]], o, s.calls[s.slots[o].call], told, s.slots[o].call, |s.slots|);
    }
    forall i: nat | i < |told| ensures r.blocks[i] == FinalBlock(s.calls, told[i]) {
      assert BlockEnding(s.calls, told, i, r.blocks[i], false, |s.slots|);
    }
  }

  lemma ValidSealed(valid: string -> bool, s: State, told: seq<Entry>, e: E.State, r: M.Reader)
    requires Closing(s, told, e, r, |s.slots|)
    ensures AllValid(valid, e.registry, e.registry.byOutput.Keys) <==> ArgumentsValid(valid, s)
  {
    forall n: nat | n < |s.slots| && s.slots[n].CallSlot?
      ensures n in e.registry.byOutput.Keys
      ensures e.registry.tools[e.registry.byOutput[n]].arguments == FinalArguments(s.calls[s.slots[n].call])
    {
      assert ToolEnding(e.registry.tools[e.registry.byOutput[n]], n, s.calls[s.slots[n].call], told, s.slots[n].call, |s.slots|);
    }
    if ArgumentsValid(valid, s) {
      forall o | o in e.registry.byOutput.Keys ensures valid(e.registry.tools[e.registry.byOutput[o]].arguments) {
        var n: nat := o;
        assert s.slots[n].CallSlot?;
      }
    }
  }

  /** How the client's stream ends: with these blocks and this stop reason, or
      with this error. */
  function StopReasonOf(s: State): string {
    if s.finish == "length" then "max_tokens"
    else if s.refusalAt.Some? then "refusal"
    else if exists n: nat | n < |s.slots| :: s.slots[n].CallSlot? then "tool_use"
    else "end_turn"
  }

  lemma FinishSealed(valid: string -> bool, s: State, told: seq<Entry>, e0: E.State, e: E.State, r: M.Reader, stopReason: string)
    requires Closing(s, told, e0, r, |s.slots|) && !e.textOpen && CallsPlaced(s.calls, s.slots)
    requires e == e0.(counters := e.counters)
    ensures var done := E.Finish(valid, e, stopReason);
            if stopReason == "max_tokens" || ArgumentsValid(valid, s) then
              && done == E.Step(e.(stopReason := stopReason, terminal := true, success := true), [MessageDelta(stopReason, e.counters), MessageStop])
              && M.Read(r, done.events) == M.Reader(M.Finished(stopReason), FinalBlocks(s.calls, told))
            else
              && done == E.Fail(e, E.INVALID_ARGUMENTS)
              && M.Read(r, done.events).phase == M.Errored(E.INVALID_ARGUMENTS)
  {
    AllSealed(s, told, e0, r);
    ValidSealed(valid, s, told, e0, r);
    FinishClosedTools(valid, e, e.registry.byOutput.Keys, stopReason, []);
    if stopReason == "max_tokens" || ArgumentsValid(valid, s) {
      assert [] + [MessageDelta(stopReason, e.counters), MessageStop] == [MessageDelta(stopReason, e.counters), MessageStop];
      forall i | 0 <= i < |r.blocks| ensures !r.blocks[i].open {
        assert r.blocks[i] == FinalBlock(s.calls, told[i]);
      }
      M.ReadTwo(r, MessageDelta(stopReason, e.counters), MessageStop);
    } else {
      M.ReadOne(r, StreamError(E.INVALID_ARGUMENTS));
    }
  }

  /** Words are only ever told through the text or the refusal item. */
  lemma {:induction false} SilentTold(expose: bool, pieces: seq<Piece>)
    ensures var s := Run(expose, pieces);
            s.textAt.None? && s.refusalAt.None? ==> !LastWords(Told(expose, pieces))
  {
    if pieces != [] {
      var n := |pieces| - 1;
      SilentTold(expose, pieces[..n]);
      SilentStep(Run(expose, pieces[..n]), Told(expose, pieces[..n]), pieces[n]);
      hide Step;
      hide Tell;
    }
  }

  lemma SilentStep(s: State, told: seq<Entry>, piece: Piece)
    requires s.textAt.None? && s.refusalAt.None? ==> !LastWords(told)
    ensures Step(s, piece).textAt.None? && Step(s, piece).refusalAt.None? ==> !LastWords(Tell(told, s, piece))
  {
    if piece.CallPart? { Agreement.CallPiece(s, piece.call); }
    hide AddCall;
    hide AddReasoning;
    if piece.Reasoning? { AddReasoningKeeps(s, piece.delta); }
  }

  lemma AddReasoningKeeps(s: State, delta: string)
    ensures AddReasoning(s, delta).textAt == s.textAt && AddReasoning(s, delta).refusalAt == s.refusalAt
  {
  }

  lemma StoppedFor(s: State, told: seq<Entry>, e: E.State, r: M.Reader, k: nat)
    requires Closing(s, told, e, r, k) && s.finish != "length"
    requires s.refusalAt.Some? ==> e.stopReason == "refusal"
    ensures e.stopReason == StopReasonOf(s)
  {
    if s.refusalAt.None? {
      forall n: nat | n < |s.slots| && s.slots[n].CallSlot? ensures e.registry.tools != [] {
        assert e.registry.byOutput[n] < |e.registry.tools|;
      }
      if e.registry.tools != [] {
        var o := e.registry.tools[0].output;
        assert o in e.registry.byOutput;
        var n: nat := o;
        assert n < |s.slots| && s.slots[n].CallSlot?;
      }
    }
  }

  /** The state once the text and refusal items are done. */
  lemma TextsDone(valid: string -> bool, closed: State, told: seq<Entry>) returns (stopReason: string)
    requires Follows(valid, closed, told)
    requires closed.textAt.None? && closed.refusalAt.None? ==> !LastWords(told)
    ensures var texts := FinishRefusal(FinishText(closed));
            && Sealing(valid, texts, told, 0, stopReason)
            && (closed.finish != "length" ==> stopReason == StopReasonOf(texts))
  {
    var sent := E.Encode(valid, closed.log);
    CarriedCloses(closed, told, sent.state, M.Read(M.START, sent.events));
    FinishTextsEnd(valid, closed, told);
    var texts := FinishRefusal(FinishText(closed));
    TextsOnlyLog(closed);
    var quiet := E.Encode(valid, texts.log);
    stopReason := quiet.state.stopReason;
    if closed.finish != "length" { StoppedFor(texts, told, quiet.state, M.Read(M.START, quiet.events), 0); }
  }

  lemma TextsOnlyLog(s: State)
    ensures FinishRefusal(FinishText(s)) == s.(log := FinishRefusal(FinishText(s)).log)
  {
  }

  lemma CloseReasoningKeeps(s: State)
    ensures CloseReasoning(s) == s.(log := CloseReasoning(s).log, reasoningClosed := CloseReasoning(s).reasoningClosed)
  {
  }

  lemma SameStop(s: State, s': State)
    requires s'.slots == s.slots && s'.refusalAt == s.refusalAt && s'.finish == s.finish
    ensures StopReasonOf(s') == StopReasonOf(s)
  {
  }

  /** The state after all done events. */
  lemma DoneEventsSeal(valid: string -> bool, expose: bool, pieces: seq<Piece>) returns (stopReason: string)
    ensures var s := Run(expose, pieces);
            && Sealing(valid, FinishItems(s), Told(expose, pieces), |s.slots|, stopReason)
            && (s.finish != "length" ==> stopReason == StopReasonOf(s))
  {
    var s := Run(expose, pieces);
    var told := Told(expose, pieces);
    var closed := CloseReasoning(s);
    RunFollows(valid, expose, pieces);
    CloseReasoningFollows(valid, s, told);
    CloseReasoningKeeps(s);
    SilentTold(expose, pieces);
    stopReason := TextsDone(valid, closed, told);
    var texts := FinishRefusal(FinishText(closed));
    TextsOnlyLog(closed);
    SameStop(s, texts);
    assert CallsPlaced(texts.calls, texts.slots) by { RunPlaced(expose, pieces); }
    FinishCallsSeal(valid, texts, told, |texts.slots|, stopReason);
  }

  function FinalEvent(s: State): Event {
    Event(|s.log|, None, FinalBody(s))
  }

  /** The encoder's answer to the final event. */
  lemma FinalHandled(valid: string -> bool, s: State, e: E.State, stopReason: string)
    requires E.Indexed(e.registry) && !e.terminal
    requires e.stopReason == stopReason && (s.finish != "length" ==> stopReason == StopReasonOf(s))
    ensures var step := E.Handle(valid, e, FinalEvent(s));
            var counted := E.Count(e, FinalEvent(s));
            var done := E.Finish(valid, counted, StopReasonOf(s));
            step == if s.finish == "length" then done.(state := done.state.(success := false)) else done
  {
    NotMaxTokens(s);
  }

  lemma FinalCounters(s: State, e: E.State)
    requires e.counters == Counters(None, None, None, None)
    ensures E.Count(e, FinalEvent(s)) == e.(counters := E.ExtractUsage(FinalEvent(s)))
  {
  }

  lemma FinalEncodes(valid: string -> bool, s: State, told: seq<Entry>, stopReason: string)
    requires Sealing(valid, s, told, |s.slots|, stopReason) && CallsPlaced(s.calls, s.slots)
    requires s.finish != "length" ==> stopReason == StopReasonOf(s)
    ensures var before := E.Encode(valid, s.log);
            var done := E.Encode(valid, Enqueue(s, FinalBody(s)).log);
            && done.state.terminal
            && (done.state.success <==> s.finish != "length" && ArgumentsValid(valid, s))
            && (if s.finish == "length" || ArgumentsValid(valid, s) then
                  && done.events == before.events + [MessageDelta(StopReasonOf(s), E.ExtractUsage(FinalEvent(s))), MessageStop]
                  && M.Read(M.START, done.events) == M.Reader(M.Finished(StopReasonOf(s)), FinalBlocks(s.calls, told))
                else
                  && done.events == before.events + [StreamError(E.INVALID_ARGUMENTS)]
                  && M.Read(M.START, done.events).phase == M.Errored(E.INVALID_ARGUMENTS))
  {
    var before := E.Encode(valid, s.log);
    var r := M.Read(M.START, before.events);
    EncodeEnqueue(valid, s, FinalBody(s));
    FinalHandled(valid, s, before.state, stopReason);
    FinalCounters(s, before.state);
    NotMaxTokens(s);
    var counted := E.Count(before.state, FinalEvent(s));
    FinishSealed(valid, s, told, before.state, counted, r, StopReasonOf(s));
    M.ReadConcat(M.START, before.events, E.Finish(valid, counted, StopReasonOf(s)).events);
  }

  lemma NotMaxTokens(s: State)
    ensures s.finish == "length" <==> StopReasonOf(s) == "max_tokens"
  {
  }

  /** Bridge then encoder, over every chunk sequence that is brought to its end:
      the encoder terminates, succeeds exactly when the finish reason is not
      "length" and every tool's arguments form a JSON object, and otherwise either
      completes a truncated message or reports invalid arguments. None of its
      duplicate, unmatched, mismatch or incomplete-call failures is ever taken,
      and the client's blocks are the transcript's. */
  lemma BridgedStream(valid: string -> bool, expose: bool, pieces: seq<Piece>)
    ensures var s := Run(expose, pieces);
            var done := E.Encode(valid, Complete(s));
            && done.state.terminal
            && (done.state.success <==> s.finish != "length" && ArgumentsValid(valid, s))
            && M.Read(M.START, done.events).phase ==
               (if s.finish == "length" || ArgumentsValid(valid, s) then M.Finished(StopReasonOf(s)) else M.Errored(E.INVALID_ARGUMENTS))
    ensures var s := Run(expose, pieces);
            s.finish == "length" || ArgumentsValid(valid, s) ==>
              M.Read(M.START, E.Encode(valid, Complete(s)).events).blocks == FinalBlocks(s.calls, Told(expose, pieces))
  {
    var s := Run(expose, pieces);
    var stopReason := DoneEventsSeal(valid, expose, pieces);
    RunPlaced(expose, pieces);
    BridgeGrammar.FinishItemsOnlyLog(s);
    FinalEncodes(valid, FinishItems(s), Told(expose, pieces), stopReason);
    assert ArgumentsValid(valid, FinishItems(s)) <==> ArgumentsValid(valid, s);
    assert StopReasonOf(FinishItems(s)) == StopReasonOf(s);
  }

  lemma SameUsage(s: State, s': State)
    requires s'.usage == s.usage
    ensures E.ExtractUsage(FinalEvent(s')) == E.ExtractUsage(FinalEvent(s))
  {
  }

  /** The last two events of a stream that ends with a message: the stop reason
      with the token counts of the final response, then the stop itself. */
  lemma ClosingEvents(valid: string -> bool, expose: bool, pieces: seq<Piece>)
    requires var s := Run(expose, pieces); s.finish == "length" || ArgumentsValid(valid, s)
    ensures var s := Run(expose, pieces);
            var log := E.Encode(valid, Complete(s)).events;
            |log| >= 2 && log[|log| - 2..] == [MessageDelta(StopReasonOf(s), E.ExtractUsage(FinalEvent(s))), MessageStop]
  {
    var s := Run(expose, pieces);
    var stopReason := DoneEventsSeal(valid, expose, pieces);
    RunPlaced(expose, pieces);
    BridgeGrammar.FinishItemsOnlyLog(s);
    var ended := FinishItems(s);
    FinalEncodes(valid, ended, Told(expose, pieces), stopReason);
    assert ArgumentsValid(valid, ended) <==> ArgumentsValid(valid, s);
    SameStop(s, ended);
    SameUsage(s, ended);
  }
}
