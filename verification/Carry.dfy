/** Feeding the bridge's events to the encoder. While the chunks last, the
    client's blocks are the told transcript: text and refusal fragments run
    together between tool starts, one block per tool. */
module Carry {
  import opened Optional
  import opened Wire
  import opened Bridge
  import opened BridgeShape
  import E = Encoder
  import M = MessagesReader

  // ------------------------------------------------------------ the transcript

  datatype Entry =
    | Words(text: string)
    | CallEntry(call: int)

  predicate LastWords(told: seq<Entry>) {
    told != [] && told[|told| - 1].Words?
  }

  function Say(told: seq<Entry>, delta: string): seq<Entry> {
    if delta == "" then told
    else if LastWords(told) then told[|told| - 1 := Words(told[|told| - 1].text + delta)]
    else told + [Words(delta)]
  }

  predicate Starts(s: State, delta: CallDelta) {
    var merged := Merge(s, delta);
    merged.at.None? && merged.callID != "" && merged.name != ""
  }

  function Tell(told: seq<Entry>, s: State, piece: Piece): seq<Entry> {
    match piece
    case Text(delta) => Say(told, delta)
    case Refusal(delta) => Say(told, delta)
    case CallPart(delta) => if Starts(s, delta) then told + [CallEntry(delta.index)] else told
    case _ => told
  }

  /** What the chunks tell the client, whichever protocol carries it. */
  function Told(expose: bool, pieces: seq<Piece>): seq<Entry> {
    if pieces == [] then []
    else
      var front := pieces[..|pieces| - 1];
      Tell(Told(expose, front), Run(expose, front), pieces[|pieces| - 1])
  }

  // ------------------------------------------------- encoder versus transcript

  ghost predicate ToolMatches(tool: E.Tool, n: nat, call: Call, told: seq<Entry>, index: int) {
    && tool.itemID == CallItemID(n) && tool.output == n
    && tool.arguments == call.arguments && !tool.closed
    && tool.index < |told| && told[tool.index] == CallEntry(index)
  }

  /** The encoder knows exactly the started calls, each under its own indexes. */
  ghost predicate Registered(slots: seq<Slot>, calls: map<int, Call>, told: seq<Entry>, r: E.Registry) {
    && E.Indexed(r)
    && (forall n: nat :: n < |slots| && slots[n].CallSlot? ==>
          n in r.byOutput && r.byOutput[n] < |r.tools| && slots[n].call in calls &&
          ToolMatches(r.tools[r.byOutput[n]], n, calls[slots[n].call], told, slots[n].call))
    && (forall o :: o in r.byOutput ==> 0 <= o < |slots| && slots[o].CallSlot?)
  }

  ghost predicate Speaking(told: seq<Entry>, e: E.State) {
    && !e.terminal
    && e.counters == Counters(None, None, None, None)
    && e.nextIndex == |told|
    && e.textOpen == LastWords(told)
    && (e.textOpen ==> e.textIndex == |told| - 1)
  }

  /** One client block per transcript entry; only calls and a last text are open. */
  ghost predicate BlockTold(calls: map<int, Call>, told: seq<Entry>, i: nat, block: M.Block)
    requires i < |told|
  {
    match told[i]
    case Words(text) => block == M.Block(TextBlock, text, i == |told| - 1)
    case CallEntry(c) =>
      c in calls && calls[c].at.Some? &&
      block == M.Block(ToolUse(calls[c].openedID, calls[c].openedName), calls[c].arguments, true)
  }

  ghost predicate BlocksTold(calls: map<int, Call>, told: seq<Entry>, r: M.Reader) {
    && r.phase.Streaming?
    && |r.blocks| == |told|
    && (forall i: nat :: i < |told| ==> BlockTold(calls, told, i, r.blocks[i]))
    && (forall i: nat, j: nat :: i < j < |told| && told[i].CallEntry? ==> told[i] != told[j])
  }

  ghost predicate Stopping(s: State, e: E.State) {
    && e.refusalText == s.refusal
    && (s.refusalAt.None? ==> e.stopReason == if e.registry.tools == [] then "end_turn" else "tool_use")
  }

  ghost predicate Carried(s: State, told: seq<Entry>, e: E.State, r: M.Reader) {
    && Registered(s.slots, s.calls, told, e.registry)
    && Speaking(told, e)
    && BlocksTold(s.calls, told, r)
    && Stopping(s, e)
  }

  // --------------------------------------------------------------- single steps

  lemma EncodeEnqueue(valid: string -> bool, s: State, body: Body)
    ensures var before := E.Encode(valid, s.log);
            var step := E.Handle(valid, before.state, Event(|s.log|, None, body));
            E.Encode(valid, Enqueue(s, body).log) == E.Step(step.state, before.events + step.events)
  {
    assert Enqueue(s, body).log[..|s.log|] == s.log;
  }

  /** Bodies that carry no response leave the usage counters alone. */
  lemma NotCounted(e: E.State, number: int, body: Body)
    requires !body.Created? && !body.Completed? && !body.Incomplete?
    ensures E.Count(e, Event(number, None, body)) == e
  {
  }

  predicate Silent(body: Body) {
    match body
    case ItemAdded(_, item) => !item.FunctionCall?
    case ItemDone(_, item) => !item.FunctionCall?
    case PartAdded(_, _, _) => true
    case ReasoningDelta(_, _, _) => true
    case ReasoningDone(_, _, _) => true
    case _ => false
  }

  lemma EncodeSilent(valid: string -> bool, s: State, body: Body)
    requires Silent(body)
    ensures E.Encode(valid, Enqueue(s, body).log) == E.Encode(valid, s.log)
  {
    var before := E.Encode(valid, s.log);
    EncodeEnqueue(valid, s, body);
    NotCounted(before.state, |s.log|, body);
    assert before.events + [] == before.events;
  }

  lemma SayTold(slots: seq<Slot>, calls: map<int, Call>, told: seq<Entry>, e: E.State, r: M.Reader, delta: string)
    requires Registered(slots, calls, told, e.registry) && Speaking(told, e) && BlocksTold(calls, told, r)
    ensures var step := E.AddText(e, delta);
            && Registered(slots, calls, Say(told, delta), step.state.registry)
            && Speaking(Say(told, delta), step.state)
            && BlocksTold(calls, Say(told, delta), M.Read(r, step.events))
  {
    if delta != "" {
      var told' := Say(told, delta);
      if LastWords(told) {
        var i := |told| - 1;
        M.ReadOne(r, BlockDelta(i, TextFragment(delta)));
        assert BlockTold(calls, told, i, r.blocks[i]);
        var r' := M.Read(r, E.AddText(e, delta).events);
        forall k: nat | k < |told'| ensures BlockTold(calls, told', k, r'.blocks[k]) {
          assert BlockTold(calls, told, k, r.blocks[k]);
        }
      } else {
        NewWords(calls, told, r, delta);
        M.ReadTwo(r, BlockStart(|told|, TextBlock), BlockDelta(|told|, TextFragment(delta)));
      }
      ToldExtends(slots, calls, told, told', e.registry);
    }
  }

  lemma NewWords(calls: map<int, Call>, told: seq<Entry>, r: M.Reader, delta: string)
    requires BlocksTold(calls, told, r) && !LastWords(told)
    ensures var r' := M.Receive(M.Receive(r, BlockStart(|told|, TextBlock)), BlockDelta(|told|, TextFragment(delta)));
            BlocksTold(calls, told + [Words(delta)], r')
  {
    var told' := told + [Words(delta)];
    assert "" + delta == delta;
    var r' := r.(blocks := r.blocks + [M.Block(TextBlock, delta, true)]);
    assert (r.blocks + [M.Block(TextBlock, "", true)])[|told| := M.Block(TextBlock, delta, true)] == r'.blocks;
    forall k: nat | k < |told'| ensures BlockTold(calls, told', k, r'.blocks[k]) {
      if k < |told| { assert BlockTold(calls, told, k, r.blocks[k]); }
    }
  }

  /** Call entries keep their positions, so the registry keeps matching. */
  lemma ToldExtends(slots: seq<Slot>, calls: map<int, Call>, told: seq<Entry>, told': seq<Entry>, r: E.Registry)
    requires Registered(slots, calls, told, r)
    requires |told| <= |told'| && forall i: nat :: i < |told| && told[i].CallEntry? ==> told'[i] == told[i]
    ensures Registered(slots, calls, told', r)
  {
  }

  /** Tool starts: the open text is closed first. */
  lemma CloseTold(calls: map<int, Call>, told: seq<Entry>, e: E.State, r: M.Reader)
    requires Speaking(told, e) && BlocksTold(calls, told, r)
    ensures var r' := M.Read(r, E.CloseText(e).events);
            && r'.phase.Streaming? && |r'.blocks| == |told|
            && forall i: nat :: i < |told| ==>
                 match told[i]
                 case Words(text) => r'.blocks[i] == M.Block(TextBlock, text, false)
                 case CallEntry(c) => r'.blocks[i] == r.blocks[i]
  {
    if e.textOpen {
      assert BlockTold(calls, told, |told| - 1, r.blocks[|told| - 1]);
      M.ReadOne(r, BlockStop(|told| - 1));
    }
    forall i: nat | i < |told| ensures BlockTold(calls, told, i, r.blocks[i]) {
    }
  }

  lemma FreshCall(slots: seq<Slot>, calls: map<int, Call>, told: seq<Entry>, r: E.Registry)
    requires Registered(slots, calls, told, r)
    ensures CallItemID(|slots|) !in r.byItem && |slots| !in r.byOutput
    ensures CallItemID(|slots|) != ""
  {
    assert |CallItemID(|slots|)| >= 3;
    if CallItemID(|slots|) in r.byItem {
      var tool := r.tools[r.byItem[CallItemID(|slots|)]];
      assert tool.output in r.byOutput;
      assert tool.itemID == CallItemID(tool.output);
      FreshIDInjective("fc_", tool.output, |slots|);
    }
  }

  lemma OpenRegistered(slots: seq<Slot>, calls: map<int, Call>, told: seq<Entry>, r: E.Registry, index: int, open: Call)
    requires Registered(slots, calls, told, r) && CallsPlaced(calls, slots)
    requires (index in calls ==> calls[index].at.None?) && open.at == Some(|slots|) && open.arguments == ""
    ensures var tool := E.Tool(CallItemID(|slots|), |slots|, open.openedID, |told|, "", false);
            Registered(slots + [CallSlot(index)], calls[index := open], told + [CallEntry(index)], E.Register(r, tool))
  {
    FreshCall(slots, calls, told, r);
    var tool := E.Tool(CallItemID(|slots|), |slots|, open.openedID, |told|, "", false);
    E.RegisterIndexed(r, tool);
    var r' := E.Register(r, tool);
    var slots', calls', told' := slots + [CallSlot(index)], calls[index := open], told + [CallEntry(index)];
    forall n: nat | n < |slots'| && slots'[n].CallSlot?
      ensures n in r'.byOutput && r'.byOutput[n] < |r'.tools| && slots'[n].call in calls'
      ensures ToolMatches(r'.tools[r'.byOutput[n]], n, calls'[slots'[n].call], told', slots'[n].call)
    {
      if n < |slots| {
        assert ToolMatches(r.tools[r.byOutput[n]], n, calls[slots[n].call], told, slots[n].call);
      }
    }
  }

  lemma OpenBlocks(calls: map<int, Call>, told: seq<Entry>, e: E.State, r: M.Reader, index: int, open: Call)
    requires Speaking(told, e) && BlocksTold(calls, told, r)
    requires (index in calls ==> calls[index].at.None?) && open.at.Some? && open.arguments == ""
    ensures var closed := M.Read(r, E.CloseText(e).events);
            BlocksTold(calls[index := open], told + [CallEntry(index)],
                       M.Receive(closed, BlockStart(|told|, ToolUse(open.openedID, open.openedName))))
  {
    CloseTold(calls, told, e, r);
    var closed := M.Read(r, E.CloseText(e).events);
    var r' := M.Receive(closed, BlockStart(|told|, ToolUse(open.openedID, open.openedName)));
    var told', calls' := told + [CallEntry(index)], calls[index := open];
    forall i: nat | i < |told'| ensures BlockTold(calls', told', i, r'.blocks[i]) {
      if i < |told| { assert BlockTold(calls, told, i, r.blocks[i]); }
    }
    forall i: nat, j: nat | i < j < |told'| && told'[i].CallEntry? ensures told'[i] != told'[j] {
      assert BlockTold(calls, told, i, r.blocks[i]);
    }
  }

  /** The arguments of one started call grow on both sides. */
  lemma ArgumentsRegistered(slots: seq<Slot>, calls: map<int, Call>, told: seq<Entry>, r: E.Registry, index: int, more: Call, delta: string)
    requires Registered(slots, calls, told, r) && CallsPlaced(calls, slots)
    requires index in calls && calls[index].at.Some? && more.at == calls[index].at
    requires more.arguments == calls[index].arguments + delta
    ensures var n := calls[index].at.value;
            && n in r.byOutput && r.byOutput[n] < |r.tools|
            && (var k := r.byOutput[n];
                Registered(slots, calls[index := more], told,
                           E.Replace(r, k, r.tools[k].(arguments := r.tools[k].arguments + delta))))
  {
    var n := calls[index].at.value;
    var k := r.byOutput[n];
    E.ReplaceIndexed(r, k, r.tools[k].(arguments := r.tools[k].arguments + delta));
    var r' := E.Replace(r, k, r.tools[k].(arguments := r.tools[k].arguments + delta));
    var calls' := calls[index := more];
    forall m: nat | m < |slots| && slots[m].CallSlot?
      ensures m in r'.byOutput && r'.byOutput[m] < |r'.tools| && slots[m].call in calls'
      ensures ToolMatches(r'.tools[r'.byOutput[m]], m, calls'[slots[m].call], told, slots[m].call)
    {
      assert ToolMatches(r.tools[r.byOutput[m]], m, calls[slots[m].call], told, slots[m].call);
      assert m != n ==> r.byOutput[m] != k && slots[m].call != index;
    }
  }

  lemma ArgumentsBlocks(calls: map<int, Call>, told: seq<Entry>, r: M.Reader, index: int, more: Call, delta: string, i: nat)
    requires BlocksTold(calls, told, r)
    requires index in calls && calls[index].at.Some? && i < |told| && told[i] == CallEntry(index)
    requires more == calls[index].(callID := more.callID, name := more.name, arguments := calls[index].arguments + delta)
    ensures BlocksTold(calls[index := more], told, M.Receive(r, BlockDelta(i, JsonFragment(delta))))
  {
    assert BlockTold(calls, told, i, r.blocks[i]);
    var r' := M.Receive(r, BlockDelta(i, JsonFragment(delta)));
    forall k: nat | k < |told| ensures BlockTold(calls[index := more], told, k, r'.blocks[k]) {
      assert BlockTold(calls, told, k, r.blocks[k]);
      if k != i { assert told[k] != CallEntry(index); }
    }
  }

  /** A change to a call that the client cannot see. */
  lemma UnseenCall(slots: seq<Slot>, calls: map<int, Call>, told: seq<Entry>, e: E.Registry, r: M.Reader, index: int, more: Call)
    requires Registered(slots, calls, told, e) && BlocksTold(calls, told, r) && CallsPlaced(calls, slots)
    requires index in calls && calls[index].at.Some? ==> more == calls[index].(callID := more.callID, name := more.name)
    ensures Registered(slots, calls[index := more], told, e) && BlocksTold(calls[index := more], told, r)
  {
    var calls' := calls[index := more];
    forall k: nat | k < |told| ensures BlockTold(calls', told, k, r.blocks[k]) {
      assert BlockTold(calls, told, k, r.blocks[k]);
    }
    forall m: nat | m < |slots| && slots[m].CallSlot?
      ensures slots[m].call in calls' && ToolMatches(e.tools[e.byOutput[m]], m, calls'[slots[m].call], told, slots[m].call)
    {
      assert ToolMatches(e.tools[e.byOutput[m]], m, calls[slots[m].call], told, slots[m].call);
    }
  }

  // --------------------------------------------------------------- whole pieces

  ghost predicate Follows(valid: string -> bool, s: State, told: seq<Entry>) {
    var sent := E.Encode(valid, s.log);
    Carried(s, told, sent.state, M.Read(M.START, sent.events))
  }

  lemma SilentFollows(valid: string -> bool, s: State, told: seq<Entry>, body: Body)
    requires Follows(valid, s, told) && Silent(body)
    ensures Follows(valid, Enqueue(s, body), told)
  {
    EncodeSilent(valid, s, body);
  }

  /** A state that differs only in what the encoder never learns. */
  lemma UnseenFollows(valid: string -> bool, s: State, s': State, told: seq<Entry>)
    requires Follows(valid, s, told)
    requires s'.log == s.log && s'.calls == s.calls && s'.refusal == s.refusal
    requires s.refusalAt.None? || s'.refusalAt.Some?
    requires s'.slots == s.slots || (|s'.slots| == |s.slots| + 1 && s'.slots == s.slots + [s'.slots[|s.slots|]] && !s'.slots[|s.slots|].CallSlot?)
    ensures Follows(valid, s', told)
  {
  }

  lemma CloseReasoningFollows(valid: string -> bool, s: State, told: seq<Entry>)
    requires Follows(valid, s, told)
    ensures Follows(valid, CloseReasoning(s), told)
  {
    if s.reasoningAt.Some? && !s.reasoningClosed {
      var n := s.reasoningAt.value;
      var closing := s.(reasoningClosed := true);
      var body := ReasoningDone(ReasoningID(n), Some(n), s.reasoning);
      UnseenFollows(valid, s, closing, told);
      SilentFollows(valid, closing, told, body);
      SilentFollows(valid, Enqueue(closing, body), told, ItemDone(Some(n), ReasoningItem(ReasoningID(n), s.reasoning)));
    }
  }

  lemma AddReasoningFollows(valid: string -> bool, s: State, told: seq<Entry>, delta: string)
    requires Follows(valid, s, told)
    ensures Follows(valid, AddReasoning(s, delta), told)
  {
    if delta != "" {
      var noted := s.(reasoning := s.reasoning + delta);
      UnseenFollows(valid, s, noted, told);
      if s.expose && !s.reasoningClosed {
        var open := noted;
        if s.reasoningAt.None? {
          var n := |s.slots|;
          var extended := noted.(reasoningAt := Some(n), slots := s.slots + [ReasoningSlot]);
          UnseenFollows(valid, noted, extended, told);
          SilentFollows(valid, extended, told, ItemAdded(Some(n), ReasoningItem(ReasoningID(n), "")));
          open := OpenReasoning(noted);
        }
        SilentFollows(valid, open, told, ReasoningDelta(ReasoningID(open.reasoningAt.value), open.reasoningAt, delta));
      }
    }
  }

  /** A text fragment: the encoder's step is exactly the transcript's. */
  lemma TextFollows(valid: string -> bool, s: State, told: seq<Entry>, delta: string, id: string, at: Option<nat>)
    requires Follows(valid, s, told)
    ensures Follows(valid, Enqueue(s.(text := s.text + delta), TextDelta(id, at, delta)), Say(told, delta))
  {
    var sent := E.Encode(valid, s.log);
    var body := TextDelta(id, at, delta);
    var noted := s.(text := s.text + delta);
    EncodeEnqueue(valid, noted, body);
    NotCounted(sent.state, |s.log|, body);
    SayTold(s.slots, s.calls, told, sent.state, M.Read(M.START, sent.events), delta);
    M.ReadConcat(M.START, sent.events, E.AddText(sent.state, delta).events);
  }

  lemma RefusalEncodes(valid: string -> bool, s: State, sent: E.Step, noted: State, delta: string, id: string, at: Option<nat>)
    requires sent == E.Encode(valid, s.log) && noted.log == s.log && !sent.state.terminal
    ensures var refused := sent.state.(stopReason := "refusal", refusalText := sent.state.refusalText + delta);
            var step := E.AddText(refused, delta);
            E.Encode(valid, Enqueue(noted, RefusalDelta(id, at, delta)).log) == E.Step(step.state, sent.events + step.events)
  {
    var body := RefusalDelta(id, at, delta);
    EncodeEnqueue(valid, noted, body);
    NotCounted(sent.state, |s.log|, body);
    hide E.Encode;
    hide E.Indexed;
    hide E.AddText;
  }

  lemma RefusalFollows(valid: string -> bool, s: State, told: seq<Entry>, delta: string, id: string, at: Option<nat>)
    requires Follows(valid, s, told) && s.refusalAt.Some?
    ensures Follows(valid, Enqueue(s.(refusal := s.refusal + delta), RefusalDelta(id, at, delta)), Say(told, delta))
  {
    var sent := E.Encode(valid, s.log);
    var refused := sent.state.(stopReason := "refusal", refusalText := sent.state.refusalText + delta);
    RefusalEncodes(valid, s, sent, s.(refusal := s.refusal + delta), delta, id, at);
    SayTold(s.slots, s.calls, told, refused, M.Read(M.START, sent.events), delta);
    M.ReadConcat(M.START, sent.events, E.AddText(refused, delta).events);
    AddTextKeeps(refused, delta);
    hide Registered;
    hide BlocksTold;
    hide E.Encode;
    hide E.AddText;
    hide M.Read;
  }

  lemma AddTextKeeps(e: E.State, delta: string)
    ensures E.AddText(e, delta).state.refusalText == e.refusalText && E.AddText(e, delta).state.stopReason == e.stopReason
    ensures E.AddText(e, delta).state.registry == e.registry
  {
  }

  lemma AddTextFollows(valid: string -> bool, s: State, told: seq<Entry>, delta: string)
    requires Follows(valid, s, told)
    ensures Follows(valid, AddText(s, delta), Say(told, delta))
  {
    if delta != "" {
      var open := s;
      if s.textAt.None? {
        CloseReasoningFollows(valid, s, told);
        var closed := CloseReasoning(s);
        var n := |closed.slots|;
        var extended := closed.(textAt := Some(n), slots := closed.slots + [TextSlot]);
        var added := ItemAdded(Some(n), MessageItem(MessageID(n), [], ""));
        UnseenFollows(valid, closed, extended, told);
        SilentFollows(valid, extended, told, added);
        SilentFollows(valid, Enqueue(extended, added), told, PartAdded(MessageID(n), Some(n), OutputText("")));
        open := OpenText(closed);
      }
      TextFollows(valid, open, told, delta, MessageID(open.textAt.value), open.textAt);
    }
  }

  lemma AddRefusalFollows(valid: string -> bool, s: State, told: seq<Entry>, delta: string)
    requires Follows(valid, s, told)
    ensures Follows(valid, AddRefusal(s, delta), Say(told, delta))
  {
    if delta != "" {
      var open := s;
      if s.refusalAt.None? {
        CloseReasoningFollows(valid, s, told);
        var closed := CloseReasoning(s);
        var n := |closed.slots|;
        var extended := closed.(refusalAt := Some(n), slots := closed.slots + [RefusalSlot]);
        var added := ItemAdded(Some(n), MessageItem(MessageID(n), [], ""));
        UnseenFollows(valid, closed, extended, told);
        SilentFollows(valid, extended, told, added);
        SilentFollows(valid, Enqueue(extended, added), told, PartAdded(MessageID(n), Some(n), RefusalPart("")));
        open := OpenRefusal(closed);
      }
      RefusalFollows(valid, open, told, delta, MessageID(open.refusalAt.value), open.refusalAt);
    }
  }

  /** The encoder's step for a tool that starts, and what the client reads. */
  lemma OpenReads(told: seq<Entry>, e: E.State, r: M.Reader, n: nat, item: Item)
    requires item.FunctionCall? && item.arguments == "" && e.nextIndex == |told|
    ensures var step := E.OpenTool(e, n, item);
            M.Read(r, step.events) == M.Receive(M.Read(r, E.CloseText(e).events), BlockStart(|told|, ToolUse(item.callID, item.name)))
  {
    var start := BlockStart(|told|, ToolUse(item.callID, item.name));
    assert E.OpenTool(e, n, item).events == E.CloseText(e).events + [start];
    M.ReadConcat(r, E.CloseText(e).events, [start]);
    M.ReadOne(M.Read(r, E.CloseText(e).events), start);
  }

  lemma OpenCarried(s: State, told: seq<Entry>, e: E.State, r: M.Reader, index: int, merged: Call)
    requires Carried(s, told, e, r) && CallsPlaced(s.calls, s.slots)
    requires merged.arguments == "" && merged.callID != "" && merged.name != ""
    requires index in s.calls ==> s.calls[index].at.None?
    ensures var item := FunctionCall(CallItemID(|s.slots|), merged.callID, merged.name, "");
            var step := E.OpenTool(e, |s.slots|, item);
            Carried(OpenCall(s, index, merged), told + [CallEntry(index)], step.state, M.Read(r, step.events))
  {
    var n := |s.slots|;
    var open := merged.(at := Some(n), openedID := merged.callID, openedName := merged.name);
    var item := FunctionCall(CallItemID(n), merged.callID, merged.name, "");
    OpenRegistered(s.slots, s.calls, told, e.registry, index, open);
    OpenBlocks(s.calls, told, e, r, index, open);
    OpenReads(told, e, r, n, item);
    assert E.OpenTool(e, n, item).state.registry ==
           E.Register(e.registry, E.Tool(CallItemID(n), n, open.openedID, |told|, "", false));
  }

  lemma OpenCallFollows(valid: string -> bool, s: State, told: seq<Entry>, index: int, merged: Call)
    requires Follows(valid, s, told) && CallsPlaced(s.calls, s.slots)
    requires merged.arguments == "" && merged.callID != "" && merged.name != ""
    requires index in s.calls ==> s.calls[index].at.None?
    ensures Follows(valid, OpenCall(s, index, merged), told + [CallEntry(index)])
  {
    var n := |s.slots|;
    var item := FunctionCall(CallItemID(n), merged.callID, merged.name, "");
    var sent := E.Encode(valid, s.log);
    OpenCarried(s, told, sent.state, M.Read(M.START, sent.events), index, merged);
    FreshCall(s.slots, s.calls, told, sent.state.registry);
    OpenEncodes(valid, s, OpenCall(s, index, merged), sent, n, item);
    M.ReadConcat(M.START, sent.events, E.OpenTool(sent.state, n, item).events);
  }

  lemma OpenEncodes(valid: string -> bool, s: State, s': State, sent: E.Step, n: nat, item: Item)
    requires sent == E.Encode(valid, s.log) && !sent.state.terminal
    requires item.FunctionCall? && item.id != "" && item.callID != "" && item.name != ""
    requires item.id !in sent.state.registry.byItem && n !in sent.state.registry.byOutput
    requires s'.log == s.log + [Event(|s.log|, None, ItemAdded(Some(n), item))]
    ensures var step := E.OpenTool(sent.state, n, item);
            E.Encode(valid, s'.log) == E.Step(step.state, sent.events + step.events)
  {
    var body := ItemAdded(Some(n), item);
    EncodeEnqueue(valid, s, body);
    NotCounted(sent.state, |s.log|, body);
    assert Enqueue(s, body).log == s'.log;
  }

  lemma ArgumentsFollow(valid: string -> bool, s: State, told: seq<Entry>, index: int, more: Call, delta: string)
    requires Follows(valid, s, told) && CallsPlaced(s.calls, s.slots) && delta != ""
    requires index in s.calls && s.calls[index].at.Some?
    requires more == s.calls[index].(callID := more.callID, name := more.name, arguments := s.calls[index].arguments + delta)
    ensures var n := s.calls[index].at.value;
            Follows(valid, Enqueue(s.(calls := s.calls[index := more]), ArgumentsDelta(CallItemID(n), Some(n), delta)), told)
  {
    var n := s.calls[index].at.value;
    var noted := s.(calls := s.calls[index := more]);
    var body := ArgumentsDelta(CallItemID(n), Some(n), delta);
    var sent := E.Encode(valid, s.log);
    var r := M.Read(M.START, sent.events);
    var registry := sent.state.registry;
    EncodeEnqueue(valid, noted, body);
    NotCounted(sent.state, |s.log|, body);
    ArgumentsRegistered(s.slots, s.calls, told, registry, index, more, delta);
    var k := registry.byOutput[n];
    assert ToolMatches(registry.tools[k], n, s.calls[index], told, index);
    assert |CallItemID(n)| >= 3;
    assert E.FindTool(registry, CallItemID(n), Some(n)) == Some(k);
    ArgumentsBlocks(s.calls, told, r, index, more, delta, registry.tools[k].index);
    var step := E.AddArguments(sent.state, k, delta);
    assert E.HandleBody(valid, sent.state, body) == step;
    M.ReadConcat(M.START, sent.events, step.events);
    M.ReadOne(r, BlockDelta(registry.tools[k].index, JsonFragment(delta)));
  }

  lemma UnseenCallFollows(valid: string -> bool, s: State, told: seq<Entry>, index: int, more: Call)
    requires Follows(valid, s, told) && CallsPlaced(s.calls, s.slots)
    requires index in s.calls && s.calls[index].at.Some? ==> more == s.calls[index].(callID := more.callID, name := more.name)
    ensures Follows(valid, s.(calls := s.calls[index := more]), told)
  {
    var sent := E.Encode(valid, s.log);
    UnseenCall(s.slots, s.calls, told, sent.state.registry, M.Read(M.START, sent.events), index, more);
  }

  /** Opening with arguments is opening without them, then adding them. */
  lemma OpenBare(s: State, index: int, merged: Call)
    ensures var bare, full := OpenCall(s, index, merged.(arguments := "")), OpenCall(s, index, merged);
            && full == bare.(calls := full.calls)
            && bare.calls[index].at == Some(|s.slots|) && bare.calls[index].arguments == ""
            && full.calls == bare.calls[index := bare.calls[index].(arguments := merged.arguments)]
  {
  }

  lemma StartCallFollows(valid: string -> bool, s: State, told: seq<Entry>, index: int, merged: Call)
    requires Placed(s) && Follows(valid, s, told)
    requires merged.arguments != "" && merged.callID != "" && merged.name != ""
    requires index in s.calls ==> s.calls[index].at.None?
    ensures var n := |s.slots|;
            Follows(valid, Enqueue(OpenCall(s, index, merged), ArgumentsDelta(CallItemID(n), Some(n), merged.arguments)), told + [CallEntry(index)])
  {
    var bare := OpenCall(s, index, merged.(arguments := ""));
    OpenCallFollows(valid, s, told, index, merged.(arguments := ""));
    assert CallsPlaced(bare.calls, bare.slots) by { OpenCallPlaced(s, index, merged.(arguments := "")); }
    OpenBare(s, index, merged);
    FirstArguments(valid, bare, OpenCall(s, index, merged), told + [CallEntry(index)], index, merged.arguments, |s.slots|);
  }

  lemma FirstArguments(valid: string -> bool, bare: State, full: State, told: seq<Entry>, index: int, arguments: string, n: nat)
    requires Follows(valid, bare, told) && CallsPlaced(bare.calls, bare.slots) && arguments != ""
    requires index in bare.calls && bare.calls[index].at == Some(n) && bare.calls[index].arguments == ""
    requires full == bare.(calls := full.calls)
    requires full.calls == bare.calls[index := bare.calls[index].(arguments := arguments)]
    ensures Follows(valid, Enqueue(full, ArgumentsDelta(CallItemID(n), Some(n), arguments)), told)
  {
    assert "" + arguments == arguments;
    ArgumentsFollow(valid, bare, told, index, bare.calls[index].(arguments := arguments), arguments);
  }

  lemma AddMoreFollows(valid: string -> bool, s: State, told: seq<Entry>, delta: CallDelta, merged: Call)
    requires Placed(s) && Follows(valid, s, told)
    requires merged == Merge(s, delta) && merged.at.Some?
    ensures Follows(valid, AddCall(s, delta), told)
  {
    MergeNamed(s, delta);
    var call := s.calls[delta.index];
    assert merged == call.(callID := merged.callID, name := merged.name, arguments := call.arguments + delta.arguments);
    if delta.arguments == "" {
      assert call.arguments + delta.arguments == call.arguments;
      UnseenCallFollows(valid, s, told, delta.index, merged);
    } else {
      ArgumentsFollow(valid, s, told, delta.index, merged, delta.arguments);
    }
  }

  lemma AddPendingFollows(valid: string -> bool, s: State, told: seq<Entry>, delta: CallDelta, merged: Call)
    requires Placed(s) && Follows(valid, s, told)
    requires merged == Merge(s, delta) && merged.at.None? && (merged.callID == "" || merged.name == "")
    ensures Follows(valid, AddCall(s, delta), told)
  {
    assert delta.index in s.calls ==> s.calls[delta.index].at.None?;
    UnseenCallFollows(valid, s, told, delta.index, merged);
  }

  lemma TellCall(told: seq<Entry>, s: State, delta: CallDelta, merged: Call)
    requires merged == Merge(s, delta)
    ensures Tell(told, s, CallPart(delta)) ==
            if merged.at.None? && merged.callID != "" && merged.name != "" then told + [CallEntry(delta.index)] else told
  {
  }

  lemma AddCallFollows(valid: string -> bool, s: State, told: seq<Entry>, delta: CallDelta)
    requires Placed(s) && Follows(valid, s, told)
    ensures Follows(valid, AddCall(s, delta), Tell(told, s, CallPart(delta)))
  {
    var merged := Merge(s, delta);
    TellCall(told, s, delta, merged);
    if merged.at.Some? {
      AddMoreFollows(valid, s, told, delta, merged);
    } else if merged.callID != "" && merged.name != "" {
      AddFirstFollows(valid, s, told, delta, merged);
    } else {
      AddPendingFollows(valid, s, told, delta, merged);
    }
  }

  lemma AddFirstFollows(valid: string -> bool, s: State, told: seq<Entry>, delta: CallDelta, merged: Call)
    requires Placed(s) && Follows(valid, s, told)
    requires merged == Merge(s, delta) && merged.at.None? && merged.callID != "" && merged.name != ""
    ensures Follows(valid, AddCall(s, delta), told + [CallEntry(delta.index)])
  {
    MergeNamed(s, delta);
    CloseReasoningFollows(valid, s, told);
    CloseReasoningPlaced(s);
    if merged.arguments == "" {
      OpenCallFollows(valid, CloseReasoning(s), told, delta.index, merged);
    } else {
      StartCallFollows(valid, CloseReasoning(s), told, delta.index, merged);
    }
  }

  lemma StepFollows(valid: string -> bool, s: State, told: seq<Entry>, piece: Piece)
    requires Placed(s) && Follows(valid, s, told)
    ensures Follows(valid, Step(s, piece), Tell(told, s, piece))
  {
    match piece
    case Text(delta) => AddTextFollows(valid, s, told, delta);
    case Refusal(delta) => AddRefusalFollows(valid, s, told, delta);
    case Reasoning(delta) => AddReasoningFollows(valid, s, told, delta);
    case CallPart(call) => AddCallFollows(valid, s, told, call);
    case Usage(usage) => UnseenFollows(valid, s, CaptureUsage(s, usage), told);
    case Finish(reason) => UnseenFollows(valid, s, Step(s, piece), told);
  }

  /** Through every chunk sequence the client's blocks are the transcript and the
      encoder never fails. */
  lemma {:induction false} RunFollows(valid: string -> bool, expose: bool, pieces: seq<Piece>)
    ensures Follows(valid, Run(expose, pieces), Told(expose, pieces))
  {
    if pieces == [] {
      BeginFollows(valid, expose);
    } else {
      var front := pieces[..|pieces| - 1];
      RunFollows(valid, expose, front);
      RunPlaced(expose, front);
      StepFollows(valid, Run(expose, front), Told(expose, front), pieces[|pieces| - 1]);
    }
  }

  lemma BeginFollows(valid: string -> bool, expose: bool)
    ensures Follows(valid, Begin(expose), [])
  {
    var s := State(expose, "", "", "", "", false, None, None, None, [], map[], None, []);
    var body := Created(Response("in_progress", [], None, None));
    EncodeEnqueue(valid, s, body);
    var sent := E.Start(E.INITIAL);
    assert E.Count(sent.state, Event(0, None, body)) == sent.state;
    M.ReadOne(M.START, MessageStart);
    assert sent.events + [] == sent.events;
  }
}
