/** For every chunk sequence the strict reader accepts everything the bridge
    queues, and a run that ends with complete calls is accepted to the end. */
module BridgeGrammar {
  import opened Optional
  import opened Wire
  import opened Bridge
  import opened BridgeShape
  import R = ResponsesReader

  lemma ReadEnqueue(s: State, body: Body)
    ensures R.Read(Enqueue(s, body).log) == R.Receive(R.Read(s.log), Event(|s.log|, None, body))
  {
    assert Enqueue(s, body).log[..|s.log|] == s.log;
  }

  /** What the reader must be showing for one slot while the run goes on. */
  ghost predicate Shows(s: State, n: nat, shown: R.Shown)
    requires n < |s.slots|
  {
    match s.slots[n]
    case ReasoningSlot =>
      && shown.id == ReasoningID(n) && shown.kind.ReasoningKind? && shown.open == !s.reasoningClosed
      && shown.streamed <= s.reasoning && (!s.reasoningClosed ==> shown.streamed == s.reasoning)
    case TextSlot => shown == R.Shown(MessageID(n), R.TextKind, s.text, true)
    case RefusalSlot => shown == R.Shown(MessageID(n), R.RefusalKind, s.refusal, true)
    case CallSlot(c) => c in s.calls && shown == R.Shown(CallItemID(n), R.CallKind, s.calls[c].arguments, true)
  }

  ghost predicate Tracks(s: State, r: R.Reader) {
    && r.phase.Reading?
    && r.next == |s.log|
    && |r.items| == |s.slots|
    && (forall n: nat :: n < |s.slots| ==> Shows(s, n, r.items[n]))
  }

  lemma CloseReasoningTracks(s: State)
    requires Placed(s) && Tracks(s, R.Read(s.log))
    ensures Tracks(CloseReasoning(s), R.Read(CloseReasoning(s).log))
  {
    if s.reasoningAt.Some? && !s.reasoningClosed {
      var n := s.reasoningAt.value;
      var r := R.Read(s.log);
      assert Shows(s, n, r.items[n]);
      var body := ReasoningDone(ReasoningID(n), Some(n), s.reasoning);
      var closing := s.(reasoningClosed := true);
      ReadEnqueue(closing, body);
      ReadEnqueue(Enqueue(closing, body), ItemDone(Some(n), ReasoningItem(ReasoningID(n), s.reasoning)));
      var r' := R.Read(CloseReasoning(s).log);
      assert r' == r.(next := |s.log| + 2, items := r.items[n := r.items[n].(open := false)]);
      forall m: nat | m < |s.slots| ensures Shows(CloseReasoning(s), m, r'.items[m]) {
        assert Shows(s, m, r.items[m]);
      }
    }
  }

  /** No reasoning item is open once CloseReasoning has run. */
  ghost predicate Quiet(s: State) {
    s.reasoningAt.None? || s.reasoningClosed
  }

  lemma QuietReader(s: State, r: R.Reader)
    requires Placed(s) && Tracks(s, r) && Quiet(s)
    ensures forall i :: 0 <= i < |r.items| && r.items[i].kind.ReasoningKind? ==> !r.items[i].open
  {
    forall i: nat | i < |r.items| && r.items[i].kind.ReasoningKind? ensures !r.items[i].open {
      assert Shows(s, i, r.items[i]);
    }
  }

  /** Adding an item: the reader shows one more, everything else is untouched. */
  lemma AddItemReads(s: State, logged: State, item: Item)
    requires Placed(s) && Tracks(s, R.Read(s.log)) && Quiet(s)
    requires logged.log == s.log
    ensures var r := R.Read(s.log);
            R.Read(Enqueue(logged, ItemAdded(Some(|s.slots|), item)).log) ==
            r.(next := r.next + 1, items := r.items + [R.Shown(R.IdOf(item), R.KindOf(item), "", true)])
  {
    QuietReader(s, R.Read(s.log));
    ReadEnqueue(logged, ItemAdded(Some(|s.slots|), item));
  }

  lemma OpenTextTracks(s: State)
    requires Placed(s) && Tracks(s, R.Read(s.log)) && Quiet(s) && s.textAt.None?
    ensures Tracks(OpenText(s), R.Read(OpenText(s).log))
  {
    var n := |s.slots|;
    var r := R.Read(s.log);
    var item := MessageItem(MessageID(n), [], "");
    var extended := s.(textAt := Some(n), slots := s.slots + [TextSlot]);
    AddItemReads(s, extended, item);
    ReadEnqueue(Enqueue(extended, ItemAdded(Some(n), item)), PartAdded(MessageID(n), Some(n), OutputText("")));
    var shown := R.Shown(MessageID(n), R.BareMessage, "", true);
    assert (r.items + [shown])[n := shown.(kind := R.TextKind)] == r.items + [shown.(kind := R.TextKind)];
    ExtendTracks(s, OpenText(s), TextSlot, shown.(kind := R.TextKind));
  }

  lemma OpenRefusalTracks(s: State)
    requires Placed(s) && Tracks(s, R.Read(s.log)) && Quiet(s) && s.refusalAt.None?
    ensures Tracks(OpenRefusal(s), R.Read(OpenRefusal(s).log))
  {
    var n := |s.slots|;
    var r := R.Read(s.log);
    var item := MessageItem(MessageID(n), [], "");
    var extended := s.(refusalAt := Some(n), slots := s.slots + [RefusalSlot]);
    AddItemReads(s, extended, item);
    ReadEnqueue(Enqueue(extended, ItemAdded(Some(n), item)), PartAdded(MessageID(n), Some(n), RefusalPart("")));
    var shown := R.Shown(MessageID(n), R.BareMessage, "", true);
    assert (r.items + [shown])[n := shown.(kind := R.RefusalKind)] == r.items + [shown.(kind := R.RefusalKind)];
    ExtendTracks(s, OpenRefusal(s), RefusalSlot, shown.(kind := R.RefusalKind));
  }

  /** One more slot, one more shown item, nothing else of interest changed. */
  lemma ExtendTracks(s: State, s': State, slot: Slot, shown: R.Shown)
    requires Tracks(s, R.Read(s.log))
    requires s'.slots == s.slots + [slot]
    requires s'.text == s.text && s'.refusal == s.refusal
    requires s'.reasoning == s.reasoning && s'.reasoningClosed == s.reasoningClosed
    requires forall n: nat :: n < |s.slots| && s.slots[n].CallSlot? ==>
               s.slots[n].call in s.calls && s.slots[n].call in s'.calls && s'.calls[s.slots[n].call] == s.calls[s.slots[n].call]
    requires var r := R.Read(s.log); R.Read(s'.log) == r.(next := |s'.log|, items := r.items + [shown])
    requires Shows(s', |s.slots|, shown)
    ensures Tracks(s', R.Read(s'.log))
  {
    var r := R.Read(s.log);
    forall n: nat | n < |s'.slots| ensures Shows(s', n, R.Read(s'.log).items[n]) {
      if n < |s.slots| { assert Shows(s, n, r.items[n]); }
    }
  }

  /** One slot's accumulated payload grows by `delta` on both sides. */
  lemma GrowTracks(s: State, s': State, n: nat, delta: string)
    requires Tracks(s, R.Read(s.log)) && n < |s.slots|
    requires s'.slots == s.slots
    requires var r := R.Read(s.log); R.Read(s'.log) == R.Append(r, n, delta).(next := |s'.log|)
    requires forall m: nat :: m < |s.slots| && m != n ==> (Shows(s, m, R.Read(s.log).items[m]) ==> Shows(s', m, R.Read(s.log).items[m]))
    requires Shows(s', n, R.Append(R.Read(s.log), n, delta).items[n])
    ensures Tracks(s', R.Read(s'.log))
  {
    var r := R.Read(s.log);
    forall m: nat | m < |s'.slots| ensures Shows(s', m, R.Read(s'.log).items[m]) {
      if m != n { assert Shows(s, m, r.items[m]); }
    }
  }

  lemma AddTextTracks(s: State, delta: string)
    requires Placed(s) && Tracks(s, R.Read(s.log))
    ensures Tracks(AddText(s, delta), R.Read(AddText(s, delta).log))
  {
    if delta != "" {
      var open := s;
      if s.textAt.None? {
        CloseReasoningTracks(s);
        CloseReasoningPlaced(s);
        OpenTextTracks(CloseReasoning(s));
        open := OpenText(CloseReasoning(s));
      }
      AppendTextTracks(open, delta);
    }
  }

  lemma AppendTextTracks(open: State, delta: string)
    requires open.textAt.Some? && Points(open.textAt, open.slots, TextSlot)
    requires Tracks(open, R.Read(open.log))
    ensures var s' := Enqueue(open.(text := open.text + delta), TextDelta(MessageID(open.textAt.value), open.textAt, delta));
            Tracks(s', R.Read(s'.log))
  {
    var n := open.textAt.value;
    var noted := open.(text := open.text + delta);
    var body := TextDelta(MessageID(n), Some(n), delta);
    ReadEnqueue(noted, body);
    assert Shows(open, n, R.Read(open.log).items[n]);
    GrowTracks(open, Enqueue(noted, body), n, delta);
  }

  lemma AddRefusalTracks(s: State, delta: string)
    requires Placed(s) && Tracks(s, R.Read(s.log))
    ensures Tracks(AddRefusal(s, delta), R.Read(AddRefusal(s, delta).log))
  {
    if delta != "" {
      var open := s;
      if s.refusalAt.None? {
        CloseReasoningTracks(s);
        CloseReasoningPlaced(s);
        OpenRefusalTracks(CloseReasoning(s));
        open := OpenRefusal(CloseReasoning(s));
      }
      AppendRefusalTracks(open, delta);
    }
  }

  lemma AppendRefusalTracks(open: State, delta: string)
    requires open.refusalAt.Some? && Points(open.refusalAt, open.slots, RefusalSlot)
    requires Tracks(open, R.Read(open.log))
    ensures var s' := Enqueue(open.(refusal := open.refusal + delta), RefusalDelta(MessageID(open.refusalAt.value), open.refusalAt, delta));
            Tracks(s', R.Read(s'.log))
  {
    var n := open.refusalAt.value;
    var noted := open.(refusal := open.refusal + delta);
    var body := RefusalDelta(MessageID(n), Some(n), delta);
    ReadEnqueue(noted, body);
    assert Shows(open, n, R.Read(open.log).items[n]);
    GrowTracks(open, Enqueue(noted, body), n, delta);
  }

  /** Reasoning kept private changes nothing the reader can see. */
  lemma PrivateReasoningTracks(s: State, delta: string)
    requires Placed(s) && Tracks(s, R.Read(s.log)) && (s.reasoningClosed || !s.expose)
    ensures Tracks(s.(reasoning := s.reasoning + delta), R.Read(s.log))
  {
    var s' := s.(reasoning := s.reasoning + delta);
    var r := R.Read(s.log);
    forall n: nat | n < |s'.slots| ensures Shows(s', n, r.items[n]) {
      assert Shows(s, n, r.items[n]);
    }
  }

  lemma OpenReasoningTracks(s: State)
    requires Placed(s) && Tracks(s, R.Read(s.log)) && s.reasoningAt.None? && s.reasoning == ""
    ensures Tracks(OpenReasoning(s), R.Read(OpenReasoning(s).log))
  {
    var n := |s.slots|;
    var item := ReasoningItem(ReasoningID(n), "");
    var extended := s.(reasoningAt := Some(n), slots := s.slots + [ReasoningSlot]);
    AddItemReads(s, extended, item);
    ExtendTracks(s, OpenReasoning(s), ReasoningSlot, R.Shown(ReasoningID(n), R.ReasoningKind, "", true));
  }

  lemma AppendReasoningTracks(open: State, delta: string)
    requires open.reasoningAt.Some? && Points(open.reasoningAt, open.slots, ReasoningSlot) && !open.reasoningClosed
    requires Tracks(open, R.Read(open.log))
    ensures var s' := Enqueue(open.(reasoning := open.reasoning + delta), ReasoningDelta(ReasoningID(open.reasoningAt.value), open.reasoningAt, delta));
            Tracks(s', R.Read(s'.log))
  {
    var n := open.reasoningAt.value;
    var noted := open.(reasoning := open.reasoning + delta);
    var body := ReasoningDelta(ReasoningID(n), Some(n), delta);
    ReadEnqueue(noted, body);
    assert Shows(open, n, R.Read(open.log).items[n]);
    GrowTracks(open, Enqueue(noted, body), n, delta);
  }

  lemma AddReasoningTracks(s: State, delta: string)
    requires Placed(s) && Tracks(s, R.Read(s.log))
    ensures Tracks(AddReasoning(s, delta), R.Read(AddReasoning(s, delta).log))
  {
    if delta != "" {
      if !s.expose || s.reasoningClosed {
        PrivateReasoningTracks(s, delta);
      } else if s.reasoningAt.None? {
        OpenReasoningTracks(s);
        PointsOpen(s.slots, ReasoningSlot);
        AppendReasoningTracks(OpenReasoning(s), delta);
        assert AddReasoning(s, delta) ==
          Enqueue(OpenReasoning(s).(reasoning := s.reasoning + delta), ReasoningDelta(ReasoningID(|s.slots|), Some(|s.slots|), delta));
      } else {
        AppendReasoningTracks(s, delta);
      }
    }
  }

  lemma OpenCallTracks(s: State, index: int, merged: Call)
    requires Placed(s) && Tracks(s, R.Read(s.log)) && Quiet(s) && merged.arguments == ""
    requires index in s.calls ==> s.calls[index].at.None?
    ensures Tracks(OpenCall(s, index, merged), R.Read(OpenCall(s, index, merged).log))
  {
    var n := |s.slots|;
    var item := FunctionCall(CallItemID(n), merged.callID, merged.name, "");
    var open := merged.(at := Some(n), openedID := merged.callID, openedName := merged.name);
    var extended := s.(slots := s.slots + [CallSlot(index)], calls := s.calls[index := open]);
    AddItemReads(s, extended, item);
    ExtendTracks(s, OpenCall(s, index, merged), CallSlot(index), R.Shown(CallItemID(n), R.CallKind, "", true));
  }

  /** Arguments reach the reader through the delta that follows. */
  lemma AppendCallTracks(s: State, index: int, more: Call, delta: string)
    requires Tracks(s, R.Read(s.log)) && CallsPlaced(s.calls, s.slots)
    requires index in s.calls && s.calls[index].at.Some?
    requires more.at == s.calls[index].at && more.arguments == s.calls[index].arguments + delta
    ensures var n := s.calls[index].at.value;
            var s' := Enqueue(s.(calls := s.calls[index := more]), ArgumentsDelta(CallItemID(n), Some(n), delta));
            Tracks(s', R.Read(s'.log))
  {
    var n := s.calls[index].at.value;
    var noted := s.(calls := s.calls[index := more]);
    var body := ArgumentsDelta(CallItemID(n), Some(n), delta);
    ReadEnqueue(noted, body);
    assert Shows(s, n, R.Read(s.log).items[n]);
    GrowTracks(s, Enqueue(noted, body), n, delta);
  }

  /** A change to a call that shows nowhere, or not in its arguments. */
  lemma SilentCallTracks(s: State, index: int, more: Call)
    requires Tracks(s, R.Read(s.log)) && CallsPlaced(s.calls, s.slots)
    requires index in s.calls ==> more.at == s.calls[index].at && (more.at.Some? ==> more.arguments == s.calls[index].arguments)
    ensures Tracks(s.(calls := s.calls[index := more]), R.Read(s.log))
  {
    var s' := s.(calls := s.calls[index := more]);
    var r := R.Read(s.log);
    forall n: nat | n < |s'.slots| ensures Shows(s', n, r.items[n]) {
      assert Shows(s, n, r.items[n]);
    }
  }

  /** The first arguments of a call follow its opening as one delta. */
  lemma StartCallTracks(s: State, index: int, merged: Call)
    requires Placed(s) && Tracks(s, R.Read(s.log)) && Quiet(s) && merged.arguments != ""
    requires merged.callID != "" && merged.name != ""
    requires index in s.calls ==> s.calls[index].at.None?
    ensures var n := |s.slots|;
            var s' := Enqueue(OpenCall(s, index, merged), ArgumentsDelta(CallItemID(n), Some(n), merged.arguments));
            Tracks(s', R.Read(s'.log))
  {
    var n := |s.slots|;
    var bare := merged.(arguments := "");
    OpenCallTracks(s, index, bare);
    OpenCallPlaced(s, index, bare);
    var open := merged.(at := Some(n), openedID := merged.callID, openedName := merged.name);
    AppendCallTracks(OpenCall(s, index, bare), index, open, merged.arguments);
    assert OpenCall(s, index, bare).calls[index := open] == OpenCall(s, index, merged).calls;
  }

  lemma AddCallTracks(s: State, delta: CallDelta)
    requires Placed(s) && Tracks(s, R.Read(s.log))
    ensures Tracks(AddCall(s, delta), R.Read(AddCall(s, delta).log))
  {
    var merged := Merge(s, delta);
    MergeNamed(s, delta);
    if merged.at.Some? {
      if delta.arguments == "" {
        SilentCallTracks(s, delta.index, merged);
      } else {
        AppendCallTracks(s, delta.index, merged, delta.arguments);
      }
    } else if merged.callID != "" && merged.name != "" {
      CloseReasoningTracks(s);
      CloseReasoningPlaced(s);
      if merged.arguments == "" {
        OpenCallTracks(CloseReasoning(s), delta.index, merged);
      } else {
        StartCallTracks(CloseReasoning(s), delta.index, merged);
      }
    } else {
      SilentCallTracks(s, delta.index, merged);
    }
  }

  /** Usage and the finish reason are recorded without an event. */
  lemma RecordTracks(s: State, s': State)
    requires Tracks(s, R.Read(s.log)) && s' == s.(usage := s'.usage, finish := s'.finish)
    ensures Tracks(s', R.Read(s'.log))
  {
    var r := R.Read(s.log);
    forall n: nat | n < |s'.slots| ensures Shows(s', n, r.items[n]) {
      assert Shows(s, n, r.items[n]);
    }
  }

  lemma StepTracks(s: State, piece: Piece)
    requires Placed(s) && Tracks(s, R.Read(s.log))
    ensures Tracks(Step(s, piece), R.Read(Step(s, piece).log))
  {
    match piece
    case Text(delta) => AddTextTracks(s, delta);
    case Refusal(delta) => AddRefusalTracks(s, delta);
    case Reasoning(delta) => AddReasoningTracks(s, delta);
    case CallPart(call) => AddCallTracks(s, call);
    case Usage(usage) => RecordTracks(s, CaptureUsage(s, usage));
    case Finish(reason) => RecordTracks(s, Step(s, piece));
  }

  /** While the run goes on the strict reader follows the bridge exactly. */
  lemma {:induction false} RunTracks(expose: bool, pieces: seq<Piece>)
    ensures Tracks(Run(expose, pieces), R.Read(Run(expose, pieces).log))
  {
    if pieces == [] {
      var log := Begin(expose).log;
      assert log[..0] == [];
    } else {
      RunTracks(expose, pieces[..|pieces| - 1]);
      RunPlaced(expose, pieces[..|pieces| - 1]);
      StepTracks(Run(expose, pieces[..|pieces| - 1]), pieces[|pieces| - 1]);
    }
  }

  // ------------------------------------------------------------------ the end

  ghost predicate SameButOpen(a: R.Shown, b: R.Shown) {
    a.id == b.id && a.kind == b.kind && a.streamed == b.streamed
  }

  /** While finishing, the slots in `done` are closed and the others are open;
      payloads stay as they were when the run ended. */
  ghost predicate Finishing(s: State, r0: R.Reader, logged: State, done: set<nat>) {
    var r := R.Read(logged.log);
    && logged == s.(log := logged.log)
    && r.phase.Reading?
    && r.next == |logged.log|
    && |r.items| == |s.slots| == |r0.items|
    && (forall n: nat :: n < |s.slots| ==> SameButOpen(r.items[n], r0.items[n]))
    && (forall n: nat :: n < |s.slots| && !s.slots[n].ReasoningSlot? ==> r.items[n].open == (n !in done))
    && (forall n: nat :: n < |s.slots| && s.slots[n].ReasoningSlot? ==> !r.items[n].open)
  }

  ghost predicate Ready(s: State, r0: R.Reader) {
    Placed(s) && Tracks(s, r0) && Quiet(s)
  }

  lemma FinishingStarts(s: State)
    requires Ready(s, R.Read(s.log))
    ensures Finishing(s, R.Read(s.log), s, {})
  {
    var r := R.Read(s.log);
    forall n: nat | n < |s.slots| ensures r.items[n].open == !s.slots[n].ReasoningSlot? {
      assert Shows(s, n, r.items[n]);
    }
  }

  /** The reader accepts a done event that repeats an open item's payload. */
  lemma EchoDone(s: State, r0: R.Reader, logged: State, done: set<nat>, n: nat, body: Body)
    requires Ready(s, r0) && Finishing(s, r0, logged, done)
    requires n < |s.slots| && n !in done
    requires match s.slots[n]
             case TextSlot => body == TextDone(MessageID(n), Some(n), s.text) || body == PartDone(MessageID(n), Some(n), OutputText(s.text))
             case RefusalSlot => body == RefusalDone(MessageID(n), Some(n), s.refusal) || body == PartDone(MessageID(n), Some(n), RefusalPart(s.refusal))
             case CallSlot(c) => c in s.calls && body == ArgumentsDone(CallItemID(n), Some(n), FinalArguments(s.calls[c]))
             case ReasoningSlot => false
    ensures Finishing(s, r0, Enqueue(logged, body), done)
  {
    ReadEnqueue(logged, body);
    assert Shows(s, n, r0.items[n]);
    assert SameButOpen(R.Read(logged.log).items[n], r0.items[n]);
  }

  /** The final item of a slot repeats what the reader was shown for it. */
  lemma SlotRepeats(s: State, r0: R.Reader, n: nat)
    requires Ready(s, r0) && n < |s.slots|
    ensures R.Repeats(r0.items[n], SlotItem(s, n))
    ensures R.KindOf(SlotItem(s, n)).ReasoningKind? == s.slots[n].ReasoningSlot?
  {
    assert Shows(s, n, r0.items[n]);
  }

  lemma CloseReads(r: R.Reader, n: nat, item: Item, number: nat)
    requires r.phase.Reading? && r.next == number && n < |r.items| && r.items[n].open
    requires R.Repeats(r.items[n], item) && !r.items[n].kind.ReasoningKind?
    ensures R.Receive(r, Event(number, None, ItemDone(Some(n), item)))
            == r.(next := number + 1, items := r.items[n := r.items[n].(open := false)])
  {
  }

  lemma CloseFinishing(s: State, r0: R.Reader, logged: State, logged': State, done: set<nat>, n: nat)
    requires Finishing(s, r0, logged, done)
    requires n < |s.slots| && !s.slots[n].ReasoningSlot?
    requires logged' == s.(log := logged'.log)
    requires var r := R.Read(logged.log);
             R.Read(logged'.log) == r.(next := |logged'.log|, items := r.items[n := r.items[n].(open := false)])
    ensures Finishing(s, r0, logged', done + {n})
  {
  }

  lemma CloseSlot(s: State, r0: R.Reader, logged: State, done: set<nat>, n: nat)
    requires Ready(s, r0) && Finishing(s, r0, logged, done)
    requires n < |s.slots| && n !in done && !s.slots[n].ReasoningSlot?
    ensures Finishing(s, r0, Enqueue(logged, ItemDone(Some(n), SlotItem(s, n))), done + {n})
  {
    var item := SlotItem(s, n);
    var r := R.Read(logged.log);
    assert R.Repeats(r.items[n], item) && !r.items[n].kind.ReasoningKind? by {
      SlotRepeats(s, r0, n);
      assert SameButOpen(r.items[n], r0.items[n]);
    }
    CloseReads(r, n, item, |logged.log|);
    ReadEnqueue(logged, ItemDone(Some(n), item));
    CloseFinishing(s, r0, logged, Enqueue(logged, ItemDone(Some(n), item)), done, n);
  }

  function TextSlots(s: State): set<nat> {
    (if s.textAt.Some? then {s.textAt.value} else {}) + if s.refusalAt.Some? then {s.refusalAt.value} else {}
  }

  lemma FinishTextsRead(s: State)
    requires Ready(s, R.Read(s.log))
    ensures Finishing(s, R.Read(s.log), FinishRefusal(FinishText(s)), TextSlots(s))
  {
    var r0 := R.Read(s.log);
    FinishingStarts(s);
    var done: set<nat> := {};
    if s.textAt.Some? {
      FinishTextRead(s, r0, s, done);
      done := done + {s.textAt.value};
    }
    assert Finishing(s, r0, FinishText(s), done);
    hide Finishing;
    hide FinishRefusal;
    if s.refusalAt.Some? {
      FinishRefusalRead(s, r0, FinishText(s), done);
    }
  }

  lemma FinishTextRead(s: State, r0: R.Reader, logged: State, done: set<nat>)
    requires Ready(s, r0) && Finishing(s, r0, logged, done)
    requires s.textAt.Some? && s.textAt.value !in done
    ensures Finishing(s, r0, FinishText(logged), done + {s.textAt.value})
  {
    var n := s.textAt.value;
    var first := Enqueue(logged, TextDone(MessageID(n), Some(n), s.text));
    EchoDone(s, r0, logged, done, n, TextDone(MessageID(n), Some(n), s.text));
    EchoDone(s, r0, first, done, n, PartDone(MessageID(n), Some(n), OutputText(s.text)));
    CloseSlot(s, r0, Enqueue(first, PartDone(MessageID(n), Some(n), OutputText(s.text))), done, n);
  }

  lemma FinishRefusalRead(s: State, r0: R.Reader, logged: State, done: set<nat>)
    requires Ready(s, r0) && Finishing(s, r0, logged, done)
    requires s.refusalAt.Some? && s.refusalAt.value !in done
    ensures Finishing(s, r0, FinishRefusal(logged), done + {s.refusalAt.value})
  {
    var n := s.refusalAt.value;
    var first := Enqueue(logged, RefusalDone(MessageID(n), Some(n), s.refusal));
    EchoDone(s, r0, logged, done, n, RefusalDone(MessageID(n), Some(n), s.refusal));
    EchoDone(s, r0, first, done, n, PartDone(MessageID(n), Some(n), RefusalPart(s.refusal)));
    CloseSlot(s, r0, Enqueue(first, PartDone(MessageID(n), Some(n), RefusalPart(s.refusal))), done, n);
  }

  function CallSlots(s: State, n: nat): set<nat>
    requires n <= |s.slots|
  {
    set k: nat | k < n && s.slots[k].CallSlot?
  }

  lemma FinishCallRead(s: State, r0: R.Reader, logged: State, done: set<nat>, n: nat)
    requires Ready(s, r0) && Finishing(s, r0, logged, done)
    requires n < |s.slots| && n !in done && s.slots[n].CallSlot? && s.slots[n].call in s.calls
    ensures Finishing(s, r0, FinishCall(logged, s.calls[s.slots[n].call], n), done + {n})
  {
    var body := ArgumentsDone(CallItemID(n), Some(n), FinalArguments(s.calls[s.slots[n].call]));
    EchoDone(s, r0, logged, done, n, body);
    CloseSlot(s, r0, Enqueue(logged, body), done, n);
  }

  lemma NextCall(s: State, n: nat)
    requires Placed(s) && 0 < n <= |s.slots|
    ensures if s.slots[n - 1].CallSlot?
            then n - 1 !in TextSlots(s) + CallSlots(s, n - 1) &&
                 TextSlots(s) + CallSlots(s, n) == TextSlots(s) + CallSlots(s, n - 1) + {n - 1}
            else CallSlots(s, n) == CallSlots(s, n - 1)
  {
    if s.slots[n - 1].CallSlot? {
      assert CallSlots(s, n) == CallSlots(s, n - 1) + {n - 1};
    }
  }

  lemma {:induction false} FinishCallsRead(s: State, r0: R.Reader, logged: State, n: nat)
    requires Ready(s, r0) && n <= |s.slots|
    requires Finishing(s, r0, logged, TextSlots(s))
    ensures Finishing(s, r0, FinishCalls(logged, n), TextSlots(s) + CallSlots(s, n))
  {
    if n == 0 {
      assert TextSlots(s) + CallSlots(s, 0) == TextSlots(s);
    } else {
      FinishCallsRead(s, r0, logged, n - 1);
      NextCall(s, n);
      if s.slots[n - 1].CallSlot? {
        FinishCallRead(s, r0, FinishCalls(logged, n - 1), TextSlots(s) + CallSlots(s, n - 1), n - 1);
      }
      SetRegroup(TextSlots(s), CallSlots(s, n - 1), n - 1);
      hide Finishing;
      hide TextSlots;
      hide CallSlots;
      hide FinishCall;
    }
  }

  lemma SetRegroup(a: set<nat>, b: set<nat>, n: nat)
    ensures a + (b + {n}) == a + b + {n}
  {
  }

  lemma AllDone(s: State)
    requires Placed(s)
    ensures forall n: nat :: n < |s.slots| && !s.slots[n].ReasoningSlot? ==> n in TextSlots(s) + CallSlots(s, |s.slots|)
  {
  }

  lemma AllRepeat(s: State, r0: R.Reader, logged: State)
    requires Ready(s, r0)
    requires Finishing(s, r0, logged, TextSlots(s) + CallSlots(s, |s.slots|))
    ensures var r := R.Read(logged.log);
            forall n: nat :: n < |r.items| ==> !r.items[n].open && R.Repeats(r.items[n], SlotItem(s, n))
  {
    AllDone(s);
    var r := R.Read(logged.log);
    forall n: nat | n < |r.items| ensures !r.items[n].open && R.Repeats(r.items[n], SlotItem(s, n)) {
      SlotRepeats(s, r0, n);
      assert SameButOpen(r.items[n], r0.items[n]);
    }
  }

  lemma FinalReads(r: R.Reader, logged: State)
    requires r.phase.Reading? && r.next == |logged.log| && |r.items| == |logged.slots|
    requires forall n: nat :: n < |r.items| ==> !r.items[n].open && R.Repeats(r.items[n], SlotItem(logged, n))
    ensures R.Receive(r, Event(|logged.log|, None, FinalBody(logged))).phase.Done?
  {
    assert R.Ends(r.(next := r.next + 1), FinalResponse(logged));
  }

  lemma EndRead(s: State, r0: R.Reader, logged: State)
    requires Ready(s, r0)
    requires Finishing(s, r0, logged, TextSlots(s) + CallSlots(s, |s.slots|))
    ensures R.Read(Enqueue(logged, FinalBody(logged)).log).phase.Done?
  {
    AllRepeat(s, r0, logged);
    forall n: nat | n < |s.slots| ensures SlotItem(logged, n) == SlotItem(s, n) {
    }
    FinalReads(R.Read(logged.log), logged);
    ReadEnqueue(logged, FinalBody(logged));
  }

  /** A run that is brought to its end is accepted by the strict reader from the
      first event to the final response. */
  lemma CompleteAccepted(expose: bool, pieces: seq<Piece>)
    ensures R.Read(Complete(Run(expose, pieces))).phase.Done?
  {
    var s := CloseReasoning(Run(expose, pieces));
    RunTracks(expose, pieces);
    RunPlaced(expose, pieces);
    CloseReasoningTracks(Run(expose, pieces));
    CloseReasoningPlaced(Run(expose, pieces));
    FinishTextsRead(s);
    var texts := FinishRefusal(FinishText(s));
    FinishCallsRead(s, R.Read(s.log), texts, |s.slots|);
    EndRead(s, R.Read(s.log), FinishCalls(texts, |s.slots|));
  }

  // ------------------------------------------------------------- consequences

  /** Numbering: over every run, events carry sequence numbers 0, 1, 2, ... and
      items are announced with output indexes 0, 1, 2, ... */
  lemma Numbered(expose: bool, pieces: seq<Piece>, i: nat)
    requires i < |Complete(Run(expose, pieces))|
    ensures var stream := Complete(Run(expose, pieces));
            stream[i].number == i &&
            (stream[i].body.ItemAdded? ==> stream[i].body.outputIndex == Some(R.Added(stream[..i])))
  {
    CompleteAccepted(expose, pieces);
    R.AcceptedNumbers(Complete(Run(expose, pieces)), i);
  }

  lemma FinishItemsOnlyLog(s: State)
    ensures FinishItems(s) == s.(log := FinishItems(s).log, reasoningClosed := FinishItems(s).reasoningClosed)
  {
    var texts := FinishRefusal(FinishText(CloseReasoning(s)));
    var calls := FinishCalls(texts, |texts.slots|);
    assert calls.(log := texts.log) == texts;
  }

  lemma FinalItems(r: R.Reader, number: nat, s: State, n: nat)
    requires R.Receive(r, Event(number, None, FinalBody(s))).phase.Done? && r.phase.Reading?
    requires n < |s.slots|
    ensures n < |r.items| && R.Repeats(r.items[n], SlotItem(s, n))
  {
    assert FinalResponse(s).output[n] == SlotItem(s, n);
    assert R.Ends(r.(next := r.next + 1), FinalResponse(s));
  }

  /** The last event of an accepted stream pins down every streamed item. */
  lemma StreamedPayload(before: seq<Event>, logged: State, n: nat) returns (shown: R.Shown)
    requires logged.log == before && n < |logged.slots|
    requires R.Read(Enqueue(logged, FinalBody(logged)).log).phase.Done?
    ensures shown.streamed == R.DeltasAt(Enqueue(logged, FinalBody(logged)).log, n)
    ensures R.Repeats(shown, SlotItem(logged, n))
  {
    var stream := Enqueue(logged, FinalBody(logged)).log;
    assert stream[..|stream| - 1] == before;
    R.AcceptedPrefix(stream, |before|);
    R.AcceptedCounts(before);
    FinalItems(R.Read(before), |before|, logged, n);
    R.AcceptedStreams(before, n);
    FinalDeltas(before, logged, n);
    shown := R.Read(before).items[n];
    hide FinalBody;
    hide R.Repeats;
    hide R.Interpret;
  }

  lemma FinalDeltas(before: seq<Event>, logged: State, n: nat)
    requires logged.log == before
    ensures R.DeltasAt(Enqueue(logged, FinalBody(logged)).log, n) == R.DeltasAt(before, n)
  {
    var stream := Enqueue(logged, FinalBody(logged)).log;
    assert stream[..|stream| - 1] == before;
    assert R.DeltasAt(before, n) + "" == R.DeltasAt(before, n);
    hide FinalResponse;
  }

  lemma RepeatedItem(s: State, n: nat, shown: R.Shown)
    requires Placed(s) && n < |s.slots| && R.Repeats(shown, SlotItem(s, n))
    ensures Carries(SlotItem(s, n), shown.streamed)
  {
  }

  /** What an item of the final response owes to the deltas streamed for it. */
  ghost predicate Carries(item: Item, streamed: string) {
    match item
    case ReasoningItem(_, content) => streamed <= content
    case FunctionCall(_, _, _, arguments) => arguments == if streamed == "" then "{}" else streamed
    case MessageItem(_, parts, _) => |parts| == 1 && R.PartPayload(parts[0]) == streamed
    case OtherItem => false
  }

  /** Conservation: the n-th item of the final response is the concatenation of
      exactly the deltas streamed for output index n, with "{}" standing for a
      call without arguments; a reasoning item only has to begin that way. */
  lemma Conserved(expose: bool, pieces: seq<Piece>, n: nat)
    requires n < |Run(expose, pieces).slots|
    ensures Carries(SlotItem(Run(expose, pieces), n), R.DeltasAt(Complete(Run(expose, pieces)), n))
  {
    var s := Run(expose, pieces);
    CompleteAccepted(expose, pieces);
    FinishItemsOnlyLog(s);
    var logged := FinishItems(s);
    var shown := StreamedPayload(logged.log, logged, n);
    assert SlotItem(logged, n) == SlotItem(s, n);
    RunPlaced(expose, pieces);
    RepeatedItem(s, n, shown);
  }
}
