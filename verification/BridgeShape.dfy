/** The bookkeeping invariant of the bridge: slots and the fields that point at
    them agree, through every chunk sequence. */
module BridgeShape {
  import opened Optional
  import opened Wire
  import opened Bridge

  ghost predicate Points(at: Option<nat>, slots: seq<Slot>, slot: Slot) {
    && (at.Some? ==> at.value < |slots| && slots[at.value] == slot)
    && (forall i: nat :: i < |slots| && slots[i] == slot ==> at == Some(i))
  }

  ghost predicate CallsPlaced(calls: map<int, Call>, slots: seq<Slot>) {
    && (forall c :: c in calls && calls[c].at.Some? ==> calls[c].at.value < |slots| && slots[calls[c].at.value] == CallSlot(c))
    && (forall i: nat :: i < |slots| && slots[i].CallSlot? ==> slots[i].call in calls && calls[slots[i].call].at == Some(i))
  }

  /** A call has started exactly when it has both an id and a name, and what was
      announced then is never empty. */
  ghost predicate CallNamed(call: Call) {
    && (call.at.Some? <==> call.callID != "" && call.name != "")
    && (call.at.Some? ==> call.openedID != "" && call.openedName != "")
  }

  ghost predicate Placed(s: State) {
    && Points(s.reasoningAt, s.slots, ReasoningSlot)
    && Points(s.textAt, s.slots, TextSlot)
    && Points(s.refusalAt, s.slots, RefusalSlot)
    && CallsPlaced(s.calls, s.slots)
    && (forall c :: c in s.calls ==> CallNamed(s.calls[c]))
    && (s.reasoningClosed ==> s.reasoningAt.Some?)
    && (s.reasoningAt.Some? ==> s.expose)
    && (s.expose && s.reasoningAt.None? ==> s.reasoning == "")
    && (s.textAt.None? <==> s.text == "")
    && (s.refusalAt.None? <==> s.refusal == "")
  }

  lemma PointsExtend(at: Option<nat>, slots: seq<Slot>, slot: Slot, added: Slot)
    requires Points(at, slots, slot) && added != slot
    ensures Points(at, slots + [added], slot)
  {
  }

  lemma PointsOpen(slots: seq<Slot>, slot: Slot)
    requires Points(None, slots, slot)
    ensures Points(Some(|slots|), slots + [slot], slot)
  {
  }

  lemma CallsExtend(calls: map<int, Call>, slots: seq<Slot>, added: Slot)
    requires CallsPlaced(calls, slots) && !added.CallSlot?
    ensures CallsPlaced(calls, slots + [added])
  {
  }

  lemma CallsOpen(calls: map<int, Call>, slots: seq<Slot>, index: int, call: Call)
    requires CallsPlaced(calls, slots) && call.at == Some(|slots|)
    requires index in calls ==> calls[index].at.None?
    ensures CallsPlaced(calls[index := call], slots + [CallSlot(index)])
  {
  }

  lemma CallsUpdate(calls: map<int, Call>, slots: seq<Slot>, index: int, call: Call)
    requires CallsPlaced(calls, slots)
    requires call.at == if index in calls then calls[index].at else None
    ensures CallsPlaced(calls[index := call], slots)
  {
  }

  lemma AddTextPlaced(s: State, delta: string)
    requires Placed(s)
    ensures Placed(AddText(s, delta))
  {
    if delta != "" && s.textAt.None? {
      PointsOpen(s.slots, TextSlot);
      PointsExtend(s.reasoningAt, s.slots, ReasoningSlot, TextSlot);
      PointsExtend(s.refusalAt, s.slots, RefusalSlot, TextSlot);
      CallsExtend(s.calls, s.slots, TextSlot);
    }
    assert delta != "" ==> s.text + delta != "" by { assert |s.text + delta| == |s.text| + |delta|; }
  }

  lemma AddRefusalPlaced(s: State, delta: string)
    requires Placed(s)
    ensures Placed(AddRefusal(s, delta))
  {
    if delta != "" && s.refusalAt.None? {
      PointsOpen(s.slots, RefusalSlot);
      PointsExtend(s.reasoningAt, s.slots, ReasoningSlot, RefusalSlot);
      PointsExtend(s.textAt, s.slots, TextSlot, RefusalSlot);
      CallsExtend(s.calls, s.slots, RefusalSlot);
    }
    assert delta != "" ==> s.refusal + delta != "" by { assert |s.refusal + delta| == |s.refusal| + |delta|; }
  }

  lemma AddReasoningPlaced(s: State, delta: string)
    requires Placed(s)
    ensures Placed(AddReasoning(s, delta))
  {
    if delta != "" && s.expose && !s.reasoningClosed && s.reasoningAt.None? {
      PointsOpen(s.slots, ReasoningSlot);
      PointsExtend(s.textAt, s.slots, TextSlot, ReasoningSlot);
      PointsExtend(s.refusalAt, s.slots, RefusalSlot, ReasoningSlot);
      CallsExtend(s.calls, s.slots, ReasoningSlot);
    }
  }

  lemma MergeNamed(s: State, delta: CallDelta)
    requires Placed(s)
    ensures var merged := Merge(s, delta);
            && merged.at == (if delta.index in s.calls then s.calls[delta.index].at else None)
            && (merged.at.Some? ==> CallNamed(merged))
  {
    if delta.index in s.calls {
      var call := s.calls[delta.index];
      assert CallNamed(call);
      assert |call.name + delta.name| == |call.name| + |delta.name|;
    }
  }

  lemma OpenCallPlaced(s: State, index: int, merged: Call)
    requires Placed(s) && (index in s.calls ==> s.calls[index].at.None?)
    requires merged.callID != "" && merged.name != ""
    ensures Placed(OpenCall(s, index, merged))
  {
    var open := merged.(at := Some(|s.slots|), openedID := merged.callID, openedName := merged.name);
    CallsOpen(s.calls, s.slots, index, open);
    PointsExtend(s.reasoningAt, s.slots, ReasoningSlot, CallSlot(index));
    PointsExtend(s.textAt, s.slots, TextSlot, CallSlot(index));
    PointsExtend(s.refusalAt, s.slots, RefusalSlot, CallSlot(index));
  }

  lemma UpdateCallPlaced(s: State, index: int, merged: Call)
    requires Placed(s) && CallNamed(merged)
    requires merged.at == if index in s.calls then s.calls[index].at else None
    ensures Placed(s.(calls := s.calls[index := merged]))
  {
    CallsUpdate(s.calls, s.slots, index, merged);
  }

  lemma CloseReasoningPlaced(s: State)
    requires Placed(s)
    ensures Placed(CloseReasoning(s))
    ensures CloseReasoning(s).calls == s.calls && CloseReasoning(s).slots == s.slots
  {
  }

  lemma AddCallPlaced(s: State, delta: CallDelta)
    requires Placed(s)
    ensures Placed(AddCall(s, delta))
  {
    var merged := Merge(s, delta);
    MergeNamed(s, delta);
    if merged.at.Some? || merged.callID == "" || merged.name == "" {
      UpdateCallPlaced(s, delta.index, merged);
    } else {
      CloseReasoningPlaced(s);
      OpenCallPlaced(CloseReasoning(s), delta.index, merged);
      LogPlaced(OpenCall(CloseReasoning(s), delta.index, merged), AddCall(s, delta));
    }
  }

  /** Only the log distinguishes the two states. */
  lemma LogPlaced(s: State, logged: State)
    requires Placed(s) && logged == s.(log := logged.log)
    ensures Placed(logged)
  {
  }

  lemma StepPlaced(s: State, piece: Piece)
    requires Placed(s)
    ensures Placed(Step(s, piece))
  {
    match piece
    case Text(delta) => AddTextPlaced(s, delta);
    case Refusal(delta) => AddRefusalPlaced(s, delta);
    case Reasoning(delta) => AddReasoningPlaced(s, delta);
    case CallPart(call) => AddCallPlaced(s, call);
    case _ =>
  }

  lemma {:induction false} RunPlaced(expose: bool, pieces: seq<Piece>)
    ensures Placed(Run(expose, pieces))
  {
    if pieces != [] {
      RunPlaced(expose, pieces[..|pieces| - 1]);
      StepPlaced(Run(expose, pieces[..|pieces| - 1]), pieces[|pieces| - 1]);
    }
  }

  /** A call is left out of the output exactly when the stream never gave it
      both an id and a name. */
  lemma CallsStartedMeaning(expose: bool, pieces: seq<Piece>)
    ensures var s := Run(expose, pieces);
            CallsStarted(s) <==> forall c :: c in s.calls ==> s.calls[c].callID != "" && s.calls[c].name != ""
  {
    RunPlaced(expose, pieces);
    var s := Run(expose, pieces);
    assert forall c :: c in s.calls ==> CallNamed(s.calls[c]);
  }
}
