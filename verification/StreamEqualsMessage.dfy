/** The streamed message against the non-streaming one: content, stop reason and
    usage, each with the exact condition under which they agree. */
module StreamEqualsMessage {
  import opened Optional
  import opened Wire
  import opened Bridge
  import opened BridgeShape
  import opened Carry
  import opened Agreement
  import opened ToMessage
  import CarryToEnd
  import AgreementConverse
  import E = Encoder
  import M = MessagesReader

  // ------------------------------------------------------- what a client stores

  function BlockContent(block: M.Block): Content {
    match block.kind
    case TextBlock => TextContent(block.content)
    case ToolUse(id, name) => ToolUseContent(id, name, block.content)
  }

  /** The content list a client accumulates from the event stream. */
  function Accumulated(blocks: seq<M.Block>): seq<Content> {
    seq(|blocks|, i requires 0 <= i < |blocks| => BlockContent(blocks[i]))
  }

  function EntryContent(calls: map<int, Call>, entry: Entry, final: bool): Content {
    match entry
    case Words(text) => TextContent(text)
    case CallEntry(c) =>
      if c !in calls then TextContent("")
      else if final then ToolUseContent(calls[c].callID, calls[c].name, FinalArguments(calls[c]))
      else ToolUseContent(calls[c].openedID, calls[c].openedName, FinalArguments(calls[c]))
  }

  /** Entries as content, with the identities announced or the final ones. */
  function Render(calls: map<int, Call>, entries: seq<Entry>, final: bool): seq<Content> {
    seq(|entries|, i requires 0 <= i < |entries| => EntryContent(calls, entries[i], final))
  }

  lemma RenderSnoc(calls: map<int, Call>, entries: seq<Entry>, last: Entry, final: bool)
    ensures Render(calls, entries + [last], final) == Render(calls, entries, final) + [EntryContent(calls, last, final)]
  {
  }

  lemma AccumulatedFinal(calls: map<int, Call>, told: seq<Entry>)
    requires forall i: nat :: i < |told| && told[i].CallEntry? ==> told[i].call in calls
    ensures Accumulated(CarryToEnd.FinalBlocks(calls, told)) == Render(calls, told, false)
  {
    var blocks := CarryToEnd.FinalBlocks(calls, told);
    forall i: nat | i < |told| ensures BlockContent(blocks[i]) == EntryContent(calls, told[i], false) {
      assert blocks[i] == CarryToEnd.FinalBlock(calls, told[i]);
    }
  }

  // -------------------------------------------------- identities after the start

  /** Names and ids that arrived for calls already started. */
  datatype Late = Late(names: set<int>, ids: map<int, string>)

  function NextLate(late: Late, s: State, piece: Piece): Late {
    if piece.CallPart? && piece.call.index in s.calls && s.calls[piece.call.index].at.Some? then
      Late(if piece.call.name == "" then late.names else late.names + {piece.call.index},
           if piece.call.id == "" then late.ids else late.ids[piece.call.index := piece.call.id])
    else late
  }

  function LateOf(expose: bool, pieces: seq<Piece>): Late {
    if pieces == [] then Late({}, map[])
    else
      var front := pieces[..|pieces| - 1];
      NextLate(LateOf(expose, front), Run(expose, front), pieces[|pieces| - 1])
  }

  /** No name fragment came late, and the last late id repeats the announced one. */
  ghost predicate IdentitiesKept(late: Late, s: State) {
    && late.names == {}
    && (forall c :: c in late.ids ==> c in s.calls && late.ids[c] == s.calls[c].openedID)
  }

  ghost predicate LateFacts(late: Late, calls: map<int, Call>) {
    && (forall c :: c in late.names ==> c in calls && calls[c].at.Some? && calls[c].name != calls[c].openedName)
    && (forall c :: c in late.ids ==> c in calls && calls[c].at.Some? && calls[c].callID == late.ids[c])
    && (forall c :: c in calls && calls[c].at.Some? && c !in late.names ==> calls[c].name == calls[c].openedName)
    && (forall c :: c in calls && calls[c].at.Some? && c !in late.ids ==> calls[c].callID == calls[c].openedID)
    && (forall c :: c in calls && calls[c].at.Some? ==> |calls[c].openedName| <= |calls[c].name|)
  }

  lemma MergeLate(late: Late, s: State, delta: CallDelta)
    requires LateFacts(late, s.calls) && delta.index in s.calls && s.calls[delta.index].at.Some?
    ensures LateFacts(NextLate(late, s, CallPart(delta)), s.calls[delta.index := Merge(s, delta)])
  {
    var call := s.calls[delta.index];
    assert |call.name + delta.name| == |call.name| + |delta.name|;
    assert delta.name == "" ==> call.name + delta.name == call.name;
  }

  lemma FreshLate(late: Late, calls: map<int, Call>, index: int, call: Call)
    requires LateFacts(late, calls) && (index in calls ==> calls[index].at.None?)
    requires call.at.Some? ==> call.openedID == call.callID && call.openedName == call.name
    ensures LateFacts(late, calls[index := call])
  {
  }

  lemma StepCalls(s: State, piece: Piece)
    requires !piece.CallPart?
    ensures Step(s, piece).calls == s.calls
  {
  }

  lemma AddCallCalls(s: State, delta: CallDelta)
    ensures var merged := Merge(s, delta);
            AddCall(s, delta).calls == s.calls[delta.index :=
              if merged.at.None? && merged.callID != "" && merged.name != ""
              then merged.(at := Some(|s.slots|), openedID := merged.callID, openedName := merged.name) else merged]
  {
  }

  lemma {:induction false} RunLate(expose: bool, pieces: seq<Piece>)
    ensures LateFacts(LateOf(expose, pieces), Run(expose, pieces).calls)
  {
    if pieces != [] {
      var front := pieces[..|pieces| - 1];
      var s, late := Run(expose, front), LateOf(expose, front);
      RunLate(expose, front);
      match pieces[|pieces| - 1]
      case CallPart(delta) =>
        AddCallCalls(s, delta);
        var merged := Merge(s, delta);
        if merged.at.Some? {
          MergeLate(late, s, delta);
        } else {
          FreshLate(late, s.calls, delta.index, AddCall(s, delta).calls[delta.index]);
        }
      case other => StepCalls(s, other);
    }
  }

  predicate Kept(call: Call) {
    call.callID == call.openedID && call.name == call.openedName
  }

  ghost predicate Stable(calls: map<int, Call>) {
    forall c :: c in calls && calls[c].at.Some? ==> Kept(calls[c])
  }

  lemma KeptIsStable(late: Late, s: State)
    requires LateFacts(late, s.calls)
    ensures IdentitiesKept(late, s) <==> Stable(s.calls)
  {
    if Stable(s.calls) {
      assert forall c :: c !in late.names;
      assert late.names == {};
    }
  }

  /** The condition on late fragments says exactly that identities stayed. */
  lemma IdentitiesMeaning(expose: bool, pieces: seq<Piece>)
    ensures IdentitiesKept(LateOf(expose, pieces), Run(expose, pieces)) <==> Stable(Run(expose, pieces).calls)
  {
    RunLate(expose, pieces);
    KeptIsStable(LateOf(expose, pieces), Run(expose, pieces));
  }

  // ------------------------------------------------------ mapping the final items

  /** All calls in the first `n` slots carry valid arguments. */
  ghost predicate ValidUpTo(valid: string -> bool, s: State, n: nat)
    requires n <= |s.slots|
  {
    forall k: nat :: k < n && s.slots[k].CallSlot? && s.slots[k].call in s.calls ==> valid(FinalArguments(s.calls[s.slots[k].call]))
  }

  lemma MapSlot(valid: string -> bool, s: State, n: nat, mapped: Mapped)
    requires Placed(s) && n < |s.slots|
    ensures MapItem(valid, mapped, SlotItem(s, n), n) ==
            match s.slots[n]
            case ReasoningSlot => Ok(mapped)
            case TextSlot => Ok(mapped.(content := mapped.content + [TextContent(s.text)]))
            case RefusalSlot => Ok(mapped.(content := mapped.content + [TextContent(s.refusal)], refusal := true))
            case CallSlot(c) =>
              if valid(FinalArguments(s.calls[c]))
              then Ok(mapped.(content := mapped.content + [EntryContent(s.calls, CallEntry(c), true)], tools := mapped.tools + 1))
              else Err(ToMessage.INVALID_ARGUMENTS)
  {
    match s.slots[n]
    case ReasoningSlot =>
    case TextSlot =>
      assert s.textAt == Some(n);
      OnePart(OutputText(s.text), mapped.content);
    case RefusalSlot =>
      assert s.refusalAt == Some(n);
      OnePart(RefusalPart(s.refusal), mapped.content);
    case CallSlot(c) => assert CallNamed(s.calls[c]);
  }

  lemma OnePart(part: Part, before: seq<Content>)
    ensures before + PartsContent([part]) + TextIf("") == before + PartContent(part)
    ensures AnyRefusal([part]) == part.RefusalPart?
  {
    assert [part][..0] == [];
    assert [part][0] == part;
    assert PartsContent([part]) == [] + PartContent(part) == PartContent(part);
    assert before + PartContent(part) + [] == before + PartContent(part);
  }

  lemma {:induction false} MapOutput(valid: string -> bool, s: State, n: nat)
    requires Placed(s) && n <= |s.slots|
    ensures MapItems(valid, Output(s)[..n]) ==
            if ValidUpTo(valid, s, n)
            then Ok(Mapped(Render(s.calls, ItemsUpTo(s, n), true), CallsIn(s.slots[..n]), s.refusalAt.Some? && s.refusalAt.value < n))
            else Err(ToMessage.INVALID_ARGUMENTS)
  {
    if n == 0 {
      assert Output(s)[..0] == [];
      assert s.slots[..0] == [];
      assert Render(s.calls, [], true) == [];
    } else {
      MapOutput(valid, s, n - 1);
      assert Output(s)[..n][..n - 1] == Output(s)[..n - 1];
      MapOutputStep(valid, s, n);
    }
  }

  lemma MapOutputStep(valid: string -> bool, s: State, n: nat)
    requires Placed(s) && 0 < n <= |s.slots|
    ensures ValidUpTo(valid, s, n) <==>
            ValidUpTo(valid, s, n - 1) && (s.slots[n - 1].CallSlot? ==> valid(FinalArguments(s.calls[s.slots[n - 1].call])))
    ensures var before := Mapped(Render(s.calls, ItemsUpTo(s, n - 1), true), CallsIn(s.slots[..n - 1]), s.refusalAt.Some? && s.refusalAt.value < n - 1);
            ValidUpTo(valid, s, n) ==>
            MapItem(valid, before, SlotItem(s, n - 1), n - 1) ==
            Ok(Mapped(Render(s.calls, ItemsUpTo(s, n), true), CallsIn(s.slots[..n]), s.refusalAt.Some? && s.refusalAt.value < n))
    ensures var before := Mapped(Render(s.calls, ItemsUpTo(s, n - 1), true), CallsIn(s.slots[..n - 1]), s.refusalAt.Some? && s.refusalAt.value < n - 1);
            ValidUpTo(valid, s, n - 1) && !ValidUpTo(valid, s, n) ==>
            MapItem(valid, before, SlotItem(s, n - 1), n - 1) == Err(ToMessage.INVALID_ARGUMENTS)
  {
    var before := Mapped(Render(s.calls, ItemsUpTo(s, n - 1), true), CallsIn(s.slots[..n - 1]), s.refusalAt.Some? && s.refusalAt.value < n - 1);
    MapSlot(valid, s, n - 1, before);
    CallsUpTo(s.slots, n);
    if s.slots[n - 1].ReasoningSlot? {
      ReasoningLast(s, n);
    } else {
      RenderSnoc(s.calls, ItemsUpTo(s, n - 1), SlotEntry(s, s.slots[n - 1])[0], true);
    }
    hide Render;
    hide CallsIn;
    hide MapItem;
    hide SlotItem;
    hide FinalArguments;
  }

  lemma WholeOutput(s: State)
    ensures Output(s)[..|s.slots|] == Output(s) && s.slots[..|s.slots|] == s.slots
  {
  }

  lemma ConvertPlaced(valid: string -> bool, s: State)
    requires Placed(s)
    ensures MapItems(valid, Output(s)) ==
            if CarryToEnd.ArgumentsValid(valid, s) then Ok(Mapped(Render(s.calls, Items(s), true), CallsIn(s.slots), s.refusalAt.Some?))
            else Err(ToMessage.INVALID_ARGUMENTS)
  {
    WholeOutput(s);
    MapOutput(valid, s, |s.slots|);
    assert ValidUpTo(valid, s, |s.slots|) <==> CarryToEnd.ArgumentsValid(valid, s);
    hide MapItems;
    hide Output;
    hide Render;
    hide ItemsUpTo;
    hide CallsIn;
  }

  /** What the non-streaming mapping makes of a bridged final response. */
  lemma ConvertFinal(valid: string -> bool, expose: bool, pieces: seq<Piece>)
    ensures var s := Run(expose, pieces);
            var mapped := Mapped(Render(s.calls, Items(s), true), CallsIn(s.slots), s.refusalAt.Some?);
            Convert(valid, FinalResponse(s)) ==
            if CarryToEnd.ArgumentsValid(valid, s)
            then Ok(Message(mapped.content, StopReason(FinalResponse(s), mapped), MapUsage(FinalResponse(s))))
            else Err(ToMessage.INVALID_ARGUMENTS)
  {
    RunPlaced(expose, pieces);
    ConvertPlaced(valid, Run(expose, pieces));
    hide Placed;
    hide Output;
    hide Render;
    hide MapItems;
    hide Run;
    hide StopReason;
    hide MapUsage;
    hide CarryToEnd.ArgumentsValid;
  }

  // --------------------------------------------------- equal lists, equal entries

  function CallOrder(entries: seq<Entry>): seq<int> {
    if entries == [] then []
    else
      var last := entries[|entries| - 1];
      CallOrder(entries[..|entries| - 1]) + if last.CallEntry? then [last.call] else []
  }

  lemma OrderSnoc(entries: seq<Entry>, last: Entry)
    ensures CallOrder(entries + [last]) == CallOrder(entries) + if last.CallEntry? then [last.call] else []
  {
    assert (entries + [last])[..|entries|] == entries;
  }

  lemma OrderSay(told: seq<Entry>, delta: string)
    ensures CallOrder(Say(told, delta)) == CallOrder(told)
  {
    if LastWords(told) && delta != "" {
      var front := told[..|told| - 1];
      assert told == front + [told[|told| - 1]];
      assert Say(told, delta) == front + [Words(told[|told| - 1].text + delta)];
      OrderSnoc(front, told[|told| - 1]);
      OrderSnoc(front, Words(told[|told| - 1].text + delta));
    } else if delta != "" {
      OrderSnoc(told, Words(delta));
    }
  }

  function SlotCalls(slots: seq<Slot>): seq<int> {
    if slots == [] then []
    else
      var last := slots[|slots| - 1];
      SlotCalls(slots[..|slots| - 1]) + if last.CallSlot? then [last.call] else []
  }

  lemma SlotCallsSnoc(slots: seq<Slot>, last: Slot)
    ensures SlotCalls(slots + [last]) == SlotCalls(slots) + if last.CallSlot? then [last.call] else []
  {
    assert (slots + [last])[..|slots|] == slots;
  }

  lemma FragmentSlots(s: State, piece: Piece)
    requires piece.Text? || piece.Refusal?
    ensures SlotCalls(Step(s, piece).slots) == SlotCalls(s.slots)
  {
    match piece
    case Text(delta) => if delta != "" { AddTextShape(s, delta); SlotCallsSnoc(s.slots, TextSlot); }
    case Refusal(delta) => if delta != "" { AddRefusalShape(s, delta); SlotCallsSnoc(s.slots, RefusalSlot); }
  }

  lemma {:induction false} ToldOrder(expose: bool, pieces: seq<Piece>)
    ensures CallOrder(Told(expose, pieces)) == SlotCalls(Run(expose, pieces).slots)
  {
    if pieces != [] {
      var front := pieces[..|pieces| - 1];
      var s, told, piece := Run(expose, front), Told(expose, front), pieces[|pieces| - 1];
      ToldOrder(expose, front);
      RunPlaced(expose, front);
      if piece.Text? || piece.Refusal? {
        FragmentSlots(s, piece);
        OrderSay(told, piece.delta);
      } else {
        OtherPiece(s, told, piece);
        if piece.CallPart? {
          OrderSnoc(told, CallEntry(piece.call.index));
          SlotCallsSnoc(s.slots, CallSlot(piece.call.index));
        }
        SlotCallsSnoc(s.slots, ReasoningSlot);
      }
    }
  }

  lemma ItemsOrderStep(s: State, n: nat)
    requires 0 < n <= |s.slots|
    ensures CallOrder(ItemsUpTo(s, n)) == CallOrder(ItemsUpTo(s, n - 1)) + if s.slots[n - 1].CallSlot? then [s.slots[n - 1].call] else []
  {
    if s.slots[n - 1].ReasoningSlot? {
      ReasoningLast(s, n);
    } else {
      OrderSnoc(ItemsUpTo(s, n - 1), SlotEntry(s, s.slots[n - 1])[0]);
    }
    hide CallOrder;
  }

  lemma {:induction false} ItemsOrder(s: State, n: nat)
    requires n <= |s.slots|
    ensures CallOrder(ItemsUpTo(s, n)) == SlotCalls(s.slots[..n])
  {
    if n > 0 {
      ItemsOrder(s, n - 1);
      ItemsOrderStep(s, n);
      SlotsSplit(s.slots, n);
      SlotCallsSnoc(s.slots[..n - 1], s.slots[n - 1]);
      hide CallOrder;
      hide ItemsUpTo;
      hide SlotCalls;
    }
  }

  lemma SlotsSplit(slots: seq<Slot>, n: nat)
    requires 0 < n <= |slots|
    ensures slots[..n] == slots[..n - 1] + [slots[n - 1]]
  {
  }

  lemma {:induction false} SameCalls(a: seq<Entry>, b: seq<Entry>)
    requires |a| == |b| && CallOrder(a) == CallOrder(b)
    requires forall i: nat :: i < |a| ==> a[i].CallEntry? == b[i].CallEntry?
    ensures forall i: nat :: i < |a| && a[i].CallEntry? ==> a[i] == b[i]
  {
    if a != [] {
      var n := |a| - 1;
      assert CallOrder(a)[..|CallOrder(a[..n])|] == CallOrder(a[..n]);
      assert CallOrder(b)[..|CallOrder(b[..n])|] == CallOrder(b[..n]);
      if a[n].CallEntry? {
        assert CallOrder(a)[|CallOrder(a)| - 1] == a[n].call;
        assert CallOrder(b)[|CallOrder(b)| - 1] == b[n].call;
      }
      SameCalls(a[..n], b[..n]);
      forall i: nat | i < |a| && a[i].CallEntry? ensures a[i] == b[i] {
        assert i < n ==> a[..n][i] == a[i] && b[..n][i] == b[i];
      }
    }
  }

  ghost predicate Known(calls: map<int, Call>, entries: seq<Entry>) {
    forall i: nat :: i < |entries| && entries[i].CallEntry? ==> entries[i].call in calls && calls[entries[i].call].at.Some?
  }

  ghost predicate KeptIn(calls: map<int, Call>, entries: seq<Entry>)
    requires Known(calls, entries)
  {
    forall i: nat :: i < |entries| && entries[i].CallEntry? ==> Kept(calls[entries[i].call])
  }

  /** Two renderings are equal exactly when the entries are, and every call among
      them kept its identity. */
  lemma SameContent(calls: map<int, Call>, told: seq<Entry>, items: seq<Entry>)
    requires Known(calls, told) && Known(calls, items) && CallOrder(told) == CallOrder(items)
    ensures Render(calls, told, false) == Render(calls, items, true) <==>
            told == items && KeptIn(calls, items)
  {
    var streamed, mapped := Render(calls, told, false), Render(calls, items, true);
    if streamed == mapped {
      assert |told| == |streamed| == |mapped| == |items|;
      forall i: nat | i < |told| ensures told[i].CallEntry? == items[i].CallEntry? {
        assert streamed[i] == mapped[i];
      }
      SameCalls(told, items);
      forall i: nat | i < |told| ensures told[i] == items[i] {
        assert streamed[i] == mapped[i];
      }
      forall i: nat | i < |items| && items[i].CallEntry? ensures Kept(calls[items[i].call]) {
        assert streamed[i] == mapped[i];
      }
    }
  }

  lemma {:induction false} ItemAppears(s: State, n: nat, k: nat) returns (i: nat)
    requires k < n <= |s.slots| && s.slots[k].CallSlot?
    ensures i < |ItemsUpTo(s, n)| && ItemsUpTo(s, n)[i] == CallEntry(s.slots[k].call)
  {
    if k == n - 1 {
      i := |ItemsUpTo(s, n - 1)|;
    } else {
      i := ItemAppears(s, n - 1, k);
    }
  }

  lemma {:induction false} ItemsKnown(s: State, n: nat)
    requires Placed(s) && n <= |s.slots|
    ensures Known(s.calls, ItemsUpTo(s, n))
  {
    if n > 0 {
      ItemsKnown(s, n - 1);
    }
  }

  lemma StableItems(s: State)
    requires Placed(s)
    ensures Known(s.calls, Items(s))
    ensures Stable(s.calls) <==> KeptIn(s.calls, Items(s))
  {
    ItemsKnown(s, |s.slots|);
    if KeptIn(s.calls, Items(s)) {
      forall c | c in s.calls && s.calls[c].at.Some? ensures Kept(s.calls[c]) {
        var i := ItemAppears(s, |s.slots|, s.calls[c].at.value);
        assert Items(s)[i] == CallEntry(c);
      }
    }
  }

  lemma ToldKnown(valid: string -> bool, expose: bool, pieces: seq<Piece>)
    ensures Known(Run(expose, pieces).calls, Told(expose, pieces))
  {
    var s, told := Run(expose, pieces), Told(expose, pieces);
    RunFollows(valid, expose, pieces);
    var sent := E.Encode(valid, s.log);
    var r := M.Read(M.START, sent.events);
    forall i: nat | i < |told| && told[i].CallEntry? ensures told[i].call in s.calls && s.calls[told[i].call].at.Some? {
      assert BlockTold(s.calls, told, i, r.blocks[i]);
    }
  }

  lemma RenderedAlike(valid: string -> bool, expose: bool, pieces: seq<Piece>)
    ensures var s := Run(expose, pieces);
            Render(s.calls, Told(expose, pieces), false) == Render(s.calls, Items(s), true) <==>
            Gathered(GapsOf(expose, pieces)) && IdentitiesKept(LateOf(expose, pieces), s)
  {
    var s, told := Run(expose, pieces), Told(expose, pieces);
    RunPlaced(expose, pieces);
    ToldKnown(valid, expose, pieces);
    StableItems(s);
    ToldOrder(expose, pieces);
    ItemsOrder(s, |s.slots|);
    assert s.slots[..|s.slots|] == s.slots;
    SameContent(s.calls, told, Items(s));
    AgreementConverse.TranscriptIsItems(expose, pieces);
    IdentitiesMeaning(expose, pieces);
  }

  // ------------------------------------------------------------- the main theorems

  /** What a client of the stream is left with, when it is left with a message. */
  ghost function Streamed(valid: string -> bool, s: State): Option<seq<Content>> {
    var r := M.Read(M.START, E.Encode(valid, Complete(s)).events);
    if r.phase.Finished? then Some(Accumulated(r.blocks)) else None
  }

  /** What the non-streaming mapping of the same response holds. */
  function Mapping(valid: string -> bool, s: State): Option<seq<Content>> {
    match Convert(valid, FinalResponse(s))
    case Ok(message) => Some(message.content)
    case Err(_) => None
  }

  lemma StreamedContent(valid: string -> bool, expose: bool, pieces: seq<Piece>)
    ensures var s := Run(expose, pieces);
            Streamed(valid, s) == if s.finish == "length" || CarryToEnd.ArgumentsValid(valid, s)
                                  then Some(Render(s.calls, Told(expose, pieces), false)) else None
  {
    var s := Run(expose, pieces);
    CarryToEnd.BridgedStream(valid, expose, pieces);
    ToldKnown(valid, expose, pieces);
    AccumulatedFinal(s.calls, Told(expose, pieces));
  }

  /** The client's accumulated content and the mapped content are both there and
      equal exactly when every call's arguments form an object, text and refusal
      were each gathered in one gap between tool starts, and no name or changed id
      arrived after a call had started. */
  lemma ContentAgrees(valid: string -> bool, expose: bool, pieces: seq<Piece>)
    ensures var s := Run(expose, pieces);
            Streamed(valid, s).Some? && Streamed(valid, s) == Mapping(valid, s) <==>
            && CarryToEnd.ArgumentsValid(valid, s)
            && Gathered(GapsOf(expose, pieces))
            && IdentitiesKept(LateOf(expose, pieces), s)
  {
    StreamedContent(valid, expose, pieces);
    ConvertFinal(valid, expose, pieces);
    RenderedAlike(valid, expose, pieces);
  }

  lemma {:induction false} CallsCounted(slots: seq<Slot>)
    ensures CallsIn(slots) > 0 <==> exists n: nat | n < |slots| :: slots[n].CallSlot?
  {
    if slots != [] {
      var front := slots[..|slots| - 1];
      CallsCounted(front);
      if CallsIn(front) > 0 {
        var n: nat :| n < |front| && front[n].CallSlot?;
        assert slots[n].CallSlot?;
      }
      if exists n: nat | n < |slots| :: slots[n].CallSlot? {
        var n: nat :| n < |slots| && slots[n].CallSlot?;
        assert n < |front| ==> front[n].CallSlot?;
      }
    }
  }

  /** Stream and mapping give the same stop reason unless an untruncated response
      holds both a refusal and a tool call: then the stream ends with "refusal" and
      the mapping says "tool_use". */
  lemma StopReasonAgrees(valid: string -> bool, expose: bool, pieces: seq<Piece>)
    requires CarryToEnd.ArgumentsValid(valid, Run(expose, pieces))
    ensures var s := Run(expose, pieces);
            var streamed := M.Read(M.START, E.Encode(valid, Complete(s)).events).phase;
            var mapped := Convert(valid, FinalResponse(s));
            var refusedCall := s.refusalAt.Some? && exists n: nat | n < |s.slots| :: s.slots[n].CallSlot?;
            && streamed.Finished? && mapped.Ok?
            && (streamed.stopReason == mapped.value.stopReason <==> s.finish == "length" || !refusedCall)
            && (s.finish != "length" && refusedCall ==> streamed.stopReason == "refusal" && mapped.value.stopReason == "tool_use")
  {
    CarryToEnd.BridgedStream(valid, expose, pieces);
    ConvertFinal(valid, expose, pieces);
    CallsCounted(Run(expose, pieces).slots);
  }

  /** The counters a client reads off the closing message_delta, an omitted one
      standing for zero. */
  function Reported(counters: Counters): MessageUsage {
    MessageUsage(OrZero(counters.input), OrZero(counters.output), OrZero(counters.cacheCreation), OrZero(counters.cacheRead))
  }

  lemma UsageSame(s: State)
    ensures Reported(E.ExtractUsage(CarryToEnd.FinalEvent(s))) == MapUsage(FinalResponse(s))
  {
  }

  /** The log's closing message_delta reports the message's token counts. */
  predicate SameUsage(log: seq<ClientEvent>, mapped: Result<Message>) {
    |log| >= 2 && log[|log| - 2].MessageDelta? && mapped.Ok? && Reported(log[|log| - 2].counters) == mapped.value.usage
  }

  lemma ClosesAlike(s: State, log: seq<ClientEvent>, stopReason: string, mapped: Result<Message>)
    requires |log| >= 2 && log[|log| - 2..] == [MessageDelta(stopReason, E.ExtractUsage(CarryToEnd.FinalEvent(s))), MessageStop]
    requires mapped.Ok? && mapped.value.usage == MapUsage(FinalResponse(s))
    ensures SameUsage(log, mapped)
  {
    SecondLast(log, stopReason, E.ExtractUsage(CarryToEnd.FinalEvent(s)));
    UsageSame(s);
  }

  /** The token counts of the stream's closing event are those of the mapping. */
  lemma UsageAgrees(valid: string -> bool, expose: bool, pieces: seq<Piece>)
    requires CarryToEnd.ArgumentsValid(valid, Run(expose, pieces))
    ensures var s := Run(expose, pieces); SameUsage(E.Encode(valid, Complete(s)).events, Convert(valid, FinalResponse(s)))
  {
    hide *;
    var s := Run(expose, pieces);
    CarryToEnd.ClosingEvents(valid, expose, pieces);
    ConvertFinal(valid, expose, pieces);
    ClosesAlike(s, E.Encode(valid, Complete(s)).events, CarryToEnd.StopReasonOf(s), Convert(valid, FinalResponse(s)));
  }

  lemma SecondLast(log: seq<ClientEvent>, stopReason: string, counters: Counters)
    requires |log| >= 2 && log[|log| - 2..] == [MessageDelta(stopReason, counters), MessageStop]
    ensures log[|log| - 2] == MessageDelta(stopReason, counters)
  {
    assert log[|log| - 2] == log[|log| - 2..][0];
  }

  // --------------------------------------------------------- where they differ

  lemma RunTwo(expose: bool, a: Piece, b: Piece)
    ensures Run(expose, [a]) == Step(Begin(expose), a)
    ensures Run(expose, [a, b]) == Step(Step(Begin(expose), a), b)
    ensures GapsOf(expose, [a]) == NextGaps(Gaps({}, {}), 0, a)
    ensures GapsOf(expose, [a, b]) == NextGaps(GapsOf(expose, [a]), CallsIn(Run(expose, [a]).slots), b)
  {
    assert [a][..0] == [];
    assert [a, b][..1] == [a];
    assert CallsIn(Begin(expose).slots) == 0;
  }

  lemma OneText(expose: bool)
    ensures var s := Run(expose, [Text("a")]);
            Placed(s) && s.slots == [TextSlot] && s.calls == map[] && 0 in GapsOf(expose, [Text("a")]).text
  {
    RunTwo(expose, Text("a"), Text("a"));
    RunPlaced(expose, [Text("a")]);
    AddTextShape(Begin(expose), "a");
    StepCalls(Begin(expose), Text("a"));
    assert [] + [TextSlot] == [TextSlot];
  }

  lemma OneCallIn(slot: Slot, call: int)
    requires !slot.CallSlot?
    ensures CallsIn([slot]) == 0 && CallsIn([slot, CallSlot(call)]) == 1
  {
    CallsInSnoc([], slot);
    CallsInSnoc([slot], CallSlot(call));
    assert [] + [slot] == [slot] && [slot] + [CallSlot(call)] == [slot, CallSlot(call)];
  }

  /** The first call, after one other item. */
  lemma FirstCall(s: State, slot: Slot, call: CallDelta)
    requires Placed(s) && s.slots == [slot] && !slot.CallSlot? && s.calls == map[] && call.id != "" && call.name != ""
    ensures var s' := AddCall(s, call);
            && s'.slots == [slot, CallSlot(call.index)] && CallsIn(s'.slots) == 1
            && s'.calls.Keys == {call.index} && s'.calls[call.index].arguments == call.arguments
            && s'.refusalAt == s.refusalAt
  {
    hide Placed;
    hide AddCall;
    hide CallsIn;
    hide Tell;
    assert "" + call.name == call.name && "" + call.arguments == call.arguments;
    CallPiece(s, call);
    AddCallCalls(s, call);
    OneCallIn(slot, call.index);
    assert [slot] + [CallSlot(call.index)] == [slot, CallSlot(call.index)];
  }

  /** A text fragment, then the start of a call. */
  lemma TextThenCall(expose: bool, call: CallDelta)
    requires call.id != "" && call.name != ""
    ensures var s := Run(expose, [Text("a"), CallPart(call)]);
            && s.slots == [TextSlot, CallSlot(call.index)] && CallsIn(s.slots) == 1
            && s.calls.Keys == {call.index} && s.calls[call.index].arguments == call.arguments
            && 0 in GapsOf(expose, [Text("a"), CallPart(call)]).text
  {
    hide Placed;
    hide AddCall;
    hide AddText;
    hide Run;
    hide CallsIn;
    hide GapsOf;
    RunTwo(expose, Text("a"), CallPart(call));
    OneText(expose);
    FirstCall(Run(expose, [Text("a")]), TextSlot, call);
  }

  lemma LateText(expose: bool)
    ensures var pieces := [Text("a"), CallPart(CallDelta(0, "call", "f", "")), Text("b")];
            var s := Run(expose, pieces);
            && s.slots == [TextSlot, CallSlot(0)] && 0 in s.calls && s.calls[0].arguments == ""
            && 0 in GapsOf(expose, pieces).text && 1 in GapsOf(expose, pieces).text
  {
    var pieces := [Text("a"), CallPart(CallDelta(0, "call", "f", "")), Text("b")];
    var front := [Text("a"), CallPart(CallDelta(0, "call", "f", ""))];
    TextThenCall(expose, CallDelta(0, "call", "f", ""));
    assert pieces[..2] == front;
    AddTextShape(Run(expose, front), "b");
    RunPlaced(expose, front);
    StepCalls(Run(expose, front), Text("b"));
    hide AddText;
  }

  /** Chunks that were not gathered, with arguments in order: both sides have a
      message, and the two differ. */
  lemma ScatteredDisagrees(valid: string -> bool, expose: bool, pieces: seq<Piece>)
    requires CarryToEnd.ArgumentsValid(valid, Run(expose, pieces)) && !Gathered(GapsOf(expose, pieces))
    ensures var s := Run(expose, pieces);
            Streamed(valid, s).Some? && Mapping(valid, s).Some? && Streamed(valid, s) != Mapping(valid, s)
  {
    StreamedContent(valid, expose, pieces);
    ConvertFinal(valid, expose, pieces);
    ContentAgrees(valid, expose, pieces);
    hide Run;
    hide GapsOf;
    hide IdentitiesKept;
    hide Streamed;
    hide Convert;
    hide Render;
    hide Gathered;
    hide CarryToEnd.ArgumentsValid;
  }

  /** Text before and after the start of a call: the stream shows it as two
      blocks around the tool, the mapping as one block before it. */
  lemma LateTextDisagrees(valid: string -> bool, expose: bool)
    requires valid("{}")
    ensures var s := Run(expose, [Text("a"), CallPart(CallDelta(0, "call", "f", "")), Text("b")]);
            Streamed(valid, s).Some? && Mapping(valid, s).Some? && Streamed(valid, s) != Mapping(valid, s)
  {
    LateText(expose);
    ScatteredDisagrees(valid, expose, [Text("a"), CallPart(CallDelta(0, "call", "f", "")), Text("b")]);
    hide Run;
    hide GapsOf;
    hide Streamed;
    hide Mapping;
  }

  lemma MixedRefusal(expose: bool)
    ensures var pieces := [Text("a"), Refusal("b")];
            Run(expose, pieces).slots == [TextSlot, RefusalSlot] && 0 in GapsOf(expose, pieces).text && 0 in GapsOf(expose, pieces).refusal
  {
    RunTwo(expose, Text("a"), Refusal("b"));
    OneText(expose);
    AddRefusalShape(Run(expose, [Text("a")]), "b");
    RunPlaced(expose, [Text("a")]);
    CallsInSnoc([], TextSlot);
    assert [] + [TextSlot] == [TextSlot] && [TextSlot] + [RefusalSlot] == [TextSlot, RefusalSlot];
    hide AddText;
    hide AddRefusal;
  }

  /** Text and refusal with no call between them: one block against two. */
  lemma MixedRefusalDisagrees(valid: string -> bool, expose: bool)
    ensures var s := Run(expose, [Text("a"), Refusal("b")]);
            Streamed(valid, s).Some? && Mapping(valid, s).Some? && Streamed(valid, s) != Mapping(valid, s)
  {
    MixedRefusal(expose);
    ScatteredDisagrees(valid, expose, [Text("a"), Refusal("b")]);
    hide Run;
    hide GapsOf;
    hide Streamed;
    hide Mapping;
  }

  // ------------------------------------------- a refusal together with a call

  lemma OneRefusal(expose: bool)
    ensures var s := Run(expose, [Refusal("a")]);
            Placed(s) && s.slots == [RefusalSlot] && s.calls == map[] && s.refusalAt.Some? && s.finish == ""
  {
    RunTwo(expose, Refusal("a"), Refusal("a"));
    RunPlaced(expose, [Refusal("a")]);
    AddRefusalShape(Begin(expose), "a");
    StepCalls(Begin(expose), Refusal("a"));
    KeepsFinish(Begin(expose), Refusal("a"));
    assert [] + [RefusalSlot] == [RefusalSlot];
  }

  lemma KeepsFinish(s: State, piece: Piece)
    requires !piece.Finish?
    ensures Step(s, piece).finish == s.finish
  {
  }

  /** A refusal and a call in one response that is not cut short. */
  lemma RefusedCall(expose: bool)
    ensures var s := Run(expose, [Refusal("a"), CallPart(CallDelta(0, "call", "f", ""))]);
            && s.slots == [RefusalSlot, CallSlot(0)] && s.refusalAt.Some? && s.finish == ""
            && s.calls.Keys == {0} && s.calls[0].arguments == ""
  {
    hide Placed;
    hide AddCall;
    hide AddRefusal;
    hide Run;
    hide CallsIn;
    hide GapsOf;
    RunTwo(expose, Refusal("a"), CallPart(CallDelta(0, "call", "f", "")));
    OneRefusal(expose);
    FirstCall(Run(expose, [Refusal("a")]), RefusalSlot, CallDelta(0, "call", "f", ""));
    KeepsFinish(Run(expose, [Refusal("a")]), CallPart(CallDelta(0, "call", "f", "")));
  }

  /** The stream says "refusal", the mapping "tool_use". */
  lemma RefusedCallDisagrees(valid: string -> bool, expose: bool)
    requires valid("{}")
    ensures var s := Run(expose, [Refusal("a"), CallPart(CallDelta(0, "call", "f", ""))]);
            && M.Read(M.START, E.Encode(valid, Complete(s)).events).phase == M.Finished("refusal")
            && Convert(valid, FinalResponse(s)).Ok? && Convert(valid, FinalResponse(s)).value.stopReason == "tool_use"
  {
    var pieces := [Refusal("a"), CallPart(CallDelta(0, "call", "f", ""))];
    var s := Run(expose, pieces);
    RefusedCall(expose);
    assert s.slots[1].CallSlot?;
    StopReasonAgrees(valid, expose, pieces);
    hide Run;
    hide E.Encode;
    hide Convert;
    hide Complete;
  }

  // ------------------------------------------------ an identity that changes

  /** Identities that changed after the start, with arguments in order: both sides
      have a message, and the two differ. */
  lemma RenamedDisagrees(valid: string -> bool, expose: bool, pieces: seq<Piece>)
    requires CarryToEnd.ArgumentsValid(valid, Run(expose, pieces)) && !IdentitiesKept(LateOf(expose, pieces), Run(expose, pieces))
    ensures var s := Run(expose, pieces);
            Streamed(valid, s).Some? && Mapping(valid, s).Some? && Streamed(valid, s) != Mapping(valid, s)
  {
    StreamedContent(valid, expose, pieces);
    ConvertFinal(valid, expose, pieces);
    ContentAgrees(valid, expose, pieces);
    hide Run;
    hide GapsOf;
    hide IdentitiesKept;
    hide Streamed;
    hide Convert;
    hide Render;
    hide Gathered;
    hide CarryToEnd.ArgumentsValid;
  }

  /** A call and a later fragment of its name. */
  lemma LateName(expose: bool)
    ensures var pieces := [CallPart(CallDelta(0, "call", "f", "")), CallPart(CallDelta(0, "", "g", ""))];
            var s := Run(expose, pieces);
            && s.calls.Keys == {0} && s.calls[0].arguments == ""
            && 0 in LateOf(expose, pieces).names && GapsOf(expose, pieces) == Gaps({}, {})
  {
    var first, second := CallDelta(0, "call", "f", ""), CallDelta(0, "", "g", "");
    RunTwo(expose, CallPart(first), CallPart(second));
    var s := Run(expose, [CallPart(first)]);
    assert [CallPart(first), CallPart(second)][..1] == [CallPart(first)];
    AddCallCalls(Begin(expose), first);
    assert s.calls[0].at.Some? && s.calls[0].arguments == "";
    AddCallCalls(s, second);
    hide AddCall;
  }

  /** The stream announced the call as "f", the mapping knows it as "fg". */
  lemma LateNameDisagrees(valid: string -> bool, expose: bool)
    requires valid("{}")
    ensures var pieces := [CallPart(CallDelta(0, "call", "f", "")), CallPart(CallDelta(0, "", "g", ""))];
            var s := Run(expose, pieces);
            && Gathered(GapsOf(expose, pieces))
            && Streamed(valid, s).Some? && Mapping(valid, s).Some? && Streamed(valid, s) != Mapping(valid, s)
  {
    LateName(expose);
    RenamedDisagrees(valid, expose, [CallPart(CallDelta(0, "call", "f", "")), CallPart(CallDelta(0, "", "g", ""))]);
    hide Run;
    hide GapsOf;
    hide LateOf;
    hide Streamed;
    hide Mapping;
  }
}
