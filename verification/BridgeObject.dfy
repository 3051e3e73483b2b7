/** The chat bridge as the pull iterator it is: one object whose methods update
    its accumulators, its tool table and a queue of events waiting to be pulled.
    Every method is proved against its step of `Bridge`, and pulling until the
    first false delivers exactly the specified stream. */
module BridgeObject {
  import opened Optional
  import opened Wire
  import opened Bridge
  import opened BridgeShape
  import opened Least
  import BridgeGrammar

  /** A tool call as the iterator's table holds it. */
  datatype ToolCall = ToolCall(
    callIndex: int,
    outputIndex: int,
    itemID: string,
    callID: string,
    name: string,
    arguments: string,
    started: bool)

  ghost predicate ToolMatches(tool: ToolCall, call: Call, index: int) {
    && tool.callIndex == index
    && tool.callID == call.callID && tool.name == call.name && tool.arguments == call.arguments
    && tool.started == call.at.Some?
    && (if tool.started then tool.outputIndex == call.at.value && tool.itemID == CallItemID(call.at.value) else tool.outputIndex == -1)
  }

  ghost predicate ToolsMatch(tools: map<int, ToolCall>, calls: map<int, Call>) {
    && (forall c :: c in tools <==> c in calls)
    && (forall c :: c in tools ==> ToolMatches(tools[c], calls[c], c))
  }

  lemma ToolsUpdate(tools: map<int, ToolCall>, calls: map<int, Call>, index: int, tool: ToolCall, call: Call)
    requires ToolsMatch(tools, calls) && ToolMatches(tool, call, index)
    ensures ToolsMatch(tools[index := tool], calls[index := call])
  {
  }

  function At(present: bool, output: nat): Option<nat> {
    if present then Some(output) else None
  }

  // ------------------------------------------------------- sorting the tool table

  ghost predicate InOutputOrder(tools: map<int, ToolCall>, indices: seq<int>) {
    && (forall c :: c in indices <==> c in tools)
    && (forall i :: 0 <= i < |indices| ==> indices[i] in tools)
    && (forall i, j :: 0 <= i < j < |indices| ==> indices[i] != indices[j])
    && (forall i, j :: 0 <= i < j < |indices| ==> tools[indices[i]].outputIndex <= tools[indices[j]].outputIndex)
  }

  method SortByOutput(tools: map<int, ToolCall>) returns (indices: seq<int>)
    ensures InOutputOrder(tools, indices)
  {
    indices := [];
    var rest := tools.Keys;
    while rest != {}
      invariant rest <= tools.Keys
      invariant forall c :: c in indices <==> c in tools && c !in rest
      invariant forall i :: 0 <= i < |indices| ==> indices[i] in tools && indices[i] !in rest
      invariant forall i, j :: 0 <= i < j < |indices| ==> indices[i] != indices[j]
      invariant forall i, j :: 0 <= i < j < |indices| ==> tools[indices[i]].outputIndex <= tools[indices[j]].outputIndex
      invariant forall i, c :: 0 <= i < |indices| && c in rest ==> tools[indices[i]].outputIndex <= tools[c].outputIndex
      decreases |rest|
    {
      var first := FirstByOutput(tools, rest);
      var before := indices;
      indices := indices + [first];
      assert forall c :: c in indices <==> c in before || c == first;
      rest := rest - {first};
    }
  }

  method FirstByOutput(tools: map<int, ToolCall>, keys: set<int>) returns (first: int)
    requires keys != {} && keys <= tools.Keys
    ensures first in keys && forall c :: c in keys ==> tools[first].outputIndex <= tools[c].outputIndex
  {
    Inhabited(keys);
    first :| first in keys;
    var rest := keys - {first};
    while rest != {}
      invariant first in keys && rest <= keys
      invariant forall c :: c in keys && c !in rest ==> tools[first].outputIndex <= tools[c].outputIndex
      decreases |rest|
    {
      Inhabited(rest);
      var c :| c in rest;
      rest := rest - {c};
      if tools[c].outputIndex < tools[first].outputIndex { first := c; }
    }
  }

  /** How many slots the first `i` tools in order account for. */
  ghost function Reached(tools: map<int, ToolCall>, indices: seq<int>, i: nat): nat
    requires i <= |indices| && forall j :: 0 <= j < |indices| ==> indices[j] in tools
  {
    if i == 0 || tools[indices[i - 1]].outputIndex < 0 then 0 else tools[indices[i - 1]].outputIndex + 1
  }

  ghost predicate NoCalls(slots: seq<Slot>, m: nat, n: nat)
    requires n <= |slots|
  {
    forall k: nat :: m <= k < n ==> !slots[k].CallSlot?
  }

  /** The next started tool lies further on, with no other call in between. */
  lemma NextInOrder(tools: map<int, ToolCall>, calls: map<int, Call>, slots: seq<Slot>, indices: seq<int>, i: nat)
    requires ToolsMatch(tools, calls) && CallsPlaced(calls, slots) && InOutputOrder(tools, indices) && i < |indices|
    requires forall j :: 0 <= j <= i ==> tools[indices[j]].started
    ensures var n := tools[indices[i]].outputIndex;
            && Reached(tools, indices, i) <= n < |slots| && slots[n] == CallSlot(indices[i])
            && tools[indices[i]].callIndex == indices[i]
            && NoCalls(slots, Reached(tools, indices, i), n)
            && Reached(tools, indices, i + 1) == n + 1
  {
    var n := tools[indices[i]].outputIndex;
    assert indices[i] in tools && (i > 0 ==> indices[i - 1] in tools);
    assert ToolMatches(tools[indices[i]], calls[indices[i]], indices[i]);
    if i > 0 {
      assert ToolMatches(tools[indices[i - 1]], calls[indices[i - 1]], indices[i - 1]);
    }
    forall k: nat | Reached(tools, indices, i) <= k < n ensures !slots[k].CallSlot? {
      NotBetween(tools, calls, slots, indices, i, k);
    }
  }

  lemma NotBetween(tools: map<int, ToolCall>, calls: map<int, Call>, slots: seq<Slot>, indices: seq<int>, i: nat, k: nat)
    requires ToolsMatch(tools, calls) && CallsPlaced(calls, slots) && InOutputOrder(tools, indices) && i <= |indices|
    requires Reached(tools, indices, i) <= k < |slots|
    requires i < |indices| ==> k < tools[indices[i]].outputIndex
    ensures !slots[k].CallSlot?
  {
    forall j | 0 <= j < |indices| ensures tools[indices[j]].outputIndex != k {
      if j < i {
        assert j == i - 1 || tools[indices[j]].outputIndex <= tools[indices[i - 1]].outputIndex;
      } else {
        assert j == i || tools[indices[i]].outputIndex <= tools[indices[j]].outputIndex;
      }
    }
    forall c | c in tools ensures tools[c].outputIndex != k {
      assert c in indices;
    }
    if slots[k].CallSlot? { PlacedAt(tools, calls, slots, k); }
  }

  lemma PlacedAt(tools: map<int, ToolCall>, calls: map<int, Call>, slots: seq<Slot>, k: nat)
    requires ToolsMatch(tools, calls) && CallsPlaced(calls, slots) && k < |slots| && slots[k].CallSlot?
    ensures slots[k].call in tools && tools[slots[k].call].outputIndex == k
  {
    assert ToolMatches(tools[slots[k].call], calls[slots[k].call], slots[k].call);
  }

  lemma StartedAlike(tools: map<int, ToolCall>, calls: map<int, Call>)
    requires ToolsMatch(tools, calls)
    ensures (forall c :: c in tools ==> tools[c].started) <==> (forall c :: c in calls ==> calls[c].at.Some?)
  {
    forall c | c in tools ensures tools[c].started == calls[c].at.Some? {
      assert ToolMatches(tools[c], calls[c], c);
    }
  }

  lemma AllReached(tools: map<int, ToolCall>, calls: map<int, Call>, slots: seq<Slot>, indices: seq<int>)
    requires ToolsMatch(tools, calls) && CallsPlaced(calls, slots) && InOutputOrder(tools, indices)
    requires Reached(tools, indices, |indices|) <= |slots|
    ensures NoCalls(slots, Reached(tools, indices, |indices|), |slots|)
  {
    forall k: nat | Reached(tools, indices, |indices|) <= k < |slots| ensures !slots[k].CallSlot? {
      NotBetween(tools, calls, slots, indices, |indices|, k);
    }
  }

  lemma {:induction false} FinishSkips(s: State, m: nat, n: nat)
    requires m <= n <= |s.slots| && NoCalls(s.slots, m, n)
    ensures FinishCalls(s, n) == FinishCalls(s, m)
  {
    if m < n {
      FinishSkips(s, m, n - 1);
    }
  }

  lemma FinishNext(s: State, m: nat, n: nat)
    requires m <= n < |s.slots| && NoCalls(s.slots, m, n) && s.slots[n].CallSlot? && s.slots[n].call in s.calls
    ensures FinishCalls(s, n + 1) == FinishCall(FinishCalls(s, m), s.calls[s.slots[n].call], n)
  {
    FinishSkips(s, m, n);
  }

  lemma TextsKeep(s: State)
    ensures var texts := FinishRefusal(FinishText(s)); texts.slots == s.slots && texts.calls == s.calls
  {
  }

  // ------------------------------------------------------------ sorting outputs

  datatype OutputEntry = OutputEntry(index: int, item: Item)

  ghost predicate Apart(items: seq<OutputEntry>) {
    forall i, j :: 0 <= i < j < |items| ==> items[i].index != items[j].index
  }

  /** Every entry is the item of its slot. */
  ghost predicate FromSlots(items: seq<OutputEntry>, s: State) {
    forall i :: 0 <= i < |items| ==> 0 <= items[i].index < |s.slots| && items[i].item == SlotItem(s, items[i].index)
  }

  ghost predicate Has(items: seq<OutputEntry>, n: int) {
    exists i :: 0 <= i < |items| && items[i].index == n
  }

  /** One entry for every slot. */
  ghost predicate Collected(items: seq<OutputEntry>, s: State) {
    Apart(items) && FromSlots(items, s) && forall n: nat :: n < |s.slots| ==> Has(items, n)
  }

  /** The entries of all slots that are not calls. */
  ghost predicate WordEntries(items: seq<OutputEntry>, s: State) {
    && Apart(items) && FromSlots(items, s)
    && (forall n: nat :: n < |s.slots| ==> (Has(items, n) <==> !s.slots[n].CallSlot?))
  }

  lemma HasAppend(items: seq<OutputEntry>, entry: OutputEntry, n: int)
    ensures Has(items + [entry], n) <==> Has(items, n) || entry.index == n
  {
    if Has(items, n) {
      var i :| 0 <= i < |items| && items[i].index == n;
      assert (items + [entry])[i].index == n;
    }
    assert (items + [entry])[|items|] == entry;
    if Has(items + [entry], n) {
      var i :| 0 <= i < |items| + 1 && (items + [entry])[i].index == n;
      assert i < |items| ==> items[i].index == n;
    }
  }

  lemma WordsCollected(s: State, items: seq<OutputEntry>)
    requires Placed(s)
    requires items == WordList(s)
    ensures WordEntries(items, s)
  {
    forall n: nat | n < |s.slots| ensures Has(items, n) <==> !s.slots[n].CallSlot? {
      WordHas(s, n);
    }
  }

  /** The reasoning, text and refusal entries, those that exist. */
  function WordList(s: State): seq<OutputEntry> {
    (match s.reasoningAt case None => [] case Some(n) => [OutputEntry(n, ReasoningItem(ReasoningID(n), s.reasoning))]) +
    (match s.textAt case None => [] case Some(n) => [OutputEntry(n, MessageItem(MessageID(n), [OutputText(s.text)], ""))]) +
    (match s.refusalAt case None => [] case Some(n) => [OutputEntry(n, MessageItem(MessageID(n), [RefusalPart(s.refusal)], ""))])
  }

  lemma WordHas(s: State, n: nat)
    requires Placed(s) && n < |s.slots|
    ensures Has(WordList(s), n) <==> !s.slots[n].CallSlot?
  {
    var a := if s.reasoningAt.Some? then 1 else 0;
    var b := a + if s.textAt.Some? then 1 else 0;
    if s.slots[n].ReasoningSlot? { assert WordList(s)[0].index == n; }
    if s.slots[n].TextSlot? { assert WordList(s)[a].index == n; }
    if s.slots[n].RefusalSlot? { assert WordList(s)[b].index == n; }
  }

  /** Adding the entry of every tool, whatever order the table yields them in. */
  method CollectTools(tools: map<int, ToolCall>, ghost s: State, words: seq<OutputEntry>) returns (items: seq<OutputEntry>)
    requires ToolsMatch(tools, s.calls) && CallsPlaced(s.calls, s.slots) && CallsStarted(s)
    requires WordEntries(words, s)
    ensures Collected(items, s)
  {
    items := words;
    var rest := tools.Keys;
    while rest != {}
      invariant rest <= tools.Keys
      invariant Apart(items) && FromSlots(items, s)
      invariant forall n: nat :: n < |s.slots| ==> (Has(items, n) <==> !s.slots[n].CallSlot? || s.slots[n].call !in rest)
      decreases |rest|
    {
      Inhabited(rest);
      var c :| c in rest;
      var tool := tools[c];
      var entry := OutputEntry(tool.outputIndex, FunctionCall(tool.itemID, tool.callID, tool.name, if tool.arguments == "" then "{}" else tool.arguments));
      ToolCollected(tools, s, items, rest, c, entry);
      items := items + [entry];
      rest := rest - {c};
    }
  }

  lemma ToolCollected(tools: map<int, ToolCall>, s: State, items: seq<OutputEntry>, rest: set<int>, c: int, entry: OutputEntry)
    requires ToolsMatch(tools, s.calls) && CallsPlaced(s.calls, s.slots) && CallsStarted(s)
    requires c in rest && c in tools && Apart(items) && FromSlots(items, s)
    requires forall n: nat :: n < |s.slots| ==> (Has(items, n) <==> !s.slots[n].CallSlot? || s.slots[n].call !in rest)
    requires var tool := tools[c];
             entry == OutputEntry(tool.outputIndex, FunctionCall(tool.itemID, tool.callID, tool.name, if tool.arguments == "" then "{}" else tool.arguments))
    ensures Apart(items + [entry]) && FromSlots(items + [entry], s)
    ensures forall n: nat :: n < |s.slots| ==> (Has(items + [entry], n) <==> !s.slots[n].CallSlot? || s.slots[n].call !in rest - {c})
  {
    assert ToolMatches(tools[c], s.calls[c], c);
    var at := s.calls[c].at.value;
    assert s.slots[at] == CallSlot(c) && entry == OutputEntry(at, SlotItem(s, at));
    assert !Has(items, at);
    forall n: nat | n < |s.slots| ensures Has(items + [entry], n) <==> !s.slots[n].CallSlot? || s.slots[n].call !in rest - {c} {
      HasAppend(items, entry, n);
    }
  }

  ghost predicate Increasing(sorted: seq<OutputEntry>) {
    forall i, j :: 0 <= i < j < |sorted| ==> sorted[i].index < sorted[j].index
  }

  lemma InsertAt(sorted: seq<OutputEntry>, entry: OutputEntry, p: nat)
    requires Increasing(sorted) && p <= |sorted|
    requires forall i :: 0 <= i < p ==> sorted[i].index < entry.index
    requires forall i :: p <= i < |sorted| ==> entry.index < sorted[i].index
    ensures Increasing(sorted[..p] + [entry] + sorted[p..])
    ensures forall x :: x in sorted[..p] + [entry] + sorted[p..] <==> x in sorted || x == entry
  {
    assert sorted == sorted[..p] + sorted[p..];
  }

  /** Where an entry belongs among sorted ones. */
  method Place(sorted: seq<OutputEntry>, entry: OutputEntry) returns (p: nat)
    requires Increasing(sorted) && forall i :: 0 <= i < |sorted| ==> sorted[i].index != entry.index
    ensures p <= |sorted|
    ensures forall i :: 0 <= i < p ==> sorted[i].index < entry.index
    ensures forall i :: p <= i < |sorted| ==> entry.index < sorted[i].index
  {
    p := |sorted|;
    while p > 0 && entry.index < sorted[p - 1].index
      invariant 0 <= p <= |sorted|
      invariant forall i :: p <= i < |sorted| ==> entry.index < sorted[i].index
    {
      p := p - 1;
    }
  }

  method SortEntries(items: seq<OutputEntry>) returns (sorted: seq<OutputEntry>)
    requires Apart(items)
    ensures Increasing(sorted) && forall x :: x in sorted <==> x in items
  {
    sorted := [];
    for k := 0 to |items|
      invariant Increasing(sorted) && forall x :: x in sorted <==> x in items[..k]
    {
      forall i | 0 <= i < |sorted| ensures sorted[i].index != items[k].index {
        assert sorted[i] in items[..k];
      }
      var p := Place(sorted, items[k]);
      InsertAt(sorted, items[k], p);
      sorted := sorted[..p] + [items[k]] + sorted[p..];
      assert items[..k + 1] == items[..k] + [items[k]];
    }
    assert items[..|items|] == items;
  }

  lemma SameEntries(items: seq<OutputEntry>, sorted: seq<OutputEntry>, s: State)
    requires Collected(items, s) && forall x :: x in sorted <==> x in items
    ensures FromSlots(sorted, s) && forall n: nat :: n < |s.slots| ==> Has(sorted, n)
  {
    forall i | 0 <= i < |sorted| ensures 0 <= sorted[i].index < |s.slots| && sorted[i].item == SlotItem(s, sorted[i].index) {
      assert sorted[i] in items;
    }
    forall n: nat | n < |s.slots| ensures Has(sorted, n) {
      assert Has(items, n);
      var i :| 0 <= i < |items| && items[i].index == n;
      assert items[i] in sorted;
    }
  }

  lemma {:induction false} IndexAtLeast(sorted: seq<OutputEntry>, k: nat)
    requires Increasing(sorted) && k < |sorted| && sorted[0].index >= 0
    ensures sorted[k].index >= k
  {
    if k > 0 { IndexAtLeast(sorted, k - 1); }
  }

  lemma {:induction false} SortedAt(sorted: seq<OutputEntry>, s: State, k: nat)
    requires Increasing(sorted) && FromSlots(sorted, s) && forall n: nat :: n < |s.slots| ==> Has(sorted, n)
    requires k < |s.slots|
    ensures k < |sorted| && sorted[k].index == k
  {
    if k > 0 { SortedAt(sorted, s, k - 1); }
    assert Has(sorted, k);
    var j :| 0 <= j < |sorted| && sorted[j].index == k;
    IndexAtLeast(sorted, j);
    assert k > 0 ==> sorted[k - 1].index == k - 1;
    IndexAtLeast(sorted, k);
  }

  /** Sorted by output index, the entries are the slots in order. */
  lemma SortedIsSlots(items: seq<OutputEntry>, sorted: seq<OutputEntry>, s: State)
    requires Collected(items, s) && Increasing(sorted) && forall x :: x in sorted <==> x in items
    ensures |sorted| == |s.slots| && forall n: nat :: n < |s.slots| ==> sorted[n].item == SlotItem(s, n)
  {
    SameEntries(items, sorted, s);
    forall n: nat | n < |s.slots| ensures n < |sorted| && sorted[n].index == n {
      SortedAt(sorted, s, n);
    }
    if |sorted| > 0 { IndexAtLeast(sorted, |sorted| - 1); }
    if |s.slots| > 0 { SortedAt(sorted, s, |s.slots| - 1); }
  }

  class ChatStream {
    const chunks: seq<Chunk>
    const transportError: bool
    const exposeReasoning: bool
    var position: nat
    var sequence: nat
    var started: bool
    var ended: bool
    var finalized: bool
    var failed: bool
    var finish: string
    var text: string
    var refusal: string
    var reasoningContent: string
    var reasoningID: string
    var reasoningOutput: nat
    var reasoningStarted: bool
    var reasoningClosed: bool
    var textID: string
    var textOutput: nat
    var textStarted: bool
    var refusalID: string
    var refusalOutput: nat
    var refusalStarted: bool
    var nextOutput: nat
    var tools: map<int, ToolCall>
    var usage: Option<ChatUsage>
    var queue: seq<Event>
    var current: Event
    ghost var slots: seq<Slot>
    ghost var calls: map<int, Call>
    ghost var delivered: seq<Event>

    ghost predicate Valid()
      reads this
    {
      && sequence == |delivered| + |queue|
      && nextOutput == |slots|
      && (reasoningStarted ==> reasoningID == ReasoningID(reasoningOutput))
      && (textStarted ==> textID == MessageID(textOutput))
      && (refusalStarted ==> refusalID == MessageID(refusalOutput))
      && ToolsMatch(tools, calls)
    }

    /** The specification's state: everything ever queued is what has been pulled
        followed by what is still in the queue. */
    ghost function State(): Bridge.State
      reads this
    {
      Bridge.State.State(exposeReasoning, finish, text, refusal, reasoningContent, reasoningClosed,
            At(reasoningStarted, reasoningOutput), At(textStarted, textOutput), At(refusalStarted, refusalOutput),
            slots, calls, usage, delivered + queue)
    }

    method Enqueue(body: Body)
      requires Valid()
      modifies `queue, `sequence
      ensures Valid() && queue != []
      ensures State() == Bridge.Enqueue(old(State()), body)
    {
      var event := Event(sequence, None, body);
      assert delivered + (queue + [event]) == delivered + queue + [event];
      sequence := sequence + 1;
      queue := queue + [event];
    }

    method CloseReasoning()
      requires Valid()
      modifies `queue, `sequence, `reasoningClosed
      ensures Valid() && State() == Bridge.CloseReasoning(old(State()))
    {
      if !reasoningStarted || reasoningClosed { return; }
      reasoningClosed := true;
      Enqueue(ReasoningDone(reasoningID, Some(reasoningOutput), reasoningContent));
      Enqueue(ItemDone(Some(reasoningOutput), ReasoningItem(reasoningID, reasoningContent)));
    }

    method NoteReasoning(delta: string)
      requires Valid() && delta != ""
      modifies `reasoningContent, `queue, `sequence, `reasoningStarted, `reasoningID, `reasoningOutput, `nextOutput, `slots
      ensures Valid() && State() == Bridge.AddReasoning(old(State()), delta)
    {
      reasoningContent := reasoningContent + delta;
      AddReasoning(delta);
    }

    method ClaimReasoning()
      requires Valid()
      modifies `reasoningStarted, `reasoningID, `reasoningOutput, `nextOutput, `slots
      ensures Valid() && reasoningStarted && reasoningID == ReasoningID(reasoningOutput)
      ensures State() == old(State()).(reasoningAt := Some(|old(slots)|), slots := old(slots) + [ReasoningSlot])
    {
      hide ToolsMatch;
      reasoningStarted := true;
      reasoningID := ReasoningID(nextOutput);
      reasoningOutput := nextOutput;
      nextOutput := nextOutput + 1;
      slots := slots + [ReasoningSlot];
    }

    method StartReasoning()
      requires Valid() && !reasoningStarted
      modifies `queue, `sequence, `reasoningStarted, `reasoningID, `reasoningOutput, `nextOutput, `slots
      ensures Valid() && reasoningStarted && State() == OpenReasoning(old(State()))
    {
      hide ToolsMatch;
      hide Bridge.Enqueue;
      ClaimReasoning();
      Enqueue(ItemAdded(Some(reasoningOutput), ReasoningItem(reasoningID, "")));
    }

    method AddReasoning(delta: string)
      requires Valid() && delta != ""
      modifies `queue, `sequence, `reasoningStarted, `reasoningID, `reasoningOutput, `nextOutput, `slots
      ensures Valid()
      ensures var s := old(State());
              State() ==
              if !s.expose || s.reasoningClosed then s
              else
                var open := if s.reasoningAt.None? then OpenReasoning(s) else s;
                Bridge.Enqueue(open, ReasoningDelta(ReasoningID(open.reasoningAt.value), open.reasoningAt, delta))
    {
      hide ToolsMatch;
      hide Bridge.Enqueue;
      if !exposeReasoning || reasoningClosed { return; }
      if !reasoningStarted { StartReasoning(); }
      Enqueue(ReasoningDelta(reasoningID, Some(reasoningOutput), delta));
    }

    method ClaimText()
      requires Valid()
      modifies `textStarted, `textID, `textOutput, `nextOutput, `slots
      ensures Valid() && textStarted && textID == MessageID(textOutput)
      ensures State() == old(State()).(textAt := Some(|old(slots)|), slots := old(slots) + [TextSlot])
    {
      hide ToolsMatch;
      textStarted := true;
      textID := MessageID(nextOutput);
      textOutput := nextOutput;
      nextOutput := nextOutput + 1;
      slots := slots + [TextSlot];
    }

    method StartText()
      requires Valid() && !textStarted
      modifies `queue, `sequence, `textStarted, `textID, `textOutput, `nextOutput, `slots
      ensures Valid() && textStarted && State() == OpenText(old(State()))
    {
      hide ToolsMatch;
      hide Bridge.Enqueue;
      ClaimText();
      Enqueue(ItemAdded(Some(textOutput), MessageItem(textID, [], "")));
      Enqueue(PartAdded(textID, Some(textOutput), OutputText("")));
    }

    method AddText(delta: string)
      requires Valid() && delta != ""
      modifies `queue, `sequence, `reasoningClosed, `text, `textStarted, `textID, `textOutput, `nextOutput, `slots
      ensures Valid() && State() == Bridge.AddText(old(State()), delta)
    {
      hide ToolsMatch;
      hide Bridge.Enqueue;
      if !textStarted {
        CloseReasoning();
        StartText();
      }
      text := text + delta;
      Enqueue(TextDelta(textID, Some(textOutput), delta));
    }

    method ClaimRefusal()
      requires Valid()
      modifies `refusalStarted, `refusalID, `refusalOutput, `nextOutput, `slots
      ensures Valid() && refusalStarted && refusalID == MessageID(refusalOutput)
      ensures State() == old(State()).(refusalAt := Some(|old(slots)|), slots := old(slots) + [RefusalSlot])
    {
      hide ToolsMatch;
      refusalStarted := true;
      refusalID := MessageID(nextOutput);
      refusalOutput := nextOutput;
      nextOutput := nextOutput + 1;
      slots := slots + [RefusalSlot];
    }

    method StartRefusal()
      requires Valid() && !refusalStarted
      modifies `queue, `sequence, `refusalStarted, `refusalID, `refusalOutput, `nextOutput, `slots
      ensures Valid() && refusalStarted && State() == OpenRefusal(old(State()))
    {
      hide ToolsMatch;
      hide Bridge.Enqueue;
      ClaimRefusal();
      Enqueue(ItemAdded(Some(refusalOutput), MessageItem(refusalID, [], "")));
      Enqueue(PartAdded(refusalID, Some(refusalOutput), RefusalPart("")));
    }

    method AddRefusal(delta: string)
      requires Valid() && delta != ""
      modifies `queue, `sequence, `reasoningClosed, `refusal, `refusalStarted, `refusalID, `refusalOutput, `nextOutput, `slots
      ensures Valid() && State() == Bridge.AddRefusal(old(State()), delta)
    {
      hide ToolsMatch;
      hide Bridge.Enqueue;
      if !refusalStarted {
        CloseReasoning();
        StartRefusal();
      }
      refusal := refusal + delta;
      Enqueue(RefusalDelta(refusalID, Some(refusalOutput), delta));
    }

    /** The part of a tool delta that only extends the table. */
    method MergeToolDelta(delta: CallDelta) returns (tool: ToolCall, wasStarted: bool)
      requires Valid()
      modifies `tools, `calls
      ensures Valid() && delta.index in tools && tools[delta.index] == tool
      ensures State() == old(State()).(calls := old(calls)[delta.index := Merge(old(State()), delta)])
      ensures wasStarted == tool.started
    {
      ghost var call := if delta.index in calls then calls[delta.index] else Call("", "", "", None, "", "");
      tool := if delta.index in tools then tools[delta.index] else ToolCall(delta.index, -1, "", "", "", "", false);
      assert ToolMatches(tool, call, delta.index);
      hide ToolsMatch;
      wasStarted := tool.started;
      ghost var merged := Merge(State(), delta);
      if delta.id != "" { tool := tool.(callID := delta.id); }
      if delta.name != "" { tool := tool.(name := tool.name + delta.name); }
      if delta.arguments != "" { tool := tool.(arguments := tool.arguments + delta.arguments); }
      MergeSame(call, delta);
      ToolsUpdate(tools, calls, delta.index, tool, merged);
      tools := tools[delta.index := tool];
      calls := calls[delta.index := merged];
    }

    method ClaimTool(index: int, tool: ToolCall) returns (open: ToolCall)
      requires Valid() && index in tools && tools[index] == tool && !tool.started
      modifies `nextOutput, `slots, `tools, `calls
      ensures Valid() && index in tools && tools[index] == open
      ensures open == tool.(started := true, outputIndex := |old(slots)|, itemID := CallItemID(|old(slots)|))
      ensures var n := |old(slots)|;
              var call := old(calls)[index];
              && open.callID == call.callID && open.name == call.name
              && State() == old(State()).(slots := old(slots) + [CallSlot(index)],
                                          calls := old(calls)[index := call.(at := Some(n), openedID := call.callID, openedName := call.name)])
    {
      assert ToolMatches(tool, calls[index], index);
      hide ToolsMatch;
      open := tool.(started := true, itemID := CallItemID(nextOutput), outputIndex := nextOutput);
      ghost var call := calls[index];
      ghost var claimed := call.(at := Some(nextOutput), openedID := call.callID, openedName := call.name);
      ToolsUpdate(tools, calls, index, open, claimed);
      tools := tools[index := open];
      calls := calls[index := claimed];
      slots := slots + [CallSlot(index)];
      nextOutput := nextOutput + 1;
    }

    method StartTool(index: int, tool: ToolCall) returns (open: ToolCall)
      requires Valid() && index in tools && tools[index] == tool && !tool.started
      modifies `queue, `sequence, `reasoningClosed, `nextOutput, `slots, `tools, `calls
      ensures Valid() && index in tools && tools[index] == open
      ensures open == tool.(started := true, outputIndex := |old(slots)|, itemID := CallItemID(|old(slots)|))
      ensures State() == OpenCall(Bridge.CloseReasoning(old(State())), index, old(calls)[index])
    {
      assert index in calls;
      CloseReasoningKeeps(State());
      hide ToolsMatch;
      hide Bridge.Enqueue;
      hide Bridge.CloseReasoning;
      CloseReasoning();
      open := ClaimTool(index, tool);
      Enqueue(ItemAdded(Some(open.outputIndex), FunctionCall(open.itemID, open.callID, open.name, "")));
    }

    method AddToolDelta(delta: CallDelta)
      requires Valid()
      modifies `queue, `sequence, `reasoningClosed, `nextOutput, `slots, `tools, `calls
      ensures Valid() && State() == AddCall(old(State()), delta)
    {
      AddCallMerged(State(), delta);
      var tool, wasStarted := MergeToolDelta(delta);
      if !tool.started && tool.callID != "" && tool.name != "" {
        tool := StartTool(delta.index, tool);
      }
      if !wasStarted && tool.started && tool.arguments != "" {
        Enqueue(ArgumentsDelta(tool.itemID, Some(tool.outputIndex), tool.arguments));
      } else if wasStarted && delta.arguments != "" {
        Enqueue(ArgumentsDelta(tool.itemID, Some(tool.outputIndex), delta.arguments));
      }
    }

    method CaptureUsage(seen: ChatUsage)
      requires Valid()
      modifies `usage
      ensures Valid() && State() == Bridge.CaptureUsage(old(State()), seen)
    {
      if seen.prompt == 0 && seen.completion == 0 && seen.total == 0 { return; }
      usage := Some(seen);
    }

    // ------------------------------------------------------------- one chunk

    method AddWords(choice: Choice)
      requires Valid()
      modifies `queue, `sequence, `nextOutput, `slots, `reasoningClosed, `text, `textStarted, `textID, `textOutput, `refusal, `refusalStarted, `refusalID, `refusalOutput
      modifies `reasoningContent, `reasoningStarted, `reasoningID, `reasoningOutput
      ensures Valid()
      ensures State() == Bridge.AddReasoning(Bridge.AddRefusal(Bridge.AddText(old(State()), choice.content), choice.refusal), choice.reasoning)
    {
      Empty(State());
      hide ToolsMatch;
      hide Bridge.AddText;
      hide Bridge.AddRefusal;
      hide Bridge.AddReasoning;
      if choice.content != "" { AddText(choice.content); }
      Empty(State());
      if choice.refusal != "" { AddRefusal(choice.refusal); }
      Empty(State());
      if choice.reasoning != "" { NoteReasoning(choice.reasoning); }
    }

    method AddChoice(choice: Choice)
      requires Valid()
      modifies `queue, `sequence, `nextOutput, `slots, `reasoningClosed, `text, `textStarted, `textID, `textOutput, `refusal, `refusalStarted, `refusalID, `refusalOutput
      modifies `reasoningContent, `reasoningStarted, `reasoningID, `reasoningOutput
      modifies `tools, `calls, `finish
      ensures Valid() && State() == Steps(old(State()), ChoicePieces(choice))
    {
      ChoiceSteps(State(), choice);
      hide ToolsMatch;
      hide Bridge.AddText;
      hide Bridge.AddRefusal;
      hide Bridge.AddReasoning;
      hide AddCall;
      hide Steps;
      if choice.index != 0 { return; }
      AddWords(choice);
      AddCalls(choice.calls);
      if choice.finish != "" { finish := choice.finish; }
    }

    method AddCalls(deltas: seq<CallDelta>)
      requires Valid()
      modifies `queue, `sequence, `reasoningClosed, `nextOutput, `slots, `tools, `calls
      ensures Valid() && State() == Steps(old(State()), CallPieces(deltas))
    {
      hide ToolsMatch;
      hide AddCall;
      for i := 0 to |deltas|
        invariant Valid() && State() == Steps(old(State()), CallPieces(deltas[..i]))
      {
        assert CallPieces(deltas[..i + 1])[..i] == CallPieces(deltas[..i]);
        AddToolDelta(deltas[i]);
      }
      assert deltas[..|deltas|] == deltas;
    }

    method AddChunk(chunk: Chunk)
      requires Valid()
      modifies `queue, `sequence, `nextOutput, `slots, `reasoningClosed, `text, `textStarted, `textID, `textOutput, `refusal, `refusalStarted, `refusalID, `refusalOutput
      modifies `reasoningContent, `reasoningStarted, `reasoningID, `reasoningOutput
      modifies `tools, `calls, `finish, `usage
      ensures Valid() && State() == Steps(old(State()), ChunkPieces(chunk))
    {
      hide ToolsMatch;
      hide Step;
      ghost var noted := [Usage(chunk.usage)];
      UsageSteps(State(), chunk.usage);
      CaptureUsage(chunk.usage);
      for i := 0 to |chunk.choices|
        invariant Valid()
        invariant State() == Steps(old(State()), noted + ChoicesPieces(chunk.choices[..i]))
      {
        ChoicesNext(old(State()), noted, chunk.choices, i);
        AddChoice(chunk.choices[i]);
      }
      assert chunk.choices[..|chunk.choices|] == chunk.choices;
    }

    // ---------------------------------------------------------------- the end

    method FinishTextItem()
      requires Valid()
      modifies `queue, `sequence
      ensures Valid() && State() == FinishText(old(State()))
    {
      hide ToolsMatch;
      hide Bridge.Enqueue;
      if textStarted {
        Enqueue(TextDone(textID, Some(textOutput), text));
        Enqueue(PartDone(textID, Some(textOutput), OutputText(text)));
        Enqueue(ItemDone(Some(textOutput), MessageItem(textID, [OutputText(text)], "")));
      }
    }

    method FinishRefusalItem()
      requires Valid()
      modifies `queue, `sequence
      ensures Valid() && State() == FinishRefusal(old(State()))
    {
      hide ToolsMatch;
      hide Bridge.Enqueue;
      if refusalStarted {
        Enqueue(RefusalDone(refusalID, Some(refusalOutput), refusal));
        Enqueue(PartDone(refusalID, Some(refusalOutput), RefusalPart(refusal)));
        Enqueue(ItemDone(Some(refusalOutput), MessageItem(refusalID, [RefusalPart(refusal)], "")));
      }
    }

    method FinishTool(tool: ToolCall)
      requires Valid() && tool.started && tool.callIndex in tools && tools[tool.callIndex] == tool
      modifies `queue, `sequence
      ensures Valid() && tool.callIndex in calls && calls[tool.callIndex].at == Some(tool.outputIndex)
      ensures State() == FinishCall(old(State()), calls[tool.callIndex], tool.outputIndex)
    {
      assert ToolMatches(tool, calls[tool.callIndex], tool.callIndex);
      hide ToolsMatch;
      hide Bridge.Enqueue;
      var arguments := if tool.arguments == "" then "{}" else tool.arguments;
      Enqueue(ArgumentsDone(tool.itemID, Some(tool.outputIndex), arguments));
      Enqueue(ItemDone(Some(tool.outputIndex), FunctionCall(tool.itemID, tool.callID, tool.name, arguments)));
    }

    /** The done events of all tools in output order, or the discovery of a call
        that never got an id and a name; such calls sort to the front. */
    method FinishTools() returns (ok: bool)
      requires Valid() && CallsPlaced(calls, slots)
      modifies `queue, `sequence
      ensures Valid() && (ok <==> CallsStarted(State()))
      ensures ok ==> State() == FinishCalls(old(State()), |slots|)
    {
      var indices := SortByOutput(tools);
      StartedAlike(tools, calls);
      hide ToolsMatch;
      for i := 0 to |indices|
        invariant Valid() && Reached(tools, indices, i) <= |slots|
        invariant forall j :: 0 <= j < i ==> tools[indices[j]].started
        invariant State() == FinishCalls(old(State()), Reached(tools, indices, i))
      {
        var tool := tools[indices[i]];
        if !tool.started { return false; }
        NextInOrder(tools, calls, slots, indices, i);
        FinishNext(old(State()), Reached(tools, indices, i), tool.outputIndex);
        FinishTool(tool);
      }
      AllReached(tools, calls, slots, indices);
      FinishSkips(old(State()), Reached(tools, indices, |indices|), |slots|);
      ok := true;
    }

    method FinishOutput() returns (ok: bool)
      requires Valid() && CallsPlaced(calls, slots) && !finalized
      modifies `queue, `sequence, `reasoningClosed, `finalized
      ensures Valid() && (ok <==> CallsStarted(old(State()))) && finalized == ok
      ensures ok ==> State() == FinishItems(old(State()))
    {
      ghost var s := State();
      CloseReasoningKeeps(s);
      TextsKeep(Bridge.CloseReasoning(s));
      hide ToolsMatch;
      hide Bridge.CloseReasoning;
      hide FinishText;
      hide FinishRefusal;
      CloseReasoning();
      FinishTextItem();
      FinishRefusalItem();
      ok := FinishTools();
      if ok { finalized := true; }
    }

    /** The items with their output indexes, in no particular order. */
    method CollectItems() returns (items: seq<OutputEntry>)
      requires Valid() && Placed(State()) && CallsStarted(State())
      ensures Collected(items, State())
    {
      ghost var s := State();
      items := [];
      if reasoningStarted { items := items + [OutputEntry(reasoningOutput, ReasoningItem(reasoningID, reasoningContent))]; }
      if textStarted { items := items + [OutputEntry(textOutput, MessageItem(textID, [OutputText(text)], ""))]; }
      if refusalStarted { items := items + [OutputEntry(refusalOutput, MessageItem(refusalID, [RefusalPart(refusal)], ""))]; }
      WordsCollected(s, items);
      items := CollectTools(tools, s, items);
    }

    /** The final response's output: the items sorted by output index. */
    method OutputItems() returns (output: seq<Item>)
      requires Valid() && Placed(State()) && CallsStarted(State())
      ensures output == Output(State())
    {
      var items := CollectItems();
      var sorted := SortEntries(items);
      ghost var s := State();
      SortedIsSlots(items, sorted, s);
      output := [];
      for i := 0 to |sorted|
        invariant |output| == i && forall j :: 0 <= j < i ==> output[j] == sorted[j].item
      {
        output := output + [sorted[i].item];
      }
    }

    // ------------------------------------------------------------------ pulling

    constructor (expose: bool, chunks: seq<Chunk>, transportError: bool)
      ensures Valid() && Progress() && delivered == [] && !failed
      ensures this.chunks == chunks && this.transportError == transportError && exposeReasoning == expose
    {
      this.chunks, this.transportError, exposeReasoning := chunks, transportError, expose;
      position, sequence := 0, 0;
      started, ended, finalized, failed := false, false, false, false;
      finish, text, refusal, reasoningContent := "", "", "", "";
      reasoningStarted, reasoningClosed, textStarted, refusalStarted := false, false, false, false;
      nextOutput := 0;
      tools, usage, queue := map[], None, [];
      slots, calls, delivered := [], map[], [];
    }

    /** Everything the iterator is to deliver. */
    ghost function Stream(): seq<Event> {
      Delivered(exposeReasoning, chunks, transportError)
    }

    ghost predicate Progress()
      reads this
    {
      && position <= |chunks|
      && (!started ==> State() == Blank(exposeReasoning) && position == 0 && !ended && !finalized && !failed)
      && (started && !ended ==> State() == Run(exposeReasoning, Pieces(chunks[..position])) && !finalized && !failed)
      && (ended ==> position == |chunks|)
      && (ended && !failed ==> delivered + queue == Stream())
      && (failed ==> ended)
      && (ended ==> failed == Broken() && reasoningContent == Run(exposeReasoning, Pieces(chunks)).reasoning)
    }

    /** The stream cannot be brought to its end: the transport failed or a call
        never got both an id and a name. */
    ghost predicate Broken() {
      transportError || !CallsStarted(Run(exposeReasoning, Pieces(chunks)))
    }

    lemma Ahead()
      requires Progress() && !failed
      ensures delivered + queue <= Stream()
    {
      if started && !ended { DeliveredExtends(exposeReasoning, chunks, transportError, position); }
    }

    lemma EndedWell()
      requires Progress() && ended && queue == []
      ensures !failed ==> delivered == Stream()
    {
      assert delivered + [] == delivered;
    }

    lemma Begun()
      requires Progress() && !started
      ensures delivered == [] && queue == []
      ensures Run(exposeReasoning, Pieces(chunks[..0])) == Bridge.Enqueue(State(), Created(Response("in_progress", [], None, None)))
    {
      assert chunks[..0] == [];
    }

    method Pop()
      requires Valid() && Progress() && started && queue != []
      modifies `current, `queue, `delivered
      ensures Valid() && Progress()
      ensures delivered == old(delivered) + [current]
      ensures !failed ==> delivered <= Stream()
    {
      hide ToolsMatch;
      hide Run;
      hide Pieces;
      hide Delivered;
      hide Blank;
      hide CallsStarted;
      if !failed { Ahead(); }
      assert delivered + [queue[0]] + queue[1..] == delivered + queue;
      current := queue[0];
      delivered := delivered + [current];
      queue := queue[1..];
    }

    method Begin()
      requires Valid() && Progress() && !started
      modifies `started, `queue, `sequence
      ensures Valid() && Progress() && started && !ended && queue != []
    {
      hide ToolsMatch;
      hide Run;
      hide Pieces;
      Begun();
      started := true;
      Enqueue(Created(Response("in_progress", [], None, None)));
    }

    /** Reading chunks until one of them puts something in the queue. */
    method Advance() returns (found: bool)
      requires Valid() && Progress() && started && !ended && queue == []
      modifies `position
      modifies `queue, `sequence, `nextOutput, `slots, `reasoningClosed, `text, `textStarted, `textID, `textOutput, `refusal, `refusalStarted, `refusalID, `refusalOutput
      modifies `reasoningContent, `reasoningStarted, `reasoningID, `reasoningOutput
      modifies `tools, `calls, `finish, `usage
      ensures Valid() && Progress()
      ensures found ==> queue != []
      ensures !found ==> queue == [] && position == |chunks|
    {
      hide ToolsMatch;
      hide Steps;
      hide Run;
      hide Pieces;
      hide ChunkPieces;
      hide Delivered;
      while position < |chunks|
        invariant Valid() && position <= |chunks| && queue == []
        invariant State() == Run(exposeReasoning, Pieces(chunks[..position]))
      {
        PiecesNext(exposeReasoning, chunks, position);
        AddChunk(chunks[position]);
        position := position + 1;
        if queue != [] { return true; }
      }
      found := false;
    }

    method EnqueueFinal()
      requires Valid() && Placed(State()) && CallsStarted(State())
      modifies `queue, `sequence
      ensures Valid() && queue != [] && State() == Bridge.Enqueue(old(State()), FinalBody(old(State())))
    {
      var items := OutputItems();
      hide ToolsMatch;
      hide Placed;
      hide Output;
      hide Bridge.Enqueue;
      hide CallsStarted;
      if finish == "length" {
        Enqueue(Incomplete(Response("incomplete", items, ReportedUsage(usage), Some("max_output_tokens"))));
      } else {
        Enqueue(Completed(Response("completed", items, ReportedUsage(usage), None)));
      }
    }

    /** The done events and the final one, for a run with a finish reason. */
    method EnqueueEnding() returns (ok: bool)
      requires Valid() && Placed(State()) && !finalized
      modifies `queue, `sequence, `reasoningClosed, `finalized
      ensures Valid() && (ok <==> CallsStarted(old(State())))
      ensures ok ==> queue != [] && delivered + queue == Complete(old(State()))
    {
      EndPlaced(State());
      assert CallsPlaced(calls, slots);
      hide ToolsMatch;
      hide Placed;
      hide CallsPlaced;
      hide CallsStarted;
      hide FinishItems;
      hide FinalBody;
      hide Bridge.Enqueue;
      ok := FinishOutput();
      if ok { EnqueueFinal(); }
    }

    method DefaultFinish()
      requires Valid() && Placed(State())
      modifies `finish
      ensures Valid() && Placed(State())
      ensures State() == old(State()).(finish := if old(finish) == "" then "stop" else old(finish))
    {
      if finish == "" { finish := "stop"; }
    }

    method EnqueueDefaulted() returns (ok: bool)
      requires Valid() && Placed(State()) && !finalized
      modifies `queue, `sequence, `reasoningClosed, `finalized, `finish
      ensures Valid() && (ok <==> CallsStarted(old(State())))
      ensures ok ==> queue != [] && delivered + queue == Complete(old(State()))
    {
      StopDefault(State());
      hide ToolsMatch;
      hide Placed;
      hide Complete;
      DefaultFinish();
      ok := EnqueueEnding();
    }

    /** After the last chunk: the done events and the final one, unless the
        transport failed or a call is incomplete. */
    method Conclude() returns (ok: bool)
      requires Valid() && Progress() && started && !ended && queue == [] && position == |chunks|
      modifies `queue, `sequence, `reasoningClosed, `finalized, `finish, `ended, `failed
      ensures Valid() && Progress() && ended && failed == !ok
      ensures ok ==> queue != []
      ensures !ok ==> delivered == Stream()
    {
      ghost var s := State();
      LastChunk();
      hide ToolsMatch;
      hide Run;
      hide Pieces;
      hide Placed;
      hide Complete;
      hide CallsStarted;
      hide Valid;
      hide Progress;
      hide Delivered;
      ok := false;
      if !transportError { ok := EnqueueDefaulted(); }
      End(!ok);
    }

    method End(broken: bool)
      requires Valid() && started && position == |chunks| && broken == Broken()
      requires broken || delivered + queue == Stream()
      requires reasoningContent == Run(exposeReasoning, Pieces(chunks)).reasoning
      modifies `ended, `failed
      ensures Valid() && Progress() && ended && failed == broken
    {
      hide ToolsMatch;
      hide Run;
      hide Pieces;
      hide Delivered;
      hide CallsStarted;
      ended, failed := true, broken;
    }

    lemma LastChunk()
      requires Progress() && started && !ended && queue == [] && position == |chunks|
      ensures State() == Run(exposeReasoning, Pieces(chunks)) && Placed(State()) && State().log == delivered
      ensures Stream() == if Broken() then delivered else Complete(State())
      ensures reasoningContent == Run(exposeReasoning, Pieces(chunks)).reasoning && !finalized
      ensures Broken() <==> transportError || !CallsStarted(State())
    {
      assert chunks[..|chunks|] == chunks;
      assert delivered + [] == delivered;
      RunPlaced(exposeReasoning, Pieces(chunks));
    }

    lemma QueuedHasBegun()
      requires Progress() && queue != []
      ensures started
    {
      assert !started ==> delivered + queue == [];
    }

    lemma Outcome()
      requires Progress() && ended
      ensures failed == Broken() && reasoningContent == Run(exposeReasoning, Pieces(chunks)).reasoning
    {
    }

    /** One pull. Up to its first false the iterator delivers `Stream`, one event a
        call, and its first false comes exactly when all of it is delivered. After
        a failure it goes on handing out what the failed ending left behind. */
    method Next() returns (more: bool)
      requires Valid() && Progress()
      modifies this
      ensures Valid() && Progress()
      ensures more ==> delivered == old(delivered) + [current]
      ensures !more ==> delivered == old(delivered) && ended && failed == Broken()
      ensures !more ==> reasoningContent == Run(exposeReasoning, Pieces(chunks)).reasoning
      ensures !old(failed) ==> if more then delivered <= Stream() && !failed else delivered == Stream()
      ensures old(failed) ==> more == (old(queue) != [])
    {
      if queue != [] {
        QueuedHasBegun();
        Pop();
        return true;
      }
      if ended {
        EndedWell();
        Outcome();
        return false;
      }
      hide Valid;
      hide Progress;
      if !started {
        Begin();
        Pop();
        return true;
      }
      more := Advance();
      if !more { more := Conclude(); }
      if more { Pop(); } else { Outcome(); }
    }
  }

  // ------------------------------------------------------ steps from any state

  function Steps(s: State, pieces: seq<Piece>): State {
    if pieces == [] then s else Step(Steps(s, pieces[..|pieces| - 1]), pieces[|pieces| - 1])
  }

  lemma {:induction false} StepsConcat(s: State, a: seq<Piece>, b: seq<Piece>)
    ensures Steps(s, a + b) == Steps(Steps(s, a), b)
  {
    if b == [] {
      assert a + b == a;
    } else {
      var n := |b| - 1;
      StepsConcat(s, a, b[..n]);
      assert (a + b)[..|a + b| - 1] == a + b[..n];
    }
  }

  lemma {:induction false} RunSteps(expose: bool, a: seq<Piece>, b: seq<Piece>)
    ensures Run(expose, a + b) == Steps(Run(expose, a), b)
  {
    if b == [] {
      assert a + b == a;
    } else {
      var n := |b| - 1;
      RunSteps(expose, a, b[..n]);
      assert (a + b)[..|a + b| - 1] == a + b[..n];
    }
  }

  lemma OneStep(s: State, piece: Piece)
    ensures Steps(s, [piece]) == Step(s, piece)
  {
    assert [piece][..0] == [];
  }

  lemma UsageSteps(s: State, usage: ChatUsage)
    ensures Steps(s, [Usage(usage)] + ChoicesPieces([])) == Bridge.CaptureUsage(s, usage)
  {
    OneStep(s, Usage(usage));
    assert [Usage(usage)] + [] == [Usage(usage)];
  }

  lemma ChoicesNext(s: State, noted: seq<Piece>, choices: seq<Choice>, i: nat)
    requires i < |choices|
    ensures Steps(s, noted + ChoicesPieces(choices[..i + 1])) ==
            Steps(Steps(s, noted + ChoicesPieces(choices[..i])), ChoicePieces(choices[i]))
  {
    assert choices[..i + 1][..i] == choices[..i];
    assert noted + ChoicesPieces(choices[..i + 1]) == noted + ChoicesPieces(choices[..i]) + ChoicePieces(choices[i]);
    StepsConcat(s, noted + ChoicesPieces(choices[..i]), ChoicePieces(choices[i]));
  }

  lemma ChoiceSteps(s: State, choice: Choice)
    ensures Steps(s, ChoicePieces(choice)) ==
            if choice.index != 0 then s
            else
              var worded := Bridge.AddReasoning(Bridge.AddRefusal(Bridge.AddText(s, choice.content), choice.refusal), choice.reasoning);
              Step(Steps(worded, CallPieces(choice.calls)), Finish(choice.finish))
  {
    if choice.index == 0 {
      var words := [Text(choice.content), Refusal(choice.refusal), Reasoning(choice.reasoning)];
      var calls := CallPieces(choice.calls);
      StepsConcat(s, words + calls, [Finish(choice.finish)]);
      OneStep(Steps(s, words + calls), Finish(choice.finish));
      StepsConcat(s, words, calls);
      WordSteps(s, choice);
    }
  }

  lemma Empty(s: State)
    ensures Bridge.AddText(s, "") == s && Bridge.AddRefusal(s, "") == s && Bridge.AddReasoning(s, "") == s
  {
  }

  lemma WordSteps(s: State, choice: Choice)
    ensures Steps(s, [Text(choice.content), Refusal(choice.refusal), Reasoning(choice.reasoning)]) ==
            Bridge.AddReasoning(Bridge.AddRefusal(Bridge.AddText(s, choice.content), choice.refusal), choice.reasoning)
  {
    var words := [Text(choice.content), Refusal(choice.refusal), Reasoning(choice.reasoning)];
    assert words == [words[0]] + [words[1]] + [words[2]];
    StepsConcat(s, [words[0]] + [words[1]], [words[2]]);
    StepsConcat(s, [words[0]], [words[1]]);
    OneStep(s, words[0]);
    OneStep(Steps(s, [words[0]]), words[1]);
    OneStep(Steps(s, [words[0]] + [words[1]]), words[2]);
  }

  lemma CloseReasoningKeeps(s: State)
    ensures Bridge.CloseReasoning(s).slots == s.slots && Bridge.CloseReasoning(s).calls == s.calls
  {
  }

  lemma MergeSame(call: Call, delta: CallDelta)
    ensures delta.name == "" ==> call.name + delta.name == call.name
    ensures delta.arguments == "" ==> call.arguments + delta.arguments == call.arguments
  {
  }

  /** Adding a call delta is merging it into the table first and acting on the
      merged entry afterwards. */
  lemma AddCallMerged(s: State, delta: CallDelta)
    ensures var merged := Merge(s, delta);
            var noted := s.(calls := s.calls[delta.index := merged]);
            AddCall(s, delta) ==
            if merged.at.Some? then
              if delta.arguments == "" then noted
              else Bridge.Enqueue(noted, ArgumentsDelta(CallItemID(merged.at.value), merged.at, delta.arguments))
            else if merged.callID != "" && merged.name != "" then
              var open := OpenCall(Bridge.CloseReasoning(noted), delta.index, merged);
              var n := |s.slots|;
              if merged.arguments == "" then open else Bridge.Enqueue(open, ArgumentsDelta(CallItemID(n), Some(n), merged.arguments))
            else noted
  {
    var merged := Merge(s, delta);
    var noted := s.(calls := s.calls[delta.index := merged]);
    var open := merged.(at := Some(|s.slots|), openedID := merged.callID, openedName := merged.name);
    assert s.calls[delta.index := merged][delta.index := open] == s.calls[delta.index := open];
    assert OpenCall(Bridge.CloseReasoning(noted), delta.index, merged) == OpenCall(Bridge.CloseReasoning(s), delta.index, merged);
  }

  // ------------------------------------------------------ the log only grows

  function Blank(expose: bool): State {
    State.State(expose, "", "", "", "", false, None, None, None, [], map[], None, [])
  }

  function ReportedUsage(usage: Option<ChatUsage>): Option<TokenUsage> {
    match usage
    case None => None
    case Some(u) =>
      Some(TokenUsage(Some(u.prompt), Some(u.completion), Some(TokenDetails(Some(u.cached), Some(u.cacheWrite)))))
  }

  lemma CallExtends(s: State, delta: CallDelta)
    ensures s.log <= AddCall(s, delta).log
  {
    AddCallMerged(s, delta);
  }

  lemma StepExtends(s: State, piece: Piece)
    ensures s.log <= Step(s, piece).log
  {
    hide AddCall;
    if piece.CallPart? { CallExtends(s, piece.call); }
  }

  lemma {:induction false} StepsExtend(s: State, pieces: seq<Piece>)
    ensures s.log <= Steps(s, pieces).log
  {
    if pieces != [] {
      var n := |pieces| - 1;
      StepsExtend(s, pieces[..n]);
      StepExtends(Steps(s, pieces[..n]), pieces[n]);
    }
  }

  lemma PiecesNext(expose: bool, chunks: seq<Chunk>, p: nat)
    requires p < |chunks|
    ensures Run(expose, Pieces(chunks[..p + 1])) == Steps(Run(expose, Pieces(chunks[..p])), ChunkPieces(chunks[p]))
  {
    assert chunks[..p + 1][..p] == chunks[..p];
    RunSteps(expose, Pieces(chunks[..p]), ChunkPieces(chunks[p]));
  }

  lemma {:induction false} RunPrefix(expose: bool, chunks: seq<Chunk>, p: nat)
    requires p <= |chunks|
    ensures Run(expose, Pieces(chunks[..p])).log <= Run(expose, Pieces(chunks)).log
    decreases |chunks| - p
  {
    if p < |chunks| {
      PiecesNext(expose, chunks, p);
      StepsExtend(Run(expose, Pieces(chunks[..p])), ChunkPieces(chunks[p]));
      RunPrefix(expose, chunks, p + 1);
    } else {
      assert chunks[..p] == chunks;
    }
  }

  lemma {:induction false} FinishCallsExtends(s: State, n: nat)
    requires n <= |s.slots|
    ensures s.log <= FinishCalls(s, n).log
  {
    if n > 0 { FinishCallsExtends(s, n - 1); }
  }

  lemma CompleteExtends(s: State)
    ensures s.log <= Complete(s)
  {
    var texts := FinishRefusal(FinishText(CloseReasoning(s)));
    assert s.log <= texts.log;
    FinishCallsExtends(texts, |texts.slots|);
    assert texts.log <= FinishItems(s).log;
    assert FinishItems(s).log <= Complete(s);
  }

  lemma DeliveredExtends(expose: bool, chunks: seq<Chunk>, transportError: bool, p: nat)
    requires p <= |chunks|
    ensures Run(expose, Pieces(chunks[..p])).log <= Delivered(expose, chunks, transportError)
  {
    RunPrefix(expose, chunks, p);
    CompleteExtends(Run(expose, Pieces(chunks)));
  }

  lemma {:induction false} FinishCallsStop(s: State, n: nat)
    requires n <= |s.slots|
    ensures FinishCalls(s.(finish := "stop"), n) == FinishCalls(s, n).(finish := "stop")
  {
    if n > 0 { FinishCallsStop(s, n - 1); }
  }

  lemma FinishItemsStop(s: State)
    ensures FinishItems(s.(finish := "stop")) == FinishItems(s).(finish := "stop")
    ensures FinishItems(s).finish == s.finish
  {
    var texts := FinishRefusal(FinishText(CloseReasoning(s)));
    FinishCallsStop(texts, |texts.slots|);
    assert FinishRefusal(FinishText(CloseReasoning(s.(finish := "stop")))) == texts.(finish := "stop");
    BridgeGrammar.FinishItemsOnlyLog(s);
  }

  lemma OutputStop(s: State)
    ensures Output(s.(finish := "stop")) == Output(s)
  {
    forall n: nat | n < |s.slots| ensures SlotItem(s.(finish := "stop"), n) == SlotItem(s, n) {
    }
  }

  /** A stream that never gave a finish reason ends as one that said "stop". */
  lemma StopDefault(s: State)
    ensures s.finish == "" ==> Complete(s.(finish := "stop")) == Complete(s)
  {
    FinishItemsStop(s);
    OutputStop(FinishItems(s));
  }

  lemma EndPlaced(s: State)
    requires Placed(s)
    ensures Placed(FinishItems(s)) && (CallsStarted(FinishItems(s)) <==> CallsStarted(s))
  {
    CloseReasoningPlaced(s);
    BridgeGrammar.FinishItemsOnlyLog(s);
    FinishedClosed(s);
    LogPlaced(CloseReasoning(s), FinishItems(s));
  }

  lemma FinishedClosed(s: State)
    ensures FinishItems(s) == CloseReasoning(s).(log := FinishItems(s).log)
  {
    var texts := FinishRefusal(FinishText(CloseReasoning(s)));
    assert texts == CloseReasoning(s).(log := texts.log);
    assert FinishCalls(texts, |texts.slots|).(log := texts.log) == texts;
  }

  /** Pulling until the first false delivers exactly the specified stream and
      then stops; the events still to deliver are the termination measure. */
  method Drain(expose: bool, chunks: seq<Chunk>, transportError: bool) returns (log: seq<Event>, failed: bool, reasoning: string)
    ensures log == Delivered(expose, chunks, transportError)
    ensures failed == (transportError || !CallsStarted(Run(expose, Pieces(chunks))))
    ensures reasoning == Run(expose, Pieces(chunks)).reasoning
  {
    var stream := new ChatStream(expose, chunks, transportError);
    log := [];
    hide ChatStream.Valid;
    hide ChatStream.Progress;
    hide Delivered;
    hide Run;
    hide Pieces;
    hide CallsStarted;
    var more := stream.Next();
    while more
      invariant fresh(stream) && stream.Valid() && stream.Progress()
      invariant stream.chunks == chunks && stream.transportError == transportError && stream.exposeReasoning == expose
      invariant more ==> !stream.failed && stream.delivered == log + [stream.current] && stream.delivered <= stream.Stream()
      invariant !more ==> log == stream.Stream() && stream.failed == stream.Broken()
      invariant !more ==> stream.reasoningContent == Run(expose, Pieces(chunks)).reasoning
      decreases more, |stream.Stream()| - |log|
    {
      log := log + [stream.current];
      more := stream.Next();
    }
    failed := stream.failed;
    reasoning := stream.reasoningContent;
  }
}
