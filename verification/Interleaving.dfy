/** Tools do not disturb one another: what reaches a tool's block is exactly what
    the upstream addressed to that tool, and the order in which fragments of two
    open tools are interleaved does not matter. */
module Interleaving {
  import opened Optional
  import opened Wire
  import M = MessagesReader
  import E = Encoder
  import EncoderTrace
  import opened Least

  // --------------------------------------------------- what is addressed to a tool

  /** A fragment goes by its item id, or by its output index if it has none. */
  predicate Names(id: string, output: Option<int>, itemID: string, at: int) {
    if id != "" then id == itemID else output == Some(at)
  }

  function OwnFragment(body: Body, itemID: string, at: int): string {
    match body
    case ItemAdded(output, FunctionCall(id, _, _, arguments)) => if id == itemID && output == Some(at) then arguments else ""
    case ArgumentsDelta(id, output, delta) => if Names(id, output, itemID, at) then delta else ""
    case _ => ""
  }

  /** Everything an upstream stream says for one tool, in order. */
  function Own(stream: seq<Event>, itemID: string, at: int): string {
    if stream == [] then ""
    else Own(stream[..|stream| - 1], itemID, at) + OwnFragment(stream[|stream| - 1].body, itemID, at)
  }

  ghost predicate ToolCredited(tool: E.Tool, said: string) {
    && tool.itemID != ""
    && (!tool.closed || said != "" ==> tool.arguments == said)
  }

  ghost predicate Credited(r: E.Registry, stream: seq<Event>) {
    && (forall k: nat :: k < |r.tools| ==> ToolCredited(r.tools[k], Own(stream, r.tools[k].itemID, r.tools[k].output)))
    && (forall id: string, o: int :: id !in r.byItem && o !in r.byOutput ==> Own(stream, id, o) == "")
  }

  lemma OwnSnoc(stream: seq<Event>, event: Event, itemID: string, at: int)
    ensures Own(stream + [event], itemID, at) == Own(stream, itemID, at) + OwnFragment(event.body, itemID, at)
  {
    assert (stream + [event])[..|stream|] == stream;
  }

  /** Events that say nothing for any tool and leave the registry alone. */
  lemma OthersCredited(r: E.Registry, stream: seq<Event>, event: Event)
    requires Credited(r, stream)
    requires forall id: string, o: int :: OwnFragment(event.body, id, o) == ""
    ensures Credited(r, stream + [event])
  {
    forall id: string, o: int ensures Own(stream + [event], id, o) == Own(stream, id, o) {
      OwnSnoc(stream, event, id, o);
    }
  }

  lemma FoundNames(r: E.Registry, id: string, output: Option<int>, k: nat)
    requires E.Indexed(r) && E.FindTool(r, id, output) == Some(k)
    ensures k < |r.tools|
    ensures forall j: nat :: j < |r.tools| ==> (Names(id, output, r.tools[j].itemID, r.tools[j].output) <==> j == k)
    ensures forall i: string, o: int :: i !in r.byItem && o !in r.byOutput ==> !Names(id, output, i, o)
  {
  }

  lemma DeltaCredited(r: E.Registry, stream: seq<Event>, event: Event, k: nat)
    requires E.Indexed(r) && Credited(r, stream) && event.body.ArgumentsDelta?
    requires E.FindTool(r, event.body.itemID, event.body.outputIndex) == Some(k) && !r.tools[k].closed
    ensures Credited(E.Replace(r, k, r.tools[k].(arguments := r.tools[k].arguments + event.body.delta)), stream + [event])
  {
    FoundNames(r, event.body.itemID, event.body.outputIndex, k);
    hide E.Indexed;
    hide E.FindTool;
    hide Own;
    hide Names;
    assert forall id: string, o: int :: OwnFragment(event.body, id, o) ==
             if Names(event.body.itemID, event.body.outputIndex, id, o) then event.body.delta else "";
    hide OwnFragment;
    var r' := E.Replace(r, k, r.tools[k].(arguments := r.tools[k].arguments + event.body.delta));
    forall j: nat | j < |r'.tools|
      ensures ToolCredited(r'.tools[j], Own(stream + [event], r'.tools[j].itemID, r'.tools[j].output))
    {
      OwnSnoc(stream, event, r.tools[j].itemID, r.tools[j].output);
      assert ToolCredited(r.tools[j], Own(stream, r.tools[j].itemID, r.tools[j].output));
    }
    forall id: string, o: int | id !in r'.byItem && o !in r'.byOutput ensures Own(stream + [event], id, o) == "" {
      OwnSnoc(stream, event, id, o);
    }
  }

  lemma DoneCredited(r: E.Registry, stream: seq<Event>, k: nat, tool: E.Tool)
    requires Credited(r, stream) && k < |r.tools|
    requires tool == r.tools[k].(arguments := tool.arguments, closed := true)
    requires r.tools[k].arguments != "" ==> tool.arguments == r.tools[k].arguments
    ensures Credited(E.Replace(r, k, tool), stream)
  {
    var r' := E.Replace(r, k, tool);
    forall j: nat | j < |r'.tools| ensures ToolCredited(r'.tools[j], Own(stream, r'.tools[j].itemID, r'.tools[j].output)) {
      assert ToolCredited(r.tools[j], Own(stream, r.tools[j].itemID, r.tools[j].output));
    }
  }

  lemma OpenCredited(r: E.Registry, stream: seq<Event>, event: Event, tool: E.Tool)
    requires E.Indexed(r) && Credited(r, stream)
    requires event.body.ItemAdded? && event.body.item.FunctionCall? && event.body.outputIndex.Some?
    requires tool.itemID == event.body.item.id != "" && tool.output == event.body.outputIndex.value
    requires tool.arguments == event.body.item.arguments && !tool.closed
    requires tool.itemID !in r.byItem && tool.output !in r.byOutput
    ensures Credited(E.Register(r, tool), stream + [event])
  {
    hide Own;
    var r' := E.Register(r, tool);
    forall j: nat | j < |r'.tools|
      ensures ToolCredited(r'.tools[j], Own(stream + [event], r'.tools[j].itemID, r'.tools[j].output))
    {
      OwnSnoc(stream, event, r'.tools[j].itemID, r'.tools[j].output);
      if j < |r.tools| {
        assert ToolCredited(r.tools[j], Own(stream, r.tools[j].itemID, r.tools[j].output));
      } else {
        assert "" + tool.arguments == tool.arguments;
      }
    }
    forall id: string, o: int | id !in r'.byItem && o !in r'.byOutput ensures Own(stream + [event], id, o) == "" {
      OwnSnoc(stream, event, id, o);
    }
  }

  lemma FinishToolCredited(s: E.State, stream: seq<Event>, event: Event, k: nat, final: string)
    requires Credited(s.registry, stream) && k < |s.registry.tools|
    requires event.body.ArgumentsDone? || event.body.ItemDone?
    ensures Credited(E.FinishTool(s, k, final).state.registry, stream + [event])
  {
    var tool := s.registry.tools[k];
    var missing := if tool.arguments != "" then "" else if final != "" then final else "{}";
    DoneCredited(s.registry, stream, k, tool.(arguments := tool.arguments + missing, closed := true));
    OthersCredited(s.registry, stream, event);
    OthersCredited(E.FinishTool(s, k, final).state.registry, stream, event);
  }

  lemma AddedCredited(valid: string -> bool, s: E.State, stream: seq<Event>, event: Event)
    requires E.Indexed(s.registry) && Credited(s.registry, stream) && !s.terminal && event.body.ItemAdded?
    ensures E.HandleBody(valid, s, event.body).state.terminal || Credited(E.HandleBody(valid, s, event.body).state.registry, stream + [event])
  {
    var item, output := event.body.item, event.body.outputIndex;
    if !item.FunctionCall? {
      OthersCredited(s.registry, stream, event);
    } else if !E.HandleBody(valid, s, event.body).state.terminal {
      OpenCredited(s.registry, stream, event, E.Tool(item.id, output.value, item.callID, s.nextIndex, item.arguments, false));
    }
  }

  lemma SaidCredited(valid: string -> bool, s: E.State, stream: seq<Event>, event: Event)
    requires E.Indexed(s.registry) && Credited(s.registry, stream) && !s.terminal && event.body.ArgumentsDelta?
    ensures E.HandleBody(valid, s, event.body).state.terminal || Credited(E.HandleBody(valid, s, event.body).state.registry, stream + [event])
  {
    var found := E.FindTool(s.registry, event.body.itemID, event.body.outputIndex);
    if found.Some? && !s.registry.tools[found.value].closed {
      DeltaCredited(s.registry, stream, event, found.value);
      EmptyDelta(s.registry, found.value);
    }
  }

  lemma EndedCredited(valid: string -> bool, s: E.State, stream: seq<Event>, event: Event)
    requires E.Indexed(s.registry) && Credited(s.registry, stream) && !s.terminal && (event.body.ArgumentsDone? || event.body.ItemDone?)
    ensures E.HandleBody(valid, s, event.body).state.terminal || Credited(E.HandleBody(valid, s, event.body).state.registry, stream + [event])
  {
    if event.body.ItemDone? && !event.body.item.FunctionCall? {
      OthersCredited(s.registry, stream, event);
    } else {
      var id, final := if event.body.ArgumentsDone? then event.body.itemID else event.body.item.id,
                       if event.body.ArgumentsDone? then event.body.arguments else event.body.item.arguments;
      var found := E.FindTool(s.registry, id, event.body.outputIndex);
      if found.Some? { FinishToolCredited(s, stream, event, found.value, final); }
    }
  }

  lemma BodyCredited(valid: string -> bool, s: E.State, stream: seq<Event>, event: Event)
    requires E.Indexed(s.registry) && Credited(s.registry, stream) && !s.terminal
    ensures E.HandleBody(valid, s, event.body).state.terminal || Credited(E.HandleBody(valid, s, event.body).state.registry, stream + [event])
  {
    if event.body.ItemAdded? {
      AddedCredited(valid, s, stream, event);
    } else if event.body.ArgumentsDelta? {
      SaidCredited(valid, s, stream, event);
    } else if event.body.ArgumentsDone? || event.body.ItemDone? {
      EndedCredited(valid, s, stream, event);
    } else {
      QuietCredited(valid, s, stream, event);
    }
  }

  lemma EmptyDelta(r: E.Registry, k: nat)
    requires k < |r.tools|
    ensures E.Replace(r, k, r.tools[k].(arguments := r.tools[k].arguments + "")) == r
  {
    assert r.tools[k].arguments + "" == r.tools[k].arguments;
    assert r.tools[k := r.tools[k]] == r.tools;
  }

  lemma QuietCredited(valid: string -> bool, s: E.State, stream: seq<Event>, event: Event)
    requires E.Indexed(s.registry) && Credited(s.registry, stream) && !s.terminal
    requires !event.body.ItemAdded? && !event.body.ArgumentsDelta? && !event.body.ArgumentsDone? && !event.body.ItemDone?
    ensures E.HandleBody(valid, s, event.body).state.terminal || Credited(E.HandleBody(valid, s, event.body).state.registry, stream + [event])
  {
    OthersCredited(s.registry, stream, event);
    QuietRegistry(valid, s, event.body);
    hide Credited;
    hide E.Indexed;
    hide E.HandleBody;
  }

  lemma QuietRegistry(valid: string -> bool, s: E.State, body: Body)
    requires E.Indexed(s.registry)
    requires !body.ItemAdded? && !body.ArgumentsDelta? && !body.ArgumentsDone? && !body.ItemDone?
    ensures E.HandleBody(valid, s, body).state.terminal || E.HandleBody(valid, s, body).state.registry == s.registry
  {
    FinishEnds(valid, s, s.stopReason);
    FinishEnds(valid, s, "max_tokens");
    hide E.Indexed;
    hide E.Finish;
  }

  lemma FinishEnds(valid: string -> bool, s: E.State, stopReason: string)
    requires E.Indexed(s.registry)
    ensures E.Finish(valid, s, stopReason).state.terminal
  {
  }

  lemma {:induction false} EncodeCredited(valid: string -> bool, stream: seq<Event>)
    ensures E.Encode(valid, stream).state.terminal || Credited(E.Encode(valid, stream).state.registry, stream)
  {
    if stream != [] {
      var n := |stream| - 1;
      EncodeCredited(valid, stream[..n]);
      assert stream[..n] + [stream[n]] == stream;
      var before := E.Encode(valid, stream[..n]).state;
      if !before.terminal && !stream[n].body.Malformed? {
        BodyCredited(valid, E.Count(before, stream[n]), stream[..n], stream[n]);
      }
    }
  }

  /** Until the stream ends, the JSON fragments delivered on an open tool's block
      are exactly the fragments the upstream addressed to that tool, in their
      order; a tool closed after having said something keeps them unchanged. */
  lemma BlockGetsItsOwn(valid: string -> bool, stream: seq<Event>, k: nat)
    requires var s := E.Encode(valid, stream).state; !s.terminal && k < |s.registry.tools|
    ensures var done := E.Encode(valid, stream);
            var tool := done.state.registry.tools[k];
            var said := Own(stream, tool.itemID, tool.output);
            !tool.closed || said != "" ==> M.Fragments(done.events, tool.index) == said
  {
    var done := E.Encode(valid, stream);
    var tool := done.state.registry.tools[k];
    EncodeCredited(valid, stream);
    EncoderTrace.EncodeSound(valid, stream);
    M.AcceptedIsFaithful(done.events);
    assert ToolCredited(tool, Own(stream, tool.itemID, tool.output));
    assert EncoderTrace.ToolLinked(tool, M.Read(M.START, done.events));
  }

  // -------------------------------------------------------------- exchanging two

  /** An argument fragment that finds an open tool. */
  ghost predicate Reaches(s: E.State, event: Event, k: nat)
    requires E.Indexed(s.registry)
  {
    && event.body.ArgumentsDelta?
    && E.FindTool(s.registry, event.body.itemID, event.body.outputIndex) == Some(k)
    && !s.registry.tools[k].closed
  }

  function Given(s: E.State, k: nat, event: Event): E.State
    requires k < |s.registry.tools| && event.body.ArgumentsDelta?
  {
    var counted := E.Count(s, event);
    var tool := s.registry.tools[k];
    counted.(registry := E.Replace(s.registry, k, tool.(arguments := tool.arguments + event.body.delta)))
  }

  function GivenEvents(index: nat, delta: string): seq<ClientEvent> {
    if delta == "" then [] else [BlockDelta(index, JsonFragment(delta))]
  }

  lemma HandleDelta(valid: string -> bool, s: E.State, event: Event, k: nat)
    requires E.Indexed(s.registry) && !s.terminal && Reaches(s, event, k)
    ensures E.Handle(valid, s, event) == E.Step(Given(s, k, event), GivenEvents(s.registry.tools[k].index, event.body.delta))
  {
    EmptyDelta(s.registry, k);
  }

  lemma GivenReaches(s: E.State, j: nat, a: Event, k: nat, b: Event)
    requires E.Indexed(s.registry) && Reaches(s, a, j) && Reaches(s, b, k) && j != k
    ensures E.Indexed(Given(s, j, a).registry) && Reaches(Given(s, j, a), b, k)
    ensures Given(s, j, a).registry.tools[k] == s.registry.tools[k]
  {
    E.ReplaceIndexed(s.registry, j, s.registry.tools[j].(arguments := s.registry.tools[j].arguments + a.body.delta));
  }

  /** No token counter is reported by both with different values. */
  predicate ReportsAgree(a: Event, b: Event) {
    var x, y := E.ExtractUsage(a), E.ExtractUsage(b);
    AgreeOn(x.input, y.input) && AgreeOn(x.output, y.output) && AgreeOn(x.cacheCreation, y.cacheCreation) && AgreeOn(x.cacheRead, y.cacheRead)
  }

  predicate AgreeOn(x: Option<int>, y: Option<int>) {
    x.None? || y.None? || x == y
  }

  /** The registry is the same either way, and so are the counters unless the two
      events report different values for one of them. */
  lemma GivenCommutes(s: E.State, j: nat, a: Event, k: nat, b: Event)
    requires E.Indexed(s.registry) && Reaches(s, a, j) && Reaches(s, b, k) && j != k
    requires Reaches(Given(s, j, a), b, k) && Reaches(Given(s, k, b), a, j)
    ensures Uncounted(Given(Given(s, j, a), k, b)) == Uncounted(Given(Given(s, k, b), j, a))
    ensures Given(Given(s, j, a), k, b) == Given(Given(s, k, b), j, a) <==> ReportsAgree(a, b)
  {
    var toolJ := s.registry.tools[j].(arguments := s.registry.tools[j].arguments + a.body.delta);
    var toolK := s.registry.tools[k].(arguments := s.registry.tools[k].arguments + b.body.delta);
    assert s.registry.tools[j := toolJ][k := toolK] == s.registry.tools[k := toolK][j := toolJ];
    assert Given(Given(s, j, a), k, b).registry == Given(Given(s, k, b), j, a).registry;
    hide E.ExtractUsage;
  }

  /** The state without its token counters. */
  function Uncounted(s: E.State): E.State {
    s.(counters := Counters(None, None, None, None))
  }

  lemma EncodeSnoc(valid: string -> bool, stream: seq<Event>, event: Event)
    ensures var before := E.Encode(valid, stream);
            var step := E.Handle(valid, before.state, event);
            E.Encode(valid, stream + [event]) == E.Step(step.state, before.events + step.events)
  {
    assert (stream + [event])[..|stream|] == stream;
  }

  lemma TwoDeltas(valid: string -> bool, stream: seq<Event>, a: Event, j: nat, b: Event, k: nat)
    requires var s := E.Encode(valid, stream).state; !s.terminal && Reaches(s, a, j) && Reaches(s, b, k) && j != k
    ensures var before := E.Encode(valid, stream);
            && E.Indexed(Given(before.state, j, a).registry) && Reaches(Given(before.state, j, a), b, k)
            && E.Encode(valid, stream + [a] + [b]) ==
               E.Step(Given(Given(before.state, j, a), k, b),
                      before.events + GivenEvents(before.state.registry.tools[j].index, a.body.delta)
                                    + GivenEvents(before.state.registry.tools[k].index, b.body.delta))
  {
    var s := E.Encode(valid, stream).state;
    EncodeSnoc(valid, stream, a);
    HandleDelta(valid, s, a, j);
    GivenReaches(s, j, a, k, b);
    EncodeSnoc(valid, stream + [a], b);
    HandleDelta(valid, Given(s, j, a), b, k);
  }

  lemma FragmentsOfTwo(log: seq<ClientEvent>, i: nat, a: string, j: nat, b: string, n: nat)
    ensures M.Fragments(log + GivenEvents(i, a) + GivenEvents(j, b), n) ==
            M.Fragments(log, n) + (if i == n then a else "") + (if j == n then b else "")
  {
    FragmentsOfOne(log, i, a, n);
    FragmentsOfOne(log + GivenEvents(i, a), j, b, n);
  }

  lemma FragmentsOfOne(log: seq<ClientEvent>, i: nat, a: string, n: nat)
    ensures M.Fragments(log + GivenEvents(i, a), n) == M.Fragments(log, n) + if i == n then a else ""
  {
    if a == "" {
      assert log + [] == log;
    } else {
      assert (log + [BlockDelta(i, JsonFragment(a))])[..|log|] == log;
    }
  }

  ghost predicate SameForClient(x: E.Step, y: E.Step) {
    && x.state == y.state
    && forall n: nat :: M.Fragments(x.events, n) == M.Fragments(y.events, n)
  }

  lemma SwapSteps(before: E.Step, after: E.State, i: nat, a: string, l: nat, b: string)
    requires i != l
    ensures SameForClient(E.Step(after, before.events + GivenEvents(i, a) + GivenEvents(l, b)),
                          E.Step(after, before.events + GivenEvents(l, b) + GivenEvents(i, a)))
  {
    forall n: nat
      ensures M.Fragments(before.events + GivenEvents(i, a) + GivenEvents(l, b), n) ==
              M.Fragments(before.events + GivenEvents(l, b) + GivenEvents(i, a), n)
    {
      FragmentsOfTwo(before.events, i, a, l, b, n);
      FragmentsOfTwo(before.events, l, b, i, a, n);
    }
  }

  lemma DifferentBlocks(s: E.State, r: M.Reader, j: nat, k: nat)
    requires EncoderTrace.Linked(s, r) && j < |s.registry.tools| && k < |s.registry.tools| && j != k
    ensures s.registry.tools[j].index != s.registry.tools[k].index
  {
  }

  lemma SwapHere(valid: string -> bool, stream: seq<Event>, a: Event, j: nat, b: Event, k: nat)
    requires var s := E.Encode(valid, stream).state; !s.terminal && Reaches(s, a, j) && Reaches(s, b, k) && j != k
    requires ReportsAgree(a, b)
    ensures SameForClient(E.Encode(valid, stream + [a] + [b]), E.Encode(valid, stream + [b] + [a]))
  {
    var before := E.Encode(valid, stream);
    TwoDeltas(valid, stream, a, j, b, k);
    TwoDeltas(valid, stream, b, k, a, j);
    GivenCommutes(before.state, j, a, k, b);
    EncoderTrace.EncodeSound(valid, stream);
    DifferentBlocks(before.state, M.Read(M.START, before.events), j, k);
    SwapSteps(before, Given(Given(before.state, j, a), k, b),
              before.state.registry.tools[j].index, a.body.delta, before.state.registry.tools[k].index, b.body.delta);
  }

  lemma {:induction false} FragmentsConcat(log: seq<ClientEvent>, more: seq<ClientEvent>, n: nat)
    ensures M.Fragments(log + more, n) == M.Fragments(log, n) + M.Fragments(more, n)
  {
    if more == [] {
      assert log + more == log;
    } else {
      var m := |more| - 1;
      FragmentsConcat(log, more[..m], n);
      assert (log + more)[..|log + more| - 1] == log + more[..m];
    }
  }

  lemma SameNext(valid: string -> bool, x: E.Step, y: E.Step, event: Event)
    requires SameForClient(x, y) && E.Indexed(x.state.registry)
    ensures var step := E.Handle(valid, x.state, event);
            SameForClient(E.Step(step.state, x.events + step.events), E.Step(step.state, y.events + step.events))
  {
    var step := E.Handle(valid, x.state, event);
    forall n: nat ensures M.Fragments(x.events + step.events, n) == M.Fragments(y.events + step.events, n) {
      FragmentsConcat(x.events, step.events, n);
      FragmentsConcat(y.events, step.events, n);
    }
  }

  lemma SameSnoc(valid: string -> bool, x: seq<Event>, y: seq<Event>, event: Event)
    requires SameForClient(E.Encode(valid, x), E.Encode(valid, y))
    ensures SameForClient(E.Encode(valid, x + [event]), E.Encode(valid, y + [event]))
  {
    EncodeSnoc(valid, x, event);
    EncodeSnoc(valid, y, event);
    SameNext(valid, E.Encode(valid, x), E.Encode(valid, y), event);
  }

  lemma Regroup(front: seq<Event>, rest: seq<Event>)
    requires rest != []
    ensures front + [rest[0]] + rest[1..] == front + rest
  {
  }

  lemma {:induction false} SameRest(valid: string -> bool, x: seq<Event>, y: seq<Event>, rest: seq<Event>)
    requires SameForClient(E.Encode(valid, x), E.Encode(valid, y))
    ensures SameForClient(E.Encode(valid, x + rest), E.Encode(valid, y + rest))
    decreases |rest|
  {
    if rest == [] {
      assert x + rest == x && y + rest == y;
    } else {
      SameSnoc(valid, x, y, rest[0]);
      SameRest(valid, x + [rest[0]], y + [rest[0]], rest[1..]);
      Regroup(x, rest);
      Regroup(y, rest);
    }
  }

  /** Exchanging neighbouring fragments of two different open tools, anywhere in
      a stream: the encoder ends in the same state, and every block receives the
      same text, if the two do not report different token counts. */
  lemma FragmentsCommute(valid: string -> bool, front: seq<Event>, a: Event, j: nat, b: Event, k: nat, rest: seq<Event>)
    requires var s := E.Encode(valid, front).state; !s.terminal && Reaches(s, a, j) && Reaches(s, b, k) && j != k
    requires ReportsAgree(a, b)
    ensures SameForClient(E.Encode(valid, front + [a] + [b] + rest), E.Encode(valid, front + [b] + [a] + rest))
  {
    SwapHere(valid, front, a, j, b, k);
    SameRest(valid, front + [a] + [b], front + [b] + [a], rest);
  }

  // ------------------------------------------------- whatever usage they report

  ghost predicate SameBlocks(x: E.Step, y: E.Step) {
    && Uncounted(x.state) == Uncounted(y.state)
    && forall n: nat :: M.Fragments(x.events, n) == M.Fragments(y.events, n)
  }

  /** The step with other counters. */
  function Recounted(step: E.Step, c: Counters): E.Step {
    E.Step(step.state.(counters := c), step.events)
  }

  lemma ToolUncounted(s: E.State, c: Counters, k: nat, final: string)
    requires k < |s.registry.tools|
    ensures E.FinishTool(s.(counters := c), k, final) == Recounted(E.FinishTool(s, k, final), c)
  {
  }

  /** Counters only show in the closing message_delta. */
  lemma {:induction false} FinishToolsUncounted(valid: string -> bool, s: E.State, c: Counters, todo: set<int>, stopReason: string, events: seq<ClientEvent>)
    requires E.Indexed(s.registry) && todo <= s.registry.byOutput.Keys
    ensures E.FinishTools(valid, s.(counters := c), todo, stopReason, events) ==
            Recounted(E.FinishTools(valid, s, todo, stopReason, events), c)
    decreases |todo|
  {
    if todo != {} {
      var o := LeastOf(todo);
      var k := s.registry.byOutput[o];
      var done := if s.registry.tools[k].closed then E.Step(s, []) else E.FinishTool(s, k, "");
      E.FinishToolIndexed(s, k, "");
      ToolUncounted(s, c, k, "");
      hide E.FinishTool;
      hide E.Indexed;
      if !done.state.terminal {
        FinishToolsUncounted(valid, done.state, c, todo - {o}, stopReason, events + done.events);
      }
    }
  }

  lemma FinishUncounted(valid: string -> bool, s: E.State, c: Counters, stopReason: string)
    requires E.Indexed(s.registry)
    ensures SameBlocks(E.Finish(valid, s, stopReason), E.Finish(valid, s.(counters := c), stopReason))
  {
    hide E.FinishTools;
    hide M.Fragments;
    if !s.terminal {
      var text := E.CloseText(s);
      var keys := text.state.registry.byOutput.Keys;
      FinishToolsUncounted(valid, text.state, c, keys, stopReason, text.events);
      var done := E.FinishTools(valid, text.state, keys, stopReason, text.events);
      forall n: nat ensures M.Fragments(E.Finish(valid, s, stopReason).events, n) == M.Fragments(E.Finish(valid, s.(counters := c), stopReason).events, n) {
        ClosingSilent(done.events, stopReason, done.state.counters, n);
        ClosingSilent(done.events, stopReason, c, n);
      }
    }
  }

  lemma ClosingSilent(log: seq<ClientEvent>, stopReason: string, c: Counters, n: nat)
    ensures M.Fragments(log + [MessageDelta(stopReason, c), MessageStop], n) == M.Fragments(log, n)
  {
    var all := log + [MessageDelta(stopReason, c), MessageStop];
    assert all[..|all| - 1] == log + [MessageDelta(stopReason, c)];
    assert (log + [MessageDelta(stopReason, c)])[..|log|] == log;
    assert M.Fragments(log, n) + "" == M.Fragments(log, n);
  }

  lemma RecountedSame(step: E.Step, c: Counters)
    ensures SameBlocks(step, Recounted(step, c))
  {
  }

  lemma AddedUncounted(valid: string -> bool, s: E.State, c: Counters, body: Body)
    requires E.Indexed(s.registry) && body.ItemAdded?
    ensures E.HandleBody(valid, s.(counters := c), body) == Recounted(E.HandleBody(valid, s, body), c)
  {
    hide E.Indexed;
  }

  lemma ArgumentsUncounted(valid: string -> bool, s: E.State, c: Counters, body: Body)
    requires E.Indexed(s.registry) && body.ArgumentsDelta?
    ensures E.HandleBody(valid, s.(counters := c), body) == Recounted(E.HandleBody(valid, s, body), c)
  {
    hide E.Indexed;
    hide E.FindTool;
  }

  lemma DoneUncounted(valid: string -> bool, s: E.State, c: Counters, body: Body)
    requires E.Indexed(s.registry) && (body.ArgumentsDone? || body.ItemDone?)
    ensures E.HandleBody(valid, s.(counters := c), body) == Recounted(E.HandleBody(valid, s, body), c)
  {
    hide E.Indexed;
    hide E.FindTool;
    hide E.FinishTool;
    if body.ArgumentsDone? || body.item.FunctionCall? {
      var itemID, final := if body.ArgumentsDone? then body.itemID else body.item.id,
                           if body.ArgumentsDone? then body.arguments else body.item.arguments;
      var found := E.FindTool(s.registry, itemID, body.outputIndex);
      if found.Some? { ToolUncounted(s, c, found.value, final); }
    }
  }

  lemma ToolEventUncounted(valid: string -> bool, s: E.State, c: Counters, body: Body)
    requires E.Indexed(s.registry) && (body.ItemAdded? || body.ItemDone? || body.ArgumentsDelta? || body.ArgumentsDone?)
    ensures E.HandleBody(valid, s.(counters := c), body) == Recounted(E.HandleBody(valid, s, body), c)
  {
    hide *;
    assert s.(counters := c).registry == s.registry;
    if body.ItemAdded? {
      AddedUncounted(valid, s, c, body);
    } else if body.ArgumentsDelta? {
      ArgumentsUncounted(valid, s, c, body);
    } else {
      DoneUncounted(valid, s, c, body);
    }
  }

  lemma TextEventUncounted(valid: string -> bool, s: E.State, c: Counters, body: Body)
    requires E.Indexed(s.registry)
    requires body.TextDelta? || body.RefusalDelta? || body.RefusalDone? || body.TextDone? || body.PartDone?
    ensures E.HandleBody(valid, s.(counters := c), body) == Recounted(E.HandleBody(valid, s, body), c)
  {
    hide E.Indexed;
  }

  lemma UnsuccessfulSame(x: E.Step, y: E.Step)
    requires SameBlocks(x, y)
    ensures SameBlocks(x.(state := x.state.(success := false)), y.(state := y.state.(success := false)))
  {
    hide M.Fragments;
  }

  lemma EndingUncounted(valid: string -> bool, s: E.State, c: Counters, body: Body)
    requires E.Indexed(s.registry) && (body.Completed? || body.Incomplete?)
    ensures SameBlocks(E.HandleBody(valid, s, body), E.HandleBody(valid, s.(counters := c), body))
  {
    hide E.Finish;
    hide E.Indexed;
    hide SameBlocks;
    assert s.(counters := c).registry == s.registry;
    match body
    case Completed(_) => FinishUncounted(valid, s, c, s.stopReason);
    case Incomplete(_) =>
      FinishUncounted(valid, s, c, "max_tokens");
      UnsuccessfulSame(E.Finish(valid, s, "max_tokens"), E.Finish(valid, s.(counters := c), "max_tokens"));
      RecountedSame(E.Fail(s, E.UPSTREAM_INCOMPLETE), c);
  }

  lemma OtherUncounted(valid: string -> bool, s: E.State, c: Counters, body: Body)
    requires E.Indexed(s.registry)
    requires !body.TextDelta? && !body.RefusalDelta? && !body.RefusalDone? && !body.TextDone? && !body.PartDone?
    requires !body.ItemAdded? && !body.ItemDone? && !body.ArgumentsDelta? && !body.ArgumentsDone? && !body.Completed? && !body.Incomplete?
    ensures E.HandleBody(valid, s.(counters := c), body) == Recounted(E.HandleBody(valid, s, body), c)
  {
    hide E.Indexed;
  }

  lemma BodyUncounted(valid: string -> bool, s: E.State, c: Counters, body: Body)
    requires E.Indexed(s.registry)
    ensures SameBlocks(E.HandleBody(valid, s, body), E.HandleBody(valid, s.(counters := c), body))
  {
    hide *;
    assert s.(counters := c).registry == s.registry;
    RecountedSame(E.HandleBody(valid, s, body), c);
    if body.TextDelta? || body.RefusalDelta? || body.RefusalDone? || body.TextDone? || body.PartDone? {
      TextEventUncounted(valid, s, c, body);
    } else if body.ItemAdded? || body.ItemDone? || body.ArgumentsDelta? || body.ArgumentsDone? {
      ToolEventUncounted(valid, s, c, body);
    } else if body.Completed? || body.Incomplete? {
      EndingUncounted(valid, s, c, body);
    } else {
      OtherUncounted(valid, s, c, body);
    }
  }

  lemma SameBlocksNext(valid: string -> bool, x: E.Step, y: E.Step, event: Event)
    requires SameBlocks(x, y) && E.Indexed(x.state.registry)
    ensures var one, two := E.Handle(valid, x.state, event), E.Handle(valid, y.state, event);
            SameBlocks(E.Step(one.state, x.events + one.events), E.Step(two.state, y.events + two.events))
  {
    var one, two := E.Handle(valid, x.state, event), E.Handle(valid, y.state, event);
    assert y.state == x.state.(counters := y.state.counters);
    assert SameBlocks(one, two) by {
      var counted, other := E.Count(x.state, event), E.Count(y.state, event);
      assert other == counted.(counters := other.counters);
      BodyUncounted(valid, counted, other.counters, event.body);
    }
    forall n: nat ensures M.Fragments(x.events + one.events, n) == M.Fragments(y.events + two.events, n) {
      FragmentsConcat(x.events, one.events, n);
      FragmentsConcat(y.events, two.events, n);
    }
    hide E.Handle;
  }

  lemma {:induction false} SameBlocksRest(valid: string -> bool, x: seq<Event>, y: seq<Event>, rest: seq<Event>)
    requires SameBlocks(E.Encode(valid, x), E.Encode(valid, y))
    ensures SameBlocks(E.Encode(valid, x + rest), E.Encode(valid, y + rest))
    decreases |rest|
  {
    if rest == [] {
      assert x + rest == x && y + rest == y;
    } else {
      EncodeSnoc(valid, x, rest[0]);
      EncodeSnoc(valid, y, rest[0]);
      SameBlocksNext(valid, E.Encode(valid, x), E.Encode(valid, y), rest[0]);
      SameBlocksRest(valid, x + [rest[0]], y + [rest[0]], rest[1..]);
      Regroup(x, rest);
      Regroup(y, rest);
      hide SameBlocks;
      hide E.Encode;
      hide E.Handle;
    }
  }

  /** And whatever they report, every block receives the same text and everything
      but the token counters ends the same. Right after the exchange the whole
      state is the same exactly if the two do not report different counts. */
  lemma BlocksCommute(valid: string -> bool, front: seq<Event>, a: Event, j: nat, b: Event, k: nat, rest: seq<Event>)
    requires var s := E.Encode(valid, front).state; !s.terminal && Reaches(s, a, j) && Reaches(s, b, k) && j != k
    ensures SameBlocks(E.Encode(valid, front + [a] + [b] + rest), E.Encode(valid, front + [b] + [a] + rest))
    ensures E.Encode(valid, front + [a] + [b]).state == E.Encode(valid, front + [b] + [a]).state <==> ReportsAgree(a, b)
  {
    var before := E.Encode(valid, front);
    TwoDeltas(valid, front, a, j, b, k);
    TwoDeltas(valid, front, b, k, a, j);
    GivenCommutes(before.state, j, a, k, b);
    EncoderTrace.EncodeSound(valid, front);
    DifferentBlocks(before.state, M.Read(M.START, before.events), j, k);
    SwapSteps(before, Given(Given(before.state, j, a), k, b),
              before.state.registry.tools[j].index, a.body.delta, before.state.registry.tools[k].index, b.body.delta);
    SameBlocksRest(valid, front + [a] + [b], front + [b] + [a], rest);
    hide E.Encode;
    hide Reaches;
  }
}
