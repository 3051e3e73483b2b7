/** What the bridge makes of its chunks, read off the fields of the chunks alone:
    every text, refusal, reasoning and tool-call fragment of the first choice is
    there, in order, and nothing else is. */
module ChunkContent {
  import opened Optional
  import opened Wire
  import opened Bridge
  import opened BridgeShape
  import opened BridgeObject
  import Continuity
  import CarryToEnd
  import BridgeGrammar

  // ------------------------------------------------------- the fields of chunks

  /** The choices with index 0, chunk by chunk. */
  function Firsts(choices: seq<Choice>): seq<Choice> {
    if choices == [] then []
    else
      var last := choices[|choices| - 1];
      Firsts(choices[..|choices| - 1]) + if last.index == 0 then [last] else []
  }

  function AllFirsts(chunks: seq<Chunk>): seq<Choice> {
    if chunks == [] then [] else AllFirsts(chunks[..|chunks| - 1]) + Firsts(chunks[|chunks| - 1].choices)
  }

  function Contents(choices: seq<Choice>): string {
    if choices == [] then "" else Contents(choices[..|choices| - 1]) + choices[|choices| - 1].content
  }

  function Refusals(choices: seq<Choice>): string {
    if choices == [] then "" else Refusals(choices[..|choices| - 1]) + choices[|choices| - 1].refusal
  }

  function Reasonings(choices: seq<Choice>): string {
    if choices == [] then "" else Reasonings(choices[..|choices| - 1]) + choices[|choices| - 1].reasoning
  }

  function Deltas(choices: seq<Choice>): seq<CallDelta> {
    if choices == [] then [] else Deltas(choices[..|choices| - 1]) + choices[|choices| - 1].calls
  }

  /** The last finish reason given. */
  function LastFinish(choices: seq<Choice>): string {
    if choices == [] then ""
    else if choices[|choices| - 1].finish != "" then choices[|choices| - 1].finish
    else LastFinish(choices[..|choices| - 1])
  }

  /** The last usage report that counts anything. */
  function LastUsage(chunks: seq<Chunk>): Option<ChatUsage> {
    if chunks == [] then None
    else
      var u := chunks[|chunks| - 1].usage;
      if u.prompt != 0 || u.completion != 0 || u.total != 0 then Some(u) else LastUsage(chunks[..|chunks| - 1])
  }

  /** What the deltas of one call say: whether there are any, its arguments and its
      name fragment by fragment, and the last id given. */
  predicate Mentioned(deltas: seq<CallDelta>, c: int) {
    exists i | 0 <= i < |deltas| :: deltas[i].index == c
  }

  function ArgumentsOf(deltas: seq<CallDelta>, c: int): string {
    if deltas == [] then ""
    else
      var last := deltas[|deltas| - 1];
      ArgumentsOf(deltas[..|deltas| - 1], c) + if last.index == c then last.arguments else ""
  }

  function NameOf(deltas: seq<CallDelta>, c: int): string {
    if deltas == [] then ""
    else
      var last := deltas[|deltas| - 1];
      NameOf(deltas[..|deltas| - 1], c) + if last.index == c then last.name else ""
  }

  function IdOf(deltas: seq<CallDelta>, c: int): string {
    if deltas == [] then ""
    else
      var last := deltas[|deltas| - 1];
      if last.index == c && last.id != "" then last.id else IdOf(deltas[..|deltas| - 1], c)
  }

  // ------------------------------------------------------- piece by piece

  ghost predicate CallsSay(calls: map<int, Call>, deltas: seq<CallDelta>) {
    && (forall c :: c in calls <==> Mentioned(deltas, c))
    && (forall c :: c in calls ==> calls[c].arguments == ArgumentsOf(deltas, c) && calls[c].name == NameOf(deltas, c) && calls[c].callID == IdOf(deltas, c))
  }

  lemma {:induction false} Unmentioned(deltas: seq<CallDelta>, c: int)
    requires !Mentioned(deltas, c)
    ensures ArgumentsOf(deltas, c) == "" && NameOf(deltas, c) == "" && IdOf(deltas, c) == ""
  {
    if deltas != [] {
      var front := deltas[..|deltas| - 1];
      assert forall i :: 0 <= i < |front| ==> front[i] == deltas[i];
      Unmentioned(front, c);
    }
  }

  lemma MentionedNext(deltas: seq<CallDelta>, d: CallDelta)
    ensures forall c :: Mentioned(deltas + [d], c) <==> Mentioned(deltas, c) || d.index == c
  {
    forall c ensures Mentioned(deltas + [d], c) <==> Mentioned(deltas, c) || d.index == c {
      if Mentioned(deltas, c) {
        var i :| 0 <= i < |deltas| && deltas[i].index == c;
        assert (deltas + [d])[i].index == c;
      }
      if d.index == c { assert (deltas + [d])[|deltas|].index == c; }
    }
  }

  lemma NextDelta(deltas: seq<CallDelta>, d: CallDelta, c: int)
    ensures ArgumentsOf(deltas + [d], c) == ArgumentsOf(deltas, c) + (if d.index == c then d.arguments else "")
    ensures NameOf(deltas + [d], c) == NameOf(deltas, c) + (if d.index == c then d.name else "")
    ensures IdOf(deltas + [d], c) == if d.index == c && d.id != "" then d.id else IdOf(deltas, c)
  {
    assert (deltas + [d])[..|deltas|] == deltas;
  }

  lemma AddCallSays(s: State, deltas: seq<CallDelta>, d: CallDelta)
    requires CallsSay(s.calls, deltas)
    ensures CallsSay(AddCall(s, d).calls, deltas + [d])
  {
    var after := AddCall(s, d).calls;
    MentionedNext(deltas, d);
    if d.index !in s.calls { Unmentioned(deltas, d.index); }
    CallAfter(s, d);
    forall c | c in after
      ensures after[c].arguments == ArgumentsOf(deltas + [d], c) && after[c].name == NameOf(deltas + [d], c) && after[c].callID == IdOf(deltas + [d], c)
    {
      NextDelta(deltas, d, c);
    }
    hide AddCall;
    hide Mentioned;
  }

  /** One delta changes the call it names, and no other. */
  lemma CallAfter(s: State, d: CallDelta)
    ensures var after := AddCall(s, d).calls;
            && after.Keys == s.calls.Keys + {d.index}
            && (forall c :: c in s.calls && c != d.index ==> after[c] == s.calls[c])
            && after[d.index].arguments == (if d.index in s.calls then s.calls[d.index].arguments else "") + d.arguments
            && after[d.index].name == (if d.index in s.calls then s.calls[d.index].name else "") + d.name
            && after[d.index].callID == if d.id != "" then d.id else if d.index in s.calls then s.calls[d.index].callID else ""
  {
  }

  /** The state says what these chunk fields say. */
  ghost predicate Says(s: State, content: string, refusal: string, reasoning: string, deltas: seq<CallDelta>, finish: string) {
    s.text == content && s.refusal == refusal && s.reasoning == reasoning && CallsSay(s.calls, deltas) && s.finish == finish
  }

  lemma TextSays(s: State, delta: string)
    ensures var after := Bridge.AddText(s, delta);
            && after.text == s.text + delta && after.refusal == s.refusal && after.reasoning == s.reasoning
            && after.calls == s.calls && after.finish == s.finish && after.usage == s.usage
  {
    assert s.text + "" == s.text;
  }

  lemma RefusalSays(s: State, delta: string)
    ensures var after := Bridge.AddRefusal(s, delta);
            && after.text == s.text && after.refusal == s.refusal + delta && after.reasoning == s.reasoning
            && after.calls == s.calls && after.finish == s.finish && after.usage == s.usage
  {
    assert s.refusal + "" == s.refusal;
  }

  lemma ReasoningSays(s: State, delta: string)
    ensures var after := Bridge.AddReasoning(s, delta);
            && after.text == s.text && after.refusal == s.refusal && after.reasoning == s.reasoning + delta
            && after.calls == s.calls && after.finish == s.finish && after.usage == s.usage
  {
    assert s.reasoning + "" == s.reasoning;
  }

  lemma WordsSay(s: State, choice: Choice, content: string, refusal: string, reasoning: string, deltas: seq<CallDelta>, finish: string)
    requires Says(s, content, refusal, reasoning, deltas, finish)
    ensures var worded := Bridge.AddReasoning(Bridge.AddRefusal(Bridge.AddText(s, choice.content), choice.refusal), choice.reasoning);
            && Says(worded, content + choice.content, refusal + choice.refusal, reasoning + choice.reasoning, deltas, finish)
            && worded.usage == s.usage
  {
    hide CallsSay;
    hide AddText;
    hide AddRefusal;
    hide AddReasoning;
    var texted := Bridge.AddText(s, choice.content);
    TextSays(s, choice.content);
    RefusalSays(texted, choice.refusal);
    ReasoningSays(Bridge.AddRefusal(texted, choice.refusal), choice.reasoning);
  }

  lemma {:induction false} CallsStep(s: State, calls: seq<CallDelta>, deltas: seq<CallDelta>)
    requires CallsSay(s.calls, deltas)
    ensures var after := Steps(s, CallPieces(calls));
            && CallsSay(after.calls, deltas + calls) && after.usage == s.usage
            && after.text == s.text && after.refusal == s.refusal && after.reasoning == s.reasoning && after.finish == s.finish
  {
    if calls == [] {
      assert deltas + calls == deltas;
    } else {
      var n := |calls| - 1;
      var before := Steps(s, CallPieces(calls[..n]));
      CallsStep(s, calls[..n], deltas);
      assert CallPieces(calls)[..n] == CallPieces(calls[..n]);
      AddCallSays(before, deltas + calls[..n], calls[n]);
      CallKeeps(before, calls[n]);
      assert deltas + calls[..n] + [calls[n]] == deltas + calls;
      hide CallsSay;
      hide AddCall;
    }
  }

  lemma CallKeeps(s: State, d: CallDelta)
    ensures var after := AddCall(s, d);
            && after.usage == s.usage && after.text == s.text && after.refusal == s.refusal && after.reasoning == s.reasoning && after.finish == s.finish
  {
    CarryToEnd.CloseReasoningKeeps(s);
    hide Bridge.CloseReasoning;
    hide Merge;
  }

  lemma NextChoice(firsts: seq<Choice>, choice: Choice)
    ensures var all := firsts + [choice];
            && Contents(all) == Contents(firsts) + choice.content && Refusals(all) == Refusals(firsts) + choice.refusal
            && Reasonings(all) == Reasonings(firsts) + choice.reasoning && Deltas(all) == Deltas(firsts) + choice.calls
            && LastFinish(all) == if choice.finish != "" then choice.finish else LastFinish(firsts)
  {
    assert (firsts + [choice])[..|firsts|] == firsts;
  }

  /** One choice adds what its fields say; any but the first adds nothing. */
  lemma ChoiceSays(s: State, choice: Choice, firsts: seq<Choice>)
    requires SaysAll(s, firsts)
    ensures var after := Steps(s, ChoicePieces(choice));
            SaysAll(after, firsts + if choice.index == 0 then [choice] else []) && after.usage == s.usage
  {
    hide CallsSay;
    hide AddText;
    hide AddRefusal;
    hide AddReasoning;
    hide Steps;
    hide ChoicePieces;
    hide Contents;
    hide Refusals;
    hide Reasonings;
    hide Deltas;
    hide LastFinish;
    ChoiceSteps(s, choice);
    if choice.index != 0 {
      assert firsts + [] == firsts;
    } else {
      var worded := Bridge.AddReasoning(Bridge.AddRefusal(Bridge.AddText(s, choice.content), choice.refusal), choice.reasoning);
      WordsSay(s, choice, Contents(firsts), Refusals(firsts), Reasonings(firsts), Deltas(firsts), LastFinish(firsts));
      CallsStep(worded, choice.calls, Deltas(firsts));
      NextChoice(firsts, choice);
    }
  }

  /** The state says exactly what these choices say. */
  ghost predicate SaysAll(s: State, firsts: seq<Choice>) {
    Says(s, Contents(firsts), Refusals(firsts), Reasonings(firsts), Deltas(firsts), LastFinish(firsts))
  }

  lemma {:induction false} ChoicesSay(s: State, choices: seq<Choice>, firsts: seq<Choice>)
    requires SaysAll(s, firsts)
    ensures var after := Steps(s, ChoicesPieces(choices));
            SaysAll(after, firsts + Firsts(choices)) && after.usage == s.usage
  {
    if choices == [] {
      assert firsts + [] == firsts;
    } else {
      var n := |choices| - 1;
      ChoicesSay(s, choices[..n], firsts);
      StepsConcat(s, ChoicesPieces(choices[..n]), ChoicePieces(choices[n]));
      ChoiceSays(Steps(s, ChoicesPieces(choices[..n])), choices[n], firsts + Firsts(choices[..n]));
      assert firsts + Firsts(choices) == firsts + Firsts(choices[..n]) + if choices[n].index == 0 then [choices[n]] else [];
      hide SaysAll;
      hide Steps;
      hide ChoicePieces;
    }
  }

  lemma ChunkSays(s: State, chunk: Chunk, firsts: seq<Choice>)
    requires SaysAll(s, firsts)
    ensures var after := Steps(s, ChunkPieces(chunk));
            && SaysAll(after, firsts + Firsts(chunk.choices))
            && after.usage == if chunk.usage.prompt != 0 || chunk.usage.completion != 0 || chunk.usage.total != 0 then Some(chunk.usage) else s.usage
  {
    var counted := Step(s, Usage(chunk.usage));
    StepsConcat(s, [Usage(chunk.usage)], ChoicesPieces(chunk.choices));
    OneStep(s, Usage(chunk.usage));
    assert SaysAll(counted, firsts);
    ChoicesSay(counted, chunk.choices, firsts);
    hide Steps;
    hide ChoicesPieces;
    hide SaysAll;
  }

  /** For every chunk sequence: the accumulated text, refusal and reasoning are the
      concatenated fields of the first choices; there is a call exactly for every
      index some delta has, with that call's arguments and name fragment by
      fragment and its last id; the finish reason and the usage are the last given. */
  lemma {:induction false} ChunksSay(expose: bool, chunks: seq<Chunk>)
    ensures SaysAll(Run(expose, Pieces(chunks)), AllFirsts(chunks))
    ensures Run(expose, Pieces(chunks)).usage == LastUsage(chunks)
  {
    if chunks != [] {
      var n := |chunks| - 1;
      var front := chunks[..n];
      ChunksSay(expose, front);
      RunSteps(expose, Pieces(front), ChunkPieces(chunks[n]));
      ChunkSays(Run(expose, Pieces(front)), chunks[n], AllFirsts(front));
      hide SaysAll;
      hide Steps;
      hide ChunkPieces;
      hide Run;
    }
  }

  // ------------------------------------------------------- the final response

  /** What a message or call item of the final response must hold. */
  ghost predicate ItemSays(item: Item, firsts: seq<Choice>) {
    match item
    case MessageItem(_, parts, text) =>
      text == "" && |parts| == 1 &&
      ((parts[0] == OutputText(Contents(firsts)) && Contents(firsts) != "") || (parts[0] == RefusalPart(Refusals(firsts)) && Refusals(firsts) != ""))
    case ReasoningItem(_, content) => content == Reasonings(firsts) != ""
    case FunctionCall(_, callID, name, arguments) =>
      exists c :: Mentioned(Deltas(firsts), c) && CallIs(Deltas(firsts), c, callID, name, arguments)
    case OtherItem => false
  }

  predicate CallIs(deltas: seq<CallDelta>, c: int, callID: string, name: string, arguments: string) {
    callID == IdOf(deltas, c) && name == NameOf(deltas, c) && arguments == if ArgumentsOf(deltas, c) == "" then "{}" else ArgumentsOf(deltas, c)
  }

  /** The final response holds nothing but what the chunks said. */
  lemma FinalSaysOnly(expose: bool, chunks: seq<Chunk>, n: nat)
    requires n < |Output(Run(expose, Pieces(chunks)))|
    ensures ItemSays(Output(Run(expose, Pieces(chunks)))[n], AllFirsts(chunks))
  {
    var s := Run(expose, Pieces(chunks));
    ChunksSay(expose, chunks);
    RunPlaced(expose, Pieces(chunks));
    Continuity.ReasoningShown(expose, Pieces(chunks));
    assert Output(s)[n] == SlotItem(s, n);
    match s.slots[n]
    case CallSlot(c) => assert Mentioned(Deltas(AllFirsts(chunks)), c);
    case _ =>
  }

  /** And it holds all of it: the text, the refusal, exposed reasoning and, if every
      call was given an id and a name, every call, each as one item. */
  lemma FinalSaysAll(expose: bool, chunks: seq<Chunk>)
    ensures var s, firsts := Run(expose, Pieces(chunks)), AllFirsts(chunks);
            && (Contents(firsts) != "" ==> exists n: nat :: n < |Output(s)| && Output(s)[n] == MessageItem(MessageID(n), [OutputText(Contents(firsts))], ""))
            && (Refusals(firsts) != "" ==> exists n: nat :: n < |Output(s)| && Output(s)[n] == MessageItem(MessageID(n), [RefusalPart(Refusals(firsts))], ""))
            && (expose && Reasonings(firsts) != "" ==> exists n: nat :: n < |Output(s)| && Output(s)[n] == ReasoningItem(ReasoningID(n), Reasonings(firsts)))
    ensures var s, deltas := Run(expose, Pieces(chunks)), Deltas(AllFirsts(chunks));
            forall c :: Mentioned(deltas, c) && IdOf(deltas, c) != "" && NameOf(deltas, c) != "" ==> exists n: nat :: n < |Output(s)| && CallAt(s, deltas, c, n)
  {
    var s, firsts := Run(expose, Pieces(chunks)), AllFirsts(chunks);
    ChunksSay(expose, chunks);
    RunPlaced(expose, Pieces(chunks));
    if Contents(firsts) != "" { assert Output(s)[s.textAt.value] == SlotItem(s, s.textAt.value); }
    if Refusals(firsts) != "" { assert Output(s)[s.refusalAt.value] == SlotItem(s, s.refusalAt.value); }
    if expose && Reasonings(firsts) != "" {
      ExposedThroughout(expose, Pieces(chunks));
      assert Output(s)[s.reasoningAt.value] == SlotItem(s, s.reasoningAt.value);
    }
    var deltas := Deltas(firsts);
    forall c | Mentioned(deltas, c) && IdOf(deltas, c) != "" && NameOf(deltas, c) != ""
      ensures exists n: nat :: n < |Output(s)| && CallAt(s, deltas, c, n)
    {
      CallSays(s, firsts, c);
    }
  }

  /** Item `n` of the output is call `c`. */
  ghost predicate CallAt(s: State, deltas: seq<CallDelta>, c: int, n: nat)
    requires n < |Output(s)|
  {
    var item := Output(s)[n];
    item.FunctionCall? && item.id == CallItemID(n) && CallIs(deltas, c, item.callID, item.name, item.arguments)
  }

  lemma CallSays(s: State, firsts: seq<Choice>, c: int)
    requires Placed(s) && SaysAll(s, firsts)
    requires Mentioned(Deltas(firsts), c) && IdOf(Deltas(firsts), c) != "" && NameOf(Deltas(firsts), c) != ""
    ensures exists n: nat :: n < |Output(s)| && CallAt(s, Deltas(firsts), c, n)
  {
    var n := s.calls[c].at.value;
    assert Output(s)[n] == SlotItem(s, n);
    assert CallAt(s, Deltas(firsts), c, n);
  }

  lemma StepKeepsExposure(s: State, piece: Piece)
    ensures Step(s, piece).expose == s.expose
  {
  }

  lemma {:induction false} ExposedThroughout(expose: bool, pieces: seq<Piece>)
    ensures Run(expose, pieces).expose == expose
  {
    if pieces != [] {
      var front := pieces[..|pieces| - 1];
      ExposedThroughout(expose, front);
      StepKeepsExposure(Run(expose, front), pieces[|pieces| - 1]);
      hide Step;
    }
  }

  /** Status, cut-off reason and token counts of the final response. */
  lemma FinalReports(expose: bool, chunks: seq<Chunk>)
    ensures var response, finish := FinalResponse(Run(expose, Pieces(chunks))), LastFinish(AllFirsts(chunks));
            && response.status == (if finish == "length" then "incomplete" else "completed")
            && response.incompleteReason == (if finish == "length" then Some("max_output_tokens") else None)
            && response.usage == match LastUsage(chunks)
                                 case None => None
                                 case Some(u) => Some(TokenUsage(Some(u.prompt), Some(u.completion), Some(TokenDetails(Some(u.cached), Some(u.cacheWrite)))))
  {
    ChunksSay(expose, chunks);
  }

  ghost predicate AllNamed(deltas: seq<CallDelta>) {
    forall c :: Mentioned(deltas, c) ==> IdOf(deltas, c) != "" && NameOf(deltas, c) != ""
  }

  /** Everything is there when every call mentioned was given an id and a name: this
      is when the stream ends well. */
  lemma StartedMeans(expose: bool, chunks: seq<Chunk>)
    ensures var deltas := Deltas(AllFirsts(chunks));
            CallsStarted(Run(expose, Pieces(chunks))) <==> AllNamed(deltas)
  {
    hide *;
    ChunksSay(expose, chunks);
    RunPlaced(expose, Pieces(chunks));
    SaysCalls(Run(expose, Pieces(chunks)), AllFirsts(chunks));
    StartedFrom(Run(expose, Pieces(chunks)), Deltas(AllFirsts(chunks)));
  }

  lemma SaysCalls(s: State, firsts: seq<Choice>)
    requires SaysAll(s, firsts)
    ensures CallsSay(s.calls, Deltas(firsts))
  {
  }

  lemma StartedFrom(s: State, deltas: seq<CallDelta>)
    requires Placed(s) && CallsSay(s.calls, deltas)
    ensures CallsStarted(s) <==> AllNamed(deltas)
  {
    hide Mentioned;
    hide IdOf;
    hide NameOf;
    hide ArgumentsOf;
    assert forall c :: c in s.calls ==> CallNamed(s.calls[c]);
    if CallsStarted(s) {
      forall c | Mentioned(deltas, c) ensures IdOf(deltas, c) != "" && NameOf(deltas, c) != "" {
        assert c in s.calls && s.calls[c].at.Some?;
      }
    }
    if AllNamed(deltas) {
      forall c | c in s.calls ensures s.calls[c].at.Some? {
        assert Mentioned(deltas, c);
      }
    }
  }

  lemma ReasoningOpens(s: State, delta: string)
    requires s.expose && !s.reasoningClosed && s.reasoningAt.None? && delta != ""
    ensures Bridge.AddReasoning(s, delta).slots == s.slots + [ReasoningSlot] && Bridge.AddReasoning(s, delta).calls == s.calls
  {
  }

  lemma CallOpens(s: State, d: CallDelta)
    requires d.index !in s.calls && d.id != "" && d.name != ""
    ensures AddCall(s, d).slots == s.slots + [CallSlot(d.index)]
    ensures AddCall(s, d).calls.Keys == s.calls.Keys + {d.index}
  {
  }

  lemma WordsOpen(s: State, content: string, refusal: string, reasoning: string)
    requires s.expose && !s.reasoningClosed && s.reasoningAt.None? && s.textAt.None? && s.refusalAt.None?
    requires content != "" && refusal != "" && reasoning != ""
    ensures var worded := Bridge.AddReasoning(Bridge.AddRefusal(Bridge.AddText(s, content), refusal), reasoning);
            worded.slots == s.slots + [TextSlot, RefusalSlot, ReasoningSlot] && worded.calls == s.calls
  {
    var texted := Bridge.AddText(s, content);
    var refused := Bridge.AddRefusal(texted, refusal);
    assert texted.slots == s.slots + [TextSlot];
    assert refused.slots == s.slots + [TextSlot] + [RefusalSlot];
    ReasoningOpens(refused, reasoning);
    hide AddReasoning;
    assert s.slots + [TextSlot] + [RefusalSlot] + [ReasoningSlot] == s.slots + [TextSlot, RefusalSlot, ReasoningSlot];
  }

  lemma TwoCalls(s: State, calls: seq<CallDelta>)
    requires |calls| == 2
    ensures Steps(s, CallPieces(calls)) == AddCall(AddCall(s, calls[0]), calls[1])
  {
    var pieces := CallPieces(calls);
    assert pieces == [CallPart(calls[0])] + [CallPart(calls[1])];
    StepsConcat(s, [CallPart(calls[0])], [CallPart(calls[1])]);
    OneStep(s, CallPart(calls[0]));
    OneStep(AddCall(s, calls[0]), CallPart(calls[1]));
    hide AddCall;
  }

  /** Within one choice: text, then refusal, then reasoning, then the calls in their
      order. */
  lemma OrderInChoice(s: State, choice: Choice)
    requires s.expose && !s.reasoningClosed && s.reasoningAt.None? && s.textAt.None? && s.refusalAt.None?
    requires choice.index == 0 && choice.content != "" && choice.refusal != "" && choice.reasoning != "" && |choice.calls| == 2
    requires choice.calls[0].index !in s.calls && choice.calls[1].index !in s.calls && choice.calls[0].index != choice.calls[1].index
    requires choice.calls[0].id != "" && choice.calls[0].name != "" && choice.calls[1].id != "" && choice.calls[1].name != ""
    ensures Steps(s, ChoicePieces(choice)).slots ==
            s.slots + [TextSlot, RefusalSlot, ReasoningSlot, CallSlot(choice.calls[0].index), CallSlot(choice.calls[1].index)]
  {
    hide AddCall;
    hide AddText;
    hide AddRefusal;
    hide AddReasoning;
    hide Steps;
    ChoiceSteps(s, choice);
    WordsOpen(s, choice.content, choice.refusal, choice.reasoning);
    var worded := Bridge.AddReasoning(Bridge.AddRefusal(Bridge.AddText(s, choice.content), choice.refusal), choice.reasoning);
    TwoCalls(worded, choice.calls);
    CallOpens(worded, choice.calls[0]);
    CallOpens(AddCall(worded, choice.calls[0]), choice.calls[1]);
  }

  /** No event announces a final response. */
  ghost predicate NoFinal(log: seq<Event>) {
    forall i :: 0 <= i < |log| ==> !log[i].body.Completed? && !log[i].body.Incomplete?
  }

  lemma EnqueueNoFinal(s: State, body: Body)
    requires NoFinal(s.log) && !body.Completed? && !body.Incomplete?
    ensures NoFinal(Enqueue(s, body).log)
  {
  }

  lemma CloseNoFinal(s: State)
    requires NoFinal(s.log)
    ensures NoFinal(CloseReasoning(s).log)
  {
  }

  lemma CallNoFinal(s: State, d: CallDelta)
    requires NoFinal(s.log)
    ensures NoFinal(AddCall(s, d).log)
  {
    CloseNoFinal(s);
    hide CloseReasoning, Merge, NoFinal;
    var merged := Merge(s, d);
    if merged.at.Some? {
      EnqueueNoFinal(s.(calls := s.calls[d.index := merged]), ArgumentsDelta(CallItemID(merged.at.value), merged.at, d.arguments));
    } else if merged.callID != "" && merged.name != "" {
      var closed := CloseReasoning(s);
      var n := |closed.slots|;
      var open := merged.(at := Some(n), openedID := merged.callID, openedName := merged.name);
      EnqueueNoFinal(closed.(slots := closed.slots + [CallSlot(d.index)], calls := closed.calls[d.index := open]),
                     ItemAdded(Some(n), FunctionCall(CallItemID(n), merged.callID, merged.name, "")));
      EnqueueNoFinal(OpenCall(closed, d.index, merged), ArgumentsDelta(CallItemID(n), Some(n), merged.arguments));
    }
  }

  lemma TextNoFinal(s: State, delta: string)
    requires NoFinal(s.log)
    ensures NoFinal(Bridge.AddText(s, delta).log)
  {
    hide NoFinal, CloseReasoning, FreshID;
    CloseNoFinal(s);
    var closed := CloseReasoning(s);
    var n := |closed.slots|;
    var opening := closed.(textAt := Some(n), slots := closed.slots + [TextSlot]);
    EnqueueNoFinal(opening, ItemAdded(Some(n), MessageItem(MessageID(n), [], "")));
    EnqueueNoFinal(Enqueue(opening, ItemAdded(Some(n), MessageItem(MessageID(n), [], ""))), PartAdded(MessageID(n), Some(n), OutputText("")));
    var open := if s.textAt.None? then OpenText(closed) else s;
    EnqueueNoFinal(open.(text := open.text + delta), TextDelta(MessageID(open.textAt.value), open.textAt, delta));
  }

  lemma RefusalNoFinal(s: State, delta: string)
    requires NoFinal(s.log)
    ensures NoFinal(Bridge.AddRefusal(s, delta).log)
  {
    hide NoFinal, CloseReasoning, FreshID;
    CloseNoFinal(s);
    var closed := CloseReasoning(s);
    var n := |closed.slots|;
    var opening := closed.(refusalAt := Some(n), slots := closed.slots + [RefusalSlot]);
    EnqueueNoFinal(opening, ItemAdded(Some(n), MessageItem(MessageID(n), [], "")));
    EnqueueNoFinal(Enqueue(opening, ItemAdded(Some(n), MessageItem(MessageID(n), [], ""))), PartAdded(MessageID(n), Some(n), RefusalPart("")));
    var open := if s.refusalAt.None? then OpenRefusal(closed) else s;
    EnqueueNoFinal(open.(refusal := open.refusal + delta), RefusalDelta(MessageID(open.refusalAt.value), open.refusalAt, delta));
  }

  lemma ReasonNoFinal(s: State, delta: string)
    requires NoFinal(s.log)
    ensures NoFinal(Bridge.AddReasoning(s, delta).log)
  {
    hide FreshID;
  }

  lemma StepNoFinal(s: State, piece: Piece)
    requires NoFinal(s.log)
    ensures NoFinal(Step(s, piece).log)
  {
    hide NoFinal, AddCall, AddText, AddRefusal, AddReasoning;
    match piece
    case Text(delta) => TextNoFinal(s, delta);
    case Refusal(delta) => RefusalNoFinal(s, delta);
    case Reasoning(delta) => ReasonNoFinal(s, delta);
    case CallPart(call) => CallNoFinal(s, call);
    case _ =>
  }

  lemma {:induction false} RunNoFinal(expose: bool, pieces: seq<Piece>)
    ensures NoFinal(Run(expose, pieces).log)
  {
    if pieces != [] {
      RunNoFinal(expose, pieces[..|pieces| - 1]);
      StepNoFinal(Run(expose, pieces[..|pieces| - 1]), pieces[|pieces| - 1]);
    }
    hide Step;
  }

  /** How the stream ends: with the final response when the transport held and every
      call mentioned was given an id and a name, cut short exactly if the last finish
      reason is "length"; otherwise without any final response. */
  lemma StreamEnds(expose: bool, chunks: seq<Chunk>, transportError: bool)
    ensures var log, final := Delivered(expose, chunks, transportError), FinalResponse(Run(expose, Pieces(chunks)));
            if transportError || !AllNamed(Deltas(AllFirsts(chunks))) then NoFinal(log)
            else log != [] && log[|log| - 1].body == (if LastFinish(AllFirsts(chunks)) == "length" then Incomplete(final) else Completed(final))
  {
    var s := Run(expose, Pieces(chunks));
    StartedMeans(expose, chunks);
    RunNoFinal(expose, Pieces(chunks));
    FinalReports(expose, chunks);
    BridgeGrammar.FinishItemsOnlyLog(s);
    Continuity.SameResponse((json: string) => true, s);
    hide AllNamed, Mentioned, FinishItems, Run, Output;
  }

  // ------------------------------------------------------------ reasoning and the rest

  ghost predicate Has(log: seq<Event>, done: bool) {
    exists i :: 0 <= i < |log| && (if done then log[i].body.ReasoningDone? else OpensReasoning(log[i].body))
  }

  predicate OpensReasoning(body: Body) {
    body.ItemAdded? && body.item.ReasoningItem?
  }

  predicate OpensOther(body: Body) {
    body.ItemAdded? && !body.item.ReasoningItem?
  }

  /** An event that fits what was said before it: another item opens only when no
      reasoning is open, and reasoning that was closed is neither extended nor opened
      again. */
  ghost predicate Fits(before: seq<Event>, body: Body) {
    && (OpensOther(body) && Has(before, false) ==> Has(before, true))
    && (body.ReasoningDelta? || OpensReasoning(body) ==> !Has(before, true))
  }

  ghost predicate AllFit(log: seq<Event>) {
    forall i :: 0 <= i < |log| ==> Fits(log[..i], log[i].body)
  }

  /** The bridge's own idea of its reasoning is what the log shows. */
  ghost predicate ReasoningKnown(s: State) {
    AllFit(s.log) && (s.reasoningAt.Some? <==> Has(s.log, false)) && (s.reasoningClosed <==> Has(s.log, true))
  }

  lemma HasNext(log: seq<Event>, event: Event)
    ensures Has(log + [event], false) <==> Has(log, false) || OpensReasoning(event.body)
    ensures Has(log + [event], true) <==> Has(log, true) || event.body.ReasoningDone?
  {
    var all := log + [event];
    assert all[|log|] == event;
    assert forall i :: 0 <= i < |log| ==> all[i] == log[i];
    forall done: bool | Has(log, done) ensures Has(all, done) {
      var i :| 0 <= i < |log| && (if done then log[i].body.ReasoningDone? else OpensReasoning(log[i].body));
      assert all[i] == log[i];
    }
  }

  lemma FitNext(log: seq<Event>, event: Event)
    requires AllFit(log) && Fits(log, event.body)
    ensures AllFit(log + [event])
  {
    hide Fits;
    var all := log + [event];
    forall i | 0 <= i < |all| ensures Fits(all[..i], all[i].body) {
      if i < |log| {
        assert all[..i] == log[..i];
      } else {
        assert all[..i] == log;
      }
    }
  }

  /** Queueing an event that has nothing to do with reasoning. */
  lemma OtherKnown(s: State, body: Body)
    requires ReasoningKnown(s) && !OpensReasoning(body) && !body.ReasoningDone? && !body.ReasoningDelta?
    requires OpensOther(body) ==> s.reasoningAt.None? || s.reasoningClosed
    ensures ReasoningKnown(Enqueue(s, body))
  {
    hide Has, AllFit;
    HasNext(s.log, Event(|s.log|, None, body));
    FitNext(s.log, Event(|s.log|, None, body));
  }

  lemma SameKnown(s: State, s': State)
    requires ReasoningKnown(s) && s'.log == s.log && s'.reasoningAt == s.reasoningAt && s'.reasoningClosed == s.reasoningClosed
    ensures ReasoningKnown(s')
  {
  }

  lemma CloseKnown(s: State)
    requires ReasoningKnown(s)
    ensures ReasoningKnown(CloseReasoning(s))
    ensures CloseReasoning(s).reasoningAt.None? || CloseReasoning(s).reasoningClosed
  {
    hide Has, AllFit, FreshID;
    if s.reasoningAt.Some? && !s.reasoningClosed {
      var n := s.reasoningAt.value;
      var done := Event(|s.log|, None, ReasoningDone(ReasoningID(n), Some(n), s.reasoning));
      HasNext(s.log, done);
      FitNext(s.log, done);
      OtherKnown(Enqueue(s.(reasoningClosed := true), done.body), ItemDone(Some(n), ReasoningItem(ReasoningID(n), s.reasoning)));
    }
  }

  lemma TextKnown(s: State, delta: string)
    requires ReasoningKnown(s)
    ensures ReasoningKnown(Bridge.AddText(s, delta))
  {
    hide ReasoningKnown, CloseReasoning, FreshID;
    var n := |CloseReasoning(s).slots|;
    CloseKnown(s);
    var closed := CloseReasoning(s);
    var opening := closed.(textAt := Some(n), slots := closed.slots + [TextSlot]);
    SameKnown(closed, opening);
    OtherKnown(opening, ItemAdded(Some(n), MessageItem(MessageID(n), [], "")));
    OtherKnown(Enqueue(opening, ItemAdded(Some(n), MessageItem(MessageID(n), [], ""))), PartAdded(MessageID(n), Some(n), OutputText("")));
    var open := if s.textAt.None? then OpenText(closed) else s;
    SameKnown(open, open.(text := open.text + delta));
    if open.textAt.Some? {
      OtherKnown(open.(text := open.text + delta), TextDelta(MessageID(open.textAt.value), open.textAt, delta));
    }
  }

  lemma RefusalKnown(s: State, delta: string)
    requires ReasoningKnown(s)
    ensures ReasoningKnown(Bridge.AddRefusal(s, delta))
  {
    hide ReasoningKnown, CloseReasoning, FreshID;
    var n := |CloseReasoning(s).slots|;
    CloseKnown(s);
    var closed := CloseReasoning(s);
    var opening := closed.(refusalAt := Some(n), slots := closed.slots + [RefusalSlot]);
    SameKnown(closed, opening);
    OtherKnown(opening, ItemAdded(Some(n), MessageItem(MessageID(n), [], "")));
    OtherKnown(Enqueue(opening, ItemAdded(Some(n), MessageItem(MessageID(n), [], ""))), PartAdded(MessageID(n), Some(n), RefusalPart("")));
    var open := if s.refusalAt.None? then OpenRefusal(closed) else s;
    SameKnown(open, open.(refusal := open.refusal + delta));
    if open.refusalAt.Some? {
      OtherKnown(open.(refusal := open.refusal + delta), RefusalDelta(MessageID(open.refusalAt.value), open.refusalAt, delta));
    }
  }

  lemma ReasonKnown(s: State, delta: string)
    requires ReasoningKnown(s)
    ensures ReasoningKnown(Bridge.AddReasoning(s, delta))
  {
    hide Has, AllFit, FreshID;
    if delta != "" && s.expose && !s.reasoningClosed {
      var noted := s.(reasoning := s.reasoning + delta);
      var open := if s.reasoningAt.None? then OpenReasoning(noted) else noted;
      if s.reasoningAt.None? {
        var added := Event(|s.log|, None, ItemAdded(Some(|s.slots|), ReasoningItem(ReasoningID(|s.slots|), "")));
        HasNext(s.log, added);
        FitNext(s.log, added);
      }
      var said := Event(|open.log|, None, ReasoningDelta(ReasoningID(open.reasoningAt.value), open.reasoningAt, delta));
      HasNext(open.log, said);
      FitNext(open.log, said);
    }
  }

  lemma CallKnown(s: State, d: CallDelta)
    requires ReasoningKnown(s)
    ensures ReasoningKnown(AddCall(s, d))
  {
    hide ReasoningKnown, CloseReasoning, FreshID, Merge;
    var merged := Merge(s, d);
    if merged.at.Some? {
      SameKnown(s, s.(calls := s.calls[d.index := merged]));
      OtherKnown(s.(calls := s.calls[d.index := merged]), ArgumentsDelta(CallItemID(merged.at.value), merged.at, d.arguments));
    } else if merged.callID != "" && merged.name != "" {
      CloseKnown(s);
      var closed := CloseReasoning(s);
      var n := |closed.slots|;
      var open := merged.(at := Some(n), openedID := merged.callID, openedName := merged.name);
      var opening := closed.(slots := closed.slots + [CallSlot(d.index)], calls := closed.calls[d.index := open]);
      SameKnown(closed, opening);
      OtherKnown(opening, ItemAdded(Some(n), FunctionCall(CallItemID(n), merged.callID, merged.name, "")));
      OtherKnown(OpenCall(closed, d.index, merged), ArgumentsDelta(CallItemID(n), Some(n), merged.arguments));
    } else {
      SameKnown(s, s.(calls := s.calls[d.index := merged]));
    }
  }

  lemma {:induction false} RunKnown(expose: bool, pieces: seq<Piece>)
    ensures ReasoningKnown(Run(expose, pieces))
  {
    if pieces == [] {
      assert Begin(expose).log == [Event(0, None, Created(Response("in_progress", [], None, None)))];
    } else {
      hide ReasoningKnown, AddCall, AddText, AddRefusal, AddReasoning;
      var s, piece := Run(expose, pieces[..|pieces| - 1]), pieces[|pieces| - 1];
      RunKnown(expose, pieces[..|pieces| - 1]);
      match piece {
        case Text(delta) => TextKnown(s, delta);
        case Refusal(delta) => RefusalKnown(s, delta);
        case Reasoning(delta) => ReasonKnown(s, delta);
        case CallPart(call) => CallKnown(s, call);
        case _ => SameKnown(s, Step(s, piece));
      }
    }
  }

  /** In everything streamed for the chunks, text, refusals and calls begin only when
      no reasoning is open, and reasoning once closed stays closed. */
  lemma ReasoningInOrder(expose: bool, chunks: seq<Chunk>, i: nat)
    requires i < |Run(expose, Pieces(chunks)).log|
    ensures Fits(Run(expose, Pieces(chunks)).log[..i], Run(expose, Pieces(chunks)).log[i].body)
  {
    hide Fits, Run;
    RunKnown(expose, Pieces(chunks));
  }
}
