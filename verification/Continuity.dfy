/** Why a provider's reasoning is found again: the continuation stored when a
    bridged stream ends is keyed by the mapped content, and the client will ask
    for it under the content it accumulated from the stream. */
module Continuity {
  import opened Optional
  import opened Wire
  import opened Precommit
  import opened ToMessage
  import B = Bridge
  import A = Agreement
  import C = CommitAnthropic
  import CarryToEnd
  import E = Encoder
  import M = MessagesReader
  import S = StreamEqualsMessage
  import BridgeGrammar
  import BridgeShape
  import H = HiddenReasoning
  import Continuations
  import Conversation
  import InputTranslation
  import Markers
  import Recall

  /** What the handler notes for the cache: the content whose fingerprint is the
      key, the provider's own reasoning text, and the response's reasoning items. */
  datatype Note = Note(content: seq<Content>, chat: string, items: seq<Item>)

  function ReasoningItems(output: seq<Item>): seq<Item> {
    if output == [] then []
    else
      var last := output[|output| - 1];
      ReasoningItems(output[..|output| - 1]) + if last.ReasoningItem? then [last] else []
  }

  /** What a forwarded event makes the handler note, when the provider's stream
      reports `reasoning` (nothing, if it keeps none). */
  function NotedAt(valid: string -> bool, reasoning: string, e: UpEvent): Option<Note> {
    if e.name != "response.completed" && e.name != "response.incomplete" then None
    else if !e.event.body.Completed? && !e.event.body.Incomplete? then None
    else
      match Convert(valid, e.event.body.response)
      case Ok(message) =>
        var items := ReasoningItems(e.event.body.response.output);
        if reasoning == "" && items == [] then None else Some(Note(message.content, reasoning, items))
      case Err(_) => None
  }

  /** What is noted once these events have been forwarded: the latest note. */
  function Noted(valid: string -> bool, reasoning: string, taken: seq<UpEvent>): Option<Note> {
    if taken == [] then None
    else
      var latest := NotedAt(valid, reasoning, taken[|taken| - 1]);
      if latest.Some? then latest else Noted(valid, reasoning, taken[..|taken| - 1])
  }

  /** The note a bridged run leaves: none without reasoning. */
  function RunNote(valid: string -> bool, s: B.State): Option<Note> {
    match S.Mapping(valid, s)
    case Some(content) => if s.reasoning == "" then None else Some(Note(content, s.reasoning, ReasoningItems(B.Output(s))))
    case None => None
  }

  /** An upstream that is the chat bridge over these chunks, brought to its end,
      with its final event and no other named as final. */
  ghost predicate Bridged(upstream: seq<UpEvent>, s: B.State) {
    && C.Events(upstream) == B.Complete(s)
    && (forall i: nat :: i < |upstream| - 1 ==> upstream[i].name != "response.completed" && upstream[i].name != "response.incomplete")
    && (upstream != [] ==> upstream[|upstream| - 1].name == "response.completed" || upstream[|upstream| - 1].name == "response.incomplete")
  }

  /** Nothing changes once the encoder is terminal. */
  lemma {:induction false} TerminalStays(valid: string -> bool, stream: seq<Event>, n: nat)
    requires n <= |stream| && E.Encode(valid, stream[..n]).state.terminal
    ensures E.Encode(valid, stream).state == E.Encode(valid, stream[..n]).state
    decreases |stream| - n
  {
    if n < |stream| {
      var before := E.Encode(valid, stream[..n]).state;
      assert stream[..n + 1][..n] == stream[..n];
      assert E.Handle(valid, before, stream[n]) == E.Step(before, []);
      TerminalStays(valid, stream, n + 1);
    } else {
      assert stream[..n] == stream;
    }
  }

  /** A bridged stream ends only with its final event. */
  lemma EndsLast(valid: string -> bool, expose: bool, pieces: seq<B.Piece>, n: nat)
    requires var whole := B.Complete(B.Run(expose, pieces)); n <= |whole| && E.Encode(valid, whole[..n]).state.terminal
    ensures n == |B.Complete(B.Run(expose, pieces))|
  {
    var s := B.Run(expose, pieces);
    var whole, items := B.Complete(s), B.FinishItems(s);
    var stopReason := CarryToEnd.DoneEventsSeal(valid, expose, pieces);
    assert whole[..|whole| - 1] == items.log;
    assert !E.Encode(valid, items.log).state.terminal;
    if n < |whole| {
      assert items.log[..n] == whole[..n];
      TerminalStays(valid, items.log, n);
    }
  }

  lemma StepShown(s: B.State, piece: B.Piece)
    requires s.reasoningAt.Some? ==> s.reasoning != ""
    ensures B.Step(s, piece).reasoningAt.Some? ==> B.Step(s, piece).reasoning != ""
  {
  }

  /** A reasoning item is only opened for reasoning. */
  lemma {:induction false} ReasoningShown(expose: bool, pieces: seq<B.Piece>)
    ensures B.Run(expose, pieces).reasoningAt.Some? ==> B.Run(expose, pieces).reasoning != ""
  {
    if pieces != [] {
      var front := pieces[..|pieces| - 1];
      ReasoningShown(expose, front);
      StepShown(B.Run(expose, front), pieces[|pieces| - 1]);
      hide B.Step;
    }
  }

  lemma {:induction false} NoReasoningItems(output: seq<Item>)
    requires forall i :: 0 <= i < |output| ==> !output[i].ReasoningItem?
    ensures ReasoningItems(output) == []
  {
    if output != [] { NoReasoningItems(output[..|output| - 1]); }
  }

  /** A run without reasoning has no reasoning items either. */
  lemma WithoutReasoning(expose: bool, pieces: seq<B.Piece>)
    requires B.Run(expose, pieces).reasoning == ""
    ensures ReasoningItems(B.Output(B.Run(expose, pieces))) == []
  {
    ReasoningShown(expose, pieces);
    BridgeShape.RunPlaced(expose, pieces);
    NoReasoningItems(B.Output(B.Run(expose, pieces)));
  }

  lemma {:induction false} NothingNoted(valid: string -> bool, reasoning: string, upstream: seq<UpEvent>, n: nat)
    requires n <= |upstream| && forall i: nat :: i < n ==> upstream[i].name != "response.completed" && upstream[i].name != "response.incomplete"
    ensures Noted(valid, reasoning, upstream[..n]).None?
  {
    if n > 0 {
      assert upstream[..n][..n - 1] == upstream[..n - 1];
      NothingNoted(valid, reasoning, upstream, n - 1);
    }
  }

  /** One note at most, from the last event. */
  lemma NotedOnce(valid: string -> bool, upstream: seq<UpEvent>, expose: bool, pieces: seq<B.Piece>)
    requires Bridged(upstream, B.Run(expose, pieces))
    ensures var s := B.Run(expose, pieces); Noted(valid, s.reasoning, upstream) == RunNote(valid, s)
  {
    var s, n := B.Run(expose, pieces), |upstream| - 1;
    assert |C.Events(upstream)| == |upstream| == |B.Complete(s)|;
    NothingNoted(valid, s.reasoning, upstream, n);
    assert C.Events(upstream)[n] == upstream[n].event;
    assert upstream[n].event.body == B.FinalBody(B.FinishItems(s));
    SameResponse(valid, s);
    if s.reasoning == "" { WithoutReasoning(expose, pieces); }
  }

  lemma SameResponse(valid: string -> bool, s: B.State)
    ensures S.Mapping(valid, B.FinishItems(s)) == S.Mapping(valid, s)
    ensures B.FinalResponse(B.FinishItems(s)) == B.FinalResponse(s)
  {
    var ended := B.FinishItems(s);
    BridgeGrammar.FinishItemsOnlyLog(s);
    forall n: nat | n < |s.slots| ensures B.SlotItem(ended, n) == B.SlotItem(s, n) {
    }
    assert B.Output(ended) == B.Output(s);
  }

  lemma TakenIsAll(c: C.Config, taken: seq<UpEvent>, expose: bool, pieces: seq<B.Piece>)
    requires Bridged(c.source.upstream, B.Run(expose, pieces)) && taken <= c.source.upstream
    requires E.Encode(c.valid, C.Events(taken)).state.terminal
    ensures taken == c.source.upstream
  {
    var whole := B.Complete(B.Run(expose, pieces));
    assert C.Events(taken) == whole[..|taken|];
    EndsLast(c.valid, expose, pieces, |taken|);
    assert |c.source.upstream| == |C.Events(c.source.upstream)|;
  }

  /** The client has read all of the stream and holds its streamed content; the
      note made for the cache has the mapped content as its key and every bit of
      the provider's reasoning as its value; and the two contents are the same
      exactly when text and refusal were each gathered and identities kept. */
  ghost predicate Remembered(c: C.Config, st: C.State, expose: bool, pieces: seq<B.Piece>) {
    var s := B.Run(expose, pieces);
    var held := S.Accumulated(M.Read(M.START, st.log).blocks);
    && st.gather.taken == c.source.upstream
    && S.Streamed(c.valid, s) == Some(held) && S.Mapping(c.valid, s).Some?
    && s.reasoning == H.ReasoningText(pieces)
    && Noted(c.valid, s.reasoning, st.gather.taken) == RunNote(c.valid, s)
    && (S.Mapping(c.valid, s).value == held <==> A.Gathered(A.GapsOf(expose, pieces)) && S.IdentitiesKept(S.LateOf(expose, pieces), s))
  }

  lemma SuccessRemembered(c: C.Config, st: C.State, expose: bool, pieces: seq<B.Piece>)
    requires Bridged(c.source.upstream, B.Run(expose, pieces)) && st.gather.taken <= c.source.upstream
    requires st.ending.Some? && st.ending.value.success && C.Delivers(c, st.gather.taken, st.ending, st.encoder, st.log)
    ensures Remembered(c, st, expose, pieces)
  {
    SuccessTook(c, st, expose, pieces);
    SuccessHolds(c, st, expose, pieces);
    SuccessAgrees(c, expose, pieces);
    hide C.Delivers;
    hide Bridged;
    hide E.Encode;
    hide A.Gathered;
    hide S.IdentitiesKept;
    hide S.Streamed;
    hide S.Mapping;
    hide Noted;
  }

  /** Every schedule in which a bridged stream succeeds remembers it. */
  lemma SuccessNotes(c: C.Config, actions: seq<Action>, expose: bool, pieces: seq<B.Piece>)
    requires Bridged(c.source.upstream, B.Run(expose, pieces))
    requires C.After(c, actions).ending.Some? && C.After(c, actions).ending.value.success
    ensures Remembered(c, C.After(c, actions), expose, pieces)
  {
    C.StreamContract(c, actions);
    C.AlwaysInv(c, actions);
    SuccessRemembered(c, C.After(c, actions), expose, pieces);
  }

  lemma SuccessTook(c: C.Config, st: C.State, expose: bool, pieces: seq<B.Piece>)
    requires Bridged(c.source.upstream, B.Run(expose, pieces)) && st.gather.taken <= c.source.upstream
    requires st.ending.Some? && st.ending.value.success && C.Delivers(c, st.gather.taken, st.ending, st.encoder, st.log)
    ensures st.gather.taken == c.source.upstream
  {
    TakenIsAll(c, st.gather.taken, expose, pieces);
  }

  /** What a successful encoding of a whole bridged stream implies. */
  lemma SuccessAgrees(c: C.Config, expose: bool, pieces: seq<B.Piece>)
    requires Bridged(c.source.upstream, B.Run(expose, pieces))
    requires E.Encode(c.valid, B.Complete(B.Run(expose, pieces))).state.success
    ensures var s := B.Run(expose, pieces);
            && S.Mapping(c.valid, s).Some?
            && s.reasoning == H.ReasoningText(pieces)
            && Noted(c.valid, s.reasoning, c.source.upstream) == RunNote(c.valid, s)
            && (S.Streamed(c.valid, s).Some? && S.Streamed(c.valid, s) == S.Mapping(c.valid, s) <==>
                A.Gathered(A.GapsOf(expose, pieces)) && S.IdentitiesKept(S.LateOf(expose, pieces), s))
  {
    var s := B.Run(expose, pieces);
    NotedOnce(c.valid, c.source.upstream, expose, pieces);
    H.AllReasoningKept(expose, pieces);
    CarryToEnd.BridgedStream(c.valid, expose, pieces);
    S.ConvertFinal(c.valid, expose, pieces);
    S.ContentAgrees(c.valid, expose, pieces);
    hide E.Encode;
    hide B.Complete;
    hide CarryToEnd.ArgumentsValid;
    hide A.Gathered;
    hide S.IdentitiesKept;
    hide Convert;
    hide S.Streamed;
    hide Noted;
  }

  /** A successful log is read like the encoder's. */
  lemma SuccessHolds(c: C.Config, st: C.State, expose: bool, pieces: seq<B.Piece>)
    requires st.gather.taken == c.source.upstream && Bridged(c.source.upstream, B.Run(expose, pieces))
    requires st.ending.Some? && st.ending.value.success
    requires C.Delivers(c, st.gather.taken, st.ending, st.encoder, st.log)
    ensures S.Streamed(c.valid, B.Run(expose, pieces)) == Some(S.Accumulated(M.Read(M.START, st.log).blocks))
    ensures E.Encode(c.valid, B.Complete(B.Run(expose, pieces))).state.success
  {
  }

  /** A mapped content as the assistant message in which the client sends it back:
      the gateway stores under it and the client asks with it. */
  function AsBlock(c: Content): Conversation.Block {
    match c
    case TextContent(text) => Conversation.TextBlockIn(text)
    case ToolUseContent(id, name, input) => Conversation.ToolUseIn(id, name, input)
  }

  function AsBlocks(content: seq<Content>): Conversation.Content {
    Conversation.Blocks(seq(|content|, i requires 0 <= i < |content| => AsBlock(content[i])))
  }

  lemma BlocksTellApart(x: seq<Content>, y: seq<Content>)
    ensures AsBlocks(x) == AsBlocks(y) <==> x == y
  {
    if AsBlocks(x) == AsBlocks(y) {
      assert |x| == |AsBlocks(x).blocks| == |y|;
      forall i | 0 <= i < |x| ensures x[i] == y[i] {
        assert AsBlocks(x).blocks[i] == AsBlocks(y).blocks[i];
      }
    }
  }

  /** A bridged stream with reasoning that succeeds notes all of it; and the key
      it is stored under is the one the client's replay asks for, with a
      fingerprint that tells contents apart, exactly under the same condition. */
  lemma ReplayHits(a: Recall.Asking, c: C.Config, actions: seq<Action>, expose: bool, pieces: seq<B.Piece>)
    requires forall x, y :: a.digest(x) == a.digest(y) ==> x == y
    requires Bridged(c.source.upstream, B.Run(expose, pieces))
    requires C.After(c, actions).ending.Some? && C.After(c, actions).ending.value.success
    requires H.ReasoningText(pieces) != ""
    ensures var s, st := B.Run(expose, pieces), C.After(c, actions);
            var held := S.Accumulated(M.Read(M.START, st.log).blocks);
            var note := Noted(c.valid, s.reasoning, st.gather.taken);
            && note.Some? && note.value.chat == H.ReasoningText(pieces)
            && (Recall.KeyOf(a, AsBlocks(note.value.content)) == Recall.KeyOf(a, AsBlocks(held)) <==>
                A.Gathered(A.GapsOf(expose, pieces)) && S.IdentitiesKept(S.LateOf(expose, pieces), s))
  {
    SuccessNotes(c, actions, expose, pieces);
    hide C.Delivers;
    hide E.Encode;
    hide B.Complete;
    hide A.Gathered;
    hide S.IdentitiesKept;
    hide Bridged;
    hide Noted;
    hide AsBlocks;
    BlocksTellApart(S.Mapping(c.valid, B.Run(expose, pieces)).value, S.Accumulated(M.Read(M.START, C.After(c, actions).log).blocks));
  }

  /** The reasoning items as the cache keeps them, each as its text. */
  function Texts(raw: Item -> string, items: seq<Item>): seq<string> {
    seq(|items|, i requires 0 <= i < |items| => raw(items[i]))
  }

  /** What a success makes the handler put in the cache. */
  function Stored(raw: Item -> string, note: Note): Continuations.Continuation {
    Continuations.Continuation(note.chat, Texts(raw, note.items))
  }

  /** From a stream into the next request: a success stored its note as operation
      `j`, the last one under its key, whatever else was stored and loaded; the
      client sends back what it accumulated as message `t`, which is looked up
      within the lifetime. Then, if text and refusal were gathered and identities
      kept, that turn is given all the reasoning. (`Recall.Ask` gives every turn of
      a request what is recalled for it.) */
  lemma ReplayRecalls(a: Recall.Asking, raw: Item -> string, c: C.Config, actions: seq<Action>, expose: bool, pieces: seq<B.Piece>,
                      operations: seq<Continuations.Operation>, j: nat, messages: seq<Conversation.Message>, t: nat, clock: nat -> int)
    requires Bridged(c.source.upstream, B.Run(expose, pieces))
    requires C.After(c, actions).ending.Some? && C.After(c, actions).ending.value.success
    requires H.ReasoningText(pieces) != ""
    requires A.Gathered(A.GapsOf(expose, pieces)) && S.IdentitiesKept(S.LateOf(expose, pieces), B.Run(expose, pieces))
    requires j < |operations| && t < |messages| && clock(t) < operations[j].now + Continuations.TTL
    requires var note := Noted(c.valid, B.Run(expose, pieces).reasoning, C.After(c, actions).gather.taken);
             note.Some? ==>
               var key := Recall.KeyOf(a, AsBlocks(note.value.content));
               && operations[j] == Continuations.StoreOp(key, Stored(raw, note.value), operations[j].now)
               && Continuations.Acceptable(key, Stored(raw, note.value))
    requires forall m :: j < m < |operations| && operations[m].StoreOp? ==> operations[m].key != operations[j].key
    requires messages[t] == Conversation.Message("assistant", AsBlocks(S.Accumulated(M.Read(M.START, C.After(c, actions).log).blocks)), false)
    ensures var recalled := Recall.Recalled(a, Continuations.Plain(operations), messages, clock, messages[t].content);
            && recalled.chat == H.ReasoningText(pieces)
            && recalled.items == Texts(raw, ReasoningItems(B.Output(B.Run(expose, pieces))))
  {
    hide C.After;
    hide C.Delivers;
    hide E.Encode;
    hide A.Gathered;
    hide S.IdentitiesKept;
    hide S.Accumulated;
    hide Bridged;
    hide Noted;
    hide Remembered;
    hide Recall.Recalled;
    hide Continuations.Plain;
    hide Continuations.Acceptable;
    hide ReasoningItems;
    hide Texts;
    hide AsBlocks;
    SuccessNotes(c, actions, expose, pieces);
    NoteOf(c, C.After(c, actions), expose, pieces);
    Recall.OwnRecalled(operations, j, a, messages, t, clock);
  }

  /** The note of a success with reasoning. */
  lemma NoteOf(c: C.Config, st: C.State, expose: bool, pieces: seq<B.Piece>)
    requires Remembered(c, st, expose, pieces) && H.ReasoningText(pieces) != ""
    requires A.Gathered(A.GapsOf(expose, pieces)) && S.IdentitiesKept(S.LateOf(expose, pieces), B.Run(expose, pieces))
    ensures var s := B.Run(expose, pieces);
            Noted(c.valid, s.reasoning, st.gather.taken) ==
            Some(Note(S.Accumulated(M.Read(M.START, st.log).blocks), H.ReasoningText(pieces), ReasoningItems(B.Output(s))))
  {
  }

  // ------------------------------------------------ which answers yield no item

  ghost predicate NoEmptyText(content: seq<Content>) {
    forall i :: 0 <= i < |content| && content[i].TextContent? ==> content[i].text != ""
  }

  lemma {:induction false} PartsSpeak(parts: seq<Part>)
    ensures NoEmptyText(PartsContent(parts))
  {
    if parts != [] { PartsSpeak(parts[..|parts| - 1]); }
  }

  lemma {:induction false} MappedSpeaks(valid: string -> bool, items: seq<Item>)
    ensures MapItems(valid, items).Ok? ==> NoEmptyText(MapItems(valid, items).value.content)
  {
    if items != [] {
      var last := items[|items| - 1];
      MappedSpeaks(valid, items[..|items| - 1]);
      if last.MessageItem? { PartsSpeak(last.parts); }
      hide PartsContent;
    }
  }

  lemma {:induction false} BlocksFold(content: seq<Content>, n: nat)
    requires n <= |content| && NoEmptyText(content)
    ensures var acc := InputTranslation.AddBlocks(InputTranslation.Acc([], [], ""), "assistant", AsBlocks(content).blocks[..n]);
            acc.Some? && acc.value.content == [] && (acc.value.out == [] && acc.value.text == "" <==> n == 0)
  {
    if n > 0 {
      var blocks := AsBlocks(content).blocks;
      BlocksFold(content, n - 1);
      assert blocks[..n][..n - 1] == blocks[..n - 1] && blocks[..n][n - 1] == AsBlock(content[n - 1]);
      hide AsBlocks;
    }
  }

  /** Of all answers the gateway maps, only the empty one makes a turn without items:
      the one case in which kept reasoning has no message of its own. */
  lemma SilentIsEmpty(valid: string -> bool, response: Response)
    requires Convert(valid, response).Ok?
    ensures var content := Convert(valid, response).value.content;
            Markers.ItemsOf(Conversation.Message("assistant", AsBlocks(content), false)) == [] <==> content == []
  {
    var content := Convert(valid, response).value.content;
    MappedSpeaks(valid, response.output);
    BlocksFold(content, |content|);
    var blocks := AsBlocks(content).blocks;
    assert blocks[..|content|] == blocks;
    hide MapItems;
  }
}
