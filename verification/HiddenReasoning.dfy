/** With reasoning hidden, what the model reasons has no influence on the event
    stream, while the text kept for the next turn is all of it. */
module HiddenReasoning {
  import opened Optional
  import opened Wire
  import opened Bridge
  import opened BridgeShape

  // ----------------------------------------------------- the same chunks, muted

  function Mute(piece: Piece): Piece {
    if piece.Reasoning? then Reasoning("") else piece
  }

  function Muted(pieces: seq<Piece>): seq<Piece> {
    seq(|pieces|, i requires 0 <= i < |pieces| => Mute(pieces[i]))
  }

  function HideChoices(choices: seq<Choice>): seq<Choice> {
    seq(|choices|, i requires 0 <= i < |choices| => choices[i].(reasoning := ""))
  }

  /** The chunks with every reasoning field emptied. */
  function Hidden(chunks: seq<Chunk>): seq<Chunk> {
    seq(|chunks|, i requires 0 <= i < |chunks| => chunks[i].(choices := HideChoices(chunks[i].choices)))
  }

  lemma MutedConcat(a: seq<Piece>, b: seq<Piece>)
    ensures Muted(a + b) == Muted(a) + Muted(b)
  {
  }

  lemma ChoiceMuted(choice: Choice)
    ensures ChoicePieces(choice.(reasoning := "")) == Muted(ChoicePieces(choice))
  {
    var calls := CallPieces(choice.calls);
    assert Muted(calls) == calls;
    if choice.index == 0 {
      var words := [Text(choice.content), Refusal(choice.refusal), Reasoning(choice.reasoning)];
      MutedConcat(words, calls);
      MutedConcat(words + calls, [Finish(choice.finish)]);
    }
  }

  lemma {:induction false} ChoicesMuted(choices: seq<Choice>)
    ensures ChoicesPieces(HideChoices(choices)) == Muted(ChoicesPieces(choices))
  {
    if choices != [] {
      var n := |choices| - 1;
      ChoicesMuted(choices[..n]);
      ChoiceMuted(choices[n]);
      assert HideChoices(choices)[..n] == HideChoices(choices[..n]);
      MutedConcat(ChoicesPieces(choices[..n]), ChoicePieces(choices[n]));
    }
  }

  lemma {:induction false} PiecesMuted(chunks: seq<Chunk>)
    ensures Pieces(Hidden(chunks)) == Muted(Pieces(chunks))
  {
    if chunks != [] {
      var n := |chunks| - 1;
      PiecesMuted(chunks[..n]);
      assert Hidden(chunks)[..n] == Hidden(chunks[..n]);
      ChoicesMuted(chunks[n].choices);
      MutedConcat([Usage(chunks[n].usage)], ChoicesPieces(chunks[n].choices));
      MutedConcat(Pieces(chunks[..n]), ChunkPieces(chunks[n]));
      assert Muted([Usage(chunks[n].usage)]) == [Usage(chunks[n].usage)];
    }
  }

  // ------------------------------------------------------------ running muted

  function Without(s: State): State {
    s.(reasoning := "")
  }

  lemma StepMuted(s: State, piece: Piece)
    requires !s.expose && s.reasoningAt.None?
    ensures Step(Without(s), Mute(piece)) == Without(Step(s, piece))
    ensures Step(s, piece).reasoningAt.None? && !Step(s, piece).expose
  {
    match piece
    case CallPart(delta) => assert Merge(Without(s), delta) == Merge(s, delta);
    case _ =>
  }

  lemma {:induction false} RunMuted(pieces: seq<Piece>)
    ensures Run(false, Muted(pieces)) == Without(Run(false, pieces))
    ensures Run(false, pieces).reasoningAt.None? && !Run(false, pieces).expose
  {
    if pieces != [] {
      var n := |pieces| - 1;
      RunMuted(pieces[..n]);
      assert Muted(pieces)[..n] == Muted(pieces[..n]);
      StepMuted(Run(false, pieces[..n]), pieces[n]);
    }
  }

  lemma {:induction false} FinishCallsMuted(s: State, n: nat)
    requires n <= |s.slots|
    ensures FinishCalls(Without(s), n) == Without(FinishCalls(s, n))
  {
    if n > 0 {
      FinishCallsMuted(s, n - 1);
    }
  }

  lemma FinishItemsMuted(s: State)
    requires s.reasoningAt.None?
    ensures FinishItems(Without(s)) == Without(FinishItems(s))
    ensures FinishItems(s) == s.(log := FinishItems(s).log)
  {
    var texts := FinishRefusal(FinishText(s));
    assert FinishRefusal(FinishText(Without(s))) == Without(texts);
    FinishCallsMuted(texts, |texts.slots|);
  }

  lemma OutputMuted(s: State)
    requires forall n: nat :: n < |s.slots| ==> !s.slots[n].ReasoningSlot?
    ensures Output(Without(s)) == Output(s)
  {
    forall n: nat | n < |s.slots| ensures SlotItem(Without(s), n) == SlotItem(s, n) {
    }
  }

  lemma CompleteMuted(s: State)
    requires Placed(s) && s.reasoningAt.None?
    ensures Complete(Without(s)) == Complete(s)
  {
    FinishItemsMuted(s);
    var ended := FinishItems(s);
    OutputMuted(ended);
    assert FinalBody(Without(ended)) == FinalBody(ended);
  }

  /** Chunk sequences that differ only in their reasoning are delivered alike. */
  lemma ReasoningStaysHidden(a: seq<Chunk>, b: seq<Chunk>, transportError: bool)
    requires Hidden(a) == Hidden(b)
    ensures Delivered(false, a, transportError) == Delivered(false, b, transportError)
    ensures FinalResponse(Run(false, Pieces(a))) == FinalResponse(Run(false, Pieces(b)))
  {
    AsIfMuted(a, transportError);
    AsIfMuted(b, transportError);
  }

  lemma AsIfMuted(chunks: seq<Chunk>, transportError: bool)
    ensures Delivered(false, chunks, transportError) == Delivered(false, Hidden(chunks), transportError)
    ensures FinalResponse(Run(false, Pieces(chunks))) == FinalResponse(Run(false, Pieces(Hidden(chunks))))
  {
    PiecesMuted(chunks);
    RunMuted(Pieces(chunks));
    RunPlaced(false, Pieces(chunks));
    StateMuted(Run(false, Pieces(chunks)));
  }

  lemma StateMuted(s: State)
    requires Placed(s) && s.reasoningAt.None?
    ensures CallsStarted(Without(s)) <==> CallsStarted(s)
    ensures Without(s).log == s.log && Complete(Without(s)) == Complete(s)
    ensures FinalResponse(Without(s)) == FinalResponse(s)
  {
    CompleteMuted(s);
    OutputMuted(s);
    hide Complete;
    hide Output;
    hide Placed;
  }

  // ------------------------------------------------------------ and yet is kept

  function ReasoningText(pieces: seq<Piece>): string {
    if pieces == [] then ""
    else
      var last := pieces[|pieces| - 1];
      ReasoningText(pieces[..|pieces| - 1]) + if last.Reasoning? then last.delta else ""
  }

  /** What is kept for the provider is every reasoning fragment in order, exposed
      or not, and also those that came after the reasoning item was closed. */
  lemma {:induction false} AllReasoningKept(expose: bool, pieces: seq<Piece>)
    ensures Run(expose, pieces).reasoning == ReasoningText(pieces)
  {
    if pieces != [] {
      var front := pieces[..|pieces| - 1];
      AllReasoningKept(expose, front);
      ReasoningStep(Run(expose, front), pieces[|pieces| - 1]);
    } else {
      assert Run(expose, pieces) == Begin(expose);
    }
  }

  lemma ReasoningStep(s: State, piece: Piece)
    ensures Step(s, piece).reasoning == s.reasoning + if piece.Reasoning? then piece.delta else ""
  {
    match piece
    case Reasoning(delta) => assert delta == "" ==> s.reasoning + delta == s.reasoning;
    case _ => assert s.reasoning + "" == s.reasoning;
  }
}
