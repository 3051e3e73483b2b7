/** The converse: a transcript that equals the final items can only come from
    chunks whose text and refusal were gathered. Fragments are weighed gap by gap
    on both sides. */
module AgreementConverse {
  import opened Optional
  import opened Wire
  import opened Bridge
  import opened BridgeShape
  import opened Carry
  import opened Agreement

  /** How many word entries lie in one gap, and their total length. */
  datatype Tally = Tally(count: nat, length: nat)

  function CallEntries(entries: seq<Entry>): nat {
    if entries == [] then 0
    else CallEntries(entries[..|entries| - 1]) + if entries[|entries| - 1].CallEntry? then 1 else 0
  }

  function TallyOf(entries: seq<Entry>, gap: nat): Tally {
    if entries == [] then Tally(0, 0)
    else
      var front := entries[..|entries| - 1];
      var last := entries[|entries| - 1];
      var before := TallyOf(front, gap);
      if last.Words? && CallEntries(front) == gap then Tally(before.count + 1, before.length + |last.text|) else before
  }

  lemma TallySnoc(entries: seq<Entry>, last: Entry, gap: nat)
    ensures CallEntries(entries + [last]) == CallEntries(entries) + if last.CallEntry? then 1 else 0
    ensures TallyOf(entries + [last], gap) ==
            if last.Words? && CallEntries(entries) == gap
            then Tally(TallyOf(entries, gap).count + 1, TallyOf(entries, gap).length + |last.text|)
            else TallyOf(entries, gap)
  {
    assert (entries + [last])[..|entries|] == entries;
  }

  // ------------------------------------------------------------- the chunks' side

  /** Lengths of the text and of the refusal that arrived in one gap. */
  datatype Weight = Weight(text: nat, refusal: nat)

  function NextWeight(weight: Weight, here: nat, piece: Piece, gap: nat): Weight {
    if here != gap then weight
    else
      match piece
      case Text(delta) => weight.(text := weight.text + |delta|)
      case Refusal(delta) => weight.(refusal := weight.refusal + |delta|)
      case _ => weight
  }

  function WeightOf(expose: bool, pieces: seq<Piece>, gap: nat): Weight {
    if pieces == [] then Weight(0, 0)
    else
      var front := pieces[..|pieces| - 1];
      NextWeight(WeightOf(expose, front, gap), CallsIn(Run(expose, front).slots), pieces[|pieces| - 1], gap)
  }

  ghost predicate Weighed(gaps: Gaps, weight: Weight, gap: nat) {
    && (gap in gaps.text <==> weight.text > 0)
    && (gap in gaps.refusal <==> weight.refusal > 0)
  }

  lemma {:induction false} RunWeighed(expose: bool, pieces: seq<Piece>, gap: nat)
    ensures Weighed(GapsOf(expose, pieces), WeightOf(expose, pieces, gap), gap)
  {
    if pieces != [] {
      RunWeighed(expose, pieces[..|pieces| - 1], gap);
    }
  }

  /** Two gaps together never outweigh the whole. */
  lemma {:induction false} WeightBounds(expose: bool, pieces: seq<Piece>, a: nat, b: nat)
    requires a != b
    ensures WeightOf(expose, pieces, a).text + WeightOf(expose, pieces, b).text <= |Run(expose, pieces).text|
    ensures WeightOf(expose, pieces, a).refusal + WeightOf(expose, pieces, b).refusal <= |Run(expose, pieces).refusal|
  {
    if pieces != [] {
      var front := pieces[..|pieces| - 1];
      WeightBounds(expose, front, a, b);
      StepLengths(Run(expose, front), pieces[|pieces| - 1]);
    }
  }

  lemma StepLengths(s: State, piece: Piece)
    ensures |Step(s, piece).text| == |s.text| + if piece.Text? then |piece.delta| else 0
    ensures |Step(s, piece).refusal| == |s.refusal| + if piece.Refusal? then |piece.delta| else 0
  {
  }

  /** Transcript entries, counted and weighed against the chunks. */
  ghost predicate ToldWeighs(told: seq<Entry>, slots: seq<Slot>, gaps: Gaps, weight: Weight, gap: nat) {
    && CallEntries(told) == CallsIn(slots)
    && TallyOf(told, gap) == Tally(if gap in gaps.text + gaps.refusal then 1 else 0, weight.text + weight.refusal)
  }

  lemma SayWeighs(told: seq<Entry>, delta: string, gap: nat)
    requires delta != ""
    ensures CallEntries(Say(told, delta)) == CallEntries(told)
    ensures TallyOf(Say(told, delta), gap) ==
            if CallEntries(told) == gap
            then Tally(TallyOf(told, gap).count + (if LastWords(told) then 0 else 1), TallyOf(told, gap).length + |delta|)
            else TallyOf(told, gap)
  {
    if LastWords(told) {
      var front := told[..|told| - 1];
      var last := told[|told| - 1];
      assert told == front + [last];
      assert Say(told, delta) == front + [Words(last.text + delta)];
      TallySnoc(front, last, gap);
      TallySnoc(front, Words(last.text + delta), gap);
    } else {
      TallySnoc(told, Words(delta), gap);
    }
  }

  /** One fragment told in gap `here`: the same change on both sides. */
  lemma FragmentTally(told: seq<Entry>, gaps: Gaps, weight: Weight, piece: Piece, here: nat, gap: nat)
    requires CallEntries(told) == here && (LastWords(told) <==> here in gaps.text + gaps.refusal)
    requires TallyOf(told, gap) == Tally(if gap in gaps.text + gaps.refusal then 1 else 0, weight.text + weight.refusal)
    requires (piece.Text? || piece.Refusal?) && piece.delta != ""
    ensures var gaps', weight' := NextGaps(gaps, here, piece), NextWeight(weight, here, piece, gap);
            TallyOf(Say(told, piece.delta), gap) ==
            Tally(if gap in gaps'.text + gaps'.refusal then 1 else 0, weight'.text + weight'.refusal)
  {
    SayWeighs(told, piece.delta, gap);
    var gaps' := NextGaps(gaps, here, piece);
    assert gaps'.text + gaps'.refusal == gaps.text + gaps.refusal + {here};
  }

  lemma FragmentKeepsCalls(s: State, piece: Piece)
    requires (piece.Text? || piece.Refusal?) && piece.delta != ""
    ensures CallsIn(Step(s, piece).slots) == CallsIn(s.slots)
  {
    if piece.Text? {
      AddTextShape(s, piece.delta);
      CallsInSnoc(s.slots, TextSlot);
    } else {
      AddRefusalShape(s, piece.delta);
      CallsInSnoc(s.slots, RefusalSlot);
    }
  }

  lemma FragmentWeighs(s: State, told: seq<Entry>, gaps: Gaps, weight: Weight, piece: Piece, gap: nat)
    requires RunGapFacts(s, told, gaps) && ToldWeighs(told, s.slots, gaps, weight, gap)
    requires (piece.Text? || piece.Refusal?) && piece.delta != ""
    ensures ToldWeighs(Say(told, piece.delta), Step(s, piece).slots, NextGaps(gaps, CallsIn(s.slots), piece),
                       NextWeight(weight, CallsIn(s.slots), piece, gap), gap)
  {
    FragmentTally(told, gaps, weight, piece, CallsIn(s.slots), gap);
    FragmentKeepsCalls(s, piece);
    SayWeighs(told, piece.delta, gap);
  }

  lemma OtherWeighs(s: State, told: seq<Entry>, gaps: Gaps, weight: Weight, piece: Piece, gap: nat)
    requires Placed(s) && ToldWeighs(told, s.slots, gaps, weight, gap) && !piece.Text? && !piece.Refusal?
    ensures ToldWeighs(Tell(told, s, piece), Step(s, piece).slots, gaps, weight, gap)
  {
    OtherPiece(s, told, piece);
    CallsInSnoc(s.slots, ReasoningSlot);
    if piece.CallPart? {
      CallsInSnoc(s.slots, CallSlot(piece.call.index));
      TallySnoc(told, CallEntry(piece.call.index), gap);
    }
  }

  lemma {:induction false} RunToldWeighs(expose: bool, pieces: seq<Piece>, gap: nat)
    ensures ToldWeighs(Told(expose, pieces), Run(expose, pieces).slots, GapsOf(expose, pieces), WeightOf(expose, pieces, gap), gap)
  {
    if pieces != [] {
      var front := pieces[..|pieces| - 1];
      var piece := pieces[|pieces| - 1];
      var s, told, gaps, weight := Run(expose, front), Told(expose, front), GapsOf(expose, front), WeightOf(expose, front, gap);
      RunToldWeighs(expose, front, gap);
      RunGaps(expose, front);
      RunPlaced(expose, front);
      if piece.Text? || piece.Refusal? {
        if piece.delta != "" { FragmentWeighs(s, told, gaps, weight, piece, gap); }
      } else {
        OtherWeighs(s, told, gaps, weight, piece, gap);
      }
    }
  }

  // ----------------------------------------------------------- the response's side

  function In(at: Option<nat>, slots: seq<Slot>, n: nat, gap: nat): bool
    requires n <= |slots|
  {
    at.Some? && at.value < n && CallsIn(slots[..at.value]) == gap
  }

  function ItemsTally(s: State, n: nat, gap: nat): Tally
    requires n <= |s.slots|
  {
    var text, refusal := In(s.textAt, s.slots, n, gap), In(s.refusalAt, s.slots, n, gap);
    Tally((if text then 1 else 0) + (if refusal then 1 else 0),
          (if text then |s.text| else 0) + (if refusal then |s.refusal| else 0))
  }

  /** How the response's tally grows by one slot. */
  lemma SlotTally(s: State, n: nat, gap: nat)
    requires Placed(s) && 0 < n <= |s.slots|
    ensures var before, here := ItemsTally(s, n - 1, gap), CallsIn(s.slots[..n - 1]);
            ItemsTally(s, n, gap) ==
            match s.slots[n - 1]
            case TextSlot => if here == gap then Tally(before.count + 1, before.length + |s.text|) else before
            case RefusalSlot => if here == gap then Tally(before.count + 1, before.length + |s.refusal|) else before
            case _ => before
  {
  }

  lemma SlotEntryTally(s: State, n: nat, gap: nat)
    requires 0 < n <= |s.slots|
    ensures var before, here := ItemsUpTo(s, n - 1), CallEntries(ItemsUpTo(s, n - 1));
            && CallEntries(ItemsUpTo(s, n)) == here + (if s.slots[n - 1].CallSlot? then 1 else 0)
            && TallyOf(ItemsUpTo(s, n), gap) ==
               (var tally := TallyOf(before, gap);
                match s.slots[n - 1]
                case TextSlot => if here == gap then Tally(tally.count + 1, tally.length + |s.text|) else tally
                case RefusalSlot => if here == gap then Tally(tally.count + 1, tally.length + |s.refusal|) else tally
                case _ => tally)
  {
    match s.slots[n - 1]
    case ReasoningSlot => ReasoningLast(s, n);
    case TextSlot => TallySnoc(ItemsUpTo(s, n - 1), Words(s.text), gap);
    case RefusalSlot => TallySnoc(ItemsUpTo(s, n - 1), Words(s.refusal), gap);
    case CallSlot(c) => TallySnoc(ItemsUpTo(s, n - 1), CallEntry(c), gap);
  }

  lemma {:induction false} ItemsWeigh(s: State, n: nat, gap: nat)
    requires Placed(s) && n <= |s.slots|
    ensures CallEntries(ItemsUpTo(s, n)) == CallsIn(s.slots[..n])
    ensures TallyOf(ItemsUpTo(s, n), gap) == ItemsTally(s, n, gap)
  {
    if n == 0 {
      assert s.slots[..0] == [];
    } else {
      ItemsWeigh(s, n - 1, gap);
      CallsUpTo(s.slots, n);
      SlotTally(s, n, gap);
      SlotEntryTally(s, n, gap);
    }
  }

  /** What equality of the two sides says about one gap. */
  lemma BothWeigh(expose: bool, pieces: seq<Piece>, gap: nat)
    requires Told(expose, pieces) == Items(Run(expose, pieces))
    ensures var s, gaps, weight := Run(expose, pieces), GapsOf(expose, pieces), WeightOf(expose, pieces, gap);
            var text, refusal := In(s.textAt, s.slots, |s.slots|, gap), In(s.refusalAt, s.slots, |s.slots|, gap);
            && (gap in gaps.text + gaps.refusal <==> text || refusal) && !(text && refusal)
            && weight.text + weight.refusal == (if text then |s.text| else 0) + (if refusal then |s.refusal| else 0)
            && Weighed(gaps, weight, gap)
  {
    RunPlaced(expose, pieces);
    RunToldWeighs(expose, pieces, gap);
    RunWeighed(expose, pieces, gap);
    ItemsWeigh(Run(expose, pieces), |Run(expose, pieces).slots|, gap);
  }

  /** Text arrives only in the gap its item was opened in. */
  lemma TextGathered(expose: bool, pieces: seq<Piece>, gap: nat)
    requires Told(expose, pieces) == Items(Run(expose, pieces))
    requires gap in GapsOf(expose, pieces).text
    ensures In(Run(expose, pieces).textAt, Run(expose, pieces).slots, |Run(expose, pieces).slots|, gap)
  {
    var s, gaps := Run(expose, pieces), GapsOf(expose, pieces);
    RunGaps(expose, pieces);
    BothWeigh(expose, pieces, gap);
    var first := CallsIn(s.slots[..s.textAt.value]);
    BothWeigh(expose, pieces, first);
    if first != gap {
      WeightBounds(expose, pieces, first, gap);
      RunPlaced(expose, pieces);
    }
  }

  lemma RefusalGathered(expose: bool, pieces: seq<Piece>, gap: nat)
    requires Told(expose, pieces) == Items(Run(expose, pieces))
    requires gap in GapsOf(expose, pieces).refusal
    ensures In(Run(expose, pieces).refusalAt, Run(expose, pieces).slots, |Run(expose, pieces).slots|, gap)
  {
    var s, gaps := Run(expose, pieces), GapsOf(expose, pieces);
    RunGaps(expose, pieces);
    BothWeigh(expose, pieces, gap);
    var first := CallsIn(s.slots[..s.refusalAt.value]);
    BothWeigh(expose, pieces, first);
    if first != gap {
      WeightBounds(expose, pieces, first, gap);
      RunPlaced(expose, pieces);
    }
  }

  lemma AgreesGathered(expose: bool, pieces: seq<Piece>)
    requires Told(expose, pieces) == Items(Run(expose, pieces))
    ensures Gathered(GapsOf(expose, pieces))
  {
    var gaps := GapsOf(expose, pieces);
    forall a | a in gaps.text { TextGathered(expose, pieces, a); }
    forall a | a in gaps.refusal { RefusalGathered(expose, pieces, a); }
    forall a | a in gaps.text && a in gaps.refusal ensures false {
      BothWeigh(expose, pieces, a);
    }
  }

  /** The transcript is the list of visible final items exactly when the chunks
      were gathered. */
  lemma TranscriptIsItems(expose: bool, pieces: seq<Piece>)
    ensures Told(expose, pieces) == Items(Run(expose, pieces)) <==> Gathered(GapsOf(expose, pieces))
  {
    if Gathered(GapsOf(expose, pieces)) {
      GatheredAgrees(expose, pieces);
    }
    if Told(expose, pieces) == Items(Run(expose, pieces)) {
      AgreesGathered(expose, pieces);
    }
  }
}
