/** When a client that accumulates the bridged Anthropic stream holds the same
    message the non-streaming mapping makes of the final response: an exact
    condition on the chunks. */
module Agreement {
  import opened Optional
  import opened Wire
  import opened Bridge
  import opened BridgeShape
  import opened Carry

  // ------------------------------------------------------ entries and their gaps

  /** The number of calls started before a point: the gap that point lies in. */
  function CallsIn(slots: seq<Slot>): nat {
    if slots == [] then 0 else CallsIn(slots[..|slots| - 1]) + if slots[|slots| - 1].CallSlot? then 1 else 0
  }

  datatype Gaps = Gaps(text: set<nat>, refusal: set<nat>)

  function NextGaps(gaps: Gaps, here: nat, piece: Piece): Gaps {
    match piece
    case Text(delta) => if delta == "" then gaps else gaps.(text := gaps.text + {here})
    case Refusal(delta) => if delta == "" then gaps else gaps.(refusal := gaps.refusal + {here})
    case _ => gaps
  }

  /** The gaps in which text, and in which refusal fragments arrived. */
  function GapsOf(expose: bool, pieces: seq<Piece>): Gaps {
    if pieces == [] then Gaps({}, {})
    else
      var front := pieces[..|pieces| - 1];
      NextGaps(GapsOf(expose, front), CallsIn(Run(expose, front).slots), pieces[|pieces| - 1])
  }

  /** All text arrived in one gap between tool starts, all refusal in one gap, and
      not in the same one. */
  ghost predicate Gathered(gaps: Gaps) {
    && (forall a, b :: a in gaps.text && b in gaps.text ==> a == b)
    && (forall a, b :: a in gaps.refusal && b in gaps.refusal ==> a == b)
    && gaps.text !! gaps.refusal
  }

  function SlotEntry(s: State, slot: Slot): seq<Entry> {
    match slot
    case ReasoningSlot => []
    case TextSlot => [Words(s.text)]
    case RefusalSlot => [Words(s.refusal)]
    case CallSlot(c) => [CallEntry(c)]
  }

  /** The final response's visible items, as transcript entries. */
  function ItemsUpTo(s: State, n: nat): seq<Entry>
    requires n <= |s.slots|
  {
    if n == 0 then [] else ItemsUpTo(s, n - 1) + SlotEntry(s, s.slots[n - 1])
  }

  function Items(s: State): seq<Entry> {
    ItemsUpTo(s, |s.slots|)
  }

  lemma {:induction false} ItemsSame(s: State, s': State, n: nat)
    requires n <= |s.slots| && n <= |s'.slots| && s.slots[..n] == s'.slots[..n]
    requires forall i: nat :: i < n ==> SlotEntry(s, s.slots[i]) == SlotEntry(s', s.slots[i])
    ensures ItemsUpTo(s, n) == ItemsUpTo(s', n)
  {
    if n > 0 {
      assert s.slots[..n][n - 1] == s'.slots[..n][n - 1];
      assert s.slots[..n - 1] == s.slots[..n][..n - 1] == s'.slots[..n - 1];
      ItemsSame(s, s', n - 1);
    }
  }

  lemma CallsInSnoc(slots: seq<Slot>, slot: Slot)
    ensures CallsIn(slots + [slot]) == CallsIn(slots) + if slot.CallSlot? then 1 else 0
  {
    assert (slots + [slot])[..|slots|] == slots;
  }

  // --------------------------------------------- what each kind of piece changes

  /** A new visible slot appends its entry; the others keep theirs. */
  lemma ItemsExtend(s: State, s': State, slot: Slot)
    requires Placed(s) && s'.slots == s.slots + [slot]
    requires s.textAt.Some? ==> s'.text == s.text
    requires s.refusalAt.Some? ==> s'.refusal == s.refusal
    ensures Items(s') == Items(s) + SlotEntry(s', slot)
  {
    forall i: nat | i < |s.slots| ensures SlotEntry(s, s.slots[i]) == SlotEntry(s', s.slots[i]) {
    }
    ItemsSame(s, s', |s.slots|);
  }

  lemma ItemsKept(s: State, s': State)
    requires Placed(s) && s'.slots == s.slots
    requires s.textAt.Some? ==> s'.text == s.text
    requires s.refusalAt.Some? ==> s'.refusal == s.refusal
    ensures Items(s') == Items(s)
  {
    forall i: nat | i < |s.slots| ensures SlotEntry(s, s.slots[i]) == SlotEntry(s', s.slots[i]) {
    }
    ItemsSame(s, s', |s.slots|);
  }

  /** The slot of an item opened in a gap, and the gaps its fragments came in. */
  ghost predicate OpenedIn(at: Option<nat>, slots: seq<Slot>, gaps: set<nat>) {
    && (at.None? <==> gaps == {})
    && (at.Some? ==> at.value < |slots| && CallsIn(slots[..at.value]) in gaps &&
                     forall a :: a in gaps ==> CallsIn(slots[..at.value]) <= a)
  }

  ghost predicate GapFacts(slots: seq<Slot>, textAt: Option<nat>, refusalAt: Option<nat>, told: seq<Entry>, gaps: Gaps) {
    && (LastWords(told) <==> CallsIn(slots) in gaps.text + gaps.refusal)
    && (forall a :: a in gaps.text + gaps.refusal ==> a <= CallsIn(slots))
    && OpenedIn(textAt, slots, gaps.text)
    && OpenedIn(refusalAt, slots, gaps.refusal)
  }

  ghost predicate RunGapFacts(s: State, told: seq<Entry>, gaps: Gaps) {
    GapFacts(s.slots, s.textAt, s.refusalAt, told, gaps)
  }

  lemma OpenedExtends(at: Option<nat>, slots: seq<Slot>, gaps: set<nat>, slot: Slot)
    requires OpenedIn(at, slots, gaps)
    ensures OpenedIn(at, slots + [slot], gaps)
  {
    if at.Some? {
      assert (slots + [slot])[..at.value] == slots[..at.value];
    }
  }

  lemma OpenedHere(slots: seq<Slot>, slot: Slot)
    ensures OpenedIn(Some(|slots|), slots + [slot], {CallsIn(slots)})
  {
    assert (slots + [slot])[..|slots|] == slots;
    hide CallsIn;
  }

  lemma OpenedMore(at: Option<nat>, slots: seq<Slot>, gaps: set<nat>)
    requires OpenedIn(at, slots, gaps) && at.Some?
    requires forall a :: a in gaps ==> a <= CallsIn(slots)
    ensures OpenedIn(at, slots, gaps + {CallsIn(slots)})
  {
  }

  lemma SayLast(told: seq<Entry>, delta: string)
    requires delta != ""
    ensures LastWords(Say(told, delta))
  {
  }

  lemma AddTextShape(s: State, delta: string)
    requires delta != ""
    ensures var s' := AddText(s, delta);
            && s'.text == s.text + delta && s'.refusal == s.refusal && s'.refusalAt == s.refusalAt
            && s'.slots == (if s.textAt.None? then s.slots + [TextSlot] else s.slots)
            && s'.textAt == (if s.textAt.None? then Some(|s.slots|) else s.textAt)
  {
  }

  lemma AddRefusalShape(s: State, delta: string)
    requires delta != ""
    ensures var s' := AddRefusal(s, delta);
            && s'.refusal == s.refusal + delta && s'.text == s.text && s'.textAt == s.textAt
            && s'.slots == (if s.refusalAt.None? then s.slots + [RefusalSlot] else s.slots)
            && s'.refusalAt == (if s.refusalAt.None? then Some(|s.slots|) else s.refusalAt)
  {
  }

  /** A fragment in the current gap, for an item already open or opened now. */
  lemma FragmentGap(at: Option<nat>, slots: seq<Slot>, gaps: set<nat>, slot: Slot)
    requires OpenedIn(at, slots, gaps) && !slot.CallSlot? && forall a :: a in gaps ==> a <= CallsIn(slots)
    ensures var slots' := if at.None? then slots + [slot] else slots;
            && CallsIn(slots') == CallsIn(slots)
            && OpenedIn(if at.None? then Some(|slots|) else at, slots', gaps + {CallsIn(slots)})
  {
    if at.None? {
      CallsInSnoc(slots, slot);
      OpenedHere(slots, slot);
      assert gaps + {CallsIn(slots)} == {CallsIn(slots)};
    } else {
      OpenedMore(at, slots, gaps);
    }
  }

  lemma TextGap(s: State, told: seq<Entry>, gaps: Gaps, delta: string)
    requires RunGapFacts(s, told, gaps) && delta != ""
    ensures RunGapFacts(AddText(s, delta), Say(told, delta), NextGaps(gaps, CallsIn(s.slots), Text(delta)))
  {
    AddTextShape(s, delta);
    SayLast(told, delta);
    FragmentGap(s.textAt, s.slots, gaps.text, TextSlot);
    OpenedExtends(s.refusalAt, s.slots, gaps.refusal, TextSlot);
  }

  lemma RefusalGap(s: State, told: seq<Entry>, gaps: Gaps, delta: string)
    requires RunGapFacts(s, told, gaps) && delta != ""
    ensures RunGapFacts(AddRefusal(s, delta), Say(told, delta), NextGaps(gaps, CallsIn(s.slots), Refusal(delta)))
  {
    AddRefusalShape(s, delta);
    SayLast(told, delta);
    FragmentGap(s.refusalAt, s.slots, gaps.refusal, RefusalSlot);
    OpenedExtends(s.textAt, s.slots, gaps.text, RefusalSlot);
  }

  lemma CallPiece(s: State, delta: CallDelta)
    ensures var s' := AddCall(s, delta);
            && s'.text == s.text && s'.refusal == s.refusal && s'.textAt == s.textAt && s'.refusalAt == s.refusalAt
            && s'.slots == if Starts(s, delta) then s.slots + [CallSlot(delta.index)] else s.slots
  {
  }

  /** Pieces that are neither text nor refusal: what happens to slots and words. */
  lemma OtherPiece(s: State, told: seq<Entry>, piece: Piece)
    requires Placed(s) && !piece.Text? && !piece.Refusal?
    ensures var s' := Step(s, piece);
            && s'.text == s.text && s'.refusal == s.refusal && s'.textAt == s.textAt && s'.refusalAt == s.refusalAt
            && (if piece.CallPart? && Starts(s, piece.call) then
                  s'.slots == s.slots + [CallSlot(piece.call.index)] && Tell(told, s, piece) == told + [CallEntry(piece.call.index)]
                else
                  (s'.slots == s.slots || s'.slots == s.slots + [ReasoningSlot]) && Tell(told, s, piece) == told)
  {
    hide Placed;
    hide AddCall;
    hide Starts;
    if piece.CallPart? { CallPiece(s, piece.call); }
  }

  /** A slot that takes no words leaves the gap facts in place. */
  lemma SlotGap(slots: seq<Slot>, slot: Slot, textAt: Option<nat>, refusalAt: Option<nat>, told: seq<Entry>, told': seq<Entry>, gaps: Gaps)
    requires GapFacts(slots, textAt, refusalAt, told, gaps)
    requires told' == if slot.CallSlot? then told + [CallEntry(slot.call)] else told
    ensures GapFacts(slots + [slot], textAt, refusalAt, told', gaps)
  {
    CallsInSnoc(slots, slot);
    OpenedExtends(textAt, slots, gaps.text, slot);
    OpenedExtends(refusalAt, slots, gaps.refusal, slot);
    hide OpenedIn;
    hide CallsIn;
  }

  lemma OtherGap(s: State, told: seq<Entry>, gaps: Gaps, piece: Piece)
    requires Placed(s) && RunGapFacts(s, told, gaps) && !piece.Text? && !piece.Refusal?
    ensures RunGapFacts(Step(s, piece), Tell(told, s, piece), gaps)
  {
    OtherPiece(s, told, piece);
    var s' := Step(s, piece);
    if s'.slots != s.slots {
      SlotGap(s.slots, s'.slots[|s.slots|], s.textAt, s.refusalAt, told, Tell(told, s, piece), gaps);
    }
    hide Step;
    hide Tell;
    hide Placed;
    hide Starts;
    hide GapFacts;
  }

  lemma {:induction false} RunGaps(expose: bool, pieces: seq<Piece>)
    ensures RunGapFacts(Run(expose, pieces), Told(expose, pieces), GapsOf(expose, pieces))
  {
    if pieces != [] {
      var front := pieces[..|pieces| - 1];
      var s := Run(expose, front);
      RunGaps(expose, front);
      RunPlaced(expose, front);
      match pieces[|pieces| - 1]
      case Text(delta) => if delta != "" { TextGap(s, Told(expose, front), GapsOf(expose, front), delta); }
      case Refusal(delta) => if delta != "" { RefusalGap(s, Told(expose, front), GapsOf(expose, front), delta); }
      case _ => OtherGap(s, Told(expose, front), GapsOf(expose, front), pieces[|pieces| - 1]);
    }
  }

  // -------------------------------------------- gathered chunks agree (forwards)

  /** Position `m` holds the text or refusal item that ends the items up to `n`. */
  ghost predicate EndsWith(s: State, n: nat, m: nat)
    requires n <= |s.slots|
  {
    && m < n && (s.slots[m].TextSlot? || s.slots[m].RefusalSlot?)
    && CallsIn(s.slots[..m]) == CallsIn(s.slots[..n])
    && (forall k: nat :: m < k < n ==> s.slots[k].ReasoningSlot?)
  }

  lemma {:induction false} ItemsToLast(s: State, n: nat, m: nat)
    requires m < n <= |s.slots| && forall k: nat :: m < k < n ==> s.slots[k].ReasoningSlot?
    ensures ItemsUpTo(s, n) == ItemsUpTo(s, m) + SlotEntry(s, s.slots[m])
  {
    if m < n - 1 {
      ItemsToLast(s, n - 1, m);
      assert ItemsUpTo(s, n) == ItemsUpTo(s, n - 1) + [];
    }
  }

  lemma CallsUpTo(slots: seq<Slot>, n: nat)
    requires 0 < n <= |slots|
    ensures CallsIn(slots[..n]) == CallsIn(slots[..n - 1]) + if slots[n - 1].CallSlot? then 1 else 0
  {
    assert slots[..n][..n - 1] == slots[..n - 1];
  }

  lemma LastEntry(s: State, n: nat)
    requires 0 < n <= |s.slots| && LastWords(ItemsUpTo(s, n)) && !s.slots[n - 1].ReasoningSlot?
    ensures s.slots[n - 1].TextSlot? || s.slots[n - 1].RefusalSlot?
  {
    assert ItemsUpTo(s, n)[|ItemsUpTo(s, n)| - 1] == SlotEntry(s, s.slots[n - 1])[0];
  }

  lemma ReasoningLast(s: State, n: nat)
    requires 0 < n <= |s.slots| && s.slots[n - 1].ReasoningSlot?
    ensures ItemsUpTo(s, n) == ItemsUpTo(s, n - 1)
  {
    assert ItemsUpTo(s, n - 1) + [] == ItemsUpTo(s, n - 1);
  }

  lemma {:induction false} LastItemWords(s: State, n: nat) returns (m: nat)
    requires n <= |s.slots| && LastWords(ItemsUpTo(s, n))
    ensures EndsWith(s, n, m)
  {
    CallsUpTo(s.slots, n);
    if s.slots[n - 1].ReasoningSlot? {
      ReasoningLast(s, n);
      m := LastItemWords(s, n - 1);
    } else {
      LastEntry(s, n);
      m := n - 1;
    }
  }

  lemma SayAppend(front: seq<Entry>, text: string, delta: string)
    requires delta != ""
    ensures Say(front + [Words(text)], delta) == front + [Words(text + delta)]
  {
  }

  lemma EarlierSame(s: State, s': State, m: nat)
    requires Placed(s) && s'.slots == s.slots && m < |s.slots|
    requires (s.slots[m].TextSlot? && s'.refusal == s.refusal) || (s.slots[m].RefusalSlot? && s'.text == s.text)
    ensures ItemsUpTo(s, m) == ItemsUpTo(s', m)
  {
    forall i: nat | i < m ensures SlotEntry(s, s.slots[i]) == SlotEntry(s', s.slots[i]) {
      assert s.slots[i] != s.slots[m];
    }
    ItemsSame(s, s', m);
  }

  /** More text for the item that ends the response: both sides extend it. */
  lemma ExtendLast(s: State, s': State, n: nat, m: nat, told: seq<Entry>, delta: string)
    requires Placed(s) && n == |s.slots| && EndsWith(s, n, m) && told == Items(s) && delta != ""
    requires s'.slots == s.slots
    requires (s.slots[m].TextSlot? && s'.text == s.text + delta && s'.refusal == s.refusal) ||
             (s.slots[m].RefusalSlot? && s'.refusal == s.refusal + delta && s'.text == s.text)
    ensures Say(told, delta) == Items(s')
  {
    ItemsToLast(s, n, m);
    ItemsToLast(s', n, m);
    EarlierSame(s, s', m);
    SayAppend(ItemsUpTo(s, m), if s.slots[m].TextSlot? then s.text else s.refusal, delta);
  }

  lemma TextAgrees(s: State, told: seq<Entry>, gaps: Gaps, delta: string)
    requires Placed(s) && RunGapFacts(s, told, gaps) && told == Items(s) && delta != ""
    requires Gathered(NextGaps(gaps, CallsIn(s.slots), Text(delta)))
    ensures Say(told, delta) == Items(AddText(s, delta))
  {
    var here := CallsIn(s.slots);
    var next := NextGaps(gaps, here, Text(delta));
    AddTextShape(s, delta);
    assert here in next.text;
    if s.textAt.None? {
      assert here !in gaps.refusal;
      ItemsExtend(s, AddText(s, delta), TextSlot);
      assert s.text + delta == delta;
    } else {
      var first := CallsIn(s.slots[..s.textAt.value]);
      assert first in next.text;
      assert here in gaps.text + gaps.refusal;
      assert s.slots[..|s.slots|] == s.slots;
      var m := LastItemWords(s, |s.slots|);
      assert s.slots[m].RefusalSlot? ==> here in next.refusal;
      ExtendLast(s, AddText(s, delta), |s.slots|, m, told, delta);
    }
  }

  lemma RefusalAgrees(s: State, told: seq<Entry>, gaps: Gaps, delta: string)
    requires Placed(s) && RunGapFacts(s, told, gaps) && told == Items(s) && delta != ""
    requires Gathered(NextGaps(gaps, CallsIn(s.slots), Refusal(delta)))
    ensures Say(told, delta) == Items(AddRefusal(s, delta))
  {
    var here := CallsIn(s.slots);
    var next := NextGaps(gaps, here, Refusal(delta));
    AddRefusalShape(s, delta);
    assert here in next.refusal;
    if s.refusalAt.None? {
      assert here !in gaps.text;
      ItemsExtend(s, AddRefusal(s, delta), RefusalSlot);
      assert s.refusal + delta == delta;
    } else {
      var first := CallsIn(s.slots[..s.refusalAt.value]);
      assert first in next.refusal;
      assert here in gaps.text + gaps.refusal;
      assert s.slots[..|s.slots|] == s.slots;
      var m := LastItemWords(s, |s.slots|);
      assert s.slots[m].TextSlot? ==> here in next.text;
      ExtendLast(s, AddRefusal(s, delta), |s.slots|, m, told, delta);
    }
  }

  lemma OtherAgrees(s: State, told: seq<Entry>, piece: Piece)
    requires Placed(s) && told == Items(s) && !piece.Text? && !piece.Refusal?
    ensures Tell(told, s, piece) == Items(Step(s, piece))
  {
    OtherPiece(s, told, piece);
    var s' := Step(s, piece);
    if s'.slots == s.slots {
      ItemsKept(s, s');
    } else {
      ItemsExtend(s, s', s'.slots[|s.slots|]);
    }
  }

  lemma GatheredBefore(gaps: Gaps, here: nat, piece: Piece)
    requires Gathered(NextGaps(gaps, here, piece))
    ensures Gathered(gaps)
  {
    assert gaps.text <= NextGaps(gaps, here, piece).text && gaps.refusal <= NextGaps(gaps, here, piece).refusal;
  }

  /** Gathered chunks: the transcript is the list of visible final items. */
  lemma {:induction false} GatheredAgrees(expose: bool, pieces: seq<Piece>)
    requires Gathered(GapsOf(expose, pieces))
    ensures Told(expose, pieces) == Items(Run(expose, pieces))
  {
    if pieces != [] {
      var front := pieces[..|pieces| - 1];
      var piece := pieces[|pieces| - 1];
      var s, told, gaps := Run(expose, front), Told(expose, front), GapsOf(expose, front);
      GatheredBefore(gaps, CallsIn(s.slots), piece);
      GatheredAgrees(expose, front);
      RunGaps(expose, front);
      RunPlaced(expose, front);
      match piece
      case Text(delta) => if delta != "" { TextAgrees(s, told, gaps, delta); }
      case Refusal(delta) => if delta != "" { RefusalAgrees(s, told, gaps, delta); }
      case _ => OtherAgrees(s, told, piece);
    }
  }
}
