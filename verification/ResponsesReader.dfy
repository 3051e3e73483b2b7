/** A strict client of the Responses event stream, written without reference to
    the bridge. It insists on consecutive sequence numbers, output indexes
    0, 1, 2, ..., no new item while a reasoning item is open, deltas that address
    an open item by both id and index, done payloads equal to what was streamed,
    and a final response whose n-th output item is the n-th item streamed. */
module ResponsesReader {
  import opened Optional
  import opened Wire

  datatype Kind = ReasoningKind | BareMessage | TextKind | RefusalKind | CallKind

  datatype Shown = Shown(id: string, kind: Kind, streamed: string, open: bool)

  datatype Phase = Waiting | Reading | Done | Rejected

  datatype Reader = Reader(phase: Phase, next: nat, items: seq<Shown>)

  const START := Reader(Waiting, 0, [])

  function KindOf(item: Item): Kind {
    match item
    case ReasoningItem(_, _) => ReasoningKind
    case FunctionCall(_, _, _, _) => CallKind
    case MessageItem(_, parts, _) =>
      if |parts| == 1 && parts[0].OutputText? then TextKind
      else if |parts| == 1 && parts[0].RefusalPart? then RefusalKind
      else BareMessage
    case OtherItem => BareMessage
  }

  function IdOf(item: Item): string {
    if item.OtherItem? then "" else item.id
  }

  function PartPayload(part: Part): string {
    match part
    case OutputText(text) => text
    case RefusalPart(refusal) => refusal
    case OtherPart => ""
  }

  function Payload(item: Item): string {
    match item
    case ReasoningItem(_, content) => content
    case MessageItem(_, parts, _) => if |parts| == 1 then PartPayload(parts[0]) else ""
    case FunctionCall(_, _, _, arguments) => arguments
    case OtherItem => ""
  }

  /** A call whose arguments were never streamed stands for an empty object. */
  predicate Delivers(shown: Shown, payload: string) {
    payload == if shown.kind.CallKind? && shown.streamed == "" then "{}" else shown.streamed
  }

  /** An item of the final response repeats what was streamed; a reasoning item
      may go on beyond it. */
  predicate Repeats(shown: Shown, item: Item) {
    && IdOf(item) == shown.id
    && KindOf(item) == shown.kind
    && (if shown.kind.ReasoningKind? then shown.streamed <= Payload(item) else Delivers(shown, Payload(item)))
  }

  predicate Addresses(r: Reader, id: string, index: Option<int>, kind: Kind) {
    && index.Some?
    && 0 <= index.value < |r.items|
    && r.items[index.value].id == id
    && r.items[index.value].kind == kind
    && r.items[index.value].open
  }

  function Append(r: Reader, n: int, delta: string): Reader
    requires 0 <= n < |r.items|
  {
    r.(items := r.items[n := r.items[n].(streamed := r.items[n].streamed + delta)])
  }

  function Interpret(r: Reader, body: Body): Reader {
    var reject := r.(phase := Rejected);
    match body
    case ItemAdded(index, item) =>
      if index == Some(|r.items|) && forall i :: 0 <= i < |r.items| && r.items[i].kind.ReasoningKind? ==> !r.items[i].open
      then r.(items := r.items + [Shown(IdOf(item), KindOf(item), "", true)])
      else reject
    case PartAdded(id, index, part) =>
      if Addresses(r, id, index, BareMessage) && (part.OutputText? || part.RefusalPart?) && PartPayload(part) == ""
      then r.(items := r.items[index.value := r.items[index.value].(kind := if part.OutputText? then TextKind else RefusalKind)])
      else reject
    case TextDelta(id, index, delta) =>
      if Addresses(r, id, index, TextKind) then Append(r, index.value, delta) else reject
    case RefusalDelta(id, index, delta) =>
      if Addresses(r, id, index, RefusalKind) then Append(r, index.value, delta) else reject
    case ReasoningDelta(id, index, delta) =>
      if Addresses(r, id, index, ReasoningKind) then Append(r, index.value, delta) else reject
    case ArgumentsDelta(id, index, delta) =>
      if Addresses(r, id, index, CallKind) then Append(r, index.value, delta) else reject
    case TextDone(id, index, text) =>
      if Addresses(r, id, index, TextKind) && Delivers(r.items[index.value], text) then r else reject
    case RefusalDone(id, index, refusal) =>
      if Addresses(r, id, index, RefusalKind) && Delivers(r.items[index.value], refusal) then r else reject
    case ReasoningDone(id, index, text) =>
      if Addresses(r, id, index, ReasoningKind) && Delivers(r.items[index.value], text) then r else reject
    case ArgumentsDone(id, index, arguments) =>
      if Addresses(r, id, index, CallKind) && Delivers(r.items[index.value], arguments) then r else reject
    case PartDone(id, index, part) =>
      if ((part.OutputText? && Addresses(r, id, index, TextKind)) || (part.RefusalPart? && Addresses(r, id, index, RefusalKind))) &&
         Delivers(r.items[index.value], PartPayload(part))
      then r else reject
    case ItemDone(index, item) =>
      if Addresses(r, IdOf(item), index, KindOf(item)) && Delivers(r.items[index.value], Payload(item))
      then r.(items := r.items[index.value := r.items[index.value].(open := false)])
      else reject
    case Completed(response) => if Ends(r, response) then r.(phase := Done) else reject
    case Incomplete(response) => if Ends(r, response) then r.(phase := Done) else reject
    case _ => reject
  }

  predicate Ends(r: Reader, response: Response) {
    && |response.output| == |r.items|
    && (forall i :: 0 <= i < |r.items| ==> !r.items[i].open && Repeats(r.items[i], response.output[i]))
  }

  function Receive(r: Reader, event: Event): Reader {
    var counted := r.(next := r.next + 1);
    if event.number != r.next then r.(phase := Rejected)
    else if r.phase.Waiting? && event.body.Created? then counted.(phase := Reading)
    else if r.phase.Reading? then Interpret(counted, event.body)
    else r.(phase := Rejected)
  }

  function Read(stream: seq<Event>): Reader {
    if stream == [] then START
    else Receive(Read(stream[..|stream| - 1]), stream[|stream| - 1])
  }

  // ------------------------------------------- what an accepted stream looks like

  /** The concatenation of the deltas addressed to output item `n`. */
  function DeltasAt(stream: seq<Event>, n: nat): string {
    if stream == [] then ""
    else DeltasAt(stream[..|stream| - 1], n) + DeltaAt(stream[|stream| - 1].body, n)
  }

  function DeltaAt(body: Body, n: nat): string {
    match body
    case TextDelta(_, index, delta) => if index == Some(n) then delta else ""
    case RefusalDelta(_, index, delta) => if index == Some(n) then delta else ""
    case ReasoningDelta(_, index, delta) => if index == Some(n) then delta else ""
    case ArgumentsDelta(_, index, delta) => if index == Some(n) then delta else ""
    case _ => ""
  }

  function Added(stream: seq<Event>): nat {
    if stream == [] then 0
    else Added(stream[..|stream| - 1]) + if stream[|stream| - 1].body.ItemAdded? then 1 else 0
  }

  lemma {:induction false} AcceptedPrefix(stream: seq<Event>, n: nat)
    requires n <= |stream| && !Read(stream).phase.Rejected?
    ensures !Read(stream[..n]).phase.Rejected?
    decreases |stream| - n
  {
    if n < |stream| {
      AcceptedPrefix(stream, n + 1);
      assert stream[..n + 1][..n] == stream[..n];
    } else {
      assert stream[..n] == stream;
    }
  }

  lemma ReceiveCounts(r: Reader, event: Event)
    requires !Receive(r, event).phase.Rejected?
    ensures event.number == r.next && Receive(r, event).next == r.next + 1
    ensures |Receive(r, event).items| == |r.items| + if event.body.ItemAdded? then 1 else 0
    ensures event.body.ItemAdded? ==> event.body.outputIndex == Some(|r.items|)
  {
  }

  lemma ReceiveStreams(r: Reader, event: Event, n: nat)
    requires !Receive(r, event).phase.Rejected? && n < |Receive(r, event).items|
    ensures Receive(r, event).items[n].streamed == (if n < |r.items| then r.items[n].streamed else "") + DeltaAt(event.body, n)
  {
  }

  lemma {:induction false} NotYetStreamed(stream: seq<Event>, n: nat)
    requires !Read(stream).phase.Rejected? && n >= |Read(stream).items|
    ensures DeltasAt(stream, n) == ""
  {
    if stream != [] {
      AcceptedPrefix(stream, |stream| - 1);
      var front := stream[..|stream| - 1];
      ReceiveCounts(Read(front), stream[|stream| - 1]);
      NotYetStreamed(front, n);
    }
  }

  lemma {:induction false} AcceptedStreams(stream: seq<Event>, n: nat)
    requires !Read(stream).phase.Rejected? && n < |Read(stream).items|
    ensures Read(stream).items[n].streamed == DeltasAt(stream, n)
  {
    if stream != [] {
      AcceptedPrefix(stream, |stream| - 1);
      var front := stream[..|stream| - 1];
      ReceiveStreams(Read(front), stream[|stream| - 1], n);
      if n < |Read(front).items| { AcceptedStreams(front, n); } else { NotYetStreamed(front, n); }
    }
  }

  lemma {:induction false} AcceptedCounts(stream: seq<Event>)
    requires !Read(stream).phase.Rejected?
    ensures Read(stream).next == |stream| && |Read(stream).items| == Added(stream)
  {
    if stream != [] {
      AcceptedPrefix(stream, |stream| - 1);
      AcceptedCounts(stream[..|stream| - 1]);
      ReceiveCounts(Read(stream[..|stream| - 1]), stream[|stream| - 1]);
    }
  }

  /** In an accepted stream sequence numbers are 0, 1, 2, ... and the k-th item
      added has output index k. */
  lemma AcceptedNumbers(stream: seq<Event>, i: nat)
    requires !Read(stream).phase.Rejected? && i < |stream|
    ensures stream[i].number == i
    ensures stream[i].body.ItemAdded? ==> stream[i].body.outputIndex == Some(Added(stream[..i]))
  {
    AcceptedPrefix(stream, i + 1);
    AcceptedPrefix(stream, i);
    assert stream[..i + 1][..i] == stream[..i];
    AcceptedCounts(stream[..i]);
    ReceiveCounts(Read(stream[..i]), stream[i]);
  }
}
