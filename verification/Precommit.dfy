/** What both streaming handlers share: the events as the commit logic sees them,
    the rules that decide when a stream is committed, and the reader goroutine
    with its one-slot channel. */
module Precommit {
  import opened Optional
  import opened Wire

  /** One upstream event: its name, and what the code reads off its payload.
      `hinted` says that the payload contains one of the substrings that count as
      output whatever the event is called; `output` lists the item types of the
      response in the payload, if there is one. */
  datatype UpEvent = UpEvent(
    name: string,
    bytes: nat,
    hinted: bool,
    number: Option<int>,
    output: Option<seq<string>>,
    event: Event)

  const MAX_EVENTS := 32
  const MAX_BYTES := 64 * 1024

  predicate IsSpace(c: char) {
    c as int in {9, 10, 11, 12, 13, 32, 0x85, 0xA0}
  }

  function TrimLeft(s: string): string {
    if s != "" && IsSpace(s[0]) then TrimLeft(s[1..]) else s
  }

  function Trim(s: string): string {
    TrimRight(TrimLeft(s))
  }

  function TrimRight(s: string): string {
    if s != "" && IsSpace(s[|s| - 1]) then TrimRight(s[..|s| - 1]) else s
  }

  const MEANINGFUL := {
    "response.output_text.delta", "response.refusal.delta", "response.refusal.done",
    "response.function_call_arguments.delta", "response.output_item.added", "response.content_part.added",
    "response.output_text.done", "response.function_call_arguments.done", "response.output_item.done",
    "response.completed", "response.failed", "response.incomplete"
  }

  predicate IsMeaningful(e: UpEvent) {
    Trim(e.name) in MEANINGFUL || e.hinted
  }

  /** A completion that shows the user nothing. */
  predicate IsEmptyCompletion(e: UpEvent) {
    Trim(e.name) == "response.completed" && e.output.Some? && forall i | 0 <= i < |e.output.value| :: e.output.value[i] == "reasoning"
  }

  predicate EndsBeforeOutput(e: UpEvent) {
    e.name == "response.failed" || e.name == "error"
  }

  lemma TrimKeepsNames()
    ensures Trim("response.completed") == "response.completed"
    ensures Trim("response.failed") == "response.failed"
    ensures Trim("response.incomplete") == "response.incomplete"
  {
  }

  function Bytes(events: seq<UpEvent>): nat {
    if events == [] then 0 else Bytes(events[..|events| - 1]) + events[|events| - 1].bytes
  }

  // ---------------------------------------------------------- the reader's side

  /** The reader goroutine and its channel: how many events it has pulled, the one
      it is trying to send, the channel's content, whether it has closed the
      channel, and whether the consumer has told it to stop. */
  datatype Pipe = Pipe(pulled: nat, hand: Option<UpEvent>, channel: seq<UpEvent>, closed: bool, stopped: bool)

  datatype Move =
    | Pull   // the stream yields another event, or ends
    | Send   // the event in hand enters the free slot
    | Quit   // the stop signal is chosen over sending

  const EMPTY := Pipe(0, None, [], false, false)

  /** A move of the reader; one that is not enabled changes nothing. */
  function Moved(upstream: seq<UpEvent>, p: Pipe, move: Move): Pipe {
    match move
    case Pull =>
      if p.closed || p.hand.Some? then p
      else if p.pulled < |upstream| then p.(hand := Some(upstream[p.pulled]), pulled := p.pulled + 1)
      else p.(closed := true)
    case Send => if p.hand.Some? && p.channel == [] then p.(channel := [p.hand.value], hand := None) else p
    case Quit => if p.hand.Some? && p.stopped then p.(hand := None, closed := true) else p
  }

  function Held(p: Pipe): seq<UpEvent> {
    p.channel + if p.hand.Some? then [p.hand.value] else []
  }

  /** What the consumer took, then the slot, then the hand: always the stream's
      first events; nothing is missing unless the reader quit after a stop. */
  ghost predicate InOrder(upstream: seq<UpEvent>, p: Pipe, taken: seq<UpEvent>) {
    && p.pulled <= |upstream| && |p.channel| <= 1
    && taken + Held(p) <= upstream[..p.pulled]
    && (!p.closed || !p.stopped ==> taken + Held(p) == upstream[..p.pulled])
    && (p.closed ==> p.hand.None? && (p.stopped || p.pulled == |upstream|))
  }

  lemma MovedInOrder(upstream: seq<UpEvent>, p: Pipe, taken: seq<UpEvent>, move: Move)
    requires InOrder(upstream, p, taken)
    ensures InOrder(upstream, Moved(upstream, p, move), taken)
  {
    var p' := Moved(upstream, p, move);
    match move
    case Pull =>
      if p' != p && !p'.closed {
        assert Held(p') == Held(p) + [upstream[p.pulled]];
        assert taken + Held(p') == taken + Held(p) + [upstream[p.pulled]];
        assert upstream[..p.pulled + 1] == upstream[..p.pulled] + [upstream[p.pulled]];
      }
    case Send => assert Held(p') == Held(p);
    case Quit => assert p' != p ==> Held(p) == Held(p') + [p.hand.value];
  }

  lemma StopInOrder(upstream: seq<UpEvent>, p: Pipe, taken: seq<UpEvent>)
    requires InOrder(upstream, p, taken)
    ensures InOrder(upstream, p.(stopped := true), taken)
  {
    assert Held(p.(stopped := true)) == Held(p);
  }

  /** A closed, empty channel means everything was taken. */
  lemma ClosedIsAll(upstream: seq<UpEvent>, p: Pipe, taken: seq<UpEvent>)
    requires InOrder(upstream, p, taken) && p.closed && p.channel == [] && !p.stopped
    ensures taken == upstream
  {
    assert taken + Held(p) == taken;
    assert upstream[..|upstream|] == upstream;
  }

  // -------------------------------------------------------- the collecting loop

  /** What the provider's stream yields, and whether it then reports an error. */
  datatype Source = Source(upstream: seq<UpEvent>, broken: bool)

  datatype Verdict =
    | Undecided
    | GivenUp(errorClass: string, message: string)
    | Committed

  datatype Gather = Gather(pipe: Pipe, taken: seq<UpEvent>, buf: seq<UpEvent>, verdict: Verdict)

  const NOTHING_YET := Gather(EMPTY, [], [], Undecided)

  /** The ready case the consumer's select picks. `late` is the deadline check
      after a receive, `Deadline` the one at the head of the loop. */
  datatype Choice =
    | Deadline
    | Cancel
    | FirstTimer
    | OutputTimer
    | IdleTimer
    | PingTimer
    | Receive(late: bool)

  datatype Action = Reader(move: Move) | Consumer(choice: Choice)

  const EMPTY_RESPONSE := "upstream returned empty response"
  const NO_OUTPUT := "no meaningful upstream output within 10 seconds"
  const LIMIT := "precommit buffer limit reached before meaningful output"
  const NOTHING_CAME := "upstream stream ended before meaningful event"
  const CANCELLED := "request cancelled by client"

  function Stop(g: Gather): Gather {
    g.(pipe := g.pipe.(stopped := true))
  }

  function GiveUp(g: Gather, errorClass: string, message: string): Gather {
    Stop(g).(verdict := GivenUp(errorClass, message))
  }

  function Take(g: Gather): Gather
    requires g.pipe.channel != []
  {
    g.(pipe := g.pipe.(channel := g.pipe.channel[1..]), taken := g.taken + [g.pipe.channel[0]])
  }

  function Buffer(g: Gather, e: UpEvent): Gather {
    var held := g.(buf := g.buf + [e]);
    if EndsBeforeOutput(e) then GiveUp(held, "upstream", "upstream response failed before output")
    else if IsEmptyCompletion(e) then GiveUp(held, "upstream", EMPTY_RESPONSE)
    else if IsMeaningful(e) then held.(verdict := Committed)
    else held
  }

  /** One turn of the collecting loop. */
  function Collect(source: Source, g: Gather, choice: Choice): Gather {
    if choice.Deadline? then GiveUp(g, "timeout", NO_OUTPUT)
    else if |g.buf| >= MAX_EVENTS || Bytes(g.buf) >= MAX_BYTES then GiveUp(g, "timeout", LIMIT)
    else
      match choice
      case Cancel => GiveUp(g, "client", CANCELLED)
      case FirstTimer => if g.buf == [] then GiveUp(g, "timeout", "first event timeout") else g
      case OutputTimer => GiveUp(g, "timeout", NO_OUTPUT)
      case IdleTimer => GiveUp(g, "timeout", "stream idle timeout")
      case Receive(late) =>
        if g.pipe.channel != [] then
          if late then GiveUp(Take(g), "timeout", NO_OUTPUT) else Buffer(Take(g), g.pipe.channel[0])
        else if g.pipe.closed then
          if late then GiveUp(g, "timeout", NO_OUTPUT)
          else if source.broken then GiveUp(g, "upstream", "stream error")
          else GiveUp(g, "upstream", NOTHING_CAME)
        else g
      case _ => g
  }

  /** An event that may sit in the buffer without ending the collection. */
  predicate Mute(e: UpEvent) {
    !EndsBeforeOutput(e) && !IsEmptyCompletion(e) && !IsMeaningful(e)
  }

  ghost predicate AllMute(events: seq<UpEvent>) {
    forall i :: 0 <= i < |events| ==> Mute(events[i])
  }

  /** Every event but the last was taken in while there was room. */
  ghost predicate Bounded(buf: seq<UpEvent>) {
    && |buf| <= MAX_EVENTS
    && (buf != [] ==> Bytes(buf[..|buf| - 1]) < MAX_BYTES)
  }

  /** Committed at the first meaningful event and not before. */
  ghost predicate CommittedAt(buf: seq<UpEvent>) {
    && buf != []
    && AllMute(buf[..|buf| - 1])
    && IsMeaningful(buf[|buf| - 1]) && !EndsBeforeOutput(buf[|buf| - 1]) && !IsEmptyCompletion(buf[|buf| - 1])
  }

  ghost predicate Gathered(source: Source, g: Gather) {
    && InOrder(source.upstream, g.pipe, g.taken)
    && Bounded(g.buf)
    && (match g.verdict
        case Undecided => g.taken == g.buf && AllMute(g.buf) && !g.pipe.stopped
        case GivenUp(_, message) => message == NOTHING_CAME ==> g.taken == source.upstream && AllMute(source.upstream)
        case Committed => g.buf <= g.taken && CommittedAt(g.buf))
  }

  lemma TakeInOrder(upstream: seq<UpEvent>, g: Gather)
    requires InOrder(upstream, g.pipe, g.taken) && g.pipe.channel != []
    ensures InOrder(upstream, Take(g).pipe, Take(g).taken)
  {
    assert Take(g).taken + Held(Take(g).pipe) == g.taken + Held(g.pipe);
  }

  lemma ReaderGathered(source: Source, g: Gather, move: Move)
    requires Gathered(source, g)
    ensures Gathered(source, g.(pipe := Moved(source.upstream, g.pipe, move)))
  {
    MovedInOrder(source.upstream, g.pipe, g.taken, move);
  }

  lemma BufferGathered(source: Source, g: Gather, e: UpEvent)
    requires InOrder(source.upstream, g.pipe, g.taken) && !g.pipe.stopped && g.verdict.Undecided?
    requires g.taken == g.buf + [e] && AllMute(g.buf) && |g.buf| < MAX_EVENTS && Bytes(g.buf) < MAX_BYTES
    ensures Gathered(source, Buffer(g, e))
  {
    var held := g.(buf := g.buf + [e]);
    assert held.buf[..|held.buf| - 1] == g.buf;
    StopInOrder(source.upstream, g.pipe, g.taken);
  }

  /** Giving up keeps the invariant, provided the words about it are true. */
  lemma GiveUpGathered(source: Source, g: Gather, errorClass: string, message: string)
    requires InOrder(source.upstream, g.pipe, g.taken) && Bounded(g.buf)
    requires message == NOTHING_CAME ==> g.taken == source.upstream && AllMute(source.upstream)
    ensures Gathered(source, GiveUp(g, errorClass, message))
  {
    StopInOrder(source.upstream, g.pipe, g.taken);
    hide InOrder;
    hide Bounded;
    hide AllMute;
  }

  lemma ReceiveGathered(source: Source, g: Gather)
    requires Gathered(source, g) && g.verdict.Undecided? && g.pipe.channel != []
    requires |g.buf| < MAX_EVENTS && Bytes(g.buf) < MAX_BYTES
    ensures Gathered(source, Buffer(Take(g), g.pipe.channel[0]))
    ensures Buffer(Take(g), g.pipe.channel[0]).verdict.Committed? ==>
              Buffer(Take(g), g.pipe.channel[0]).taken == Buffer(Take(g), g.pipe.channel[0]).buf &&
              !Buffer(Take(g), g.pipe.channel[0]).pipe.stopped
  {
    TakeInOrder(source.upstream, g);
    BufferGathered(source, Take(g), g.pipe.channel[0]);
    hide InOrder;
    hide Bounded;
    hide AllMute;
  }

  lemma CollectGathered(source: Source, g: Gather, choice: Choice)
    requires Gathered(source, g) && g.verdict.Undecided?
    ensures Gathered(source, Collect(source, g, choice))
    ensures Collect(source, g, choice).verdict.Committed? ==>
              Collect(source, g, choice).taken == Collect(source, g, choice).buf && !Collect(source, g, choice).pipe.stopped
  {
    var next := Collect(source, g, choice);
    if choice.Receive? && g.pipe.channel != [] && |g.buf| < MAX_EVENTS && Bytes(g.buf) < MAX_BYTES {
      if choice.late {
        TakeInOrder(source.upstream, g);
        GiveUpGathered(source, Take(g), "timeout", NO_OUTPUT);
      } else {
        ReceiveGathered(source, g);
      }
    } else if next.verdict.GivenUp? {
      if next.verdict.message == NOTHING_CAME { ClosedIsAll(source.upstream, g.pipe, g.taken); }
      GiveUpGathered(source, g, next.verdict.errorClass, next.verdict.message);
    }
    hide InOrder;
    hide Bounded;
    hide AllMute;
    hide Buffer;
  }

  lemma TakeGathered(source: Source, g: Gather)
    requires Gathered(source, g) && g.verdict.Committed? && g.pipe.channel != []
    ensures Gathered(source, Take(g)) && Take(g).pipe.stopped == g.pipe.stopped
  {
    TakeInOrder(source.upstream, g);
  }

  lemma StopGathered(source: Source, g: Gather)
    requires Gathered(source, g) && g.verdict.Committed?
    ensures Gathered(source, Stop(g))
  {
    StopInOrder(source.upstream, g.pipe, g.taken);
  }

  /** What the consumer took, the channel and the reader's hand are, in this
      order, the stream's first events; and a consumer that finds the channel
      closed before it has told the reader to stop has taken all of them. */
  lemma ReadInOrder(source: Source, g: Gather)
    requires Gathered(source, g)
    ensures g.taken + Held(g.pipe) <= source.upstream
    ensures g.pipe.closed && g.pipe.channel == [] && !g.pipe.stopped ==> g.taken == source.upstream
  {
    if g.pipe.closed && g.pipe.channel == [] && !g.pipe.stopped { ClosedIsAll(source.upstream, g.pipe, g.taken); }
  }

  /** A stream is given up for want of output only if it had none, and the buffer
      holds at most 32 events, all but the last of them under 64 KiB. */
  lemma BufferMeaning(source: Source, g: Gather)
    requires Gathered(source, g)
    ensures g.verdict.GivenUp? && g.verdict.message == NOTHING_CAME ==>
              forall i :: 0 <= i < |source.upstream| ==> !IsMeaningful(source.upstream[i])
    ensures |g.buf| <= 32 && (g.buf != [] ==> Bytes(g.buf[..|g.buf| - 1]) < 65536)
  {
    if g.verdict.GivenUp? && g.verdict.message == NOTHING_CAME {
      forall i | 0 <= i < |source.upstream| ensures !IsMeaningful(source.upstream[i]) {
        assert Mute(source.upstream[i]);
      }
    }
  }
}
