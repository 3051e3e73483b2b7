/** What a Messages client does with the event stream: it opens, extends and
    closes content blocks by index, and gives up on the first event that breaks
    the protocol. It is written without reference to the encoder. */
module MessagesReader {
  import opened Wire

  datatype Phase =
    | Waiting
    | Streaming
    | Closing(stopReason: string)
    | Finished(stopReason: string)
    | Errored(message: string)
    | Rejected

  datatype Block = Block(kind: BlockKind, content: string, open: bool)

  datatype Reader = Reader(phase: Phase, blocks: seq<Block>)

  const START := Reader(Waiting, [])

  predicate Matches(kind: BlockKind, fragment: Fragment) {
    kind.TextBlock? == fragment.TextFragment?
  }

  function TextOf(fragment: Fragment): string {
    match fragment
    case TextFragment(text) => text
    case JsonFragment(json) => json
  }

  function Receive(r: Reader, event: ClientEvent): Reader {
    var reject := r.(phase := Rejected);
    match event
    case MessageStart =>
      if r.phase.Waiting? then r.(phase := Streaming) else reject
    case BlockStart(index, kind) =>
      if r.phase.Streaming? && index == |r.blocks|
      then r.(blocks := r.blocks + [Block(kind, "", true)])
      else reject
    case BlockDelta(index, fragment) =>
      if r.phase.Streaming? && index < |r.blocks| && r.blocks[index].open && Matches(r.blocks[index].kind, fragment)
      then
        var block := r.blocks[index];
        r.(blocks := r.blocks[index := block.(content := block.content + TextOf(fragment))])
      else reject
    case BlockStop(index) =>
      if r.phase.Streaming? && index < |r.blocks| && r.blocks[index].open
      then r.(blocks := r.blocks[index := r.blocks[index].(open := false)])
      else reject
    case MessageDelta(stopReason, _) =>
      if r.phase.Streaming? && forall i :: 0 <= i < |r.blocks| ==> !r.blocks[i].open
      then r.(phase := Closing(stopReason))
      else reject
    case MessageStop =>
      if r.phase.Closing? then r.(phase := Finished(r.phase.stopReason)) else reject
    case StreamError(message) =>
      if r.phase.Streaming? then r.(phase := Errored(message)) else reject
    case Ping =>
      if r.phase.Streaming? then r else reject
  }

  function Read(r: Reader, events: seq<ClientEvent>): Reader {
    if events == [] then r else Receive(Read(r, events[..|events| - 1]), events[|events| - 1])
  }

  lemma ReadOne(r: Reader, event: ClientEvent)
    ensures Read(r, [event]) == Receive(r, event)
  {
    assert [event][..0] == [];
  }

  lemma {:induction false} ReadConcat(r: Reader, a: seq<ClientEvent>, b: seq<ClientEvent>)
    ensures Read(r, a + b) == Read(Read(r, a), b)
  {
    if b == [] {
      assert a + b == a;
    } else {
      var front := b[..|b| - 1];
      ReadConcat(r, a, front);
      assert (a + b)[..|a + b| - 1] == a + front;
    }
  }

  lemma ReadTwo(r: Reader, first: ClientEvent, second: ClientEvent)
    ensures Read(r, [first, second]) == Receive(Receive(r, first), second)
  {
    ReadOne(r, first);
    assert [first, second][..1] == [first];
  }

  // ------------------------------------------- what an accepted log looks like

  function Starts(log: seq<ClientEvent>): nat {
    if log == [] then 0
    else Starts(log[..|log| - 1]) + if log[|log| - 1].BlockStart? then 1 else 0
  }

  function Stops(log: seq<ClientEvent>, index: nat): nat {
    if log == [] then 0
    else Stops(log[..|log| - 1], index) + if log[|log| - 1] == BlockStop(index) then 1 else 0
  }

  /** The concatenation of the fragments addressed to one block. */
  function Fragments(log: seq<ClientEvent>, index: nat): string {
    if log == [] then ""
    else
      var last := log[|log| - 1];
      Fragments(log[..|log| - 1], index) + if last.BlockDelta? && last.index == index then TextOf(last.fragment) else ""
  }

  /** The reader's block table is determined by counting starts and stops. */
  ghost predicate Faithful(r: Reader, log: seq<ClientEvent>) {
    && |r.blocks| == Starts(log)
    && (forall i: nat :: Stops(log, i) == (if i < |r.blocks| && !r.blocks[i].open then 1 else 0))
    && (forall i: nat :: Fragments(log, i) == (if i < |r.blocks| then r.blocks[i].content else ""))
  }

  lemma {:induction false} RejectedPrefix(log: seq<ClientEvent>, n: nat)
    requires n <= |log|
    requires !Read(START, log).phase.Rejected?
    ensures !Read(START, log[..n]).phase.Rejected?
    decreases |log| - n
  {
    if n < |log| {
      RejectedPrefix(log, n + 1);
      assert log[..n + 1][..n] == log[..n];
    } else {
      assert log[..n] == log;
    }
  }

  lemma {:induction false} AcceptedIsFaithful(log: seq<ClientEvent>)
    requires !Read(START, log).phase.Rejected?
    ensures Faithful(Read(START, log), log)
  {
    if log != [] {
      var front := log[..|log| - 1];
      RejectedPrefix(log, |front|);
      AcceptedIsFaithful(front);
    }
  }

  /** The explicit protocol an accepted log obeys. */
  ghost predicate WellFormed(log: seq<ClientEvent>) {
    // the n-th block start carries index n
    && (forall i :: 0 <= i < |log| && log[i].BlockStart? ==> log[i].index == Starts(log[..i]))
    // deltas and stops name a block that is started and not yet stopped
    && (forall i :: 0 <= i < |log| && (log[i].BlockDelta? || log[i].BlockStop?) ==>
          log[i].index < Starts(log[..i]) && Stops(log[..i], log[i].index) == 0)
    // only the last event can be terminal
    && (forall i :: 0 <= i < |log| - 1 ==> !IsTerminal(log[i]))
    // a normal end is one message_delta immediately followed by message_stop,
    // with every started block stopped exactly once
    && (forall i :: 0 <= i < |log| && log[i].MessageStop? ==> i > 0 && log[i - 1].MessageDelta?)
    && (forall i :: 0 <= i < |log| && log[i].MessageDelta? ==> i == |log| - 1 || log[i + 1].MessageStop?)
    && (forall i, b: nat :: 0 <= i < |log| && log[i].MessageDelta? && b < Starts(log[..i]) ==> Stops(log[..i], b) == 1)
  }

  lemma {:induction false} PhaseTrail(log: seq<ClientEvent>)
    requires !Read(START, log).phase.Rejected?
    ensures log != [] && IsTerminal(log[|log| - 1]) <==> Read(START, log).phase.Finished? || Read(START, log).phase.Errored?
    ensures log != [] && log[|log| - 1].MessageDelta? <==> Read(START, log).phase.Closing?
  {
    if log != [] {
      var front := log[..|log| - 1];
      RejectedPrefix(log, |front|);
    }
  }

  /** What the event at position `i` of an accepted log says about the log
      before it. */
  lemma {:induction false} AcceptedAt(log: seq<ClientEvent>, i: nat)
    requires i < |log|
    requires !Read(START, log).phase.Rejected?
    ensures log[i].BlockStart? ==> log[i].index == Starts(log[..i])
    ensures log[i].BlockDelta? || log[i].BlockStop? ==> log[i].index < Starts(log[..i]) && Stops(log[..i], log[i].index) == 0
    ensures log[i].MessageStop? ==> i > 0 && log[i - 1].MessageDelta?
    ensures i > 0 && log[i - 1].MessageDelta? ==> log[i].MessageStop?
    ensures i > 0 ==> !IsTerminal(log[i - 1])
    ensures log[i].MessageDelta? ==> forall b: nat :: b < Starts(log[..i]) ==> Stops(log[..i], b) == 1
  {
    RejectedPrefix(log, i + 1);
    RejectedPrefix(log, i);
    assert log[..i + 1][..i] == log[..i];
    AcceptedIsFaithful(log[..i]);
    PhaseTrail(log[..i]);
  }

  /** Whatever a client accepts is well formed. */
  lemma {:induction false} AcceptedIsWellFormed(log: seq<ClientEvent>)
    requires !Read(START, log).phase.Rejected?
    ensures WellFormed(log)
  {
    forall i: nat | i < |log|
      ensures log[i].BlockStart? ==> log[i].index == Starts(log[..i])
      ensures log[i].BlockDelta? || log[i].BlockStop? ==> log[i].index < Starts(log[..i]) && Stops(log[..i], log[i].index) == 0
      ensures log[i].MessageStop? ==> i > 0 && log[i - 1].MessageDelta?
      ensures log[i].MessageDelta? ==> forall b: nat :: b < Starts(log[..i]) ==> Stops(log[..i], b) == 1
    {
      AcceptedAt(log, i);
    }
    forall i: nat | i < |log| - 1
      ensures !IsTerminal(log[i])
      ensures log[i].MessageDelta? ==> log[i + 1].MessageStop?
    {
      AcceptedAt(log, i + 1);
    }
  }
}
