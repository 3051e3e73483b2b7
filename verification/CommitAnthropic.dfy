/** The commit machine behind a streamed Messages request: the same collecting
    loop, and after commit an encoder whose client events are written together
    with pings. */
module CommitAnthropic {
  import opened Optional
  import opened Wire
  import opened Precommit
  import E = Encoder
  import EncoderTrace
  import M = MessagesReader
  import Interleaving
  import Least

  datatype Config = Config(valid: string -> bool, source: Source)

  datatype Ending = Ending(success: bool, errClass: string)

  datatype State = State(gather: Gather, ending: Option<Ending>, encoder: E.State, log: seq<ClientEvent>)

  const ENDED_EARLY := "upstream stream ended before completion"
  const IDLE := "upstream stream idle timeout"

  const INITIAL := State(NOTHING_YET, None, E.INITIAL, [])

  function Finish(s: State, success: bool, errClass: string): State {
    s.(ending := Some(Ending(success, errClass)), gather := Stop(s.gather))
  }

  function ErrorClass(encoder: E.State): string {
    if encoder.success then "" else if encoder.stopReason == "max_tokens" then "incomplete" else "upstream"
  }

  function FinishIfTerminal(s: State): State {
    if s.encoder.terminal then Finish(s, s.encoder.success, ErrorClass(s.encoder)) else s
  }

  function Events(taken: seq<UpEvent>): seq<Event> {
    seq(|taken|, i requires 0 <= i < |taken| => taken[i].event)
  }

  /** The opening event and the whole buffer go through the encoder. */
  ghost function Commit(c: Config, s: State): State {
    var sent := E.Encode(c.valid, Events(s.gather.buf));
    FinishIfTerminal(s.(encoder := sent.state, log := s.log + sent.events))
  }

  ghost function PassOn(c: Config, s: State, e: UpEvent): State
    requires E.Indexed(s.encoder.registry)
  {
    var step := E.Handle(c.valid, s.encoder, e.event);
    FinishIfTerminal(s.(encoder := step.state, log := s.log + step.events))
  }

  function Interrupt(s: State, errClass: string, message: string): State {
    var step := E.Fail(s.encoder, message);
    Finish(s.(encoder := step.state, log := s.log + step.events), false, errClass)
  }

  /** One turn of the draining loop; the ping ticker only writes a ping. */
  ghost function Drain(c: Config, s: State, choice: Choice): State
    requires E.Indexed(s.encoder.registry)
  {
    match choice
    case Cancel => Finish(s, false, "client")
    case IdleTimer => Interrupt(s, "timeout", IDLE)
    case PingTimer => s.(log := s.log + [Ping])
    case Receive(_) =>
      if s.gather.pipe.channel != [] then PassOn(c, s.(gather := Take(s.gather)), s.gather.pipe.channel[0])
      else if s.gather.pipe.closed then Interrupt(s, if c.source.broken then "upstream" else "upstream_eof", ENDED_EARLY)
      else s
    case _ => s
  }

  ghost function Consume(c: Config, s: State, choice: Choice): State
    requires E.Indexed(s.encoder.registry)
  {
    if s.gather.verdict.Undecided? then
      var collected := s.(gather := Collect(c.source, s.gather, choice));
      if collected.gather.verdict.Committed? then Commit(c, collected) else collected
    else if s.gather.verdict.Committed? && s.ending.None? then Drain(c, s, choice)
    else s
  }

  ghost function Step(c: Config, s: State, action: Action): (next: State)
    requires E.Indexed(s.encoder.registry)
    ensures E.Indexed(next.encoder.registry)
  {
    match action
    case Reader(move) => s.(gather := s.gather.(pipe := Moved(c.source.upstream, s.gather.pipe, move)))
    case Consumer(choice) =>
      KeepsIndexed(c, s, choice);
      Consume(c, s, choice)
  }

  lemma KeepsIndexed(c: Config, s: State, choice: Choice)
    requires E.Indexed(s.encoder.registry)
    ensures E.Indexed(Consume(c, s, choice).encoder.registry)
  {
    if s.gather.verdict.Committed? && s.ending.None? && choice.Receive? && s.gather.pipe.channel != [] {
      var event := s.gather.pipe.channel[0].event;
      E.HandleBodyIndexed(c.valid, E.Count(s.encoder, event), event.body);
    }
    hide E.Indexed;
    hide E.HandleBody;
  }

  /** The state after any schedule. */
  ghost function After(c: Config, actions: seq<Action>): (s: State)
    ensures E.Indexed(s.encoder.registry)
  {
    if actions == [] then INITIAL else Step(c, After(c, actions[..|actions| - 1]), actions[|actions| - 1])
  }

  // ------------------------------------------------- what the client should see

  /** The log without its pings. */
  function Quiet(log: seq<ClientEvent>): seq<ClientEvent> {
    if log == [] then []
    else
      var last := log[|log| - 1];
      Quiet(log[..|log| - 1]) + if last.Ping? then [] else [last]
  }

  /** Apart from pings the client sees what the encoder makes of the events
      taken, and reads it the same way. */
  ghost predicate Mirrors(c: Config, taken: seq<UpEvent>, encoder: E.State, log: seq<ClientEvent>) {
    var sent := E.Encode(c.valid, Events(taken));
    && encoder == sent.state
    && Quiet(log) == sent.events
    && M.Read(M.START, log) == M.Read(M.START, sent.events)
  }

  ghost predicate OpenLog(c: Config, taken: seq<UpEvent>, encoder: E.State, log: seq<ClientEvent>) {
    Mirrors(c, taken, encoder, log) && !encoder.terminal
  }

  /** Apart from pings the client saw the encoder's own ending, or one error the
      gateway added, or, if it went away itself, no ending. */
  ghost predicate ClosedLog(c: Config, taken: seq<UpEvent>, log: seq<ClientEvent>, success: bool, errClass: string) {
    var sent := E.Encode(c.valid, Events(taken));
    var r := M.Read(M.START, log);
    && (if sent.state.terminal then
          && Quiet(log) == sent.events && r == M.Read(M.START, sent.events)
          && success == sent.state.success && errClass == ErrorClass(sent.state)
        else
          && !success
          && (if errClass == "client" then Quiet(log) == sent.events && r.phase.Streaming?
              else
                && (Quiet(log) == sent.events + [StreamError(IDLE)] ||
                    (Quiet(log) == sent.events + [StreamError(ENDED_EARLY)] && taken == c.source.upstream))
                && r.phase.Errored?))
    && (success ==> r.phase.Finished?)
    && (errClass != "client" ==> r.phase.Finished? || r.phase.Errored?)
  }

  ghost predicate Delivers(c: Config, taken: seq<UpEvent>, ending: Option<Ending>, encoder: E.State, log: seq<ClientEvent>) {
    match ending
    case None => OpenLog(c, taken, encoder, log)
    case Some(Ending(success, errClass)) => ClosedLog(c, taken, log, success, errClass)
  }

  ghost predicate Inv(c: Config, s: State) {
    && Gathered(c.source, s.gather)
    && E.Indexed(s.encoder.registry)
    && (if s.gather.verdict.Committed? then
          Delivers(c, s.gather.taken, s.ending, s.encoder, s.log) && (s.ending.None? ==> !s.gather.pipe.stopped)
        else s.log == [] && s.ending.None?)
  }

  // ------------------------------------------------------------------ its proof

  ghost predicate NoPings(events: seq<ClientEvent>) {
    forall i :: 0 <= i < |events| ==> !events[i].Ping?
  }

  lemma {:induction false} QuietConcat(log: seq<ClientEvent>, more: seq<ClientEvent>)
    requires NoPings(more)
    ensures Quiet(log + more) == Quiet(log) + more
  {
    if more == [] {
      assert log + more == log;
    } else {
      var n := |more| - 1;
      QuietConcat(log, more[..n]);
      assert (log + more)[..|log + more| - 1] == log + more[..n];
      assert more == more[..n] + [more[n]];
    }
  }

  lemma EventsAppend(taken: seq<UpEvent>, e: UpEvent)
    ensures Events(taken + [e]) == Events(taken) + [e.event]
  {
  }

  lemma {:induction false} FinishToolsQuiet(valid: string -> bool, s: E.State, todo: set<int>, stopReason: string, events: seq<ClientEvent>)
    requires E.Indexed(s.registry) && todo <= s.registry.byOutput.Keys && NoPings(events)
    ensures NoPings(E.FinishTools(valid, s, todo, stopReason, events).events)
    decreases |todo|
  {
    if todo != {} {
      var o := Least.LeastOf(todo);
      var k := s.registry.byOutput[o];
      E.FinishToolIndexed(s, k, "");
      var done := if s.registry.tools[k].closed then E.Step(s, []) else E.FinishTool(s, k, "");
      if !done.state.terminal && (stopReason == "max_tokens" || valid(done.state.registry.tools[k].arguments)) {
        FinishToolsQuiet(valid, done.state, todo - {o}, stopReason, events + done.events);
      }
    }
  }

  lemma FinishQuiet(valid: string -> bool, s: E.State, stopReason: string)
    requires E.Indexed(s.registry)
    ensures NoPings(E.Finish(valid, s, stopReason).events)
  {
    var text := E.CloseText(s);
    if !s.terminal {
      FinishToolsQuiet(valid, text.state, text.state.registry.byOutput.Keys, stopReason, text.events);
    }
  }

  lemma ToolsQuiet(s: E.State, k: nat, text: string)
    requires k < |s.registry.tools|
    ensures NoPings(E.FinishTool(s, k, text).events) && NoPings(E.AddArguments(s, k, text).events)
  {
  }

  lemma ToolEventQuiet(valid: string -> bool, s: E.State, body: Body)
    requires E.Indexed(s.registry) && (body.ItemAdded? || body.ItemDone? || body.ArgumentsDelta? || body.ArgumentsDone?)
    ensures NoPings(E.HandleBody(valid, s, body).events)
  {
    forall k: nat, text: string | k < |s.registry.tools|
      ensures NoPings(E.FinishTool(s, k, text).events) && NoPings(E.AddArguments(s, k, text).events)
    {
      ToolsQuiet(s, k, text);
    }
    hide E.Indexed;
    hide E.FinishTool;
    hide E.AddArguments;
  }

  lemma BodyQuiet(valid: string -> bool, s: E.State, body: Body)
    requires E.Indexed(s.registry)
    ensures NoPings(E.HandleBody(valid, s, body).events)
  {
    if body.ItemAdded? || body.ItemDone? || body.ArgumentsDelta? || body.ArgumentsDone? {
      ToolEventQuiet(valid, s, body);
    } else {
      FinishQuiet(valid, s, s.stopReason);
      FinishQuiet(valid, s, "max_tokens");
    }
    hide E.Indexed;
    hide E.Finish;
  }

  /** Encoders never write pings. */
  lemma HandleQuiet(valid: string -> bool, s: E.State, event: Event)
    requires E.Indexed(s.registry)
    ensures NoPings(E.Handle(valid, s, event).events)
  {
    BodyQuiet(valid, E.Count(s, event), event.body);
    hide E.Indexed;
    hide E.HandleBody;
  }

  lemma {:induction false} EncodeQuiet(valid: string -> bool, stream: seq<Event>)
    ensures NoPings(E.Encode(valid, stream).events)
  {
    if stream != [] {
      var n := |stream| - 1;
      EncodeQuiet(valid, stream[..n]);
      HandleQuiet(valid, E.Encode(valid, stream[..n]).state, stream[n]);
      hide E.Handle;
      hide E.Indexed;
    }
  }

  /** A terminal encoder has shown its ending, and success only with a message. */
  lemma EncodedPhase(valid: string -> bool, stream: seq<Event>)
    ensures var sent := E.Encode(valid, stream);
            var r := M.Read(M.START, sent.events);
            && (!sent.state.terminal ==> r.phase.Streaming?)
            && (sent.state.terminal ==> r.phase.Finished? || r.phase.Errored?)
            && (sent.state.terminal && sent.state.success ==> r.phase.Finished?)
  {
    EncoderTrace.EncodeSound(valid, stream);
    hide E.Encode;
  }

  /** Ending the stream as soon as the encoder is terminal. */
  lemma SettleLog(c: Config, s: State)
    requires Mirrors(c, s.gather.taken, s.encoder, s.log) && s.ending.None?
    ensures var next := FinishIfTerminal(s); Delivers(c, next.gather.taken, next.ending, next.encoder, next.log)
  {
    EncodedPhase(c.valid, Events(s.gather.taken));
    hide E.Encode;
    hide M.Read;
    hide Quiet;
  }

  lemma Settle(c: Config, s: State)
    requires Gathered(c.source, s.gather) && s.gather.verdict.Committed? && !s.gather.pipe.stopped
    requires Mirrors(c, s.gather.taken, s.encoder, s.log) && s.ending.None? && E.Indexed(s.encoder.registry)
    ensures Inv(c, FinishIfTerminal(s))
  {
    SettleLog(c, s);
    StopGathered(c.source, s.gather);
    hide Gathered;
    hide Delivers;
    hide Mirrors;
    hide E.Indexed;
  }

  lemma CommitMirrors(c: Config, taken: seq<UpEvent>)
    ensures var sent := E.Encode(c.valid, Events(taken)); Mirrors(c, taken, sent.state, [] + sent.events)
  {
    var sent := E.Encode(c.valid, Events(taken));
    EncodeQuiet(c.valid, Events(taken));
    QuietConcat([], sent.events);
    assert [] + sent.events == sent.events;
    hide E.Encode;
    hide NoPings;
    hide M.Read;
  }

  lemma PassOnMirrors(c: Config, before: seq<UpEvent>, e: UpEvent, encoder: E.State, log: seq<ClientEvent>)
    requires E.Indexed(encoder.registry) && Mirrors(c, before, encoder, log)
    ensures var step := E.Handle(c.valid, encoder, e.event);
            E.Indexed(step.state.registry) && Mirrors(c, before + [e], step.state, log + step.events)
  {
    var step := E.Handle(c.valid, encoder, e.event);
    EventsAppend(before, e);
    Interleaving.EncodeSnoc(c.valid, Events(before), e.event);
    HandleQuiet(c.valid, encoder, e.event);
    QuietConcat(log, step.events);
    M.ReadConcat(M.START, log, step.events);
    M.ReadConcat(M.START, E.Encode(c.valid, Events(before)).events, step.events);
    hide E.Encode;
    hide E.Handle;
    hide E.Indexed;
    hide NoPings;
    hide M.Read;
    hide Quiet;
  }

  lemma PingIgnored(log: seq<ClientEvent>)
    requires M.Read(M.START, log).phase.Streaming?
    ensures M.Read(M.START, log + [Ping]) == M.Read(M.START, log)
    ensures Quiet(log + [Ping]) == Quiet(log)
  {
    assert (log + [Ping])[..|log|] == log;
    assert Quiet(log) + [] == Quiet(log);
  }

  lemma PingLog(c: Config, taken: seq<UpEvent>, encoder: E.State, log: seq<ClientEvent>)
    requires OpenLog(c, taken, encoder, log)
    ensures OpenLog(c, taken, encoder, log + [Ping])
  {
    EncodedPhase(c.valid, Events(taken));
    PingIgnored(log);
    hide E.Encode;
    hide M.Read;
    hide Quiet;
  }

  lemma InterruptLog(c: Config, taken: seq<UpEvent>, encoder: E.State, log: seq<ClientEvent>, errClass: string, message: string)
    requires OpenLog(c, taken, encoder, log) && errClass != "client"
    requires message == IDLE || (message == ENDED_EARLY && taken == c.source.upstream)
    ensures ClosedLog(c, taken, log + E.Fail(encoder, message).events, false, errClass)
  {
    EncodedPhase(c.valid, Events(taken));
    EncoderTrace.FailTerminates(encoder, message, M.Read(M.START, log));
    M.ReadConcat(M.START, log, E.Fail(encoder, message).events);
    QuietConcat(log, E.Fail(encoder, message).events);
    hide E.Encode;
    hide M.Read;
    hide Quiet;
  }

  lemma CancelLog(c: Config, taken: seq<UpEvent>, encoder: E.State, log: seq<ClientEvent>)
    requires OpenLog(c, taken, encoder, log)
    ensures ClosedLog(c, taken, log, false, "client")
  {
    EncodedPhase(c.valid, Events(taken));
    hide E.Encode;
    hide M.Read;
  }

  lemma PassOnInv(c: Config, s: State)
    requires Inv(c, s) && s.gather.verdict.Committed? && s.ending.None? && s.gather.pipe.channel != []
    ensures Inv(c, PassOn(c, s.(gather := Take(s.gather)), s.gather.pipe.channel[0]))
  {
    var e := s.gather.pipe.channel[0];
    var step := E.Handle(c.valid, s.encoder, e.event);
    TakeGathered(c.source, s.gather);
    PassOnMirrors(c, s.gather.taken, e, s.encoder, s.log);
    Settle(c, s.(gather := Take(s.gather), encoder := step.state, log := s.log + step.events));
    hide Gathered;
    hide Mirrors;
    hide ClosedLog;
    hide E.Indexed;
    hide E.Handle;
  }

  lemma InterruptInv(c: Config, s: State, errClass: string, message: string)
    requires Inv(c, s) && s.gather.verdict.Committed? && s.ending.None? && errClass != "client"
    requires message == IDLE || (message == ENDED_EARLY && s.gather.taken == c.source.upstream)
    ensures Inv(c, Interrupt(s, errClass, message))
  {
    StopGathered(c.source, s.gather);
    InterruptLog(c, s.gather.taken, s.encoder, s.log, errClass, message);
    hide Gathered;
    hide OpenLog;
    hide ClosedLog;
    hide E.Indexed;
  }

  lemma DrainInv(c: Config, s: State, choice: Choice)
    requires Inv(c, s) && s.gather.verdict.Committed? && s.ending.None?
    ensures Inv(c, Drain(c, s, choice))
  {
    match choice
    case Cancel =>
      CancelLog(c, s.gather.taken, s.encoder, s.log);
      StopGathered(c.source, s.gather);
    case IdleTimer => InterruptInv(c, s, "timeout", IDLE);
    case PingTimer => PingLog(c, s.gather.taken, s.encoder, s.log);
    case Receive(_) =>
      if s.gather.pipe.channel != [] {
        PassOnInv(c, s);
      } else if s.gather.pipe.closed {
        ReadInOrder(c.source, s.gather);
        InterruptInv(c, s, if c.source.broken then "upstream" else "upstream_eof", ENDED_EARLY);
      }
    case _ =>
  }

  lemma CommitInv(c: Config, s: State)
    requires Gathered(c.source, s.gather) && s.gather.verdict.Committed? && !s.gather.pipe.stopped
    requires s.gather.taken == s.gather.buf && s.log == [] && s.ending.None?
    ensures Inv(c, Commit(c, s))
  {
    var sent := E.Encode(c.valid, Events(s.gather.buf));
    CommitMirrors(c, s.gather.taken);
    Settle(c, s.(encoder := sent.state, log := s.log + sent.events));
    hide Gathered;
    hide Mirrors;
    hide E.Indexed;
    hide E.Encode;
  }

  lemma StepInv(c: Config, s: State, action: Action)
    requires Inv(c, s)
    ensures Inv(c, Step(c, s, action))
  {
    match action
    case Reader(move) => ReaderGathered(c.source, s.gather, move);
    case Consumer(choice) =>
      if s.gather.verdict.Undecided? {
        CollectGathered(c.source, s.gather, choice);
        var collected := s.(gather := Collect(c.source, s.gather, choice));
        if collected.gather.verdict.Committed? { CommitInv(c, collected); }
      } else if s.gather.verdict.Committed? && s.ending.None? {
        DrainInv(c, s, choice);
      }
  }

  // --------------------------------------------------------- over every schedule

  lemma {:induction false} AlwaysInv(c: Config, actions: seq<Action>)
    ensures Inv(c, After(c, actions))
  {
    if actions != [] {
      AlwaysInv(c, actions[..|actions| - 1]);
      StepInv(c, After(c, actions[..|actions| - 1]), actions[|actions| - 1]);
    }
  }

  lemma NeverRejected(c: Config, s: State)
    requires Inv(c, s)
    ensures !M.Read(M.START, s.log).phase.Rejected?
    ensures s.ending.Some? && s.ending.value.errClass != "client" ==>
              M.Read(M.START, s.log).phase.Finished? || M.Read(M.START, s.log).phase.Errored?
  {
    if s.gather.verdict.Committed? { EncodedPhase(c.valid, Events(s.gather.taken)); }
    hide Gathered;
    hide E.Encode;
    hide E.Indexed;
  }

  /** Under every schedule the client accepts the log, pings included; nothing is
      written before commit; after it the client sees the encoder's rendering of
      the events taken and at most one more error; and an ended stream has exactly
      one terminal event, its last, unless the client has gone. */
  lemma StreamContract(c: Config, actions: seq<Action>)
    ensures var s := After(c, actions);
            && s.gather.taken <= c.source.upstream
            && (!s.gather.verdict.Committed? ==> s.log == [])
            && (s.gather.verdict.Committed? ==> CommittedAt(s.gather.buf) && Delivers(c, s.gather.taken, s.ending, s.encoder, s.log))
            && M.WellFormed(s.log)
            && (s.ending.Some? && s.ending.value.errClass != "client" ==> s.log != [] && IsTerminal(s.log[|s.log| - 1]))
  {
    AlwaysInv(c, actions);
    var s := After(c, actions);
    ReadInOrder(c.source, s.gather);
    NeverRejected(c, s);
    M.AcceptedIsWellFormed(s.log);
    M.PhaseTrail(s.log);
    hide Gathered;
    hide Delivers;
    hide E.Indexed;
  }

  /** Reader and collecting loop, over every schedule: what was consumed, what is
      in the slot and what is in the reader's hand are the stream's first events;
      a closed, empty channel means that everything was consumed; the buffer keeps
      its bounds; and giving up because nothing came means nothing would have. */
  lemma ReaderContract(c: Config, actions: seq<Action>)
    ensures var g := After(c, actions).gather;
            && g.taken + Held(g.pipe) <= c.source.upstream
            && (g.pipe.closed && g.pipe.channel == [] && !g.pipe.stopped ==> g.taken == c.source.upstream)
            && |g.buf| <= 32 && (g.buf != [] ==> Bytes(g.buf[..|g.buf| - 1]) < 65536)
            && (g.verdict.GivenUp? && g.verdict.message == NOTHING_CAME ==>
                  forall i :: 0 <= i < |c.source.upstream| ==> !IsMeaningful(c.source.upstream[i]))
  {
    AlwaysInv(c, actions);
    ReadInOrder(c.source, After(c, actions).gather);
    BufferMeaning(c.source, After(c, actions).gather);
    hide After;
    hide Bytes;
    hide IsMeaningful;
    hide Delivers;
  }
}
