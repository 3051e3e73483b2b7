/** The commit machine behind a streamed Responses request. A reader and a
    consumer take turns in an order chosen by an adversary, who also decides
    which ready case of the consumer's select is taken: the client going away,
    any of the timers, or the channel. */
module CommitOpenAI {
  import opened Optional
  import opened Wire
  import opened Precommit

  /** Hoard requests announce their route first. */
  datatype Config = Config(hoard: bool, source: Source)

  datatype Entry =
    | RoutingEvent
    | Forward(event: UpEvent)
    | GatewayError(message: string, number: int)

  const ENDED_EARLY := "upstream stream ended before completion"
  const IDLE := "upstream stream idle timeout"

  /** What the handler keeps about the events it has forwarded. */
  datatype Meter = Meter(last: int, terminal: bool, success: bool, errClass: string)

  datatype Ending = Ending(success: bool, errClass: string)

  datatype State = State(gather: Gather, ending: Option<Ending>, meter: Meter, log: seq<Entry>)

  const QUIET := Meter(-1, false, false, "")

  const INITIAL := State(NOTHING_YET, None, QUIET, [])

  function Observe(m: Meter, e: UpEvent): Meter {
    var seen := if e.number.Some? then m.(last := e.number.value) else m;
    if e.name == "response.completed" then seen.(terminal := true, success := true)
    else if e.name in {"response.failed", "response.incomplete", "error"} then
      seen.(terminal := true, success := false, errClass := e.name)
    else seen
  }

  function ObserveAll(m: Meter, events: seq<UpEvent>): Meter {
    if events == [] then m else Observe(ObserveAll(m, events[..|events| - 1]), events[|events| - 1])
  }

  function ForwardAll(events: seq<UpEvent>): seq<Entry> {
    seq(|events|, i requires 0 <= i < |events| => Forward(events[i]))
  }

  function Head(hoard: bool): seq<Entry> {
    if hoard then [RoutingEvent] else []
  }

  function Finish(s: State, success: bool, errClass: string): State {
    s.(ending := Some(Ending(success, errClass)), gather := Stop(s.gather))
  }

  function FinishIfTerminal(s: State): State {
    if s.meter.terminal then Finish(s, s.meter.success, s.meter.errClass) else s
  }

  /** Headers, the routing event and the buffer go out. */
  function Commit(c: Config, s: State): State {
    FinishIfTerminal(s.(meter := ObserveAll(s.meter, s.gather.buf), log := s.log + Head(c.hoard) + ForwardAll(s.gather.buf)))
  }

  /** One event passed on after commit; on a hoard request a completion without
      visible output becomes a gateway error instead. */
  function PassOn(c: Config, s: State, e: UpEvent): State {
    var meter := Observe(s.meter, e);
    FinishIfTerminal(
      if c.hoard && IsEmptyCompletion(e) then
        s.(meter := meter.(terminal := true, success := false, errClass := "upstream"),
           log := s.log + [GatewayError(EMPTY_RESPONSE, meter.last + 1)])
      else s.(meter := meter, log := s.log + [Forward(e)]))
  }

  function Interrupt(s: State, errClass: string, message: string): State {
    Finish(s.(log := s.log + [GatewayError(message, s.meter.last + 1)]), false, errClass)
  }

  /** One turn of the draining loop. */
  function Drain(c: Config, s: State, choice: Choice): State {
    match choice
    case Cancel => Finish(s, false, "client")
    case IdleTimer => Interrupt(s, "timeout", IDLE)
    case Receive(_) =>
      if s.gather.pipe.channel != [] then PassOn(c, s.(gather := Take(s.gather)), s.gather.pipe.channel[0])
      else if s.gather.pipe.closed then Interrupt(s, if c.source.broken then "upstream" else "upstream_eof", ENDED_EARLY)
      else s
    case _ => s
  }

  function Consume(c: Config, s: State, choice: Choice): State {
    if s.gather.verdict.Undecided? then
      var collected := s.(gather := Collect(c.source, s.gather, choice));
      if collected.gather.verdict.Committed? then Commit(c, collected) else collected
    else if s.gather.verdict.Committed? && s.ending.None? then Drain(c, s, choice)
    else s
  }

  function Step(c: Config, s: State, action: Action): State {
    match action
    case Reader(move) => s.(gather := s.gather.(pipe := Moved(c.source.upstream, s.gather.pipe, move)))
    case Consumer(choice) => Consume(c, s, choice)
  }

  /** The state after any schedule. */
  function After(c: Config, actions: seq<Action>): State {
    if actions == [] then INITIAL else Step(c, After(c, actions[..|actions| - 1]), actions[|actions| - 1])
  }

  // ------------------------------------------------- what the client should see

  const TERMINALS := {"response.completed", "response.failed", "response.incomplete", "error"}

  predicate IsTerminal(entry: Entry) {
    entry.GatewayError? || (entry.Forward? && entry.event.name in TERMINALS)
  }

  function Terminals(log: seq<Entry>): nat {
    if log == [] then 0 else Terminals(log[..|log| - 1]) + if IsTerminal(log[|log| - 1]) then 1 else 0
  }

  /** The sequence number of the last event that has one. */
  function LastNumber(events: seq<UpEvent>): int {
    if events == [] then -1
    else
      var last := events[|events| - 1];
      if last.number.Some? then last.number.value else LastNumber(events[..|events| - 1])
  }

  /** How the events taken so far appear: each as itself, in order, except a
      completion without output on a hoard request. */
  function Shown(hoard: bool, taken: seq<UpEvent>): seq<Entry> {
    if taken == [] then []
    else
      var last := taken[|taken| - 1];
      Shown(hoard, taken[..|taken| - 1]) +
      [if hoard && IsEmptyCompletion(last) then GatewayError(EMPTY_RESPONSE, LastNumber(taken) + 1) else Forward(last)]
  }

  lemma TerminalsAppend(log: seq<Entry>, entry: Entry)
    ensures Terminals(log + [entry]) == Terminals(log) + if IsTerminal(entry) then 1 else 0
  {
    assert (log + [entry])[..|log|] == log;
  }

  lemma ShownAppend(hoard: bool, taken: seq<UpEvent>, e: UpEvent)
    ensures Shown(hoard, taken + [e]) == Shown(hoard, taken) +
              [if hoard && IsEmptyCompletion(e) then GatewayError(EMPTY_RESPONSE, LastNumber(taken + [e]) + 1) else Forward(e)]
    ensures LastNumber(taken + [e]) == if e.number.Some? then e.number.value else LastNumber(taken)
  {
    assert (taken + [e])[..|taken|] == taken;
  }

  lemma MuteIsNotTerminal(e: UpEvent)
    requires Mute(e)
    ensures e.name !in TERMINALS
  {
    TrimKeepsNames();
  }

  // -------------------------------------------------------------- the invariant

  /** The log shows what was taken, and the meter knows whether its last entry
      is a terminal, the only one. */
  ghost predicate Mirrors(c: Config, taken: seq<UpEvent>, meter: Meter, log: seq<Entry>) {
    && log == Head(c.hoard) + Shown(c.hoard, taken)
    && meter.last == LastNumber(taken)
    && Terminals(log) == (if meter.terminal then 1 else 0)
    && (meter.terminal ==>
          log != [] && IsTerminal(log[|log| - 1]) && meter.errClass != "client" &&
          (meter.success <==> log[|log| - 1].Forward? && log[|log| - 1].event.name == "response.completed"))
    && (!meter.terminal ==> !meter.success && meter.errClass == "" && (log != [] ==> !IsTerminal(log[|log| - 1])))
  }

  ghost predicate OpenLog(c: Config, taken: seq<UpEvent>, meter: Meter, log: seq<Entry>) {
    Mirrors(c, taken, meter, log) && !meter.terminal
  }

  /** A closed log: the terminal is its last entry, and it is one the upstream
      sent or one the gateway added; only a vanished client leaves it open. */
  ghost predicate ClosedLog(c: Config, taken: seq<UpEvent>, log: seq<Entry>, success: bool, errClass: string) {
    var shown := Head(c.hoard) + Shown(c.hoard, taken);
    && (log == shown || log == shown + [GatewayError(IDLE, LastNumber(taken) + 1)] ||
        (log == shown + [GatewayError(ENDED_EARLY, LastNumber(taken) + 1)] && taken == c.source.upstream))
    && (if errClass == "client" then log == shown && Terminals(log) == 0
        else log != [] && Terminals(log) == 1 && IsTerminal(log[|log| - 1]))
    && (success <==> log != [] && log[|log| - 1].Forward? && log[|log| - 1].event.name == "response.completed")
  }

  /** How a log relates to the events taken, whether it is open or closed. */
  ghost predicate Delivers(c: Config, taken: seq<UpEvent>, ending: Option<Ending>, meter: Meter, log: seq<Entry>) {
    match ending
    case None => OpenLog(c, taken, meter, log)
    case Some(Ending(success, errClass)) => ClosedLog(c, taken, log, success, errClass)
  }

  ghost predicate Inv(c: Config, s: State) {
    && Gathered(c.source, s.gather)
    && (if s.gather.verdict.Committed? then
          Delivers(c, s.gather.taken, s.ending, s.meter, s.log) && (s.ending.None? ==> !s.gather.pipe.stopped)
        else s.log == [] && s.meter == QUIET && s.ending.None?)
  }

  // ------------------------------------------------------------------ its proof

  lemma {:induction false} MuteMeter(events: seq<UpEvent>)
    requires AllMute(events)
    ensures ObserveAll(QUIET, events).last == LastNumber(events)
    ensures !ObserveAll(QUIET, events).terminal && !ObserveAll(QUIET, events).success && ObserveAll(QUIET, events).errClass == ""
  {
    if events != [] {
      MuteMeter(events[..|events| - 1]);
      MuteIsNotTerminal(events[|events| - 1]);
    }
  }

  lemma {:induction false} MuteShown(hoard: bool, events: seq<UpEvent>)
    requires AllMute(events)
    ensures Shown(hoard, events) == ForwardAll(events)
    ensures Terminals(Head(hoard) + ForwardAll(events)) == 0
  {
    if events == [] {
      assert Head(hoard) + [] == Head(hoard);
      assert [RoutingEvent][..0] == [];
    } else {
      var n := |events| - 1;
      MuteShown(hoard, events[..n]);
      MuteIsNotTerminal(events[n]);
      ForwardSnoc(hoard, events);
      TerminalsAppend(Head(hoard) + ForwardAll(events[..n]), Forward(events[n]));
      hide IsMeaningful;
      hide IsEmptyCompletion;
    }
  }

  lemma ForwardSnoc(hoard: bool, events: seq<UpEvent>)
    requires events != []
    ensures var n := |events| - 1;
            && ForwardAll(events) == ForwardAll(events[..n]) + [Forward(events[n])]
            && Head(hoard) + ForwardAll(events) == Head(hoard) + ForwardAll(events[..n]) + [Forward(events[n])]
  {
    var n := |events| - 1;
    assert ForwardAll(events) == ForwardAll(events[..n]) + [Forward(events[n])];
  }

  lemma CommitShown(hoard: bool, buf: seq<UpEvent>)
    requires CommittedAt(buf)
    ensures var n := |buf| - 1;
            && Shown(hoard, buf) == ForwardAll(buf)
            && Head(hoard) + ForwardAll(buf) == Head(hoard) + ForwardAll(buf[..n]) + [Forward(buf[n])]
            && Terminals(Head(hoard) + ForwardAll(buf)) == (if buf[n].name in TERMINALS then 1 else 0)
            && ObserveAll(QUIET, buf) == Observe(ObserveAll(QUIET, buf[..n]), buf[n])
            && LastNumber(buf) == if buf[n].number.Some? then buf[n].number.value else LastNumber(buf[..n])
  {
    var n := |buf| - 1;
    MuteShown(hoard, buf[..n]);
    ShownAppend(hoard, buf[..n], buf[n]);
    assert buf == buf[..n] + [buf[n]];
    ForwardSnoc(hoard, buf);
    TerminalsAppend(Head(hoard) + ForwardAll(buf[..n]), Forward(buf[n]));
  }

  /** The buffer shown at commit: only its last event can be the end. */
  lemma CommitMirrors(c: Config, buf: seq<UpEvent>)
    requires CommittedAt(buf)
    ensures Mirrors(c, buf, ObserveAll(QUIET, buf), [] + Head(c.hoard) + ForwardAll(buf))
  {
    var n := |buf| - 1;
    CommitShown(c.hoard, buf);
    MuteMeter(buf[..n]);
    var log := Head(c.hoard) + ForwardAll(buf);
    assert [] + Head(c.hoard) + ForwardAll(buf) == log;
    assert log[|log| - 1] == Forward(buf[n]);
    hide Shown;
    hide Mute;
    hide IsMeaningful;
    hide IsEmptyCompletion;
  }

  lemma PassOnMirrors(c: Config, before: seq<UpEvent>, e: UpEvent, meter: Meter, log: seq<Entry>)
    requires OpenLog(c, before, meter, log)
    ensures var seen := Observe(meter, e);
            if c.hoard && IsEmptyCompletion(e) then
              Mirrors(c, before + [e], seen.(terminal := true, success := false, errClass := "upstream"),
                      log + [GatewayError(EMPTY_RESPONSE, seen.last + 1)])
            else Mirrors(c, before + [e], seen, log + [Forward(e)])
  {
    hide IsEmptyCompletion;
    hide Terminals;
    hide Shown;
    hide Head;
    hide LastNumber;
    var seen := Observe(meter, e);
    ShownAppend(c.hoard, before, e);
    if c.hoard && IsEmptyCompletion(e) {
      Extended(c, before, e, log, GatewayError(EMPTY_RESPONSE, seen.last + 1));
    } else {
      Extended(c, before, e, log, Forward(e));
    }
  }

  /** A log that shows the events before shows the next one with one more entry. */
  lemma Extended(c: Config, before: seq<UpEvent>, e: UpEvent, log: seq<Entry>, entry: Entry)
    requires log == Head(c.hoard) + Shown(c.hoard, before) && Shown(c.hoard, before + [e]) == Shown(c.hoard, before) + [entry]
    ensures log + [entry] == Head(c.hoard) + Shown(c.hoard, before + [e])
    ensures Terminals(log + [entry]) == Terminals(log) + if IsTerminal(entry) then 1 else 0
    ensures (log + [entry])[|log + [entry]| - 1] == entry
  {
    hide Shown;
    hide Head;
    hide IsTerminal;
    TerminalsAppend(log, entry);
    Regroup(Head(c.hoard), Shown(c.hoard, before), entry);
  }

  lemma Regroup(head: seq<Entry>, shown: seq<Entry>, entry: Entry)
    ensures head + shown + [entry] == head + (shown + [entry])
  {
  }

  /** Ending the stream as soon as the meter is terminal. */
  lemma SettleLog(c: Config, s: State)
    requires Mirrors(c, s.gather.taken, s.meter, s.log) && s.ending.None?
    ensures var next := FinishIfTerminal(s); Delivers(c, next.gather.taken, next.ending, next.meter, next.log)
  {
    hide Shown;
    hide Terminals;
    hide Head;
    hide LastNumber;
  }

  lemma Settle(c: Config, s: State)
    requires Gathered(c.source, s.gather) && s.gather.verdict.Committed? && !s.gather.pipe.stopped
    requires Mirrors(c, s.gather.taken, s.meter, s.log) && s.ending.None?
    ensures Inv(c, FinishIfTerminal(s))
  {
    SettleLog(c, s);
    StopGathered(c.source, s.gather);
    hide Gathered;
    hide Delivers;
    hide Mirrors;
  }

  lemma CommitInv(c: Config, s: State)
    requires Gathered(c.source, s.gather) && s.gather.verdict.Committed? && !s.gather.pipe.stopped
    requires s.gather.taken == s.gather.buf && s.log == [] && s.meter == QUIET && s.ending.None?
    ensures Inv(c, Commit(c, s))
  {
    CommitMirrors(c, s.gather.buf);
    Settle(c, s.(meter := ObserveAll(s.meter, s.gather.buf), log := s.log + Head(c.hoard) + ForwardAll(s.gather.buf)));
    hide Mirrors;
    hide ObserveAll;
  }

  lemma PassOnInv(c: Config, s: State)
    requires Inv(c, s) && s.gather.verdict.Committed? && s.ending.None? && s.gather.pipe.channel != []
    ensures Inv(c, PassOn(c, s.(gather := Take(s.gather)), s.gather.pipe.channel[0]))
  {
    var e := s.gather.pipe.channel[0];
    var taking := s.(gather := Take(s.gather));
    var seen := Observe(s.meter, e);
    TakeGathered(c.source, s.gather);
    PassOnMirrors(c, s.gather.taken, e, s.meter, s.log);
    if c.hoard && IsEmptyCompletion(e) {
      Settle(c, taking.(meter := seen.(terminal := true, success := false, errClass := "upstream"),
                        log := s.log + [GatewayError(EMPTY_RESPONSE, seen.last + 1)]));
    } else {
      Settle(c, taking.(meter := seen, log := s.log + [Forward(e)]));
    }
    hide Gathered;
    hide Mirrors;
    hide ClosedLog;
    hide IsEmptyCompletion;
    hide Observe;
  }

  lemma InterruptInv(c: Config, s: State, errClass: string, message: string)
    requires Inv(c, s) && s.gather.verdict.Committed? && s.ending.None? && errClass != "client"
    requires message == IDLE || (message == ENDED_EARLY && s.gather.taken == c.source.upstream)
    ensures Inv(c, Interrupt(s, errClass, message))
  {
    StopGathered(c.source, s.gather);
    TerminalsAppend(s.log, GatewayError(message, s.meter.last + 1));
    hide Gathered;
  }

  lemma CancelInv(c: Config, s: State)
    requires Inv(c, s) && s.gather.verdict.Committed? && s.ending.None?
    ensures Inv(c, Finish(s, false, "client"))
  {
    StopGathered(c.source, s.gather);
    hide Gathered;
  }

  lemma DrainInv(c: Config, s: State, choice: Choice)
    requires Inv(c, s) && s.gather.verdict.Committed? && s.ending.None?
    ensures Inv(c, Drain(c, s, choice))
  {
    match choice
    case Cancel => CancelInv(c, s);
    case IdleTimer => InterruptInv(c, s, "timeout", IDLE);
    case Receive(_) =>
      if s.gather.pipe.channel != [] {
        PassOnInv(c, s);
      } else if s.gather.pipe.closed {
        ReadInOrder(c.source, s.gather);
        InterruptInv(c, s, if c.source.broken then "upstream" else "upstream_eof", ENDED_EARLY);
      }
    case _ =>
  }

  lemma StepInv(c: Config, s: State, action: Action)
    requires Inv(c, s)
    ensures Inv(c, Step(c, s, action))
  {
    match action
    case Reader(move) => ReaderGathered(c.source, s.gather, move);
    case Consumer(choice) =>
      if s.gather.verdict.Undecided? {
        CollectGathered(c.source, s.gather, choice);
        var collected := s.(gather := Collect(c.source, s.gather, choice));
        if collected.gather.verdict.Committed? { CommitInv(c, collected); }
      } else if s.gather.verdict.Committed? && s.ending.None? {
        DrainInv(c, s, choice);
      }
  }

  // --------------------------------------------------------- over every schedule

  /** Under every schedule: nothing is written before commit; afterwards the log
      shows the routing event if one is due and every event taken, once and in
      order; once ended it has exactly one terminal, its last entry, unless the
      client has gone; and it succeeds exactly when that terminal is the
      upstream's own completion. */
  lemma {:induction false} AlwaysInv(c: Config, actions: seq<Action>)
    ensures Inv(c, After(c, actions))
  {
    if actions != [] {
      AlwaysInv(c, actions[..|actions| - 1]);
      StepInv(c, After(c, actions[..|actions| - 1]), actions[|actions| - 1]);
    }
  }

  /** Off the hoard endpoint the events appear exactly as they came. */
  lemma {:induction false} PlainShown(taken: seq<UpEvent>)
    ensures Shown(false, taken) == ForwardAll(taken)
  {
    if taken != [] {
      PlainShown(taken[..|taken| - 1]);
      assert ForwardAll(taken) == ForwardAll(taken[..|taken| - 1]) + [Forward(taken[|taken| - 1])];
    }
  }

  /** When the upstream numbers its events 0, 1, 2, ..., as the chat bridge does,
      a gateway error gets the next number. */
  lemma {:induction false} NumbersContinue(upstream: seq<UpEvent>, taken: seq<UpEvent>)
    requires taken <= upstream && forall i :: 0 <= i < |upstream| ==> upstream[i].number == Some(i)
    ensures LastNumber(taken) + 1 == |taken|
  {
    if taken != [] {
      assert taken[|taken| - 1] == upstream[|taken| - 1];
    }
  }

  /** The whole contract of a streamed request, in one place. */
  lemma StreamContract(c: Config, actions: seq<Action>)
    ensures var s := After(c, actions);
            && s.gather.taken <= c.source.upstream
            && (!s.gather.verdict.Committed? ==> s.log == [])
            && (s.gather.verdict.Committed? ==>
                  s.gather.buf <= s.gather.taken && CommittedAt(s.gather.buf) && Delivers(c, s.gather.taken, s.ending, s.meter, s.log))
  {
    AlwaysInv(c, actions);
    var s := After(c, actions);
    ReadInOrder(c.source, s.gather);
  }

  /** Reader and collecting loop, over every schedule: what was consumed, what is
      in the slot and what is in the reader's hand are the stream's first events;
      a closed, empty channel means that everything was consumed; the buffer keeps
      its bounds; and giving up because nothing came means nothing would have. */
  lemma ReaderContract(c: Config, actions: seq<Action>)
    ensures var g := After(c, actions).gather;
            && g.taken + Held(g.pipe) <= c.source.upstream
            && (g.pipe.closed && g.pipe.channel == [] && !g.pipe.stopped ==> g.taken == c.source.upstream)
            && |g.buf| <= 32 && (g.buf != [] ==> Bytes(g.buf[..|g.buf| - 1]) < 65536)
            && (g.verdict.GivenUp? && g.verdict.message == NOTHING_CAME ==>
                  forall i :: 0 <= i < |c.source.upstream| ==> !IsMeaningful(c.source.upstream[i]))
  {
    AlwaysInv(c, actions);
    ReadInOrder(c.source, After(c, actions).gather);
    BufferMeaning(c.source, After(c, actions).gather);
    hide After;
    hide Bytes;
    hide IsMeaningful;
    hide Delivers;
  }
}
