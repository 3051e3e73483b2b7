/** When a stream is committed, said from what its events are and not from how the
    commit logic recognises them, and in every schedule of both machines. */
module CommitMeaning {
  import opened Optional
  import opened Wire
  import opened Precommit
  import B = Bridge
  import BridgeShape
  import BridgeObject
  import O = CommitOpenAI
  import A = CommitAnthropic

  /** The event name an upstream gives to each kind of event it can send; what is
      not understood may be called anything. */
  function NameOf(body: Body): Option<string> {
    match body
    case Created(_) => Some("response.created")
    case ItemAdded(_, _) => Some("response.output_item.added")
    case PartAdded(_, _, _) => Some("response.content_part.added")
    case TextDelta(_, _, _) => Some("response.output_text.delta")
    case TextDone(_, _, _) => Some("response.output_text.done")
    case RefusalDelta(_, _, _) => Some("response.refusal.delta")
    case RefusalDone(_, _, _) => Some("response.refusal.done")
    case PartDone(_, _, _) => Some("response.content_part.done")
    case ReasoningDelta(_, _, _) => Some("response.reasoning_text.delta")
    case ReasoningDone(_, _, _) => Some("response.reasoning_text.done")
    case ArgumentsDelta(_, _, _) => Some("response.function_call_arguments.delta")
    case ArgumentsDone(_, _, _) => Some("response.function_call_arguments.done")
    case ItemDone(_, _) => Some("response.output_item.done")
    case Completed(_) => Some("response.completed")
    case Incomplete(_) => Some("response.incomplete")
    case Failed => Some("response.failed")
    case ErrorBody => Some("error")
    case Unrecognised => None
    case Malformed => None
  }

  /** An event that is what it is called, and whose payload lists the items of the
      response it carries. */
  ghost predicate Faithful(e: UpEvent) {
    && NameOf(e.event.body) == Some(e.name)
    && (e.event.body.Completed? ==>
          var output := e.event.body.response.output;
          && e.output.Some? && |e.output.value| == |output|
          && forall i :: 0 <= i < |output| ==> (e.output.value[i] == "reasoning" <==> output[i].ReasoningItem?))
  }

  ghost predicate AllFaithful(events: seq<UpEvent>) {
    forall i :: 0 <= i < |events| ==> Faithful(events[i])
  }

  /** Text, refusals, call arguments, output items and their parts being opened or
      extended, or text, refusals, arguments and items being completed. */
  predicate Visible(body: Body) {
    || body.TextDelta? || body.TextDone? || body.RefusalDelta? || body.RefusalDone?
    || body.ArgumentsDelta? || body.ArgumentsDone? || body.ItemAdded? || body.ItemDone? || body.PartAdded?
  }

  predicate Fails(body: Body) {
    body.Failed? || body.ErrorBody?
  }

  /** A completed response of reasoning items only. */
  predicate Empty(body: Body) {
    body.Completed? && forall i | 0 <= i < |body.response.output| :: body.response.output[i].ReasoningItem?
  }

  /** What the first look at an event decides. */
  ghost predicate Decides(e: UpEvent, verdict: Verdict) {
    if Fails(e.event.body) then verdict == GivenUp("upstream", "upstream response failed before output")
    else if Empty(e.event.body) then verdict == GivenUp("upstream", "upstream returned empty response")
    else if Visible(e.event.body) || e.event.body.Completed? || e.event.body.Incomplete? || e.hinted then verdict == Committed
    else verdict == Undecided
  }

  lemma TrimClean(s: string)
    requires s != "" && !IsSpace(s[0]) && !IsSpace(s[|s| - 1])
    ensures Trim(s) == s
  {
  }

  lemma NameIsClean(body: Body)
    requires NameOf(body).Some?
    ensures Trim(NameOf(body).value) == NameOf(body).value
  {
    TrimClean(NameOf(body).value);
  }

  lemma NotListed(name: string)
    requires |name| in {5, 16, 28, 29} || (|name| == 26 && name[9] == 'c')
    ensures name !in MEANINGFUL
  {
    assert "response.output_text.delta"[9] == 'o';
    assert "response.output_item.added"[9] == 'o';
  }

  lemma NamesListed(body: Body)
    requires NameOf(body).Some?
    ensures NameOf(body).value in MEANINGFUL <==> Visible(body) || body.Completed? || body.Incomplete? || body.Failed?
  {
    if body.Created? || body.PartDone? || body.ReasoningDelta? || body.ReasoningDone? || body.ErrorBody? {
      NotListed(NameOf(body).value);
    }
  }

  lemma NamesEnd(body: Body)
    requires NameOf(body).Some?
    ensures NameOf(body).value == "response.failed" || NameOf(body).value == "error" <==> Fails(body)
  {
    assert |"response.failed"| == 15 && |"error"| == 5;
  }

  /** Names and bodies agree on what counts as output. */
  lemma NamedMeaning(e: UpEvent)
    requires Faithful(e)
    ensures IsMeaningful(e) <==> Visible(e.event.body) || e.event.body.Completed? || e.event.body.Incomplete? ||
                                 e.event.body.Failed? || e.hinted
    ensures EndsBeforeOutput(e) <==> Fails(e.event.body)
  {
    NameIsClean(e.event.body);
    NamesListed(e.event.body);
    NamesEnd(e.event.body);
    hide Trim, NameOf, Fails, Visible;
  }

  lemma NamedEmpty(e: UpEvent)
    requires Faithful(e)
    ensures IsEmptyCompletion(e) <==> Empty(e.event.body)
  {
    NameIsClean(e.event.body);
    hide Trim;
    if e.event.body.Completed? {
      assert e.name == "response.completed";
    } else {
      assert e.name != "response.completed";
    }
  }

  lemma BufferDecides(g: Gather, e: UpEvent)
    requires Faithful(e) && g.verdict.Undecided?
    ensures var next := Buffer(g, e); Decides(e, next.verdict) && next.buf == g.buf + [e] && next.taken == g.taken
  {
    NamedMeaning(e);
    NamedEmpty(e);
    hide IsMeaningful, IsEmptyCompletion, EndsBeforeOutput, Faithful;
  }

  /** The collecting loop still has room. */
  predicate HasRoom(g: Gather) {
    |g.buf| < 32 && Bytes(g.buf) < 65536
  }

  /** Receiving an event in time decides at once, and the event is the last one in
      the buffer. */
  ghost predicate Decided(g: Gather, next: Gather) {
    && g.pipe.channel != []
    && next.taken == g.taken + [g.pipe.channel[0]] && next.buf == g.buf + [g.pipe.channel[0]]
    && Decides(g.pipe.channel[0], next.verdict)
  }

  lemma CollectDecides(source: Source, g: Gather)
    requires g.verdict.Undecided? && HasRoom(g) && g.pipe.channel != [] && Faithful(g.pipe.channel[0])
    ensures Decided(g, Collect(source, g, Receive(false)))
  {
    BufferDecides(Take(g), g.pipe.channel[0]);
    hide Decides, Buffer, Faithful;
  }

  lemma LastAction(actions: seq<Action>, action: Action)
    ensures (actions + [action])[..|actions + [action]| - 1] == actions && (actions + [action])[|actions + [action]| - 1] == action
  {
  }

  /** In every schedule of a streamed Responses request. */
  lemma ResponsesDecide(c: O.Config, actions: seq<Action>)
    requires var g := O.After(c, actions).gather;
             g.verdict.Undecided? && HasRoom(g) && g.pipe.channel != [] && Faithful(g.pipe.channel[0])
    ensures Decided(O.After(c, actions).gather, O.After(c, actions + [Consumer(Receive(false))]).gather)
  {
    LastAction(actions, Consumer(Receive(false)));
    var s := O.After(c, actions);
    CollectDecides(c.source, s.gather);
    CommitKeeps(c, s.(gather := Collect(c.source, s.gather, Receive(false))));
    hide Collect, Faithful, Decides, O.Commit;
  }

  lemma CommitKeeps(c: O.Config, s: O.State)
    ensures var g := O.Commit(c, s).gather; g.verdict == s.gather.verdict && g.taken == s.gather.taken && g.buf == s.gather.buf
  {
  }

  /** In every schedule of a streamed Messages request. */
  lemma MessagesDecide(c: A.Config, actions: seq<Action>)
    requires var g := A.After(c, actions).gather;
             g.verdict.Undecided? && HasRoom(g) && g.pipe.channel != [] && Faithful(g.pipe.channel[0])
    ensures Decided(A.After(c, actions).gather, A.After(c, actions + [Consumer(Receive(false))]).gather)
  {
    LastAction(actions, Consumer(Receive(false)));
    var s := A.After(c, actions);
    CollectDecides(c.source, s.gather);
    EncoderCommitKeeps(c, s.(gather := Collect(c.source, s.gather, Receive(false))));
    hide Collect, Faithful, Decides, A.Commit;
  }

  lemma EncoderCommitKeeps(c: A.Config, s: A.State)
    ensures var g := A.Commit(c, s).gather; g.verdict == s.gather.verdict && g.taken == s.gather.taken && g.buf == s.gather.buf
  {
  }

  /** What ends the wait for output other than an event taken in time: each timer, a
      client that leaves, a full buffer and a stream that ends say what they are, and
      an event that comes too late is taken but not looked at. */
  ghost predicate Interrupted(source: Source, g: Gather, next: Gather, choice: Choice) {
    if choice.Deadline? then next.verdict == GivenUp("timeout", "no meaningful upstream output within 10 seconds")
    else if !HasRoom(g) then next.verdict == GivenUp("timeout", "precommit buffer limit reached before meaningful output")
    else if choice.Cancel? then next.verdict == GivenUp("client", "request cancelled by client")
    else if choice.FirstTimer? && g.buf == [] then next.verdict == GivenUp("timeout", "first event timeout")
    else if choice.OutputTimer? || (choice == Receive(true) && (g.pipe.channel != [] || g.pipe.closed)) then
      next.verdict == GivenUp("timeout", "no meaningful upstream output within 10 seconds")
    else if choice.IdleTimer? then next.verdict == GivenUp("timeout", "stream idle timeout")
    else if choice.Receive? && g.pipe.channel == [] && g.pipe.closed then
      next.verdict == GivenUp("upstream", if source.broken then "stream error" else "upstream stream ended before meaningful event")
    else choice != Receive(false) || g.pipe.channel == [] ==> next == g
  }

  lemma CollectInterrupted(source: Source, g: Gather, choice: Choice)
    requires g.verdict.Undecided?
    ensures Interrupted(source, g, Collect(source, g, choice), choice)
  {
    hide Bytes, Buffer;
  }

  lemma ResponsesInterrupted(c: O.Config, actions: seq<Action>, choice: Choice)
    requires O.After(c, actions).gather.verdict.Undecided?
    ensures Interrupted(c.source, O.After(c, actions).gather, O.After(c, actions + [Consumer(choice)]).gather, choice)
  {
    hide Collect, O.Commit, HasRoom;
    LastAction(actions, Consumer(choice));
    var s := O.After(c, actions);
    CollectInterrupted(c.source, s.gather, choice);
    CommitKeeps(c, s.(gather := Collect(c.source, s.gather, choice)));
  }

  lemma MessagesInterrupted(c: A.Config, actions: seq<Action>, choice: Choice)
    requires A.After(c, actions).gather.verdict.Undecided?
    ensures Interrupted(c.source, A.After(c, actions).gather, A.After(c, actions + [Consumer(choice)]).gather, choice)
  {
    hide Collect, A.Commit, HasRoom;
    LastAction(actions, Consumer(choice));
    var s := A.After(c, actions);
    CollectInterrupted(c.source, s.gather, choice);
    EncoderCommitKeeps(c, s.(gather := Collect(c.source, s.gather, choice)));
  }

  // --------------------------------------------------------- where it is committed

  /** An event that leaves the collecting loop waiting. */
  predicate Waits(e: UpEvent) {
    var body := e.event.body;
    (body.Created? || body.PartDone? || body.ReasoningDelta? || body.ReasoningDone?) && !e.hinted
  }

  ghost predicate AllWait(events: seq<UpEvent>) {
    forall i :: 0 <= i < |events| ==> Waits(events[i])
  }

  lemma MuteWaits(e: UpEvent)
    requires Faithful(e)
    ensures Mute(e) <==> Waits(e)
  {
    NamedMeaning(e);
    NamedEmpty(e);
    hide IsMeaningful, IsEmptyCompletion, EndsBeforeOutput;
  }

  lemma AllMuteWait(events: seq<UpEvent>)
    requires AllFaithful(events)
    ensures AllMute(events) <==> AllWait(events)
  {
    forall i | 0 <= i < |events| ensures Mute(events[i]) <==> Waits(events[i]) {
      MuteWaits(events[i]);
    }
    hide Mute, Waits, Faithful;
  }

  /** The first event that does not wait, if there is one. */
  ghost function Reached(upstream: seq<UpEvent>): nat
    ensures Reached(upstream) <= |upstream|
  {
    if upstream == [] || !Waits(upstream[0]) then 0 else 1 + Reached(upstream[1..])
  }

  lemma {:induction false} ReachedMeans(upstream: seq<UpEvent>)
    ensures AllWait(upstream[..Reached(upstream)])
    ensures Reached(upstream) < |upstream| ==> !Waits(upstream[Reached(upstream)])
  {
    hide Waits;
    if upstream != [] && Waits(upstream[0]) {
      var n := Reached(upstream[1..]);
      ReachedMeans(upstream[1..]);
      assert upstream[..1 + n] == [upstream[0]] + upstream[1..][..n];
      if n < |upstream[1..]| { assert upstream[1..][n] == upstream[1 + n]; }
    }
  }

  lemma WaitsAt(upstream: seq<UpEvent>, n: nat)
    requires n <= |upstream| && AllWait(upstream[..n])
    ensures forall i :: 0 <= i < n ==> Waits(upstream[i])
  {
    hide Waits;
    forall i | 0 <= i < n ensures Waits(upstream[i]) {
      assert upstream[..n][i] == upstream[i];
    }
  }

  lemma ReachedUnique(upstream: seq<UpEvent>, n: nat)
    requires n < |upstream| && AllWait(upstream[..n]) && !Waits(upstream[n])
    ensures n == Reached(upstream)
  {
    hide Waits, Reached, AllWait;
    ReachedMeans(upstream);
    WaitsAt(upstream, n);
    WaitsAt(upstream, Reached(upstream));
  }

  lemma CommittedEnds(buf: seq<UpEvent>)
    requires AllFaithful(buf) && CommittedAt(buf)
    ensures var n := |buf| - 1; AllWait(buf[..n]) && !Waits(buf[n]) && !Fails(buf[n].event.body) && !Empty(buf[n].event.body)
  {
    hide IsMeaningful, IsEmptyCompletion, EndsBeforeOutput, Waits, Fails, Empty, Faithful;
    var n := |buf| - 1;
    assert Faithful(buf[n]);
    NamedMeaning(buf[n]);
    NamedEmpty(buf[n]);
    assert forall i :: 0 <= i < n ==> buf[..n][i] == buf[i];
    AllMuteWait(buf[..n]);
    MuteWaits(buf[n]);
  }

  lemma CommittedReached(upstream: seq<UpEvent>, buf: seq<UpEvent>)
    requires AllFaithful(upstream) && buf <= upstream && CommittedAt(buf)
    ensures Reached(upstream) < |upstream| && buf == upstream[..Reached(upstream) + 1]
    ensures !Fails(buf[|buf| - 1].event.body) && !Empty(buf[|buf| - 1].event.body)
  {
    hide CommittedAt, Waits, Fails, Empty, Faithful, Reached;
    assert buf != [] by { CommittedSome(buf); }
    var n := |buf| - 1;
    assert forall i :: 0 <= i < |buf| ==> buf[i] == upstream[i];
    assert AllFaithful(buf);
    CommittedEnds(buf);
    assert buf[..n] == upstream[..n];
    ReachedUnique(upstream, n);
  }

  lemma CommittedSome(buf: seq<UpEvent>)
    requires CommittedAt(buf)
    ensures buf != []
  {
  }

  /** Why the collecting loop gave up: what it says is so. */
  ghost predicate Explained(source: Source, g: Gather) {
    match g.verdict
    case Undecided => true
    case Committed => true
    case GivenUp(errorClass, message) =>
      || (errorClass == "client" && message == "request cancelled by client")
      || (errorClass == "timeout" && message == "no meaningful upstream output within 10 seconds")
      || (errorClass == "timeout" && message == "stream idle timeout")
      || (errorClass == "timeout" && message == "first event timeout" && g.taken == [])
      || (errorClass == "timeout" && message == "precommit buffer limit reached before meaningful output" &&
          g.taken == g.buf && AllMute(g.buf) && (|g.buf| >= 32 || Bytes(g.buf) >= 65536))
      || (errorClass == "upstream" && message == "stream error" && source.broken && g.taken == source.upstream && AllMute(g.taken))
      || (errorClass == "upstream" && message == "upstream stream ended before meaningful event" &&
          !source.broken && g.taken == source.upstream && AllMute(g.taken))
      || (errorClass == "upstream" && message == "upstream response failed before output" && g.taken == g.buf && g.buf != [] &&
          AllMute(g.buf[..|g.buf| - 1]) && EndsBeforeOutput(g.buf[|g.buf| - 1]))
      || (errorClass == "upstream" && message == "upstream returned empty response" && g.taken == g.buf && g.buf != [] &&
          AllMute(g.buf[..|g.buf| - 1]) && IsEmptyCompletion(g.buf[|g.buf| - 1]))
  }

  lemma BufferExplained(source: Source, g: Gather, e: UpEvent)
    requires g.verdict.Undecided? && g.taken == g.buf + [e] && AllMute(g.buf)
    ensures Explained(source, Buffer(g, e))
  {
    hide AllMute, IsMeaningful, IsEmptyCompletion, EndsBeforeOutput, Bytes;
    assert (g.buf + [e])[..|g.buf| ] == g.buf;
  }

  lemma CollectExplained(source: Source, g: Gather, choice: Choice)
    requires Gathered(source, g) && g.verdict.Undecided?
    ensures Explained(source, Collect(source, g, choice))
  {
    hide AllMute, IsMeaningful, IsEmptyCompletion, EndsBeforeOutput, Bytes, Buffer, Bounded, InOrder;
    if choice.Receive? && !choice.late && g.pipe.channel != [] && !(|g.buf| >= MAX_EVENTS || Bytes(g.buf) >= MAX_BYTES) {
      BufferExplained(source, Take(g), g.pipe.channel[0]);
    } else if choice.Receive? && g.pipe.closed && g.pipe.channel == [] {
      ClosedIsAll(source.upstream, g.pipe, g.taken);
    }
  }

  /** The verdict once reached stays, with what was taken when giving up. */
  ghost predicate Kept(g: Gather, next: Gather) {
    && next.verdict == g.verdict && next.buf == g.buf
    && (g.verdict.GivenUp? ==> next.taken == g.taken)
  }

  lemma KeptExplained(source: Source, g: Gather, next: Gather)
    requires Kept(g, next) && Explained(source, g)
    ensures Explained(source, next)
  {
    hide AllMute, IsEmptyCompletion, EndsBeforeOutput, Bytes;
  }

  lemma ResponsesStep(c: O.Config, s: O.State, action: Action)
    requires O.Inv(c, s) && Explained(c.source, s.gather)
    ensures Explained(c.source, O.Step(c, s, action).gather)
  {
    hide Explained, Collect, Gathered, O.Delivers, O.PassOn;
    var next := O.Step(c, s, action);
    if action.Consumer? && s.gather.verdict.Undecided? {
      CollectExplained(c.source, s.gather, action.choice);
      var collected := s.(gather := Collect(c.source, s.gather, action.choice));
      CommitKeeps(c, collected);
      hide O.Commit;
      KeptExplained(c.source, collected.gather, next.gather);
    } else {
      if action.Consumer? && action.choice.Receive? && s.gather.verdict.Committed? && s.gather.pipe.channel != [] {
        PassOnKeeps(c, s.(gather := Take(s.gather)), s.gather.pipe.channel[0]);
      }
      assert Kept(s.gather, next.gather);
      KeptExplained(c.source, s.gather, next.gather);
    }
  }

  lemma PassOnKeeps(c: O.Config, s: O.State, e: UpEvent)
    ensures var g := O.PassOn(c, s, e).gather; g.verdict == s.gather.verdict && g.buf == s.gather.buf && g.taken == s.gather.taken
  {
    hide IsEmptyCompletion;
  }

  /** In every schedule of a streamed Responses request giving up is for the reason
      given. */
  lemma {:induction false} ResponsesExplained(c: O.Config, actions: seq<Action>)
    ensures Explained(c.source, O.After(c, actions).gather)
  {
    if actions != [] {
      hide Explained, O.Step;
      ResponsesExplained(c, actions[..|actions| - 1]);
      O.AlwaysInv(c, actions[..|actions| - 1]);
      ResponsesStep(c, O.After(c, actions[..|actions| - 1]), actions[|actions| - 1]);
    }
  }

  lemma MessagesStep(c: A.Config, s: A.State, action: Action)
    requires A.Inv(c, s) && Explained(c.source, s.gather)
    ensures Explained(c.source, A.Step(c, s, action).gather)
  {
    hide Explained, Collect, Gathered, A.Delivers, A.PassOn;
    var next := A.Step(c, s, action);
    if action.Consumer? && s.gather.verdict.Undecided? {
      CollectExplained(c.source, s.gather, action.choice);
      var collected := s.(gather := Collect(c.source, s.gather, action.choice));
      EncoderCommitKeeps(c, collected);
      hide A.Commit;
      KeptExplained(c.source, collected.gather, next.gather);
    } else {
      if action.Consumer? && action.choice.Receive? && s.gather.verdict.Committed? && s.gather.pipe.channel != [] {
        EncoderPassOnKeeps(c, s.(gather := Take(s.gather)), s.gather.pipe.channel[0]);
      }
      assert Kept(s.gather, next.gather);
      KeptExplained(c.source, s.gather, next.gather);
    }
  }

  lemma EncoderPassOnKeeps(c: A.Config, s: A.State, e: UpEvent)
    requires A.E.Indexed(s.encoder.registry)
    ensures var g := A.PassOn(c, s, e).gather; g.verdict == s.gather.verdict && g.buf == s.gather.buf && g.taken == s.gather.taken
  {
    hide A.E.Handle;
  }

  /** In every schedule of a streamed Messages request giving up is for the reason
      given. */
  lemma {:induction false} MessagesExplained(c: A.Config, actions: seq<Action>)
    ensures Explained(c.source, A.After(c, actions).gather)
  {
    if actions != [] {
      hide Explained, A.Step;
      MessagesExplained(c, actions[..|actions| - 1]);
      A.AlwaysInv(c, actions[..|actions| - 1]);
      MessagesStep(c, A.After(c, actions[..|actions| - 1]), actions[|actions| - 1]);
    }
  }

  /** The buffer shown at commit ends with the first event that does not wait; while
      undecided, and when the buffer is full, nothing but waiting events was taken. */
  ghost predicate Prompt(source: Source, g: Gather) {
    var first := Reached(source.upstream);
    && (g.verdict.Undecided? ==> g.taken == g.buf && AllWait(g.taken))
    && (g.verdict.Committed? ==>
          && first < |source.upstream| && g.buf == source.upstream[..first + 1] && g.buf <= g.taken
          && !Fails(source.upstream[first].event.body) && !Empty(source.upstream[first].event.body))
    && (g.verdict.GivenUp? && g.verdict.message == "precommit buffer limit reached before meaningful output" ==>
          AllWait(g.taken) && (|g.taken| >= 32 || Bytes(g.taken) >= 65536))
    && (g.verdict.GivenUp? && g.verdict.message == "upstream stream ended before meaningful event" ==>
          g.taken == source.upstream && AllWait(g.taken))
  }

  lemma TakenFaithful(upstream: seq<UpEvent>, taken: seq<UpEvent>)
    requires AllFaithful(upstream) && taken <= upstream
    ensures AllFaithful(taken)
  {
    hide Faithful;
    assert forall i :: 0 <= i < |taken| ==> taken[i] == upstream[i];
  }

  lemma LimitExplained(source: Source, g: Gather)
    requires Explained(source, g) && g.verdict.GivenUp?
    ensures g.verdict.message == "precommit buffer limit reached before meaningful output" ==>
              AllMute(g.taken) && (|g.taken| >= 32 || Bytes(g.taken) >= 65536)
    ensures g.verdict.message == "upstream stream ended before meaningful event" ==>
              AllMute(g.taken) && g.taken == source.upstream
  {
    hide AllMute, IsEmptyCompletion, EndsBeforeOutput, Bytes;
    // the two messages differ from all others in length
    assert |"precommit buffer limit reached before meaningful output"| == 55;
    assert |"upstream stream ended before meaningful event"| == 45;
    assert |"no meaningful upstream output within 10 seconds"| == 47;
    assert |"request cancelled by client"| == 27;
    assert |"stream idle timeout"| == 19;
    assert |"first event timeout"| == 19;
    assert |"stream error"| == 12;
    assert |"upstream response failed before output"| == 38;
    assert |"upstream returned empty response"| == 32;
  }

  lemma IsPrompt(source: Source, g: Gather)
    requires AllFaithful(source.upstream) && Gathered(source, g) && Explained(source, g)
    ensures Prompt(source, g)
  {
    hide AllMute, AllWait, AllFaithful, CommittedAt, Explained, Fails, Empty, Bytes, Bounded, InOrder, Reached;
    ReadInOrder(source, g);
    assert g.taken <= source.upstream;
    TakenFaithful(source.upstream, g.taken);
    AllMuteWait(g.taken);
    if g.verdict.Committed? {
      assert g.buf <= source.upstream;
      CommittedReached(source.upstream, g.buf);
      assert g.buf[|g.buf| - 1] == source.upstream[Reached(source.upstream)];
    }
    if g.verdict.GivenUp? { LimitExplained(source, g); }
  }

  /** In every schedule of a streamed Responses request. */
  lemma ResponsesPrompt(c: O.Config, actions: seq<Action>)
    requires AllFaithful(c.source.upstream)
    ensures Prompt(c.source, O.After(c, actions).gather)
  {
    hide Prompt, AllFaithful, Explained, Gathered, O.Delivers, O.After;
    O.AlwaysInv(c, actions);
    ResponsesExplained(c, actions);
    IsPrompt(c.source, O.After(c, actions).gather);
  }

  /** In every schedule of a streamed Messages request. */
  lemma MessagesPrompt(c: A.Config, actions: seq<Action>)
    requires AllFaithful(c.source.upstream)
    ensures Prompt(c.source, A.After(c, actions).gather)
  {
    hide Prompt, AllFaithful, Explained, Gathered, A.Delivers, A.After;
    A.AlwaysInv(c, actions);
    MessagesExplained(c, actions);
    IsPrompt(c.source, A.After(c, actions).gather);
  }

  // ----------------------------------------------------------- the reader delivers

  /** Two moves of the reader at most bring the next event into the channel. */
  ghost function NextMoves(p: Pipe): seq<Move> {
    if p.channel != [] then [] else if p.hand.Some? then [Send] else [Pull, Send]
  }

  function MovedAll(upstream: seq<UpEvent>, p: Pipe, moves: seq<Move>): Pipe {
    if moves == [] then p else Moved(upstream, MovedAll(upstream, p, moves[..|moves| - 1]), moves[|moves| - 1])
  }

  lemma MovedTwice(upstream: seq<UpEvent>, p: Pipe, first: Move, second: Move)
    ensures MovedAll(upstream, p, [first]) == Moved(upstream, p, first)
    ensures MovedAll(upstream, p, [first, second]) == Moved(upstream, Moved(upstream, p, first), second)
  {
    hide Moved;
    assert [first, second][..1] == [first] && [first][..0] == [];
  }

  lemma Foremost(upstream: seq<UpEvent>, p: Pipe, taken: seq<UpEvent>)
    requires InOrder(upstream, p, taken) && !p.stopped
    ensures taken <= upstream
    ensures p.channel != [] ==> |taken| < |upstream| && p.channel == [upstream[|taken|]]
    ensures p.channel == [] && p.hand.Some? ==> |taken| < |upstream| && p.hand.value == upstream[|taken|]
    ensures p.channel == [] && p.hand.None? ==> p.pulled == |taken| && (p.closed ==> taken == upstream)
  {
    var front := taken + Held(p);
    assert front == upstream[..p.pulled] && |front| == p.pulled;
    assert forall i :: 0 <= i < |front| ==> front[i] == upstream[i];
    if p.channel != [] {
      assert front[|taken|] == p.channel[0];
    } else if p.hand.Some? {
      assert front[|taken|] == p.hand.value;
    } else {
      assert Held(p) == [];
    }
  }

  /** As long as the consumer has not told the reader to stop, the next event of the
      stream can always be brought to it, and after the last one the end. */
  lemma NextArrives(upstream: seq<UpEvent>, p: Pipe, taken: seq<UpEvent>)
    requires InOrder(upstream, p, taken) && !p.stopped && |taken| < |upstream|
    ensures var q := MovedAll(upstream, p, NextMoves(p)); q.channel == [upstream[|taken|]] && !q.stopped
  {
    Foremost(upstream, p, taken);
    MovedTwice(upstream, p, Send, Send);
    MovedTwice(upstream, p, Pull, Send);
    hide InOrder, MovedAll;
    if p.channel != [] { assert MovedAll(upstream, p, []) == p by { MovedNot(upstream, p); } }
  }

  lemma MovedNot(upstream: seq<UpEvent>, p: Pipe)
    ensures MovedAll(upstream, p, []) == p
  {
  }

  lemma EndArrives(upstream: seq<UpEvent>, p: Pipe, taken: seq<UpEvent>)
    requires InOrder(upstream, p, taken) && !p.stopped && taken == upstream
    ensures var q := Moved(upstream, p, Pull); q.channel == [] && q.closed
  {
    assert |taken + Held(p)| <= |upstream|;
    assert Held(p) == [];
    assert p.pulled == |upstream|;
  }

  function Readers(moves: seq<Move>): seq<Action> {
    seq(|moves|, i requires 0 <= i < |moves| => Reader(moves[i]))
  }

  lemma ResponsesNext(c: O.Config, actions: seq<Action>, action: Action)
    ensures O.After(c, actions + [action]) == O.Step(c, O.After(c, actions), action)
  {
    LastAction(actions, action);
    hide O.Step;
  }

  lemma {:induction false} ResponsesMoved(c: O.Config, actions: seq<Action>, moves: seq<Move>)
    ensures var s := O.After(c, actions);
            O.After(c, actions + Readers(moves)) == s.(gather := s.gather.(pipe := MovedAll(c.source.upstream, s.gather.pipe, moves)))
  {
    hide O.After, Moved, O.Consume;
    if moves == [] {
      assert actions + Readers(moves) == actions;
    } else {
      var front, last := moves[..|moves| - 1], moves[|moves| - 1];
      ResponsesMoved(c, actions, front);
      assert actions + Readers(moves) == (actions + Readers(front)) + [Reader(last)];
      ResponsesNext(c, actions + Readers(front), Reader(last));
    }
  }

  lemma MessagesNext(c: A.Config, actions: seq<Action>, action: Action)
    ensures A.After(c, actions + [action]) == A.Step(c, A.After(c, actions), action)
  {
    LastAction(actions, action);
    hide A.Step;
  }

  lemma {:induction false} MessagesMoved(c: A.Config, actions: seq<Action>, moves: seq<Move>)
    ensures var s := A.After(c, actions);
            A.After(c, actions + Readers(moves)) == s.(gather := s.gather.(pipe := MovedAll(c.source.upstream, s.gather.pipe, moves)))
  {
    hide A.After, Moved, A.Consume;
    if moves == [] {
      assert actions + Readers(moves) == actions;
    } else {
      var front, last := moves[..|moves| - 1], moves[|moves| - 1];
      MessagesMoved(c, actions, front);
      assert actions + Readers(moves) == (actions + Readers(front)) + [Reader(last)];
      MessagesNext(c, actions + Readers(front), Reader(last));
    }
  }

  /** There is room for each of the first `n` events. */
  ghost predicate Fits(upstream: seq<UpEvent>, n: nat)
    requires n <= |upstream|
  {
    forall k :: 0 <= k < n ==> k < 32 && Bytes(upstream[..k]) < 65536
  }

  lemma FitsLess(upstream: seq<UpEvent>, n: nat)
    requires 0 < n <= |upstream| && Fits(upstream, n)
    ensures Fits(upstream, n - 1) && n <= 32 && Bytes(upstream[..n - 1]) < 65536
  {
    hide Bytes;
    assert Bytes(upstream[..n - 1]) < 65536;
  }

  /** One event further: from waiting with the first `n` events to having looked at
      the next. */
  lemma LooksAtNext(g: Gather, next: Gather, upstream: seq<UpEvent>, n: nat)
    requires n < |upstream| && g.taken == upstream[..n] && g.pipe.channel == [upstream[n]] && Decided(g, next)
    ensures next.taken == upstream[..n + 1] && Decides(upstream[n], next.verdict)
  {
    hide Decides;
    assert upstream[..n + 1] == upstream[..n] + [upstream[n]];
  }

  lemma WaitsUndecided(e: UpEvent, verdict: Verdict)
    requires Waits(e) && Decides(e, verdict)
    ensures verdict == Undecided
  {
  }

  /** A consumer that always receives in time looks at every event up to the first
      that does not wait, and that one decides: some schedule of a streamed Responses
      request takes exactly the first `n` events. */
  lemma {:induction false} ResponsesReach(c: O.Config, n: nat) returns (actions: seq<Action>)
    requires AllFaithful(c.source.upstream) && n <= Reached(c.source.upstream) + 1 && n <= |c.source.upstream| && Fits(c.source.upstream, n)
    ensures var g := O.After(c, actions).gather;
            && g.taken == c.source.upstream[..n]
            && (if n <= Reached(c.source.upstream) then g.verdict.Undecided? else Decides(c.source.upstream[n - 1], g.verdict))
  {
    var upstream := c.source.upstream;
    if n == 0 {
      actions := [];
    } else {
      hide O.After, MovedAll, NextMoves, Decides, Decided, Waits, Faithful, Gathered, O.Delivers, Prompt, Reached, Fits, Bytes;
      FitsLess(upstream, n);
      var before := ResponsesReach(c, n - 1);
      var g := O.After(c, before).gather;
      O.AlwaysInv(c, before);
      ResponsesPrompt(c, before);
      UndecidedFacts(c.source, g);
      NextArrives(upstream, g.pipe, g.taken);
      ResponsesMoved(c, before, NextMoves(g.pipe));
      var ready := before + Readers(NextMoves(g.pipe));
      ResponsesDecide(c, ready);
      actions := ready + [Consumer(Receive(false))];
      LooksAtNext(O.After(c, ready).gather, O.After(c, actions).gather, upstream, n - 1);
      if n <= Reached(upstream) {
        ReachedMeans(upstream);
        WaitsAt(upstream, Reached(upstream));
        WaitsUndecided(upstream[n - 1], O.After(c, actions).gather.verdict);
      }
    }
  }

  lemma UndecidedFacts(source: Source, g: Gather)
    requires Gathered(source, g) && Prompt(source, g) && g.verdict.Undecided?
    ensures InOrder(source.upstream, g.pipe, g.taken) && !g.pipe.stopped && g.buf == g.taken
  {
    hide AllMute, InOrder, Bounded, Reached;
  }

  lemma {:induction false} MessagesReach(c: A.Config, n: nat) returns (actions: seq<Action>)
    requires AllFaithful(c.source.upstream) && n <= Reached(c.source.upstream) + 1 && n <= |c.source.upstream| && Fits(c.source.upstream, n)
    ensures var g := A.After(c, actions).gather;
            && g.taken == c.source.upstream[..n]
            && (if n <= Reached(c.source.upstream) then g.verdict.Undecided? else Decides(c.source.upstream[n - 1], g.verdict))
  {
    var upstream := c.source.upstream;
    if n == 0 {
      actions := [];
    } else {
      hide A.After, MovedAll, NextMoves, Decides, Decided, Waits, Faithful, Gathered, A.Delivers, Prompt, Reached, Fits, Bytes;
      FitsLess(upstream, n);
      var before := MessagesReach(c, n - 1);
      var g := A.After(c, before).gather;
      A.AlwaysInv(c, before);
      MessagesPrompt(c, before);
      UndecidedFacts(c.source, g);
      NextArrives(upstream, g.pipe, g.taken);
      MessagesMoved(c, before, NextMoves(g.pipe));
      var ready := before + Readers(NextMoves(g.pipe));
      MessagesDecide(c, ready);
      actions := ready + [Consumer(Receive(false))];
      LooksAtNext(A.After(c, ready).gather, A.After(c, actions).gather, upstream, n - 1);
      if n <= Reached(upstream) {
        ReachedMeans(upstream);
        WaitsAt(upstream, Reached(upstream));
        WaitsUndecided(upstream[n - 1], A.After(c, actions).gather.verdict);
      }
    }
  }

  // ------------------------------------------------------------------- the bridge

  /** The first event announces the response and the next opens an item. */
  ghost predicate OpensSecond(s: B.State) {
    && s.log != [] && s.log[0].body.Created?
    && (if s.slots == [] then |s.log| == 1 else |s.log| >= 2 && s.log[1].body.ItemAdded?)
  }

  lemma ClosingOpens(s: B.State)
    requires OpensSecond(s) && BridgeShape.Placed(s)
    ensures OpensSecond(B.CloseReasoning(s)) && (s.slots == [] ==> B.CloseReasoning(s) == s)
  {
  }

  lemma CallOpens(s: B.State, d: B.CallDelta)
    requires OpensSecond(s) && BridgeShape.Placed(s)
    ensures OpensSecond(B.AddCall(s, d))
  {
    ClosingOpens(s);
    assert d.index in s.calls && s.calls[d.index].at.Some? ==> s.slots != [];
    hide BridgeShape.Placed, B.CloseReasoning;
  }

  lemma TextOpens(s: B.State, delta: string)
    requires OpensSecond(s) && BridgeShape.Placed(s)
    ensures OpensSecond(B.AddText(s, delta))
  {
    ClosingOpens(s);
    assert s.textAt.Some? ==> s.slots != [];
    hide BridgeShape.Placed, B.CloseReasoning, B.FreshID;
  }

  lemma RefusalOpens(s: B.State, delta: string)
    requires OpensSecond(s) && BridgeShape.Placed(s)
    ensures OpensSecond(B.AddRefusal(s, delta))
  {
    ClosingOpens(s);
    assert s.refusalAt.Some? ==> s.slots != [];
    hide BridgeShape.Placed, B.CloseReasoning, B.FreshID;
  }

  lemma ReasoningOpens(s: B.State, delta: string)
    requires OpensSecond(s) && BridgeShape.Placed(s)
    ensures OpensSecond(B.AddReasoning(s, delta))
  {
    assert s.reasoningAt.Some? ==> s.slots != [];
    hide BridgeShape.Placed, B.FreshID;
  }

  lemma StepOpens(s: B.State, piece: B.Piece)
    requires OpensSecond(s) && BridgeShape.Placed(s)
    ensures OpensSecond(B.Step(s, piece))
  {
    hide BridgeShape.Placed, B.CloseReasoning, B.AddCall, B.AddText, B.AddRefusal, B.AddReasoning;
    match piece
    case Text(delta) => TextOpens(s, delta);
    case Refusal(delta) => RefusalOpens(s, delta);
    case Reasoning(delta) => ReasoningOpens(s, delta);
    case CallPart(call) => CallOpens(s, call);
    case _ =>
  }

  lemma {:induction false} RunOpens(expose: bool, pieces: seq<B.Piece>)
    ensures OpensSecond(B.Run(expose, pieces))
  {
    if pieces != [] {
      hide B.Step, BridgeShape.Placed;
      RunOpens(expose, pieces[..|pieces| - 1]);
      BridgeShape.RunPlaced(expose, pieces[..|pieces| - 1]);
      StepOpens(B.Run(expose, pieces[..|pieces| - 1]), pieces[|pieces| - 1]);
    }
  }

  lemma {:induction false} NoCallsNoLog(s: B.State)
    requires BridgeShape.Placed(s) && s.slots == []
    ensures B.FinishItems(s) == s
  {
    assert s.textAt.None? && s.refusalAt.None? && s.reasoningAt.None?;
  }

  lemma FinishExtendsLog(s: B.State)
    requires BridgeShape.Placed(s)
    ensures s.log <= B.Complete(s)
    ensures s.slots == [] ==> B.FinishItems(s).log == s.log
  {
    hide BridgeShape.Placed, B.FinishItems;
    BridgeObject.CompleteExtends(s);
    if s.slots == [] { NoCallsNoLog(s); }
  }

  lemma DeliveredOpens(expose: bool, chunks: seq<B.Chunk>, transportError: bool)
    ensures var log := B.Delivered(expose, chunks, transportError);
            && log != [] && log[0].body.Created?
            && (|log| >= 2 ==> log[1].body.ItemAdded? || log[1].body.Completed? || log[1].body.Incomplete?)
  {
    hide B.Run, BridgeShape.Placed, B.FinishItems, B.CallsStarted, B.FinalResponse;
    var s := B.Run(expose, B.Pieces(chunks));
    RunOpens(expose, B.Pieces(chunks));
    BridgeShape.RunPlaced(expose, B.Pieces(chunks));
    FinishExtendsLog(s);
  }

  /** A stream that comes through the chat bridge is decided by its second event:
      the first only announces the response, and the second opens an output item or
      already ends the answer. */
  lemma {:induction false} BridgedReached(upstream: seq<UpEvent>, expose: bool, chunks: seq<B.Chunk>, transportError: bool)
    requires A.Events(upstream) == B.Delivered(expose, chunks, transportError) && upstream != [] && !upstream[0].hinted
    ensures Reached(upstream) == 1
    ensures |upstream| >= 2 ==> var body := upstream[1].event.body; body.ItemAdded? || body.Completed? || body.Incomplete?
  {
    DeliveredOpens(expose, chunks, transportError);
    var log := B.Delivered(expose, chunks, transportError);
    assert |upstream| == |log|;
    assert upstream[0].event == log[0];
    if |upstream| >= 2 {
      assert upstream[1].event == log[1];
      assert upstream[1..][0] == upstream[1];
    }
    hide B.Delivered;
  }

  lemma NoBytes()
    ensures Bytes([]) == 0
  {
  }

  lemma BridgedPrompt(source: Source, g: Gather, expose: bool, chunks: seq<B.Chunk>, transportError: bool)
    requires A.Events(source.upstream) == B.Delivered(expose, chunks, transportError)
    requires source.upstream != [] && !source.upstream[0].hinted
    requires Prompt(source, g) && g.taken <= source.upstream
    ensures g.verdict.Committed? ==> |source.upstream| >= 2 && g.buf == source.upstream[..2] && !Empty(source.upstream[1].event.body)
    ensures g.verdict.GivenUp? && g.verdict.message == "precommit buffer limit reached before meaningful output" ==>
              g.taken == source.upstream[..1] && Bytes(source.upstream[..1]) >= 65536
  {
    hide Empty, Fails, Bytes, B.Delivered, Waits;
    BridgedReached(source.upstream, expose, chunks, transportError);
    var upstream, n := source.upstream, |g.taken|;
    assert g.taken == upstream[..n];
    if AllWait(g.taken) {
      WaitsAt(upstream, n);
      ReachedMeans(upstream);
    }
    assert Bytes([]) == 0 by { NoBytes(); }
  }

  // ------------------------------------------------------------- after the commit

  /** What a ready case does to a committed Responses stream that has not ended. */
  ghost predicate ResponsesDrained(broken: bool, s: O.State, next: O.State, choice: Choice) {
    var number := O.LastNumber(s.gather.taken) + 1;
    if choice.Cancel? then next.log == s.log && next.ending == Some(O.Ending(false, "client"))
    else if choice.IdleTimer? then
      && next.log == s.log + [O.GatewayError("upstream stream idle timeout", number)]
      && next.ending == Some(O.Ending(false, "timeout"))
    else if choice.Receive? && s.gather.pipe.channel != [] then
      && next.gather.taken == s.gather.taken + s.gather.pipe.channel[..1]
      && |next.log| == |s.log| + 1 && next.log[..|s.log|] == s.log
      && (next.ending.Some? <==> O.IsTerminal(next.log[|s.log|]))
    else if choice.Receive? && s.gather.pipe.closed then
      && next.log == s.log + [O.GatewayError("upstream stream ended before completion", number)]
      && next.ending == Some(O.Ending(false, if broken then "upstream" else "upstream_eof"))
    else next == s
  }

  lemma OpenMeter(c: O.Config, s: O.State)
    requires O.Inv(c, s) && s.gather.verdict.Committed? && s.ending.None?
    ensures s.meter.last == O.LastNumber(s.gather.taken) && !s.meter.terminal
  {
    hide Gathered, O.Shown, O.Terminals, O.Head;
  }

  lemma PassedOn(c: O.Config, s: O.State, e: UpEvent)
    requires s.ending.None? && !s.meter.terminal
    ensures var next := O.PassOn(c, s, e);
            && next.gather.taken == s.gather.taken && |next.log| == |s.log| + 1 && next.log[..|s.log|] == s.log
            && (next.ending.Some? <==> O.IsTerminal(next.log[|s.log|]))
  {
    hide IsEmptyCompletion;
  }

  lemma DrainIs(c: O.Config, s: O.State, choice: Choice)
    requires s.ending.None? && !s.meter.terminal && s.meter.last == O.LastNumber(s.gather.taken)
    ensures ResponsesDrained(c.source.broken, s, O.Drain(c, s, choice), choice)
  {
    hide O.LastNumber, O.PassOn, O.IsTerminal;
    if choice.Receive? && s.gather.pipe.channel != [] {
      PassedOn(c, s.(gather := Take(s.gather)), s.gather.pipe.channel[0]);
    }
  }

  /** In every schedule: a client that leaves is told nothing; silence and an early
      end are told once; an event adds one entry, and the stream ends with it exactly
      if it is final. */
  lemma ResponsesDrains(c: O.Config, actions: seq<Action>, choice: Choice)
    requires var s := O.After(c, actions); s.gather.verdict.Committed? && s.ending.None?
    ensures ResponsesDrained(c.source.broken, O.After(c, actions), O.After(c, actions + [Consumer(choice)]), choice)
  {
    hide O.Inv, O.Drain, ResponsesDrained;
    LastAction(actions, Consumer(choice));
    O.AlwaysInv(c, actions);
    OpenMeter(c, O.After(c, actions));
    DrainIs(c, O.After(c, actions), choice);
  }

  /** The same for a Messages stream, where the ping timer writes a ping. */
  ghost predicate MessagesDrained(broken: bool, s: A.State, next: A.State, choice: Choice) {
    if choice.Cancel? then next.log == s.log && next.ending == Some(A.Ending(false, "client"))
    else if choice.IdleTimer? then
      && next.log == s.log + [StreamError("upstream stream idle timeout")]
      && next.ending == Some(A.Ending(false, "timeout"))
    else if choice.PingTimer? then next.log == s.log + [Ping] && next.ending == None
    else if choice.Receive? && s.gather.pipe.channel != [] then
      && next.gather.taken == s.gather.taken + s.gather.pipe.channel[..1]
      && (next.ending.Some? <==> next.encoder.terminal)
    else if choice.Receive? && s.gather.pipe.closed then
      && next.log == s.log + [StreamError("upstream stream ended before completion")]
      && next.ending == Some(A.Ending(false, if broken then "upstream" else "upstream_eof"))
    else next == s
  }

  lemma OpenEncoder(c: A.Config, s: A.State)
    requires A.Inv(c, s) && s.gather.verdict.Committed? && s.ending.None?
    ensures !s.encoder.terminal
  {
    hide Gathered, A.Mirrors, A.E.Indexed;
  }

  lemma EncoderDrainIs(c: A.Config, s: A.State, choice: Choice)
    requires s.ending.None? && !s.encoder.terminal && A.E.Indexed(s.encoder.registry)
    ensures MessagesDrained(c.source.broken, s, A.Drain(c, s, choice), choice)
  {
    hide A.E.Handle, A.E.Indexed;
  }

  /** In every schedule of a streamed Messages request. */
  lemma MessagesDrains(c: A.Config, actions: seq<Action>, choice: Choice)
    requires var s := A.After(c, actions); s.gather.verdict.Committed? && s.ending.None?
    ensures MessagesDrained(c.source.broken, A.After(c, actions), A.After(c, actions + [Consumer(choice)]), choice)
  {
    hide A.Inv, A.Drain, MessagesDrained, A.E.Indexed;
    LastAction(actions, Consumer(choice));
    A.AlwaysInv(c, actions);
    OpenEncoder(c, A.After(c, actions));
    EncoderDrainIs(c, A.After(c, actions), choice);
  }

  // -------------------------------------------------------------- how it is recorded

  /** The class a Responses stream is recorded with, from the last entry the client
      was sent, if the client was there to the end. */
  ghost predicate ClassFits(broken: bool, last: O.Entry, ending: O.Ending) {
    match last
    case RoutingEvent => false
    case Forward(e) =>
      if e.name == "response.completed" then ending == O.Ending(true, "")
      else e.name in {"response.failed", "response.incomplete", "error"} && ending == O.Ending(false, e.name)
    case GatewayError(message, _) =>
      && !ending.success
      && (ending.errClass == "timeout" || ending.errClass == "upstream" || ending.errClass == "upstream_eof")
      && (message == "upstream stream idle timeout" ==> ending.errClass == "timeout")
      && (message == "upstream returned empty response" ==> ending.errClass == "upstream")
      && (message == "upstream stream ended before completion" ==> ending.errClass == if broken then "upstream" else "upstream_eof")
  }

  ghost predicate Recorded(broken: bool, s: O.State) {
    s.ending.Some? ==> s.ending.value == O.Ending(false, "client") || (s.log != [] && ClassFits(broken, s.log[|s.log| - 1], s.ending.value))
  }

  lemma MessagesDiffer()
    ensures "upstream stream idle timeout" != "upstream returned empty response"
    ensures "upstream stream idle timeout" != "upstream stream ended before completion"
    ensures "upstream returned empty response" != "upstream stream ended before completion"
  {
    assert |"upstream stream idle timeout"| == 28 && |"upstream returned empty response"| == 32;
    assert |"upstream stream ended before completion"| == 39;
  }

  lemma ObservedClass(m: O.Meter, e: UpEvent)
    requires !m.terminal && !m.success && m.errClass == ""
    ensures var seen := O.Observe(m, e);
            if e.name == "response.completed" then seen.terminal && seen.success && seen.errClass == ""
            else if e.name in {"response.failed", "response.incomplete", "error"} then seen.terminal && !seen.success && seen.errClass == e.name
            else !seen.terminal && !seen.success && seen.errClass == ""
  {
  }

  lemma OpenClass(c: O.Config, s: O.State)
    requires O.Inv(c, s) && s.gather.verdict.Committed? && s.ending.None?
    ensures !s.meter.terminal && !s.meter.success && s.meter.errClass == ""
  {
    hide Gathered, O.Shown, O.Terminals, O.Head, O.LastNumber;
  }

  lemma PassedRecorded(c: O.Config, s: O.State, e: UpEvent)
    requires s.ending.None? && !s.meter.terminal && !s.meter.success && s.meter.errClass == ""
    ensures Recorded(c.source.broken, O.PassOn(c, s, e))
  {
    hide IsEmptyCompletion, O.Observe;
    MessagesDiffer();
    ObservedClass(s.meter, e);
    var next := O.PassOn(c, s, e);
    assert next.log[|next.log| - 1] == if c.hoard && IsEmptyCompletion(e) then O.GatewayError(EMPTY_RESPONSE, O.Observe(s.meter, e).last + 1) else O.Forward(e);
  }

  lemma DrainRecorded(c: O.Config, s: O.State, choice: Choice)
    requires O.Inv(c, s) && s.gather.verdict.Committed? && s.ending.None?
    ensures Recorded(c.source.broken, O.Drain(c, s, choice))
  {
    hide O.Inv, O.PassOn;
    MessagesDiffer();
    OpenClass(c, s);
    if choice.Receive? && s.gather.pipe.channel != [] {
      PassedRecorded(c, s.(gather := Take(s.gather)), s.gather.pipe.channel[0]);
    }
  }

  lemma CommitRecorded(c: O.Config, s: O.State)
    requires CommittedAt(s.gather.buf) && s.meter == O.QUIET && s.ending.None? && s.log == []
    ensures Recorded(c.source.broken, O.Commit(c, s))
  {
    hide CommittedAt, O.ObserveAll, O.Observe;
    var buf := s.gather.buf;
    assert buf != [] && AllMute(buf[..|buf| - 1]) by { LastOfCommitted(buf); }
    var n := |buf| - 1;
    O.MuteMeter(buf[..n]);
    ObserveLast(buf);
    ObservedClass(O.ObserveAll(O.QUIET, buf[..n]), buf[n]);
    var log := [] + O.Head(c.hoard) + O.ForwardAll(buf);
    assert log[|log| - 1] == O.Forward(buf[n]);
  }

  lemma LastOfCommitted(buf: seq<UpEvent>)
    requires CommittedAt(buf)
    ensures buf != [] && AllMute(buf[..|buf| - 1])
  {
    hide Mute;
  }

  lemma ObserveLast(events: seq<UpEvent>)
    requires events != []
    ensures O.ObserveAll(O.QUIET, events) == O.Observe(O.ObserveAll(O.QUIET, events[..|events| - 1]), events[|events| - 1])
  {
    hide O.Observe;
  }

  lemma NothingOut(c: O.Config, s: O.State)
    requires O.Inv(c, s) && !s.gather.verdict.Committed?
    ensures s.log == [] && s.meter == O.QUIET && s.ending.None?
  {
    hide Gathered, O.Delivers;
  }

  lemma StepRecorded(c: O.Config, s: O.State, action: Action)
    requires O.Inv(c, s) && Recorded(c.source.broken, s)
    ensures Recorded(c.source.broken, O.Step(c, s, action))
  {
    hide O.Inv, O.Drain, O.Commit, Collect, ClassFits;
    if action.Consumer? {
      if s.gather.verdict.Undecided? {
        NothingOut(c, s);
        var collected := s.(gather := Collect(c.source, s.gather, action.choice));
        if collected.gather.verdict.Committed? {
          assert CommittedAt(collected.gather.buf) by { CollectCommitted(c, s, action.choice); }
          CommitRecorded(c, collected);
        }
      } else if s.gather.verdict.Committed? && s.ending.None? {
        DrainRecorded(c, s, action.choice);
      }
    }
  }

  lemma CollectCommitted(c: O.Config, s: O.State, choice: Choice)
    requires O.Inv(c, s) && s.gather.verdict.Undecided? && Collect(c.source, s.gather, choice).verdict.Committed?
    ensures CommittedAt(Collect(c.source, s.gather, choice).buf)
  {
    CollectGathered(c.source, s.gather, choice);
    hide Collect, InOrder, Bounded, CommittedAt;
  }

  /** In every schedule a stream that has ended is recorded as what the client saw: a
      success exactly after the upstream's own completion, a failure under the name of
      the upstream's last event or as the gateway's own error. */
  lemma {:induction false} ResponsesRecorded(c: O.Config, actions: seq<Action>)
    ensures Recorded(c.source.broken, O.After(c, actions))
  {
    if actions != [] {
      hide Recorded, O.Step;
      ResponsesRecorded(c, actions[..|actions| - 1]);
      O.AlwaysInv(c, actions[..|actions| - 1]);
      StepRecorded(c, O.After(c, actions[..|actions| - 1]), actions[|actions| - 1]);
    }
  }

  lemma ClosedClass(c: A.Config, taken: seq<UpEvent>, log: seq<ClientEvent>, ending: A.Ending)
    requires A.ClosedLog(c, taken, log, ending.success, ending.errClass)
    ensures var phase := A.M.Read(A.M.START, log).phase;
            && (ending.success ==> phase.Finished? && ending.errClass == "")
            && (phase.Finished? && !ending.success ==> ending.errClass == "incomplete")
            && (ending.errClass == "client" ==> phase.Streaming?)
  {
    A.EncoderTrace.EncodeSound(c.valid, A.Events(taken));
    hide A.E.Encode, A.M.Read, A.Quiet;
  }

  /** In every schedule of a streamed Messages request: recorded as a success only
      with a finished message and no class, as incomplete if the message was finished
      short, and as the client's doing only if nothing ended it. */
  lemma MessagesRecorded(c: A.Config, actions: seq<Action>)
    requires A.After(c, actions).gather.verdict.Committed? && A.After(c, actions).ending.Some?
    ensures var s := A.After(c, actions);
            var phase := A.M.Read(A.M.START, s.log).phase;
            && (s.ending.value.success ==> phase.Finished? && s.ending.value.errClass == "")
            && (phase.Finished? && !s.ending.value.success ==> s.ending.value.errClass == "incomplete")
            && (s.ending.value.errClass == "client" ==> phase.Streaming?)
  {
    hide A.After, A.M.Read, A.ClosedLog, Gathered, A.E.Indexed;
    A.AlwaysInv(c, actions);
    ClosedClass(c, A.After(c, actions).gather.taken, A.After(c, actions).log, A.After(c, actions).ending.value);
  }

  // --------------------------------------------------------------- what is sent

  /** The client's log, entry by entry: on a hoard request the route, then every event
      taken as itself, except a completion without output on a hoard request, and at
      most one error of the gateway's own after them. */
  ghost predicate Sent(hoard: bool, taken: seq<UpEvent>, log: seq<O.Entry>) {
    var head := if hoard then 1 else 0;
    && head + |taken| <= |log| <= head + |taken| + 1
    && (hoard ==> log[0] == O.RoutingEvent)
    && (forall i :: 0 <= i < |taken| ==>
          if hoard && IsEmptyCompletion(taken[i]) then log[head + i].GatewayError? && log[head + i].message == "upstream returned empty response"
          else log[head + i] == O.Forward(taken[i]))
    && (|log| == head + |taken| + 1 ==> log[head + |taken|].GatewayError?)
  }

  ghost predicate ShownAs(hoard: bool, taken: seq<UpEvent>, shown: seq<O.Entry>) {
    && |shown| == |taken|
    && forall i :: 0 <= i < |taken| ==>
         if hoard && IsEmptyCompletion(taken[i]) then shown[i].GatewayError? && shown[i].message == "upstream returned empty response"
         else shown[i] == O.Forward(taken[i])
  }

  lemma {:induction false} ShownEntries(hoard: bool, taken: seq<UpEvent>)
    ensures ShownAs(hoard, taken, O.Shown(hoard, taken))
  {
    if taken != [] {
      hide IsEmptyCompletion, O.LastNumber;
      ShownEntries(hoard, taken[..|taken| - 1]);
      assert forall i :: 0 <= i < |taken| - 1 ==> taken[..|taken| - 1][i] == taken[i];
    }
  }

  lemma LogIs(c: O.Config, taken: seq<UpEvent>, log: seq<O.Entry>, more: seq<O.Entry>)
    requires log == O.Head(c.hoard) + O.Shown(c.hoard, taken) + more
    requires more == [] || (|more| == 1 && more[0].GatewayError?)
    ensures Sent(c.hoard, taken, log)
  {
    hide IsEmptyCompletion, O.Shown;
    ShownEntries(c.hoard, taken);
  }

  /** In every schedule, once committed. */
  lemma ResponsesSent(c: O.Config, actions: seq<Action>)
    requires O.After(c, actions).gather.verdict.Committed?
    ensures Sent(c.hoard, O.After(c, actions).gather.taken, O.After(c, actions).log)
  {
    hide O.After, Sent, Gathered, O.Shown, O.Terminals, O.LastNumber, O.IsTerminal, O.Head;
    O.AlwaysInv(c, actions);
    var s := O.After(c, actions);
    var shown := O.Head(c.hoard) + O.Shown(c.hoard, s.gather.taken);
    assert shown + [] == shown;
    LogOfShown(c, s.gather.taken, s.log);
  }

  lemma LogOfShown(c: O.Config, taken: seq<UpEvent>, log: seq<O.Entry>)
    ensures var shown := O.Head(c.hoard) + O.Shown(c.hoard, taken);
            log == shown || (|log| == |shown| + 1 && log[..|shown|] == shown && log[|shown|].GatewayError?) ==> Sent(c.hoard, taken, log)
  {
    hide O.Shown, Sent, O.Head;
    var shown := O.Head(c.hoard) + O.Shown(c.hoard, taken);
    if log == shown {
      assert log == shown + [];
      LogIs(c, taken, log, []);
    } else if |log| == |shown| + 1 && log[..|shown|] == shown && log[|shown|].GatewayError? {
      assert log == shown + [log[|shown|]];
      LogIs(c, taken, log, [log[|shown|]]);
    }
  }

  /** The size of a buffer is that of its events. */
  lemma BytesAdd(events: seq<UpEvent>, e: UpEvent)
    ensures Bytes([]) == 0 && Bytes(events + [e]) == Bytes(events) + e.bytes
  {
    assert (events + [e])[..|events|] == events;
  }
}
