/** Sticky follow-ups: a response id remembers the provider and model that
    answered, for a limited time, and a request that names a previous response
    never fails over. */
module Affinity {
  import opened Optional
  import opened Configuration
  import opened Routing
  import Failover

  datatype Answerer = Answerer(provider: string, model: string, createdAt: int)

  const DEFAULT_TTL := 30 * 24 * 60 * 60 * 1_000_000_000

  function Lifetime(ttl: int): int {
    if ttl <= 0 then DEFAULT_TTL else ttl
  }

  /** Completed responses in the order they were stored. */
  datatype Stored = Stored(id: string, answerer: Answerer)

  /** The latest one stored for an id. */
  function Latest(history: seq<Stored>, id: string): Option<Answerer> {
    if history == [] then None
    else if history[|history| - 1].id == id then Some(history[|history| - 1].answerer)
    else Latest(history[..|history| - 1], id)
  }

  class Memory {
    var data: map<string, Answerer>
    const ttl: int
    ghost var history: seq<Stored>

    /** Whatever is held is the latest; expired entries may have been dropped. */
    ghost predicate Valid()
      reads this
    {
      ttl > 0 && forall id :: id in data ==> Latest(history, id) == Some(data[id])
    }

    constructor (ttl: int)
      ensures Valid() && history == [] && this.ttl == Lifetime(ttl)
      ensures this.ttl == if ttl > 0 then ttl else 2_592_000_000_000_000
    {
      this.ttl := Lifetime(ttl);
      data, history := map[], [];
    }

    method Set(id: string, answerer: Answerer)
      requires Valid()
      modifies this
      ensures Valid() && history == old(history) + [Stored(id, answerer)]
      ensures data == old(data)[id := answerer]
    {
      data := data[id := answerer];
      history := history + [Stored(id, answerer)];
      assert history[..|history| - 1] == old(history);
    }

    /** A hit is the latest answerer stored for that very id, not older than the
        lifetime; an older one is forgotten. */
    method Get(id: string, now: int) returns (hit: Option<Answerer>)
      requires Valid()
      modifies `data
      ensures Valid()
      ensures hit.Some? ==> hit == Latest(history, id) && now - hit.value.createdAt <= ttl
      ensures hit.Some? <==> id in old(data) && now - old(data)[id].createdAt <= ttl
      ensures forall other :: other != id ==> (other in data <==> other in old(data)) && (other in data ==> data[other] == old(data)[other])
      ensures data == if hit.None? then old(data) - {id} else old(data)
    {
      if id !in data { return None; }
      var found := data[id];
      if now - found.createdAt > ttl {
        data := data - {id};
        return None;
      }
      hit := Some(found);
    }
  }

  datatype Route = Route(candidates: seq<Failover.Candidate>) | Gone | Refused(why: Resolved)

  /** With a live previous response: that model on that provider, alone, if both
      are still configured and the request suits them. With an unknown one: the
      first candidate of the ordinary route. */
  method ResolveWithAffinity(memory: Memory, c: Snapshot, requested: string, r: Requirements, previous: string, now: int)
    returns (route: Route, ghost known: Option<Answerer>)
    requires memory.Valid()
    modifies memory`data
    ensures memory.Valid()
    ensures forall id :: id in memory.data ==> id in old(memory.data) && memory.data[id] == old(memory.data)[id]
    ensures forall id :: id in old(memory.data) && id !in memory.data ==> now - old(memory.data)[id].createdAt > memory.ttl
    ensures known.Some? <==> previous != "" && previous in old(memory.data) && now - old(memory.data)[previous].createdAt <= memory.ttl
    ensures known.Some? ==> previous != "" && known == Latest(memory.history, previous) && now - known.value.createdAt <= memory.ttl
    ensures known.Some? && route.Route? ==>
              |route.candidates| == 1 && route.candidates[0].model == known.value.model && route.candidates[0].provider == known.value.provider
    ensures known.Some? ==>
              var a := known.value;
              if a.provider in c.providers && Selectable(c, a.model, r) then
                route == Route([Failover.Candidate(a.model, a.provider, c.models[a.model].upstreamModel, c.providers[a.provider].key)])
              else route == Gone
    ensures previous != "" && route.Route? ==> |route.candidates| <= 1
    ensures known.None? && !Resolve(c, requested).Resolved? ==> route == Refused(Resolve(c, requested))
    ensures known.None? && Resolve(c, requested).Resolved? ==> route.Route?
    ensures known.None? && route.Route? ==>
              Resolve(c, requested).Resolved? &&
              var all := Filtered(c, Resolve(c, requested).ids, r);
              route.candidates == if previous != "" && |all| > 1 then all[..1] else all
  {
    known := None;
    if previous != "" {
      var hit := memory.Get(previous, now);
      known := hit;
      if hit.Some? {
        var a := hit.value;
        if a.model !in c.models || a.provider !in c.providers { return Gone, known; }
        var suits := FilterCandidates(c, [a.model], r);
        assert [a.model][..0] == [];
        if |suits| == 0 { return Gone, known; }
        return Route([Failover.Candidate(a.model, a.provider, c.models[a.model].upstreamModel, c.providers[a.provider].key)]), known;
      }
    }
    match Resolve(c, requested)
    case Resolved(ids, _) =>
      var all := FilterCandidates(c, ids, r);
      if previous != "" && |all| > 1 { all := all[..1]; }
      return Route(all), known;
    case other => return Refused(other), known;
  }

  // ---------------------------------------------------------- over whole histories

  datatype Operation = SetOp(id: string, answerer: Answerer) | GetOp(id: string, now: int)

  function ClockOf(op: Operation): int {
    match op
    case SetOp(_, answerer) => answerer.createdAt
    case GetOp(_, now) => now
  }

  function Sets(operations: seq<Operation>): seq<Stored> {
    if operations == [] then []
    else
      var last := operations[|operations| - 1];
      Sets(operations[..|operations| - 1]) + if last.SetOp? then [Stored(last.id, last.answerer)] else []
  }

  /** Stored for the id and young enough. */
  predicate Live(history: seq<Stored>, id: string, ttl: int, now: int) {
    Latest(history, id).Some? && now - Latest(history, id).value.createdAt <= ttl
  }

  /** What is stored and young enough is held. */
  ghost predicate Kept(data: map<string, Answerer>, history: seq<Stored>, ttl: int, clock: int) {
    forall id :: Live(history, id, ttl, clock) ==> id in data
  }

  lemma LatestNext(history: seq<Stored>, last: Stored)
    ensures forall id: string :: Latest(history + [last], id) == if id == last.id then Some(last.answerer) else Latest(history, id)
  {
    assert (history + [last])[..|history|] == history;
  }

  /** A hit is the latest answer stored for that very id, young enough. */
  ghost predicate Right(before: seq<Operation>, last: Operation, ttl: int, hit: Option<Answerer>) {
    hit.Some? ==> last.GetOp? && hit == Latest(Sets(before), last.id) && Live(Sets(before), last.id, ttl, last.now)
  }

  /** And what is stored and young enough is a hit. */
  ghost predicate Exact(before: seq<Operation>, last: Operation, ttl: int, hit: Option<Answerer>) {
    last.GetOp? && Live(Sets(before), last.id, ttl, last.now) ==> hit.Some?
  }

  ghost predicate Timely(operations: seq<Operation>) {
    forall i, j :: 0 <= i < j < |operations| ==> ClockOf(operations[i]) <= ClockOf(operations[j])
  }

  lemma SetsNext(before: seq<Operation>, last: Operation)
    ensures Sets(before + [last]) == Sets(before) + if last.SetOp? then [Stored(last.id, last.answerer)] else []
  {
    assert (before + [last])[..|before|] == before;
  }

  method Perform(memory: Memory, ghost before: seq<Operation>, last: Operation, ghost clock: int) returns (hit: Option<Answerer>)
    requires memory.Valid() && memory.history == Sets(before)
    modifies memory
    ensures memory.Valid() && memory.history == Sets(before + [last])
    ensures Right(before, last, memory.ttl, hit)
    ensures Kept(old(memory.data), Sets(before), memory.ttl, clock) && clock <= ClockOf(last) ==>
              Kept(memory.data, Sets(before + [last]), memory.ttl, ClockOf(last)) && Exact(before, last, memory.ttl, hit)
  {
    SetsNext(before, last);
    match last
    case SetOp(id, answerer) =>
      LatestNext(memory.history, Stored(id, answerer));
      memory.Set(id, answerer);
      hit := None;
    case GetOp(id, now) =>
      assert Sets(before) + [] == Sets(before);
      hit := memory.Get(id, now);
  }

  /** Over every sequence of calls: a hit is right; and if time goes forward, every
      id stored within the lifetime hits, whatever was called in between. */
  method Replay(ttl: int, operations: seq<Operation>) returns (hits: seq<Option<Answerer>>)
    ensures |hits| == |operations|
    ensures forall i :: 0 <= i < |operations| ==> Right(operations[..i], operations[i], Lifetime(ttl), hits[i])
    ensures Timely(operations) ==> forall i :: 0 <= i < |operations| ==> Exact(operations[..i], operations[i], Lifetime(ttl), hits[i])
  {
    var memory := new Memory(ttl);
    hits := [];
    hide Right;
    hide Exact;
    hide Kept;
    hide Memory.Valid;
    ghost var clock := if operations == [] then 0 else ClockOf(operations[0]);
    NothingStored(memory.data, Lifetime(ttl), clock);
    for i := 0 to |operations|
      invariant fresh(memory) && memory.Valid() && memory.ttl == Lifetime(ttl) && |hits| == i && memory.history == Sets(operations[..i])
      invariant forall j :: 0 <= j < i ==> Right(operations[..j], operations[j], Lifetime(ttl), hits[j])
      invariant Timely(operations) ==> forall j :: 0 <= j < i ==> Exact(operations[..j], operations[j], Lifetime(ttl), hits[j])
      invariant Timely(operations) ==> Kept(memory.data, memory.history, Lifetime(ttl), clock)
      invariant i < |operations| && Timely(operations) ==> clock <= ClockOf(operations[i])
    {
      assert operations[..i + 1] == operations[..i] + [operations[i]];
      var hit := Perform(memory, operations[..i], operations[i], clock);
      clock := ClockOf(operations[i]);
      hits := hits + [hit];
    }
  }

  // ----------------------------------------------------------- requests in a row

  /** A Responses request: what it asks for, how candidates would reply, whether
      the winning response completes and under which id, and when. */
  datatype Request = Request(
    model: string,
    requirements: Requirements,
    previous: string,
    stream: bool,
    replies: nat -> Failover.Reply,
    completed: bool,
    responseID: string,
    start: int,
    end: int)

  /** The candidates called, the one that answered, and what was stored. */
  datatype Serving = Serving(called: seq<Failover.Candidate>, winner: Option<Failover.Candidate>, stored: Option<Stored>)

  ghost predicate Answerable(q: Request) {
    forall i: nat :: !q.replies(i).Refused?
  }

  /** Only a completed response with an id is remembered, for the candidate that
      gave it, which is the one called last. */
  ghost predicate Remembers(q: Request, s: Serving) {
    && s.stored == (if s.winner.Some? && q.completed && q.responseID != ""
                    then Some(Stored(q.responseID, Answerer(s.winner.value.provider, s.winner.value.model, q.end))) else None)
    && (s.winner.Some? ==> s.called != [] && s.winner.value == s.called[|s.called| - 1])
  }

  ghost predicate Sticks(q: Request, known: Option<Answerer>, s: Serving) {
    && (q.previous != "" ==> |s.called| <= 1)
    && (known.Some? ==> forall i :: 0 <= i < |s.called| ==> s.called[i].model == known.value.model && s.called[i].provider == known.value.provider)
  }

  /** Resolving composed with the candidate loop of either handler. */
  method CallCandidates(q: Request, candidates: seq<Failover.Candidate>) returns (called: seq<Failover.Candidate>, winner: Option<Failover.Candidate>)
    requires Answerable(q)
    ensures |called| <= |candidates| && forall i :: 0 <= i < |called| ==> called[i] in candidates
    ensures winner.Some? ==> called != [] && winner.value == called[|called| - 1]
  {
    var replies := seq(|candidates|, i requires 0 <= i < |candidates| => q.replies(i));
    var n, attempts, calls, answer;
    ghost var handler := if q.stream then Failover.ResponsesStream else Failover.ResponsesOnce;
    if q.stream {
      n, attempts, calls, answer := Failover.ServeResponsesStream(candidates, replies);
    } else {
      n, attempts, calls, answer := Failover.ServeResponsesOnce(candidates, replies);
    }
    CallsFit(handler, candidates, replies, n, attempts, calls, answer);
    hide Failover.Outcome;
    called := seq(|calls|, i requires 0 <= i < |calls| => candidates[calls[i]]);
    winner := if answer.Some? && answer.value.FromUpstream? then Some(candidates[answer.value.position]) else None;
  }

  /** The calls are candidates, no more of them than there are, and a winner was
      called last. */
  lemma CallsFit(handler: Failover.Handler, candidates: seq<Failover.Candidate>, replies: seq<Failover.Reply>,
                 n: nat, attempts: seq<Failover.Attempt>, calls: seq<nat>, answer: Option<Failover.Answer>)
    requires |candidates| == |replies| && Failover.Outcome(handler, candidates, replies, n, attempts, calls, answer)
    ensures |calls| <= |candidates| && forall i :: 0 <= i < |calls| ==> calls[i] < |candidates|
    ensures answer.Some? && answer.value.FromUpstream? ==>
              answer.value.position < |candidates| && calls != [] && calls[|calls| - 1] == answer.value.position
  {
    Failover.OrderedCalls(handler, candidates, replies, n, attempts, calls, answer);
    Failover.RoomFor(calls, |candidates|);
    WonLast(handler, candidates, replies, n, attempts, calls, answer);
    hide Failover.Outcome;
  }

  lemma WonLast(handler: Failover.Handler, candidates: seq<Failover.Candidate>, replies: seq<Failover.Reply>,
                n: nat, attempts: seq<Failover.Attempt>, calls: seq<nat>, answer: Option<Failover.Answer>)
    requires |candidates| == |replies| && Failover.Outcome(handler, candidates, replies, n, attempts, calls, answer)
    ensures answer.Some? && answer.value.FromUpstream? ==>
              answer.value.position < |candidates| && calls != [] && calls[|calls| - 1] == answer.value.position
  {
  }

  method ServeRequest(memory: Memory, snap: Snapshot, q: Request, ghost clock: int) returns (s: Serving, ghost known: Option<Answerer>)
    requires memory.Valid() && Answerable(q)
    modifies memory
    ensures memory.Valid() && memory.history == old(memory.history) + (if s.stored.Some? then [s.stored.value] else [])
    ensures Remembers(q, s) && Sticks(q, known, s)
    ensures known.Some? ==> known == Latest(old(memory.history), q.previous) && Live(old(memory.history), q.previous, memory.ttl, q.start)
    ensures Kept(old(memory.data), old(memory.history), memory.ttl, clock) && clock <= q.start <= q.end ==>
              && Kept(memory.data, memory.history, memory.ttl, q.end)
              && (q.previous != "" && Live(old(memory.history), q.previous, memory.ttl, q.start) ==> known.Some?)
  {
    var route;
    route, known := ResolveWithAffinity(memory, snap, q.model, q.requirements, q.previous, q.start);
    var called: seq<Failover.Candidate>, winner: Option<Failover.Candidate> := [], None;
    if route.Route? { called, winner := CallCandidates(q, route.candidates); }
    var stored: Option<Stored> := None;
    if winner.Some? && q.completed && q.responseID != "" {
      var answerer := Answerer(winner.value.provider, winner.value.model, q.end);
      LatestNext(memory.history, Stored(q.responseID, answerer));
      memory.Set(q.responseID, answerer);
      stored := Some(Stored(q.responseID, answerer));
    }
    s := Serving(called, winner, stored);
  }

  function StoredBy(served: seq<Serving>): seq<Stored> {
    if served == [] then []
    else
      var last := served[|served| - 1];
      StoredBy(served[..|served| - 1]) + if last.stored.Some? then [last.stored.value] else []
  }

  ghost predicate InTurn(requests: seq<Request>) {
    && (forall i :: 0 <= i < |requests| ==> requests[i].start <= requests[i].end)
    && (forall i :: 0 < i < |requests| ==> requests[i - 1].end <= requests[i].start)
  }

  /** A request that names a completed response within the lifetime calls at most
      the provider and model that gave the latest response of that id. */
  ghost predicate Follows(ttl: int, before: seq<Serving>, q: Request, s: Serving) {
    q.previous != "" && Live(StoredBy(before), q.previous, ttl, q.start) ==> Sticks(q, Latest(StoredBy(before), q.previous), s)
  }

  /** Every history of requests, with reloads of the configuration in between: what
      is remembered, that a follow-up calls at most one upstream, and, as time goes
      forward, that it follows the response it names. */
  method ServeAll(ttl: int, snaps: nat -> Snapshot, requests: seq<Request>) returns (served: seq<Serving>)
    requires forall i :: 0 <= i < |requests| ==> Answerable(requests[i])
    ensures |served| == |requests|
    ensures forall i :: 0 <= i < |requests| ==> Remembers(requests[i], served[i])
    ensures forall i :: 0 <= i < |requests| && requests[i].previous != "" ==> |served[i].called| <= 1
    ensures InTurn(requests) ==> forall i :: 0 <= i < |requests| ==> Follows(Lifetime(ttl), served[..i], requests[i], served[i])
  {
    var memory := new Memory(ttl);
    served := [];
    hide Remembers;
    hide Kept;
    hide Live;
    hide Latest;
    hide Sticks;
    hide Follows;
    hide StoredBy;
    hide InTurn;
    hide Answerable;
    hide Memory.Valid;
    ghost var clock := if requests == [] then 0 else requests[0].start;
    NothingStored(memory.data, Lifetime(ttl), clock);
    for i := 0 to |requests|
      invariant fresh(memory) && memory.Valid() && memory.ttl == Lifetime(ttl) && |served| == i && memory.history == StoredBy(served)
      invariant forall j :: 0 <= j < i ==> Remembers(requests[j], served[j])
      invariant forall j :: 0 <= j < i && requests[j].previous != "" ==> |served[j].called| <= 1
      invariant InTurn(requests) ==> forall j :: 0 <= j < i ==> Follows(Lifetime(ttl), served[..j], requests[j], served[j])
      invariant InTurn(requests) ==> Kept(memory.data, memory.history, Lifetime(ttl), clock)
      invariant i < |requests| && InTurn(requests) ==> clock <= requests[i].start
    {
      ghost var before := served;
      if InTurn(requests) { NextTime(requests, i); }
      var s, known := ServeRequest(memory, snaps(i), requests[i], clock);
      FollowsFrom(Lifetime(ttl), before, requests[i], s, known);
      StoredNext(before, s);
      served := served + [s];
      clock := requests[i].end;
      assert served[..i] == before;
      assert forall j :: 0 <= j < i ==> served[..j] == before[..j];
    }
  }

  lemma NextTime(requests: seq<Request>, i: nat)
    requires InTurn(requests) && i < |requests|
    ensures requests[i].start <= requests[i].end && (i + 1 < |requests| ==> requests[i].end <= requests[i + 1].start)
  {
  }

  lemma StoredNext(before: seq<Serving>, s: Serving)
    ensures StoredBy(before + [s]) == StoredBy(before) + if s.stored.Some? then [s.stored.value] else []
  {
    assert (before + [s])[..|before|] == before;
  }

  lemma FollowsFrom(ttl: int, before: seq<Serving>, q: Request, s: Serving, known: Option<Answerer>)
    requires Sticks(q, known, s)
    requires known.Some? ==> known == Latest(StoredBy(before), q.previous)
    ensures q.previous != "" ==> |s.called| <= 1
    ensures (q.previous != "" && Live(StoredBy(before), q.previous, ttl, q.start) ==> known.Some?) ==> Follows(ttl, before, q, s)
  {
    hide Live;
    hide Latest;
    hide StoredBy;
  }

  lemma NothingStored(data: map<string, Answerer>, ttl: int, clock: int)
    ensures Kept(data, [], ttl, clock) && StoredBy([]) == []
  {
  }
}
