/** The ordered failover behind every request: which candidates are called, what
    each one passed over leaves in the attempt list, when the loop stops, and the
    one answer it gives. The four handlers are loops of their own; they are
    proved against one description of which positions are called and which of
    them halt. */
module Failover {
  import opened Optional

  /** A resolved candidate; a provider without a key has the empty key. */
  datatype Candidate = Candidate(model: string, provider: string, upstreamModel: string, key: string)

  datatype ErrorClass =
    | ClientError
    | AuthError
    | RateLimitError
    | TimeoutError
    | NetworkError
    | ModelUnavailableError
    | UnsupportedFeatureError
    | UpstreamError
    | UnknownError

  datatype Attempt = Attempt(
    model: string,
    provider: string,
    class_: ErrorClass,
    status: int,
    message: string,
    skipped: bool,
    skipReason: string)

  /** What happens when a position is called. A fault says whether it arose after
      the stream was opened and whether the request's context had ended by then; `Refused` is
      a request that cannot be put to this provider. */
  datatype Reply =
    | Won
    | Fault(class_: ErrorClass, status: int, message: string, begun: bool, contextDone: bool)
    | Refused(message: string)

  /** The answer on the wire: the upstream's, from a position and with an attempt
      number, or an error. */
  datatype Answer =
    | FromUpstream(position: nat, attemptNumber: nat)
    | ErrorAnswer(status: int, message: string)

  const ALL_FAILED := "All configured candidates failed"
  const CANCELLED := "request cancelled by client"

  predicate AuthRejected(reply: Reply) {
    reply.Fault? && reply.class_ == AuthError && (reply.status == 401 || reply.status == 403)
  }

  // -------------------------------------------------------------- who gets called

  /** A position is put to its provider exactly if its provider has a key and no earlier call
      found that provider to reject the credentials. */
  predicate Called(candidates: seq<Candidate>, replies: seq<Reply>, i: nat)
    requires i < |candidates| == |replies|
    decreases i, i + 1
  {
    candidates[i].key != "" && !Rejected(candidates, replies, i, i)
  }

  /** One of the first `n` positions was called, names the provider of position
      `i` and was answered with rejected credentials. */
  predicate Rejected(candidates: seq<Candidate>, replies: seq<Reply>, i: nat, n: nat)
    requires n <= i < |candidates| == |replies|
    decreases i, n
  {
    n > 0 &&
    (Rejected(candidates, replies, i, n - 1) ||
     (candidates[n - 1].provider == candidates[i].provider && AuthRejected(replies[n - 1]) && Called(candidates, replies, n - 1)))
  }

  /** What a position that does not win leaves in the attempt list. */
  function AttemptAt(candidates: seq<Candidate>, replies: seq<Reply>, i: nat): Attempt
    requires i < |candidates| == |replies|
  {
    var c := candidates[i];
    if Rejected(candidates, replies, i, i) then
      Attempt(c.model, c.provider, AuthError, 0, "provider skipped after auth failure", true, "provider_auth_failed")
    else if c.key == "" then
      Attempt(c.model, c.provider, UnknownError, 0, "API key missing for provider " + c.provider, true, "missing_api_key")
    else if replies[i].Fault? then
      Attempt(c.model, c.provider, replies[i].class_, replies[i].status, replies[i].message, false, "")
    else Attempt(c.model, c.provider, UnknownError, 0, "", false, "")
  }

  function Attempts(candidates: seq<Candidate>, replies: seq<Reply>, n: nat): seq<Attempt>
    requires n <= |candidates| == |replies|
  {
    seq(n, i requires 0 <= i < n => AttemptAt(candidates, replies, i))
  }

  /** The positions called among the first `n`, in order. */
  function Calls(candidates: seq<Candidate>, replies: seq<Reply>, n: nat): seq<nat>
    requires n <= |candidates| == |replies|
  {
    if n == 0 then []
    else Calls(candidates, replies, n - 1) + if Called(candidates, replies, n - 1) then [n - 1] else []
  }

  // --------------------------------------------------------------- who stops it

  datatype Handler = ResponsesStream | MessagesStream | ResponsesOnce | MessagesOnce

  /** A reply after which the handler looks no further. */
  predicate Halts(handler: Handler, reply: Reply) {
    match reply
    case Won => true
    case Refused(_) => true
    case Fault(class_, _, _, begun, contextDone) =>
      match handler
      case ResponsesStream => class_ == ClientError || (begun && contextDone)
      case MessagesStream => class_ == ClientError || (begun && contextDone)
      case ResponsesOnce => class_ == ClientError || contextDone
      case MessagesOnce => class_ == ClientError
  }

  predicate HaltsAt(handler: Handler, candidates: seq<Candidate>, replies: seq<Reply>, i: nat)
    requires i < |candidates| == |replies|
  {
    Called(candidates, replies, i) && Halts(handler, replies[i])
  }

  /** The loop went through the first `n` positions, none of which halts it. */
  ghost predicate Passed(handler: Handler, candidates: seq<Candidate>, replies: seq<Reply>, n: nat)
    requires n <= |candidates| == |replies|
  {
    forall i: nat :: i < n ==> !HaltsAt(handler, candidates, replies, i)
  }

  /** The answer given at a halting position, if the client is still there. */
  function AnswerAt(handler: Handler, reply: Reply, i: nat): Option<Answer> {
    match reply
    case Won => Some(FromUpstream(i, i + 1))
    case Refused(message) => Some(ErrorAnswer(400, message))
    case Fault(class_, _, message, begun, contextDone) =>
      match handler
      case ResponsesStream => if class_ == ClientError then Some(ErrorAnswer(400, message)) else None
      case MessagesStream => if begun && contextDone then None else Some(ErrorAnswer(400, message))
      case ResponsesOnce => if class_ == ClientError then Some(ErrorAnswer(400, message)) else Some(ErrorAnswer(400, CANCELLED))
      case MessagesOnce => Some(ErrorAnswer(400, message))
  }

  /** The cancelled non-streaming Responses request is noted twice: as the fault
      it caused and as a client error of its own. */
  function Extra(handler: Handler, c: Candidate, reply: Reply): seq<Attempt> {
    if handler.ResponsesOnce? && reply.Fault? && reply.class_ != ClientError && reply.contextDone
    then [Attempt(c.model, c.provider, ClientError, 0, CANCELLED, false, "")]
    else []
  }

  /** The outcome of a whole request: it stopped at position `n` or ran out. */
  ghost predicate Outcome(handler: Handler, candidates: seq<Candidate>, replies: seq<Reply>,
                          n: nat, attempts: seq<Attempt>, calls: seq<nat>, answer: Option<Answer>)
    requires |candidates| == |replies|
  {
    && n <= |candidates| && Passed(handler, candidates, replies, n)
    && (if n < |candidates| then
          && HaltsAt(handler, candidates, replies, n)
          && calls == Calls(candidates, replies, n) + (if replies[n].Refused? then [] else [n])
          && answer == AnswerAt(handler, replies[n], n)
          && attempts == Attempts(candidates, replies, n) +
               (if replies[n].Fault? then [AttemptAt(candidates, replies, n)] else []) + Extra(handler, candidates[n], replies[n])
        else
          && calls == Calls(candidates, replies, n)
          && attempts == Attempts(candidates, replies, n)
          && answer == Some(Exhausted(handler, candidates, replies)))
  }

  predicate AllSkipped(attempts: seq<Attempt>) {
    attempts != [] && forall i | 0 <= i < |attempts| :: attempts[i].skipped
  }

  /** The error after the last candidate. */
  function Exhausted(handler: Handler, candidates: seq<Candidate>, replies: seq<Reply>): Answer
    requires |candidates| == |replies|
  {
    var attempts := Attempts(candidates, replies, |candidates|);
    if handler.ResponsesOnce? then
      if attempts != [] && attempts[|attempts| - 1].class_ == TimeoutError then ErrorAnswer(504, ALL_FAILED)
      else if AllSkipped(attempts) then ErrorAnswer(503, "no usable candidates")
      else ErrorAnswer(502, ALL_FAILED)
    else if AllSkipped(attempts) then ErrorAnswer(503, ALL_FAILED)
    else ErrorAnswer(502, ALL_FAILED)
  }

  // ------------------------------------------------------------------ the loops

  method AllKeyMissing(attempts: seq<Attempt>) returns (all: bool)
    ensures all <==> AllSkipped(attempts)
  {
    if attempts == [] { return false; }
    for i := 0 to |attempts|
      invariant forall j | 0 <= j < i :: attempts[j].skipped
    {
      if !attempts[i].skipped { return false; }
    }
    all := true;
  }

  /** The providers whose credentials were rejected before position `i`. */
  ghost predicate Failed(candidates: seq<Candidate>, replies: seq<Reply>, authFailed: set<string>, i: nat)
    requires i <= |candidates| == |replies|
  {
    forall p: string :: p in authFailed <==>
      exists j: nat :: j < i && candidates[j].provider == p && AuthRejected(replies[j]) && Called(candidates, replies, j)
  }

  lemma {:induction false} RejectedMeaning(candidates: seq<Candidate>, replies: seq<Reply>, i: nat, n: nat)
    requires n <= i < |candidates| == |replies|
    ensures Rejected(candidates, replies, i, n) <==>
            exists j: nat :: j < n && candidates[j].provider == candidates[i].provider && AuthRejected(replies[j]) && Called(candidates, replies, j)
  {
    if n > 0 {
      RejectedMeaning(candidates, replies, i, n - 1);
    }
  }

  /** What one more position adds to the rejected providers. */
  lemma FailedNext(candidates: seq<Candidate>, replies: seq<Reply>, authFailed: set<string>, i: nat)
    requires i < |candidates| == |replies| && Failed(candidates, replies, authFailed, i)
    ensures candidates[i].provider in authFailed <==> Rejected(candidates, replies, i, i)
    ensures Failed(candidates, replies,
              if Called(candidates, replies, i) && AuthRejected(replies[i]) then authFailed + {candidates[i].provider} else authFailed, i + 1)
  {
    RejectedMeaning(candidates, replies, i, i);
    var next := if Called(candidates, replies, i) && AuthRejected(replies[i]) then authFailed + {candidates[i].provider} else authFailed;
    forall p: string
      ensures p in next <==> exists j: nat :: j < i + 1 && candidates[j].provider == p && AuthRejected(replies[j]) && Called(candidates, replies, j)
    {
      if p in next {
        if p in authFailed {
          var j: nat :| j < i && candidates[j].provider == p && AuthRejected(replies[j]) && Called(candidates, replies, j);
        } else {
          assert candidates[i].provider == p;
        }
      }
    }
  }

  lemma AttemptsNext(candidates: seq<Candidate>, replies: seq<Reply>, i: nat)
    requires i < |candidates| == |replies|
    ensures Attempts(candidates, replies, i + 1) == Attempts(candidates, replies, i) + [AttemptAt(candidates, replies, i)]
  {
  }

  /** The streamed Responses request. A fault before the stream was opened does
      not look at whether the client is gone. */
  method ServeResponsesStream(candidates: seq<Candidate>, replies: seq<Reply>)
    returns (n: nat, attempts: seq<Attempt>, calls: seq<nat>, answer: Option<Answer>)
    requires |candidates| == |replies|
    requires forall i :: 0 <= i < |replies| ==> !replies[i].Refused?
    ensures Outcome(ResponsesStream, candidates, replies, n, attempts, calls, answer)
  {
    var authFailed: set<string> := {};
    attempts, calls, n := [], [], 0;
    while n < |candidates|
      invariant n <= |candidates| && Passed(ResponsesStream, candidates, replies, n)
      invariant Failed(candidates, replies, authFailed, n)
      invariant attempts == Attempts(candidates, replies, n) && calls == Calls(candidates, replies, n)
    {
      var c := candidates[n];
      FailedNext(candidates, replies, authFailed, n);
      AttemptsNext(candidates, replies, n);
      if c.provider in authFailed {
        attempts := attempts + [Attempt(c.model, c.provider, AuthError, 0, "provider skipped after auth failure", true, "provider_auth_failed")];
        n := n + 1;
        continue;
      }
      if c.key == "" {
        attempts := attempts + [Attempt(c.model, c.provider, UnknownError, 0, "API key missing for provider " + c.provider, true, "missing_api_key")];
        n := n + 1;
        continue;
      }
      calls := calls + [n];
      var reply := replies[n];
      if reply.Won? {
        answer := Some(FromUpstream(n, |attempts| + 1));
        return;
      }
      attempts := attempts + [Attempt(c.model, c.provider, reply.class_, reply.status, reply.message, false, "")];
      if reply.class_ == AuthError && (reply.status == 401 || reply.status == 403) {
        authFailed := authFailed + {c.provider};
      }
      if reply.class_ == ClientError {
        answer := Some(ErrorAnswer(400, reply.message));
        return;
      }
      if reply.begun && reply.contextDone {
        answer := None;
        return;
      }
      n := n + 1;
    }
    var skipped := AllKeyMissing(attempts);
    answer := Some(ErrorAnswer(if skipped then 503 else 502, ALL_FAILED));
  }

  /** The streamed Messages request: the body is converted for every candidate,
      and a client that has gone gets nothing, not even its own error. */
  method ServeMessagesStream(candidates: seq<Candidate>, replies: seq<Reply>)
    returns (n: nat, attempts: seq<Attempt>, calls: seq<nat>, answer: Option<Answer>)
    requires |candidates| == |replies|
    ensures Outcome(MessagesStream, candidates, replies, n, attempts, calls, answer)
  {
    var authFailed: set<string> := {};
    attempts, calls, n := [], [], 0;
    while n < |candidates|
      invariant n <= |candidates| && Passed(MessagesStream, candidates, replies, n)
      invariant Failed(candidates, replies, authFailed, n)
      invariant attempts == Attempts(candidates, replies, n) && calls == Calls(candidates, replies, n)
    {
      var c := candidates[n];
      FailedNext(candidates, replies, authFailed, n);
      AttemptsNext(candidates, replies, n);
      if c.provider in authFailed {
        attempts := attempts + [Attempt(c.model, c.provider, AuthError, 0, "provider skipped after auth failure", true, "provider_auth_failed")];
        n := n + 1;
        continue;
      }
      if c.key == "" {
        attempts := attempts + [Attempt(c.model, c.provider, UnknownError, 0, "API key missing for provider " + c.provider, true, "missing_api_key")];
        n := n + 1;
        continue;
      }
      match replies[n]
      case Refused(message) =>
        answer := Some(ErrorAnswer(400, message));
        return;
      case Won =>
        calls := calls + [n];
        answer := Some(FromUpstream(n, |attempts| + 1));
        return;
      case Fault(class_, status, message, begun, contextDone) =>
        calls := calls + [n];
        attempts := attempts + [Attempt(c.model, c.provider, class_, status, message, false, "")];
        if begun && contextDone {
          answer := None;
          return;
        }
        if class_ == AuthError && (status == 401 || status == 403) {
          authFailed := authFailed + {c.provider};
        }
        if class_ == ClientError {
          answer := Some(ErrorAnswer(400, message));
          return;
        }
        n := n + 1;
    }
    var skipped := AllKeyMissing(attempts);
    answer := Some(ErrorAnswer(if skipped then 503 else 502, ALL_FAILED));
  }

  /** The non-streaming Messages request; an answer that cannot be mapped is one
      more upstream fault, and a client that has gone is not looked at. */
  method ServeMessagesOnce(candidates: seq<Candidate>, replies: seq<Reply>)
    returns (n: nat, attempts: seq<Attempt>, calls: seq<nat>, answer: Option<Answer>)
    requires |candidates| == |replies|
    ensures Outcome(MessagesOnce, candidates, replies, n, attempts, calls, answer)
  {
    var authFailed: set<string> := {};
    attempts, calls, n := [], [], 0;
    while n < |candidates|
      invariant n <= |candidates| && Passed(MessagesOnce, candidates, replies, n)
      invariant Failed(candidates, replies, authFailed, n)
      invariant attempts == Attempts(candidates, replies, n) && calls == Calls(candidates, replies, n)
    {
      var c := candidates[n];
      FailedNext(candidates, replies, authFailed, n);
      AttemptsNext(candidates, replies, n);
      if c.provider in authFailed {
        attempts := attempts + [Attempt(c.model, c.provider, AuthError, 0, "provider skipped after auth failure", true, "provider_auth_failed")];
        n := n + 1;
        continue;
      }
      if c.key == "" {
        attempts := attempts + [Attempt(c.model, c.provider, UnknownError, 0, "API key missing for provider " + c.provider, true, "missing_api_key")];
        n := n + 1;
        continue;
      }
      match replies[n]
      case Refused(message) =>
        answer := Some(ErrorAnswer(400, message));
        return;
      case Won =>
        calls := calls + [n];
        answer := Some(FromUpstream(n, |attempts| + 1));
        return;
      case Fault(class_, status, message, _, _) =>
        calls := calls + [n];
        attempts := attempts + [Attempt(c.model, c.provider, class_, status, message, false, "")];
        if class_ == AuthError && (status == 401 || status == 403) {
          authFailed := authFailed + {c.provider};
        }
        if class_ == ClientError {
          answer := Some(ErrorAnswer(400, message));
          return;
        }
        n := n + 1;
    }
    var skipped := AllKeyMissing(attempts);
    answer := Some(ErrorAnswer(if skipped then 503 else 502, ALL_FAILED));
  }

  /** Result of the shared non-streaming loop: the position that answered, or the
      last error. */
  datatype Executed = Answered(position: nat) | LastError(error: Attempt)

  method ExecuteNonStream(candidates: seq<Candidate>, replies: seq<Reply>)
    returns (n: nat, attempts: seq<Attempt>, calls: seq<nat>, executed: Executed)
    requires |candidates| == |replies|
    requires forall i :: 0 <= i < |replies| ==> !replies[i].Refused?
    ensures n <= |candidates| && Passed(ResponsesOnce, candidates, replies, n)
    ensures n < |candidates| ==>
              && HaltsAt(ResponsesOnce, candidates, replies, n)
              && calls == Calls(candidates, replies, n) + [n]
              && attempts == Attempts(candidates, replies, n) +
                   (if replies[n].Fault? then [AttemptAt(candidates, replies, n)] else []) + Extra(ResponsesOnce, candidates[n], replies[n])
    ensures n == |candidates| ==> calls == Calls(candidates, replies, n) && attempts == Attempts(candidates, replies, n)
    ensures executed.Answered? <==> n < |candidates| && replies[n].Won?
    ensures executed.Answered? ==> executed.position == n
    ensures executed.LastError? && attempts != [] ==> executed.error == attempts[|attempts| - 1]
    ensures executed.LastError? && attempts == [] ==> executed.error.class_ == UnknownError
  {
    var authFailed: set<string> := {};
    attempts, calls, n := [], [], 0;
    while n < |candidates|
      invariant n <= |candidates| && Passed(ResponsesOnce, candidates, replies, n)
      invariant Failed(candidates, replies, authFailed, n)
      invariant attempts == Attempts(candidates, replies, n) && calls == Calls(candidates, replies, n)
    {
      var c := candidates[n];
      FailedNext(candidates, replies, authFailed, n);
      AttemptsNext(candidates, replies, n);
      if c.provider in authFailed {
        attempts := attempts + [Attempt(c.model, c.provider, AuthError, 0, "provider skipped after auth failure", true, "provider_auth_failed")];
        n := n + 1;
        continue;
      }
      if c.key == "" {
        attempts := attempts + [Attempt(c.model, c.provider, UnknownError, 0, "API key missing for provider " + c.provider, true, "missing_api_key")];
        n := n + 1;
        continue;
      }
      calls := calls + [n];
      var reply := replies[n];
      if reply.Won? {
        executed := Answered(n);
        return;
      }
      attempts := attempts + [Attempt(c.model, c.provider, reply.class_, reply.status, reply.message, false, "")];
      if reply.class_ == AuthError && (reply.status == 401 || reply.status == 403) {
        authFailed := authFailed + {c.provider};
      }
      if reply.class_ == ClientError {
        executed := LastError(attempts[|attempts| - 1]);
        return;
      }
      if reply.contextDone {
        var cancelled := Attempt(c.model, c.provider, ClientError, 0, CANCELLED, false, "");
        attempts := attempts + [cancelled];
        executed := LastError(cancelled);
        return;
      }
      n := n + 1;
    }
    if attempts == [] {
      executed := LastError(Attempt("", "", UnknownError, 0, "no usable candidates", false, ""));
    } else {
      executed := LastError(attempts[|attempts| - 1]);
    }
  }

  /** After a loop that ran out, the last attempt is no client error, and a
      skipped one is of the two classes that skipping gives. */
  lemma LastAttempt(candidates: seq<Candidate>, replies: seq<Reply>)
    requires |candidates| == |replies| > 0 && Passed(ResponsesOnce, candidates, replies, |candidates|)
    requires forall i :: 0 <= i < |replies| ==> !replies[i].Refused?
    ensures var last := Attempts(candidates, replies, |candidates|)[|candidates| - 1];
            last.class_ != ClientError && (last.skipped ==> last.class_ == AuthError || last.class_ == UnknownError)
  {
    var i := |candidates| - 1;
    assert !HaltsAt(ResponsesOnce, candidates, replies, i);
  }

  /** The non-streaming Responses request: the loop above and the translation of
      its last error into a status. */
  method ServeResponsesOnce(candidates: seq<Candidate>, replies: seq<Reply>)
    returns (n: nat, attempts: seq<Attempt>, calls: seq<nat>, answer: Option<Answer>)
    requires |candidates| == |replies|
    requires forall i :: 0 <= i < |replies| ==> !replies[i].Refused?
    ensures Outcome(ResponsesOnce, candidates, replies, n, attempts, calls, answer)
  {
    var executed;
    n, attempts, calls, executed := ExecuteNonStream(candidates, replies);
    if n == |candidates| && attempts != [] { LastAttempt(candidates, replies); }
    match executed
    case Answered(position) => answer := Some(FromUpstream(position, |attempts| + 1));
    case LastError(error) =>
      var status, message := 502, ALL_FAILED;
      match error.class_ {
        case ClientError => status, message := 400, error.message;
        case TimeoutError => status := 504;
        case AuthError =>
          var all := AllKeyMissing(attempts);
          if all { status, message := 503, "no usable candidates"; }
        case UnknownError =>
          var all := AllKeyMissing(attempts);
          if all { status, message := 503, "no usable candidates"; }
        case _ =>
      }
      answer := Some(ErrorAnswer(status, message));
  }

  // ------------------------------------------------ what every request guarantees

  lemma {:induction false} CallsMeaning(candidates: seq<Candidate>, replies: seq<Reply>, n: nat)
    requires n <= |candidates| == |replies|
    ensures forall i: nat :: i in Calls(candidates, replies, n) <==> i < n && Called(candidates, replies, i)
    ensures forall a, b :: 0 <= a < b < |Calls(candidates, replies, n)| ==> Calls(candidates, replies, n)[a] < Calls(candidates, replies, n)[b]
  {
    if n > 0 {
      CallsMeaning(candidates, replies, n - 1);
      var front := Calls(candidates, replies, n - 1);
      forall a | 0 <= a < |front| ensures front[a] < n - 1 {
        assert front[a] in front;
      }
    }
  }

  lemma NotRejected(candidates: seq<Candidate>, replies: seq<Reply>, i: nat, j: nat)
    requires j < i < |candidates| == |replies| && Called(candidates, replies, i) && Called(candidates, replies, j)
    ensures !(candidates[j].provider == candidates[i].provider && AuthRejected(replies[j]))
  {
    RejectedMeaning(candidates, replies, i, i);
  }

  /** Upstream calls go in candidate order, at most once each, never to a provider
      without a key or one that has already rejected the credentials, and the
      position at which the request stops is the last one called. */
  lemma OrderedCalls(handler: Handler, candidates: seq<Candidate>, replies: seq<Reply>,
                     n: nat, attempts: seq<Attempt>, calls: seq<nat>, answer: Option<Answer>)
    requires |candidates| == |replies| && Outcome(handler, candidates, replies, n, attempts, calls, answer)
    ensures forall a, b :: 0 <= a < b < |calls| ==> calls[a] < calls[b]
    ensures forall a :: 0 <= a < |calls| ==> calls[a] < |candidates| && candidates[calls[a]].key != ""
    ensures forall a, b :: 0 <= a < b < |calls| ==>
              !(candidates[calls[a]].provider == candidates[calls[b]].provider && AuthRejected(replies[calls[a]]))
    ensures forall a :: 0 <= a < |calls| && Halts(handler, replies[calls[a]]) ==> a == |calls| - 1
  {
    CallsMeaning(candidates, replies, n);
    var front := Calls(candidates, replies, n);
    forall a | 0 <= a < |calls| ensures calls[a] <= n && calls[a] < |candidates| && Called(candidates, replies, calls[a]) {
      if a < |front| { assert calls[a] == front[a] && front[a] in front; }
    }
    forall a, b | 0 <= a < b < |calls| ensures calls[a] < calls[b] {
      assert a < |front| && calls[a] == front[a] && front[a] in front;
    }
    forall a, b | 0 <= a < b < |calls|
      ensures !(candidates[calls[a]].provider == candidates[calls[b]].provider && AuthRejected(replies[calls[a]]))
    {
      NotRejected(candidates, replies, calls[b], calls[a]);
    }
    forall a | 0 <= a < |calls| && Halts(handler, replies[calls[a]]) ensures a == |calls| - 1 {
      assert HaltsAt(handler, candidates, replies, calls[a]);
      assert calls[a] == n;
    }
  }

  /** Every candidate passed over leaves exactly one attempt, in its own place, so
      the winner's attempt number is its position plus one; and no answer at all
      is given only to a client that has gone. */
  lemma AttemptPerCandidate(handler: Handler, candidates: seq<Candidate>, replies: seq<Reply>,
                            n: nat, attempts: seq<Attempt>, calls: seq<nat>, answer: Option<Answer>)
    requires |candidates| == |replies| && Outcome(handler, candidates, replies, n, attempts, calls, answer)
    ensures n <= |attempts| && forall i :: 0 <= i < n ==>
              attempts[i].model == candidates[i].model && attempts[i].provider == candidates[i].provider &&
              (attempts[i].skipped <==> i !in calls)
    ensures answer.Some? && answer.value.FromUpstream? ==>
              |attempts| == n && answer.value.position == n && answer.value.attemptNumber == n + 1 && calls[|calls| - 1] == n
    ensures answer.None? ==> n < |candidates| && replies[n].Fault? && replies[n].contextDone
  {
    CallsMeaning(candidates, replies, n);
    forall i: nat | i < n ensures attempts[i] == AttemptAt(candidates, replies, i) && (i in calls <==> Called(candidates, replies, i)) {
      assert attempts[i] == Attempts(candidates, replies, n)[i];
    }
  }

  /** When all candidates have been tried, the status is 503 exactly if no
      upstream was called. */
  lemma UnavailableMeans(handler: Handler, candidates: seq<Candidate>, replies: seq<Reply>,
                         attempts: seq<Attempt>, calls: seq<nat>, answer: Option<Answer>)
    requires |candidates| == |replies| > 0 && Outcome(handler, candidates, replies, |candidates|, attempts, calls, answer)
    ensures answer.Some? && answer.value.ErrorAnswer? && (answer.value.status == 503 <==> calls == [])
  {
    var n := |candidates|;
    CallsMeaning(candidates, replies, n);
    forall i: nat | i < n ensures attempts[i].skipped <==> i !in calls {
      assert attempts[i] == AttemptAt(candidates, replies, i);
    }
    if calls == [] {
      assert AllSkipped(attempts);
      assert attempts[n - 1] == AttemptAt(candidates, replies, n - 1);
    } else {
      assert calls[0] in calls;
    }
  }

  /** Ascending positions below `n` are at most `n` many. */
  lemma {:induction false} RoomFor(calls: seq<nat>, n: nat)
    requires forall a, b :: 0 <= a < b < |calls| ==> calls[a] < calls[b]
    requires forall a :: 0 <= a < |calls| ==> calls[a] < n
    ensures |calls| <= n
  {
    if calls != [] {
      var last := |calls| - 1;
      forall a | 0 <= a < last ensures calls[..last][a] < calls[last] {
        assert calls[a] < calls[last];
      }
      RoomFor(calls[..last], calls[last]);
    }
  }
}
