/** The law of failover, said from the candidates and the replies alone: who may be
    called, what moves a request on to the next candidate, what ends it, and with
    which answer and which attempts. All four handlers obey it. */
module FailoverLaw {
  import opened Optional
  import opened Failover
  import RouteTrace

  /** The provider said that the credentials are no good. */
  predicate Rejects(reply: Reply) {
    reply.Fault? && reply.class_ == AuthError && reply.status in {401, 403}
  }

  /** A position may be called if its provider has a key and has not rejected it at
      an earlier position that was itself called. */
  ghost predicate Eligible(candidates: seq<Candidate>, replies: seq<Reply>, i: nat)
    requires i < |candidates| == |replies|
  {
    candidates[i].key != "" && !TurnedAway(candidates, replies, i)
  }

  ghost predicate TurnedAway(candidates: seq<Candidate>, replies: seq<Reply>, i: nat)
    requires i < |candidates| == |replies|
    decreases i, 0
  {
    exists j: nat :: j < i && candidates[j].provider == candidates[i].provider && candidates[j].key != "" &&
                     !TurnedAway(candidates, replies, j) && Rejects(replies[j])
  }

  /** What each kind of request stops at, apart from success and refusal: a client
      error; for the streams also a fault after the stream was opened with the client
      gone; for the Responses request without a stream also any fault with its context
      over. */
  predicate Ends(handler: Handler, fault: Reply)
    requires fault.Fault?
  {
    || fault.class_ == ClientError
    || (handler.ResponsesStream? && fault.begun && fault.contextDone)
    || (handler.MessagesStream? && fault.begun && fault.contextDone)
    || (handler.ResponsesOnce? && fault.contextDone)
  }

  lemma {:induction false} CalledIsEligible(candidates: seq<Candidate>, replies: seq<Reply>, i: nat)
    requires i < |candidates| == |replies|
    ensures Called(candidates, replies, i) <==> Eligible(candidates, replies, i)
    ensures Rejected(candidates, replies, i, i) <==> TurnedAway(candidates, replies, i)
  {
    forall j: nat | j < i ensures Called(candidates, replies, j) <==> Eligible(candidates, replies, j) {
      CalledIsEligible(candidates, replies, j);
    }
    RejectedMeaning(candidates, replies, i, i);
    hide Called, Rejected;
    if Rejected(candidates, replies, i, i) {
      var j: nat :| j < i && candidates[j].provider == candidates[i].provider && AuthRejected(replies[j]) && Called(candidates, replies, j);
      assert Eligible(candidates, replies, j) && Rejects(replies[j]);
    }
    if TurnedAway(candidates, replies, i) {
      var j: nat :| j < i && candidates[j].provider == candidates[i].provider && candidates[j].key != "" &&
                    !TurnedAway(candidates, replies, j) && Rejects(replies[j]);
      assert Eligible(candidates, replies, j) && AuthRejected(replies[j]);
    }
    assert Called(candidates, replies, i) <==> candidates[i].key != "" && !Rejected(candidates, replies, i, i) by { CalledIs(candidates, replies, i); }
  }

  lemma CalledIs(candidates: seq<Candidate>, replies: seq<Reply>, i: nat)
    requires i < |candidates| == |replies|
    ensures Called(candidates, replies, i) <==> candidates[i].key != "" && !Rejected(candidates, replies, i, i)
  {
  }

  lemma HaltsMeans(handler: Handler, reply: Reply)
    ensures Halts(handler, reply) <==> reply.Won? || reply.Refused? || Ends(handler, reply)
  {
  }

  /** Where a request stops: at the first position that may be called and whose reply
      is a success, a refusal or a fault that ends it. */
  lemma StopsAt(handler: Handler, candidates: seq<Candidate>, replies: seq<Reply>,
                n: nat, attempts: seq<Attempt>, calls: seq<nat>, answer: Option<Answer>)
    requires |candidates| == |replies| && Outcome(handler, candidates, replies, n, attempts, calls, answer)
    ensures n < |candidates| ==>
              Eligible(candidates, replies, n) && (replies[n].Fault? ==> Ends(handler, replies[n]))
    ensures forall i: nat :: i < n && Eligible(candidates, replies, i) ==> replies[i].Fault? && !Ends(handler, replies[i])
  {
    hide Called, Rejected, Halts, Ends, Eligible, Attempts, Calls, AnswerAt, Extra, Exhausted;
    if n < |candidates| {
      CalledIsEligible(candidates, replies, n);
      HaltsMeans(handler, replies[n]);
    }
    forall i: nat | i < n && Eligible(candidates, replies, i) ensures replies[i].Fault? && !Ends(handler, replies[i]) {
      CalledIsEligible(candidates, replies, i);
      HaltsMeans(handler, replies[i]);
      assert !HaltsAt(handler, candidates, replies, i);
    }
  }

  /** A fault stops a request only if it is a client error or its context was over:
      every other failure moves on to the next candidate. */
  lemma FailuresMoveOn(handler: Handler, candidates: seq<Candidate>, replies: seq<Reply>,
                       n: nat, attempts: seq<Attempt>, calls: seq<nat>, answer: Option<Answer>)
    requires |candidates| == |replies| && Outcome(handler, candidates, replies, n, attempts, calls, answer)
    requires n < |candidates| && replies[n].Fault?
    ensures replies[n].class_ == ClientError || replies[n].contextDone
    ensures handler.MessagesOnce? ==> replies[n].class_ == ClientError
  {
    hide Outcome, Eligible;
    StopsAt(handler, candidates, replies, n, attempts, calls, answer);
  }

  /** The first candidate that answers is the one that serves the request, however
      the earlier ones failed, as long as no failure was the client's own and the
      client was there. */
  lemma FirstAnswerServes(handler: Handler, candidates: seq<Candidate>, replies: seq<Reply>, w: nat,
                          n: nat, attempts: seq<Attempt>, calls: seq<nat>, answer: Option<Answer>)
    requires |candidates| == |replies| && Outcome(handler, candidates, replies, n, attempts, calls, answer)
    requires w < |candidates| && Eligible(candidates, replies, w) && replies[w].Won?
    requires forall i: nat :: i < w && Eligible(candidates, replies, i) ==>
               replies[i].Fault? && replies[i].class_ != ClientError && !replies[i].contextDone
    ensures n == w && answer == Some(FromUpstream(w, w + 1)) && calls != [] && calls[|calls| - 1] == w && |attempts| == w
  {
    StopsAt(handler, candidates, replies, n, attempts, calls, answer);
    hide Passed, Eligible, Halts, HaltsAt, Attempts, Calls, AttemptAt, Called, Exhausted;
    AttemptsLong(candidates, replies, w);
  }

  lemma AttemptsLong(candidates: seq<Candidate>, replies: seq<Reply>, n: nat)
    requires n <= |candidates| == |replies|
    ensures |Attempts(candidates, replies, n)| == n
  {
  }

  // ------------------------------------------------------------------ the answers

  /** Nobody can be called. */
  ghost predicate NobodyLeft(candidates: seq<Candidate>, replies: seq<Reply>)
    requires |candidates| == |replies|
  {
    forall i: nat :: i < |candidates| ==> !Eligible(candidates, replies, i)
  }

  /** The answer, from where the request stopped. */
  ghost predicate Answers(handler: Handler, candidates: seq<Candidate>, replies: seq<Reply>, n: nat, answer: Option<Answer>)
    requires n <= |candidates| == |replies| && |candidates| > 0
  {
    if n == |candidates| then
      answer == Some(
        if NobodyLeft(candidates, replies) then
          ErrorAnswer(503, if handler.ResponsesOnce? then "no usable candidates" else "All configured candidates failed")
        else if handler.ResponsesOnce? && Eligible(candidates, replies, n - 1) && replies[n - 1].Fault? && replies[n - 1].class_ == TimeoutError then
          ErrorAnswer(504, "All configured candidates failed")
        else ErrorAnswer(502, "All configured candidates failed"))
    else
      match replies[n]
      case Won => answer == Some(FromUpstream(n, n + 1))
      case Refused(message) => answer == Some(ErrorAnswer(400, message))
      case Fault(class_, _, message, begun, contextDone) =>
        if class_ == ClientError && !(handler.MessagesStream? && begun && contextDone) then answer == Some(ErrorAnswer(400, message))
        else if handler.ResponsesOnce? then answer == Some(ErrorAnswer(400, "request cancelled by client"))
        else answer == None
  }

  /** The attempt a position leaves behind. */
  ghost predicate Records(candidates: seq<Candidate>, replies: seq<Reply>, i: nat, a: Attempt)
    requires i < |candidates| == |replies|
  {
    var c := candidates[i];
    if TurnedAway(candidates, replies, i) then
      a == Attempt(c.model, c.provider, AuthError, 0, "provider skipped after auth failure", true, "provider_auth_failed")
    else if c.key == "" then
      a == Attempt(c.model, c.provider, UnknownError, 0, "API key missing for provider " + c.provider, true, "missing_api_key")
    else replies[i].Fault? ==> a == Attempt(c.model, c.provider, replies[i].class_, replies[i].status, replies[i].message, false, "")
  }

  lemma AttemptRecords(candidates: seq<Candidate>, replies: seq<Reply>, i: nat)
    requires i < |candidates| == |replies|
    ensures Records(candidates, replies, i, AttemptAt(candidates, replies, i))
    ensures AttemptAt(candidates, replies, i).skipped <==> !Eligible(candidates, replies, i)
    ensures AttemptAt(candidates, replies, i).class_ == TimeoutError <==>
              Eligible(candidates, replies, i) && replies[i].Fault? && replies[i].class_ == TimeoutError
  {
    CalledIsEligible(candidates, replies, i);
    hide Called, Rejected, TurnedAway;
  }

  lemma SkippedAll(candidates: seq<Candidate>, replies: seq<Reply>)
    requires |candidates| == |replies| > 0
    ensures AllSkipped(Attempts(candidates, replies, |candidates|)) <==> NobodyLeft(candidates, replies)
  {
    hide AttemptAt, Eligible;
    var attempts := Attempts(candidates, replies, |candidates|);
    forall i: nat | i < |attempts| ensures attempts[i].skipped <==> !Eligible(candidates, replies, i) {
      AttemptRecords(candidates, replies, i);
    }
  }

  lemma ExhaustedAnswers(handler: Handler, candidates: seq<Candidate>, replies: seq<Reply>)
    requires |candidates| == |replies| > 0
    ensures Answers(handler, candidates, replies, |candidates|, Some(Exhausted(handler, candidates, replies)))
  {
    hide AttemptAt, Eligible, AllSkipped, NobodyLeft;
    var n := |candidates|;
    SkippedAll(candidates, replies);
    AttemptRecords(candidates, replies, n - 1);
    assert Attempts(candidates, replies, n)[n - 1] == AttemptAt(candidates, replies, n - 1);
    if NobodyLeft(candidates, replies) { assert !Eligible(candidates, replies, n - 1) by { Nobody(candidates, replies, n - 1); } }
  }

  lemma Nobody(candidates: seq<Candidate>, replies: seq<Reply>, i: nat)
    requires i < |candidates| == |replies| && NobodyLeft(candidates, replies)
    ensures !Eligible(candidates, replies, i)
  {
  }

  /** Every request is answered as the reply it stopped at, or the whole list, calls
      for. */
  lemma AnswerMeans(handler: Handler, candidates: seq<Candidate>, replies: seq<Reply>,
                    n: nat, attempts: seq<Attempt>, calls: seq<nat>, answer: Option<Answer>)
    requires |candidates| == |replies| > 0 && Outcome(handler, candidates, replies, n, attempts, calls, answer)
    ensures Answers(handler, candidates, replies, n, answer)
  {
    StopsAt(handler, candidates, replies, n, attempts, calls, answer);
    ExhaustedAnswers(handler, candidates, replies);
    hide Passed, HaltsAt, Attempts, Calls, Eligible, NobodyLeft, Exhausted;
  }

  /** Each position passed over leaves its own attempt, and so does the fault a
      request stops at; a Responses request without a stream that stops because its
      context is over leaves one more. */
  lemma AttemptsMean(handler: Handler, candidates: seq<Candidate>, replies: seq<Reply>,
                     n: nat, attempts: seq<Attempt>, calls: seq<nat>, answer: Option<Answer>)
    requires |candidates| == |replies| && Outcome(handler, candidates, replies, n, attempts, calls, answer)
    ensures forall i: nat :: i < n ==> i < |attempts| && Records(candidates, replies, i, attempts[i])
    ensures n < |candidates| && replies[n].Fault? ==> n < |attempts| && Records(candidates, replies, n, attempts[n])
    ensures if n < |candidates| && replies[n].Fault? && handler.ResponsesOnce? && replies[n].class_ != ClientError then
              |attempts| == n + 2 && attempts[n + 1] ==
                Attempt(candidates[n].model, candidates[n].provider, ClientError, 0, "request cancelled by client", false, "")
            else |attempts| == if n < |candidates| && replies[n].Fault? then n + 1 else n
    ensures forall i: nat :: i in calls <==>
              i < |candidates| && Eligible(candidates, replies, i) && (i < n || (i == n && !replies[n].Refused?))
  {
    hide Called, Rejected, AttemptAt, Passed, AnswerAt, Exhausted, Records, Eligible, Calls;
    StopsAt(handler, candidates, replies, n, attempts, calls, answer);
    CallsMeaning(candidates, replies, n);
    forall i: nat | i < n ensures attempts[i] == AttemptAt(candidates, replies, i) && Records(candidates, replies, i, attempts[i]) {
      assert attempts[i] == Attempts(candidates, replies, n)[i];
      AttemptRecords(candidates, replies, i);
    }
    if n < |candidates| { AttemptRecords(candidates, replies, n); }
    forall i: nat | i < |candidates| ensures Called(candidates, replies, i) <==> Eligible(candidates, replies, i) {
      CalledIsEligible(candidates, replies, i);
    }
  }

  // ----------------------------------------------------------------- in the trace

  /** An entry of the routing record says what the reply said, or why the candidate
      was not called. */
  ghost predicate Reports(candidates: seq<Candidate>, replies: seq<Reply>, i: nat, entry: RouteTrace.TraceAttempt)
    requires i < |candidates| == |replies|
  {
    if Eligible(candidates, replies, i) then
      entry.outcome == "failed" && (replies[i].Fault? ==> entry.error == Some(replies[i].class_) && entry.status == replies[i].status)
    else
      && entry.outcome == "skipped" && entry.status == 0 && entry.failedOver == None
      && entry.error == Some(if TurnedAway(candidates, replies, i) then AuthError else UnknownError)
  }

  lemma EntryReports(candidates: seq<Candidate>, replies: seq<Reply>, failed: seq<Attempt>, selected: bool, i: nat)
    requires i < |candidates| == |replies| && i < |failed| && Records(candidates, replies, i, failed[i])
    requires failed[i].skipped <==> !Eligible(candidates, replies, i)
    ensures Reports(candidates, replies, i, RouteTrace.FailedEntry(candidates, failed, selected, i))
  {
    hide TurnedAway, RouteTrace.UpstreamOf;
  }

  /** The record of a streamed Responses request, at commit or with an error. */
  lemma TraceReports(candidates: seq<Candidate>, replies: seq<Reply>, n: nat, attempts: seq<Attempt>, calls: seq<nat>, answer: Option<Answer>,
                     selected: Option<Candidate>, outcome: string, error: Attempt)
    requires |candidates| == |replies| && Outcome(ResponsesStream, candidates, replies, n, attempts, calls, answer)
    ensures var entries := RouteTrace.Entries(candidates, attempts, selected, outcome, error);
            && (forall i: nat :: i < n ==> i < |entries| && Reports(candidates, replies, i, entries[i]))
            && (n < |candidates| && replies[n].Fault? ==> n < |entries| && Reports(candidates, replies, n, entries[n]))
  {
    hide Passed, HaltsAt, AttemptAt, Calls, Exhausted, Records, Reports, Eligible, RouteTrace.FailedEntry;
    StopsAt(ResponsesStream, candidates, replies, n, attempts, calls, answer);
    var entries := RouteTrace.Entries(candidates, attempts, selected, outcome, error);
    forall i: nat | i < |candidates| && (i < n || (i == n && replies[n].Fault?)) ensures i < |entries| && Reports(candidates, replies, i, entries[i]) {
      assert attempts[i] == AttemptAt(candidates, replies, i) by {
        if i < n { assert attempts[i] == Attempts(candidates, replies, n)[i]; }
      }
      AttemptRecords(candidates, replies, i);
      EntryReports(candidates, replies, attempts, selected.Some?, i);
      assert entries[i] == RouteTrace.FailedEntry(candidates, attempts, selected.Some?, i);
    }
  }
}
