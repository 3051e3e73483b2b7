/** The routing record a Hoard client sees: rewritten as a whole at each report,
    and touched up once if the committed stream fails. */
module RouteTrace {
  import opened Optional
  import opened Failover

  /** `failedOver` is left out of the report when it is `None`. */
  datatype TraceAttempt = TraceAttempt(
    index: int,
    model: string,
    provider: string,
    upstreamModel: string,
    outcome: string,
    error: Option<ErrorClass>,
    status: int,
    failedOver: Option<bool>)

  /** The upstream name of a model: the last candidate carrying it decides. */
  function UpstreamOf(candidates: seq<Candidate>, model: string): string {
    if candidates == [] then ""
    else
      var last := candidates[|candidates| - 1];
      if last.model == model then last.upstreamModel else UpstreamOf(candidates[..|candidates| - 1], model)
  }

  function FailedEntry(candidates: seq<Candidate>, failed: seq<Attempt>, selected: bool, i: nat): TraceAttempt
    requires i < |failed|
  {
    var a := failed[i];
    TraceAttempt(i + 1, a.model, a.provider, UpstreamOf(candidates, a.model), if a.skipped then "skipped" else "failed",
                 Some(a.class_), a.status, if a.skipped then None else Some(i + 1 < |failed| || selected))
  }

  function SelectedEntry(c: Candidate, index: int, outcome: string, error: Attempt): TraceAttempt {
    if outcome == "failed" then TraceAttempt(index, c.model, c.provider, c.upstreamModel, outcome, Some(error.class_), error.status, Some(false))
    else TraceAttempt(index, c.model, c.provider, c.upstreamModel, outcome, None, 0, None)
  }

  function Entries(candidates: seq<Candidate>, failed: seq<Attempt>, selected: Option<Candidate>, outcome: string, error: Attempt): seq<TraceAttempt> {
    seq(|failed|, i requires 0 <= i < |failed| => FailedEntry(candidates, failed, selected.Some?, i)) +
    (if selected.Some? then [SelectedEntry(selected.value, |failed| + 1, outcome, error)] else [])
  }

  /** Marking the selected candidate failed touches only a last entry that is
      still streaming. */
  function Marked(attempts: seq<TraceAttempt>, class_: ErrorClass): seq<TraceAttempt> {
    if attempts != [] && attempts[|attempts| - 1].outcome == "streaming" then
      attempts[|attempts| - 1 := attempts[|attempts| - 1].(outcome := "failed", error := Some(class_), failedOver := Some(false))]
    else attempts
  }

  class Trace {
    var attempts: seq<TraceAttempt>
    var selectedModel: string
    var selectedProvider: string

    constructor ()
      ensures attempts == [] && selectedModel == "" && selectedProvider == ""
    {
      attempts, selectedModel, selectedProvider := [], "", "";
    }

    method Record(candidates: seq<Candidate>, failed: seq<Attempt>, selected: Option<Candidate>, outcome: string, error: Attempt)
      modifies this
      ensures attempts == Entries(candidates, failed, selected, outcome, error)
      ensures selectedModel == (if selected.Some? then selected.value.model else "")
      ensures selectedProvider == (if selected.Some? then selected.value.provider else "")
    {
      var upstreamOf: map<string, string> := map[];
      for i := 0 to |candidates|
        invariant forall m: string :: UpstreamOf(candidates[..i], m) == if m in upstreamOf then upstreamOf[m] else ""
      {
        assert candidates[..i + 1][..i] == candidates[..i];
        upstreamOf := upstreamOf[candidates[i].model := candidates[i].upstreamModel];
      }
      assert candidates[..|candidates|] == candidates;
      attempts := [];
      for i := 0 to |failed|
        invariant |attempts| == i && forall j :: 0 <= j < i ==> attempts[j] == FailedEntry(candidates, failed, selected.Some?, j)
      {
        var a := failed[i];
        var name := if a.model in upstreamOf then upstreamOf[a.model] else "";
        var entry := TraceAttempt(i + 1, a.model, a.provider, name, "skipped", Some(a.class_), a.status, None);
        if !a.skipped {
          var moved := i + 1 < |failed| || selected.Some?;
          entry := entry.(outcome := "failed", failedOver := Some(moved));
        }
        attempts := attempts + [entry];
      }
      selectedModel, selectedProvider := "", "";
      if selected.Some? {
        var c := selected.value;
        var entry := TraceAttempt(|failed| + 1, c.model, c.provider, c.upstreamModel, outcome, None, 0, None);
        if outcome == "failed" {
          entry := entry.(error := Some(error.class_), status := error.status, failedOver := Some(false));
        }
        attempts := attempts + [entry];
        selectedModel, selectedProvider := c.model, c.provider;
      }
    }

    method FailSelected(class_: ErrorClass)
      modifies `attempts
      ensures attempts == Marked(old(attempts), class_)
    {
      var n := |attempts|;
      if n > 0 && attempts[n - 1].outcome == "streaming" {
        attempts := attempts[n - 1 := attempts[n - 1].(outcome := "failed", error := Some(class_), failedOver := Some(false))];
      }
    }
  }

  // ----------------------------------------------------------------- faithfulness

  /** How many candidates the loop looked at. */
  function Considered(candidates: seq<Candidate>, n: nat): nat {
    if n < |candidates| then n + 1 else n
  }

  ghost predicate DistinctModels(candidates: seq<Candidate>) {
    forall i, j :: 0 <= i < j < |candidates| ==> candidates[i].model != candidates[j].model
  }

  lemma {:induction false} UpstreamMeaning(candidates: seq<Candidate>, i: nat)
    requires DistinctModels(candidates) && i < |candidates|
    ensures UpstreamOf(candidates, candidates[i].model) == candidates[i].upstreamModel
  {
    var n := |candidates| - 1;
    if i < n {
      assert candidates[..n][i] == candidates[i];
      UpstreamMeaning(candidates[..n], i);
    }
  }

  /** An entry speaks of its own candidate, in candidate order, and says it failed
      over exactly when a later candidate was looked at. */
  ghost predicate TellsTruth(candidates: seq<Candidate>, entries: seq<TraceAttempt>, i: nat, considered: nat)
    requires i < |entries| && i < |candidates|
  {
    && entries[i].index == i + 1
    && entries[i].model == candidates[i].model && entries[i].provider == candidates[i].provider
    && (DistinctModels(candidates) ==> entries[i].upstreamModel == candidates[i].upstreamModel)
    && (entries[i].failedOver.Some? <==> entries[i].outcome == "failed")
    && (entries[i].outcome == "failed" ==> entries[i].failedOver.value == (i + 1 < considered))
  }

  ghost predicate AllTellTruth(candidates: seq<Candidate>, entries: seq<TraceAttempt>, considered: nat) {
    |entries| == considered <= |candidates| && forall i: nat :: i < |entries| ==> TellsTruth(candidates, entries, i, considered)
  }

  lemma EntryTellsTruth(candidates: seq<Candidate>, failed: seq<Attempt>, selected: Option<Candidate>, outcome: string, error: Attempt, i: nat, considered: nat)
    requires i < |failed| && i < |candidates| && failed[i].model == candidates[i].model && failed[i].provider == candidates[i].provider
    requires i + 1 < considered <==> i + 1 < |failed| || selected.Some?
    ensures TellsTruth(candidates, Entries(candidates, failed, selected, outcome, error), i, considered)
  {
    if DistinctModels(candidates) { UpstreamMeaning(candidates, i); }
    assert Entries(candidates, failed, selected, outcome, error)[i] == FailedEntry(candidates, failed, selected.Some?, i);
  }

  /** The trace announced at commit: one truthful entry per candidate passed over,
      each failure among them failed over, and the selected one streaming. */
  lemma CommitTrace(candidates: seq<Candidate>, replies: seq<Reply>, n: nat, attempts: seq<Attempt>, calls: seq<nat>, answer: Option<Answer>, nothing: Attempt)
    requires |candidates| == |replies| && n < |candidates| && replies[n].Won?
    requires Outcome(ResponsesStream, candidates, replies, n, attempts, calls, answer)
    ensures var entries := Entries(candidates, attempts, Some(candidates[n]), "streaming", nothing);
            && AllTellTruth(candidates, entries, n + 1)
            && entries[n].outcome == "streaming"
  {
    var entries := Entries(candidates, attempts, Some(candidates[n]), "streaming", nothing);
    AttemptPerCandidate(ResponsesStream, candidates, replies, n, attempts, calls, answer);
    var considered := n + 1;
    forall i: nat | i < considered ensures TellsTruth(candidates, entries, i, considered) {
      if i < n { EntryTellsTruth(candidates, attempts, Some(candidates[n]), "streaming", nothing, i, considered); }
    }
  }

  /** A failure after commit changes only the selected entry, which then says that
      it did not fail over. */
  lemma PostCommitTrace(candidates: seq<Candidate>, replies: seq<Reply>, n: nat, attempts: seq<Attempt>, calls: seq<nat>, answer: Option<Answer>,
                        nothing: Attempt, class_: ErrorClass)
    requires |candidates| == |replies| && n < |candidates| && replies[n].Won?
    requires Outcome(ResponsesStream, candidates, replies, n, attempts, calls, answer)
    ensures var entries := Entries(candidates, attempts, Some(candidates[n]), "streaming", nothing);
            var marked := Marked(entries, class_);
            && |marked| == n + 1 && marked[..n] == entries[..n]
            && TellsTruth(candidates, marked, n, n + 1) && marked[n].outcome == "failed" && marked[n].error == Some(class_)
  {
    CommitTrace(candidates, replies, n, attempts, calls, answer, nothing);
    var entries := Entries(candidates, attempts, Some(candidates[n]), "streaming", nothing);
    assert TellsTruth(candidates, entries, n, n + 1);
  }

  /** The trace sent with an error: every candidate looked at, each telling the
      truth; the last failure never claims to have failed over. */
  lemma ErrorTrace(candidates: seq<Candidate>, replies: seq<Reply>, n: nat, attempts: seq<Attempt>, calls: seq<nat>, answer: Option<Answer>, nothing: Attempt)
    requires |candidates| == |replies| && (n < |candidates| ==> replies[n].Fault?)
    requires Outcome(ResponsesStream, candidates, replies, n, attempts, calls, answer)
    ensures AllTellTruth(candidates, Entries(candidates, attempts, None, "", nothing), Considered(candidates, n))
  {
    var entries, considered := Entries(candidates, attempts, None, "", nothing), Considered(candidates, n);
    AttemptPerCandidate(ResponsesStream, candidates, replies, n, attempts, calls, answer);
    forall i: nat | i < |entries| ensures i < |candidates| && TellsTruth(candidates, entries, i, considered) {
      EntryTellsTruth(candidates, attempts, None, "", nothing, i, considered);
    }
  }

  /** Not so for a non-streaming request whose context ends during a failing call,
      because the client went away or the request took too long: the fault is followed by a second note about the same candidate, so it
      claims to have failed over although no other candidate was looked at. */
  lemma CancelledOnceMisreports(candidates: seq<Candidate>, replies: seq<Reply>, n: nat, attempts: seq<Attempt>, calls: seq<nat>, answer: Option<Answer>, nothing: Attempt)
    requires |candidates| == |replies| && n < |candidates| && replies[n].Fault?
    requires Outcome(ResponsesOnce, candidates, replies, n, attempts, calls, answer)
    ensures var entries := Entries(candidates, attempts, None, "", nothing);
            && |entries| > n && Considered(candidates, n) == n + 1
            && (TellsTruth(candidates, entries, n, n + 1) <==> replies[n].class_ == ClientError)
  {
    var entries := Entries(candidates, attempts, None, "", nothing);
    assert attempts[n] == AttemptAt(candidates, replies, n);
    if DistinctModels(candidates) { UpstreamMeaning(candidates, n); }
    assert entries[n] == FailedEntry(candidates, attempts, false, n);
  }

  /** The smallest such request: one candidate, failing with a 502 as the request's
      context ends. Its only candidate claims to have failed over. */
  lemma CancelledOnceExample(c: Candidate, nothing: Attempt)
    requires c.key != ""
    ensures var candidates, replies := [c], [Fault(UpstreamError, 502, "x", false, true)];
            var attempts := [Attempt(c.model, c.provider, UpstreamError, 502, "x", false, ""),
                             Attempt(c.model, c.provider, ClientError, 0, CANCELLED, false, "")];
            && Outcome(ResponsesOnce, candidates, replies, 0, attempts, [0], Some(ErrorAnswer(400, CANCELLED)))
            && !TellsTruth(candidates, Entries(candidates, attempts, None, "", nothing), 0, 1)
  {
    var candidates, replies := [c], [Fault(UpstreamError, 502, "x", false, true)];
    var attempts := [Attempt(c.model, c.provider, UpstreamError, 502, "x", false, ""),
                     Attempt(c.model, c.provider, ClientError, 0, CANCELLED, false, "")];
    assert Called(candidates, replies, 0);
    assert AttemptAt(candidates, replies, 0) == attempts[0];
    assert Outcome(ResponsesOnce, candidates, replies, 0, attempts, [0], Some(ErrorAnswer(400, CANCELLED)));
    CancelledOnceMisreports(candidates, replies, 0, attempts, [0], Some(ErrorAnswer(400, CANCELLED)), nothing);
  }
}
