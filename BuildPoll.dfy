/**
 * Waiting for a triggered build: up to twenty status reads, thirty seconds
 * apart, until the build reports a successful state. A read that throws and a
 * failed state both raise inside the attempt's `try`, whose `catch` rethrows
 * only on the last attempt; on every earlier attempt it waits and reads again.
 */
module BuildPoll {
  import opened JsText
  import opened Komodo

  const MaxAttempts: nat := 20
  const PollIntervalMs: nat := 30000

  /** `Build did not complete within ${(maxAttempts * 30) / 60} minutes`. */
  function TimeoutMessage(): string {
    "Build did not complete within " + Decimal(MaxAttempts * 30 / 60) + " minutes"
  }

  /** `Build failed with state: ${state}`. */
  function FailedStateMessage(state: string): string {
    "Build failed with state: " + state
  }

  /** What one attempt makes of its status read. */
  datatype Verdict =
    | Finished               // a successful state: the loop ends
    | Broken(message: string) // the attempt raised: a read error or a failed state
    | Waiting                // no state yet, or a state still in progress

  predicate IsSuccessState(state: string) {
    state == "complete" || state == "success" || state == "Ok"
  }

  predicate IsFailureState(state: string) {
    state == "failed" || state == "error"
  }

  function Classify(obs: PollObs): Verdict {
    match obs
    case ReadFailed(m) => Broken(m)
    case NoBuildState => Waiting
    case BuildState(s) =>
      if s == "" then Waiting
      else if IsSuccessState(s) then Finished
      else if IsFailureState(s) then Broken(FailedStateMessage(s))
      else Waiting
  }

  /** One status read followed by the thirty-second wait. */
  const Round: seq<Call> := [ListBuilds, Sleep(PollIntervalMs)]

  /** `n` unsuccessful attempts that each ended in a wait. */
  function Rounds(n: nat): (r: seq<Call>)
    ensures |r| == 2 * n
    decreases n
  {
    if n == 0 then [] else Round + Rounds(n - 1)
  }

  /**
   * The calls and the exception of the polling loop from attempt `attempt` on:
   * a successful state stops at once; on the last attempt an error propagates
   * and a wait leads to the timeout error; before that, anything else waits and
   * moves to the next attempt.
   */
  function PollFrom(status: nat -> PollObs, attempt: nat): Outcome
    requires 1 <= attempt <= MaxAttempts
    decreases MaxAttempts - attempt
  {
    match Classify(status(attempt))
    case Finished => Outcome([ListBuilds], None)
    case Broken(m) =>
      if attempt == MaxAttempts then Outcome([ListBuilds], Some(m))
      else Then(Outcome(Round, None), PollFrom(status, attempt + 1))
    case Waiting =>
      if attempt == MaxAttempts then Outcome(Round, Some(TimeoutMessage()))
      else Then(Outcome(Round, None), PollFrom(status, attempt + 1))
  }

  /** The polling loop as the script runs it; `status(k)` is what the read of attempt `k` finds. */
  method PollBuild(status: nat -> PollObs) returns (trace: seq<Call>, error: Option<string>)
    ensures Outcome(trace, error) == PollFrom(status, 1)
  {
    var complete := false;
    var attempts := 0;
    trace := [];
    while !complete && attempts < MaxAttempts
      invariant 0 <= attempts <= MaxAttempts
      invariant complete ==> Outcome(trace, None) == PollFrom(status, 1)
      invariant !complete && attempts < MaxAttempts ==>
        Then(Outcome(trace, None), PollFrom(status, attempts + 1)) == PollFrom(status, 1)
      invariant !complete && attempts == MaxAttempts ==>
        Outcome(trace, Some(TimeoutMessage())) == PollFrom(status, 1)
      decreases MaxAttempts - attempts, !complete
    {
      ghost var before := trace;
      attempts := attempts + 1;
      trace := trace + [ListBuilds];
      var obs := status(attempts);
      var thrown: Option<string> := None;
      if obs.ReadFailed? {
        thrown := Some(obs.message);
      } else if obs.BuildState? && obs.state != "" {
        var state := obs.state;
        if state == "complete" || state == "success" || state == "Ok" {
          complete := true;
        } else if state == "failed" || state == "error" {
          thrown := Some(FailedStateMessage(state));
        } else {
          trace := trace + [Sleep(PollIntervalMs)];
        }
      } else {
        trace := trace + [Sleep(PollIntervalMs)];
      }
      if thrown.Some? {
        if attempts >= MaxAttempts {
          error := thrown;
          return;
        }
        trace := trace + [Sleep(PollIntervalMs)];
      }
      if !complete {
        assert trace == before + Round;
        if attempts < MaxAttempts {
          ThenAssociative(Outcome(before, None), Outcome(Round, None), PollFrom(status, attempts + 1));
        }
      }
    }
    error := if complete then None else Some(TimeoutMessage());
  }

  predicate FinishedAt(status: nat -> PollObs, k: nat) {
    Classify(status(k)).Finished?
  }

  /**
   * When attempt `k` is the first (from `attempt` on) to see a successful
   * state, the loop stops there without error after one wait per earlier attempt.
   */
  lemma {:induction false} PollStopsAtFirstSuccess(status: nat -> PollObs, attempt: nat, k: nat)
    requires 1 <= attempt <= k <= MaxAttempts
    requires FinishedAt(status, k)
    requires forall j :: attempt <= j < k ==> !FinishedAt(status, j)
    ensures PollFrom(status, attempt) == Outcome(Rounds(k - attempt) + [ListBuilds], None)
    decreases k - attempt
  {
    if attempt < k {
      assert !FinishedAt(status, attempt);
      PollStopsAtFirstSuccess(status, attempt + 1, k);
      assert Rounds(k - attempt) == Round + Rounds(k - (attempt + 1));
    }
  }

  /**
   * When no attempt from `attempt` to the last sees a successful state, the
   * loop ends with an error: the last attempt's read error or failed-state
   * error, or the timeout error when the last attempt was still waiting.
   */
  lemma {:induction false} PollWithoutSuccess(status: nat -> PollObs, attempt: nat)
    requires 1 <= attempt <= MaxAttempts
    requires forall j :: attempt <= j <= MaxAttempts ==> !FinishedAt(status, j)
    ensures Classify(status(MaxAttempts)).Broken? ==>
      PollFrom(status, attempt) ==
        Outcome(Rounds(MaxAttempts - attempt) + [ListBuilds], Some(Classify(status(MaxAttempts)).message))
    ensures Classify(status(MaxAttempts)).Waiting? ==>
      PollFrom(status, attempt) == Outcome(Rounds(MaxAttempts - attempt + 1), Some(TimeoutMessage()))
    decreases MaxAttempts - attempt
  {
    if attempt < MaxAttempts {
      assert !FinishedAt(status, attempt);
      PollWithoutSuccess(status, attempt + 1);
      assert Rounds(MaxAttempts - attempt) == Round + Rounds(MaxAttempts - (attempt + 1));
      assert Rounds(MaxAttempts - attempt + 1) == Round + Rounds(MaxAttempts - (attempt + 1) + 1);
    } else {
      assert Rounds(1) == Round;
    }
  }

  /** Success at first attempt `k` takes exactly `k` status reads and `k - 1` waits. */
  lemma {:induction false} PollSuccessCounts(status: nat -> PollObs, k: nat)
    requires 1 <= k <= MaxAttempts && FinishedAt(status, k)
    requires forall j :: 1 <= j < k ==> !FinishedAt(status, j)
    ensures PollFrom(status, 1).error.None?
    ensures Count(PollFrom(status, 1).trace, ListBuilds) == k
    ensures Count(PollFrom(status, 1).trace, Sleep(PollIntervalMs)) == k - 1
  {
    PollStopsAtFirstSuccess(status, 1, k);
    assert PollFrom(status, 1).trace == Rounds(k - 1) + [ListBuilds];
    SuccessTraceCounts(k - 1);
  }

  /** `n` rounds and a last read hold `n + 1` reads and `n` waits. */
  lemma SuccessTraceCounts(n: nat)
    ensures Count(Rounds(n) + [ListBuilds], ListBuilds) == n + 1
    ensures Count(Rounds(n) + [ListBuilds], Sleep(PollIntervalMs)) == n
  {
    RoundsCount(n);
    assert [ListBuilds][1..] == [];
    CountAppend(Rounds(n), [ListBuilds], ListBuilds);
    CountAppend(Rounds(n), [ListBuilds], Sleep(PollIntervalMs));
  }

  /** The build phase goes on to deploy exactly when some attempt saw a successful state. */
  lemma PollSucceedsIff(status: nat -> PollObs)
    ensures PollFrom(status, 1).error.None? <==> exists k :: 1 <= k <= MaxAttempts && FinishedAt(status, k)
  {
    if k :| 1 <= k <= MaxAttempts && FinishedAt(status, k) {
      var first := FirstSuccess(status, 1, k);
      PollStopsAtFirstSuccess(status, 1, first);
    } else {
      assert !FinishedAt(status, MaxAttempts);
      PollWithoutSuccess(status, 1);
    }
  }

  /** The earliest attempt from `attempt` to `k` whose read saw a successful state. */
  function FirstSuccess(status: nat -> PollObs, attempt: nat, k: nat): (first: nat)
    requires attempt <= k && FinishedAt(status, k)
    ensures attempt <= first <= k && FinishedAt(status, first)
    ensures forall j :: attempt <= j < first ==> !FinishedAt(status, j)
    decreases k - attempt
  {
    if FinishedAt(status, attempt) then attempt else FirstSuccess(status, attempt + 1, k)
  }

  /** Whatever the answers, the loop reads the status at most twenty times and waits at most twenty times. */
  lemma PollBounded(status: nat -> PollObs)
    ensures Count(PollFrom(status, 1).trace, ListBuilds) <= MaxAttempts
    ensures Count(PollFrom(status, 1).trace, Sleep(PollIntervalMs)) <= MaxAttempts
    ensures |PollFrom(status, 1).trace| <= 2 * MaxAttempts
  {
    if k :| 1 <= k <= MaxAttempts && FinishedAt(status, k) {
      var first := FirstSuccess(status, 1, k);
      PollSuccessCounts(status, first);
      PollStopsAtFirstSuccess(status, 1, first);
    } else {
      assert !FinishedAt(status, MaxAttempts);
      PollWithoutSuccess(status, 1);
      SuccessTraceCounts(MaxAttempts - 1);
      RoundsCount(MaxAttempts);
    }
  }

  /** `n` rounds hold `n` reads and `n` waits. */
  lemma {:induction false} RoundsCount(n: nat)
    ensures Count(Rounds(n), ListBuilds) == n
    ensures Count(Rounds(n), Sleep(PollIntervalMs)) == n
    decreases n
  {
    if n > 0 {
      RoundsCount(n - 1);
      CountAppend(Round, Rounds(n - 1), ListBuilds);
      CountAppend(Round, Rounds(n - 1), Sleep(PollIntervalMs));
    }
  }

  /** Polling issues nothing but status reads and thirty-second waits. */
  lemma {:induction false} PollCalls(status: nat -> PollObs, attempt: nat)
    requires 1 <= attempt <= MaxAttempts
    ensures forall c :: c in PollFrom(status, attempt).trace ==> c == ListBuilds || c == Sleep(PollIntervalMs)
    decreases MaxAttempts - attempt
  {
    if attempt < MaxAttempts {
      PollCalls(status, attempt + 1);
    }
  }

  /** The timeout message reads "10 minutes". */
  lemma TimeoutMessageText()
    ensures TimeoutMessage() == "Build did not complete within 10 minutes"
  {
    assert Decimal(10) == "10";
  }

  /**
   * A failed state before the last attempt does not stop the build phase: after
   * `failed` on the first read and `complete` on the second, the phase succeeds.
   */
  lemma EarlyFailureIsRetried(status: nat -> PollObs)
    requires status(1) == BuildState("failed") && status(2) == BuildState("complete")
    ensures PollFrom(status, 1) == Outcome([ListBuilds, Sleep(PollIntervalMs), ListBuilds], None)
  {
    PollStopsAtFirstSuccess(status, 1, 2);
    assert Rounds(1) == Round;
  }

  /** Three `running` reads, then `complete`: success after four reads and three waits. */
  lemma RunningThenComplete(status: nat -> PollObs)
    requires forall j :: 1 <= j <= 3 ==> status(j) == BuildState("running")
    requires status(4) == BuildState("complete")
    ensures PollFrom(status, 1) == Outcome(Rounds(3) + [ListBuilds], None)
    ensures Count(PollFrom(status, 1).trace, ListBuilds) == 4
    ensures Count(PollFrom(status, 1).trace, Sleep(PollIntervalMs)) == 3
  {
    forall j | 1 <= j < 4 ensures !FinishedAt(status, j) {
      assert status(j) == BuildState("running");
    }
    PollStopsAtFirstSuccess(status, 1, 4);
    SuccessTraceCounts(3);
  }

  /** Failed states on every attempt end, after nineteen waits, with the failed-state error. */
  lemma PersistentFailure(status: nat -> PollObs)
    requires forall j :: 1 <= j <= MaxAttempts ==> status(j) == BuildState("error")
    ensures PollFrom(status, 1) ==
      Outcome(Rounds(MaxAttempts - 1) + [ListBuilds], Some("Build failed with state: error"))
  {
    forall j | 1 <= j <= MaxAttempts ensures !FinishedAt(status, j) {
      assert status(j) == BuildState("error");
    }
    assert Classify(status(MaxAttempts)) == Broken(FailedStateMessage("error"));
    assert FailedStateMessage("error") == "Build failed with state: error";
    PollWithoutSuccess(status, 1);
  }
}
