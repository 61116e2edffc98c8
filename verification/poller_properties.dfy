/** Properties of the readiness poller for each kind of answer the service
    can give (acoustic.js lines 66-101), and three concrete polling scenarios. */
module PollerProperties {
  import opened Wrappers
  import opened Customizations
  import opened PollOptions
  import opened Poller

  /** A `pending` or `training` status asks for another attempt: while
      attempts remain, the fetch runs again. */
  lemma PendingFetchesAgain(answers: seq<Answer>, opts: Options, k: nat)
    requires |answers| >= Budget(opts.times)
    requires k + 1 < Budget(opts.times)
    requires RetriedBefore(answers, k)
    requires answers[k].Ok? && IsPending(answers[k].value.status)
    ensures Poll(answers, opts).fetches > k + 1
  {
    var s := Poll(answers, opts);
    assert RetriesAt(answers, k);
    assert s.fetches - 1 < k ==> RetriesAt(answers, s.fetches - 1);
    assert s.fetches - 1 == k ==> s.result == Err(PendingError);
  }

  /** A `ready` or `available` status ends polling with success, handing
      back the customization exactly as fetched. */
  lemma ReadyEndsPolling(answers: seq<Answer>, opts: Options, k: nat)
    requires |answers| >= Budget(opts.times)
    requires k < Budget(opts.times)
    requires RetriedBefore(answers, k)
    requires answers[k].Ok? && IsReady(answers[k].value.status)
    ensures Poll(answers, opts).result == Ok(answers[k].value)
    ensures Poll(answers, opts).fetches == k + 1
  {
    StopsAtFirstNonRetry(answers, opts, k);
  }

  /** A `failed` status ends polling at once with the training-failed error,
      however many attempts remain. */
  lemma FailedEndsPolling(answers: seq<Answer>, opts: Options, k: nat)
    requires |answers| >= Budget(opts.times)
    requires k < Budget(opts.times)
    requires RetriedBefore(answers, k)
    requires answers[k].Ok? && answers[k].value.status == "failed"
    ensures Poll(answers, opts).result == Err(Error(FailedMessage, None))
    ensures Poll(answers, opts).fetches == k + 1
  {
    StopsAtFirstNonRetry(answers, opts, k);
  }

  /** Any other status ends polling at once with an error whose message
      ends with that status. */
  lemma UnexpectedEndsPolling(answers: seq<Answer>, opts: Options, k: nat)
    requires |answers| >= Budget(opts.times)
    requires k < Budget(opts.times)
    requires RetriedBefore(answers, k)
    requires answers[k].Ok? && IsUnexpected(answers[k].value.status)
    ensures Poll(answers, opts).result.Err?
    ensures var m := Poll(answers, opts).result.error.message;
            |m| >= |UnexpectedPrefix| && m[|UnexpectedPrefix|..] == answers[k].value.status
    ensures Poll(answers, opts).fetches == k + 1
  {
    StopsAtFirstNonRetry(answers, opts, k);
    var m := UnexpectedPrefix + answers[k].value.status;
    assert m[|UnexpectedPrefix|..] == answers[k].value.status;
  }

  /** A transport error reaches the callback unchanged, unless its code is
      `ERR_TIMEOUT` and attempts remain, in which case the fetch runs again. */
  lemma TransportErrorHandling(answers: seq<Answer>, opts: Options, k: nat)
    requires |answers| >= Budget(opts.times)
    requires k < Budget(opts.times)
    requires RetriedBefore(answers, k)
    requires answers[k].Err?
    ensures !ErrorFilter(answers[k].error) || k + 1 == Budget(opts.times) ==>
              Poll(answers, opts).result == answers[k] && Poll(answers, opts).fetches == k + 1
    ensures ErrorFilter(answers[k].error) && k + 1 < Budget(opts.times) ==>
              Poll(answers, opts).fetches > k + 1
  {
    var s := Poll(answers, opts);
    if !ErrorFilter(answers[k].error) {
      StopsAtFirstNonRetry(answers, opts, k);
    } else {
      assert RetriesAt(answers, k);
      assert s.fetches - 1 < k ==> RetriesAt(answers, s.fetches - 1);
      assert k + 1 < Budget(opts.times) && s.fetches - 1 == k ==> !Retries(s.result);
    }
  }

  /** When every fetch within the budget finds the customization pending or
      training, the fetch runs exactly `times` times and the callback gets
      the "still pending" error. */
  lemma AllPendingTimesOut(answers: seq<Answer>, opts: Options)
    requires |answers| >= Budget(opts.times)
    requires forall j :: 0 <= j < Budget(opts.times) ==>
               answers[j].Ok? && IsPending(answers[j].value.status)
    ensures Poll(answers, opts).result == Err(PendingError)
    ensures Poll(answers, opts).fetches == Budget(opts.times)
    ensures opts.times >= 1 ==> Poll(answers, opts).fetches == opts.times
  {
    assert RetriedBefore(answers, Budget(opts.times)) by {
      forall j | 0 <= j < Budget(opts.times)
        ensures RetriesAt(answers, j)
      {
        assert Attempt(answers[j]) == Err(PendingError);
      }
    }
    ExhaustsBudget(answers, opts);
  }

  /** The time spent waiting between attempts never exceeds
      `(times - 1) * interval`. */
  lemma WaitBounded(answers: seq<Answer>, opts: Options)
    requires |answers| >= Budget(opts.times)
    ensures Poll(answers, opts).waited <= (Budget(opts.times) - 1) * opts.interval
  {
    var s := Poll(answers, opts);
    var extra := Budget(opts.times) - s.fetches;
    assert (Budget(opts.times) - 1) * opts.interval == s.waited + extra * opts.interval;
  }

  /** `trainAcousticModel` waits at most 29 intervals of 10 seconds. */
  lemma TrainingWaitBound(answers: seq<Answer>, acousticModelId: string)
    requires |answers| >= 30
    ensures Poll(answers, Resolve(TrainingParams(acousticModelId))).waited <= 290000
    ensures Poll(answers, Resolve(TrainingParams(acousticModelId))).fetches <= 30
  {
    TrainingOptions(acousticModelId);
    WaitBounded(answers, Resolve(TrainingParams(acousticModelId)));
  }

  function Fetched(status: string): Answer {
    Ok(Customization("c1", "model", status))
  }

  /** Three attempts allowed, answers pending, training, ready: three
      fetches and success. */
  lemma ScenarioReadyOnThird()
    ensures var s := Poll([Fetched("pending"), Fetched("training"), Fetched("ready")], Options(10, 3));
            s.fetches == 3 && s.result == Ok(Customization("c1", "model", "ready")) && s.waited == 20
  {
    var answers := [Fetched("pending"), Fetched("training"), Fetched("ready")];
    assert RetriesAt(answers, 0) && RetriesAt(answers, 1);
    ReadyEndsPolling(answers, Options(10, 3), 2);
    StopsAtFirstNonRetry(answers, Options(10, 3), 2);
  }

  /** Two attempts allowed, both pending: two fetches and the "still pending"
      error. */
  lemma ScenarioTimesOut()
    ensures var s := Poll([Fetched("pending"), Fetched("pending")], Options(10, 2));
            s.fetches == 2 && s.result == Err(PendingError)
  {
    AllPendingTimesOut([Fetched("pending"), Fetched("pending")], Options(10, 2));
  }

  /** With the default options, a first answer of `failed` ends polling
      after one fetch, whatever the service would have answered later. */
  lemma ScenarioFailedFirst(later: seq<Answer>)
    requires |later| >= 29
    ensures var s := Poll([Fetched("failed")] + later, Resolve(Params("c1", None, None)));
            s.fetches == 1 && s.result == Err(Error(FailedMessage, None)) && s.waited == 0
  {
    var answers := [Fetched("failed")] + later;
    StopsAtFirstNonRetry(answers, Resolve(Params("c1", None, None)), 0);
  }
}
