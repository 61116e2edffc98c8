/** The customization-readiness poller (acoustic.js `whenCustomizationReady`,
    lines 55-106).

    Each attempt fetches the customization and sorts its `status`; the retry
    helper repeats an attempt whose error carries the `ERR_TIMEOUT` code,
    waiting `interval` milliseconds in between, until `times` attempts have
    been made. The helper itself is a foreign library; it is modelled by the
    contract its caller states for it: an error that passes the filter is
    retried after the interval, any other error or a success goes straight to
    the callback, and once the attempt limit is reached the last error goes to
    the callback whatever it is.

    The service is a finite sequence `answers`: `answers[k]` is what the
    `k`-th fetch (counting from 0) returns, a transport error or a
    customization. */
module Poller {
  import opened Wrappers
  import opened Customizations
  import opened PollOptions

  /** The code the SDK uses to mark an error as "try again". */
  const ERR_TIMEOUT: string := "ERR_TIMEOUT"

  const PendingMessage: string := "Customization is still pending, try increasing interval or times params"
  const FailedMessage: string := "Customization training failed"
  const UnexpectedPrefix: string := "Unexpected customization status: "

  /** What one fetch returns. */
  type Answer = Result<Customization, Error>

  /** The "still pending" error an attempt raises to ask for another try. */
  const PendingError: Error := Error(PendingMessage, Some(ERR_TIMEOUT))

  predicate IsPending(status: string) {
    status == "pending" || status == "training"
  }

  predicate IsReady(status: string) {
    status == "ready" || status == "available"
  }

  /** A status outside the five the service is known to report. */
  predicate IsUnexpected(status: string) {
    !IsPending(status) && !IsReady(status) && status != "failed"
  }

  /** The error filter: only errors coded `ERR_TIMEOUT` are retried. */
  predicate ErrorFilter(e: Error) {
    e.code == Some(ERR_TIMEOUT)
  }

  /** The attempt's outcome asks the retry helper for another attempt. */
  predicate Retries(r: Result<Customization, Error>) {
    r.Err? && ErrorFilter(r.error)
  }

  /** What one attempt hands to `next`, given what the fetch returned. */
  function Attempt(a: Answer): (r: Result<Customization, Error>)
    // a transport error is passed on unchanged
    ensures a.Err? ==> r == a
    // success exactly for a ready or available customization, which is returned as fetched
    ensures r.Ok? <==> a.Ok? && IsReady(a.value.status)
    ensures r.Ok? ==> r.value == a.value
    // pending and training become the retryable "still pending" error
    ensures a.Ok? && IsPending(a.value.status) ==> r == Err(PendingError) && Retries(r)
    // a failed or unknown status is an error the filter rejects
    ensures a.Ok? && a.value.status == "failed" ==> r == Err(Error(FailedMessage, None)) && !Retries(r)
    ensures a.Ok? && IsUnexpected(a.value.status) ==>
              r == Err(Error(UnexpectedPrefix + a.value.status, None)) && !Retries(r)
  {
    match a
    case Err(e) => Err(e)
    case Ok(c) =>
      if IsPending(c.status) then Err(PendingError)
      else if IsReady(c.status) then Ok(c)
      else if c.status == "failed" then Err(Error(FailedMessage, None))
      else Err(Error(UnexpectedPrefix + c.status, None))
  }

  /** The number of attempts the retry helper allows: `times`, and at least
      the first one, which is always made. */
  function Budget(times: nat): (b: nat)
    ensures b >= 1 && b >= times
    ensures times >= 1 ==> b == times
  {
    if times < 1 then 1 else times
  }

  /** The outcome of a polling session: what the callback receives, how many
      fetches were made and how long was waited between them. */
  datatype Session = Session(result: Result<Customization, Error>, fetches: nat, waited: nat)

  /** The `j`-th answer exists and its attempt asks for another try. */
  predicate RetriesAt(answers: seq<Answer>, j: int) {
    0 <= j < |answers| && Retries(Attempt(answers[j]))
  }

  /** Every attempt before the `k`-th asked for another try. */
  ghost predicate RetriedBefore(answers: seq<Answer>, k: nat) {
    forall j :: 0 <= j < k ==> RetriesAt(answers, j)
  }

  /** The protocol a session follows, stated without recursion: the fetch
      count stays within the budget, the callback gets the last attempt's
      outcome, every earlier attempt asked for a retry, and the session stops
      short of the budget only on an outcome the filter does not retry. */
  ghost predicate FollowsProtocol(answers: seq<Answer>, budget: nat, interval: nat, s: Session) {
    && 1 <= s.fetches <= budget
    && s.fetches <= |answers|
    && s.result == Attempt(answers[s.fetches - 1])
    && RetriedBefore(answers, s.fetches - 1)
    && (s.fetches < budget ==> !Retries(s.result))
    && s.waited == (s.fetches - 1) * interval
  }

  /** Attempts `k`, `k+1`, … of a session whose first `k` attempts asked for
      a retry. */
  function PollFrom(answers: seq<Answer>, budget: nat, interval: nat, k: nat): (s: Session)
    requires k < budget <= |answers|
    ensures k < s.fetches <= budget
    ensures s.result == Attempt(answers[s.fetches - 1])
    ensures forall j :: k <= j < s.fetches - 1 ==> RetriesAt(answers, j)
    ensures s.fetches < budget ==> !Retries(s.result)
    ensures s.waited == (s.fetches - 1 - k) * interval
    decreases budget - k
  {
    var r := Attempt(answers[k]);
    if Retries(r) && k + 1 < budget then
      var rest := PollFrom(answers, budget, interval, k + 1);
      Session(rest.result, rest.fetches, rest.waited + interval)
    else
      Session(r, k + 1, 0)
  }

  /** `whenCustomizationReady(params, callback)` against a service that
      answers the fetches with `answers`. */
  function Poll(answers: seq<Answer>, opts: Options): (s: Session)
    requires |answers| >= Budget(opts.times)
    ensures FollowsProtocol(answers, Budget(opts.times), opts.interval, s)
  {
    PollFrom(answers, Budget(opts.times), opts.interval, 0)
  }

  /** The protocol admits one session only: it is a complete reference
      definition of polling. */
  lemma ProtocolDeterminesSession(answers: seq<Answer>, budget: nat, interval: nat, s1: Session, s2: Session)
    requires FollowsProtocol(answers, budget, interval, s1)
    requires FollowsProtocol(answers, budget, interval, s2)
    ensures s1 == s2
  {
    // a session stopping earlier stopped on an attempt the other retried
    assert s1.fetches < s2.fetches ==> RetriesAt(answers, s1.fetches - 1);
    assert s2.fetches < s1.fetches ==> RetriesAt(answers, s2.fetches - 1);
  }

  /** The session is the first attempt not asking for a retry, when that
      attempt lies within the budget. */
  lemma StopsAtFirstNonRetry(answers: seq<Answer>, opts: Options, k: nat)
    requires |answers| >= Budget(opts.times)
    requires k < Budget(opts.times)
    requires RetriedBefore(answers, k)
    requires !Retries(Attempt(answers[k]))
    ensures Poll(answers, opts).fetches == k + 1
    ensures Poll(answers, opts).result == Attempt(answers[k])
    ensures Poll(answers, opts).waited == k * opts.interval
  {
    var s := Poll(answers, opts);
    assert s.fetches - 1 < k ==> RetriesAt(answers, s.fetches - 1);
    assert s.fetches - 1 > k ==> RetriesAt(answers, k);
  }

  /** When every attempt within the budget asks for a retry, the fetch runs
      exactly `Budget(times)` times and the callback gets the last error. */
  lemma ExhaustsBudget(answers: seq<Answer>, opts: Options)
    requires |answers| >= Budget(opts.times)
    requires RetriedBefore(answers, Budget(opts.times))
    ensures Poll(answers, opts).fetches == Budget(opts.times)
    ensures Poll(answers, opts).result == Attempt(answers[Budget(opts.times) - 1])
    ensures Poll(answers, opts).waited == (Budget(opts.times) - 1) * opts.interval
  {
    var s := Poll(answers, opts);
    assert s.fetches < Budget(opts.times) ==> RetriesAt(answers, s.fetches - 1);
  }

  /** The session reads no answer beyond the last fetch it made: services
      that agree on those answers yield the same session. */
  lemma OnlyFetchedAnswersMatter(answers: seq<Answer>, other: seq<Answer>, opts: Options)
    requires |answers| >= Budget(opts.times)
    requires |other| >= Budget(opts.times)
    requires answers[..Poll(answers, opts).fetches] == other[..Poll(answers, opts).fetches]
    ensures Poll(other, opts) == Poll(answers, opts)
  {
    var s := Poll(answers, opts);
    assert forall j :: 0 <= j < s.fetches ==> answers[j] == other[j] by {
      forall j | 0 <= j < s.fetches
        ensures answers[j] == other[j]
      {
        assert answers[..s.fetches][j] == other[..s.fetches][j];
      }
    }
    assert RetriedBefore(other, s.fetches - 1) by {
      forall j | 0 <= j < s.fetches - 1
        ensures RetriesAt(other, j)
      {
        assert RetriesAt(answers, j);
      }
    }
    assert FollowsProtocol(other, Budget(opts.times), opts.interval, s);
    ProtocolDeterminesSession(other, Budget(opts.times), opts.interval, s, Poll(other, opts));
  }

  /** The retry helper's loop, as the callback sees it: attempt, and while
      the outcome passes the error filter and attempts remain, wait and
      attempt again. */
  method RetryLoop(answers: seq<Answer>, opts: Options)
    returns (result: Result<Customization, Error>, fetches: nat, waited: nat)
    requires |answers| >= Budget(opts.times)
    ensures FollowsProtocol(answers, Budget(opts.times), opts.interval, Session(result, fetches, waited))
    ensures Session(result, fetches, waited) == Poll(answers, opts)
  {
    var budget := Budget(opts.times);
    result := Attempt(answers[0]);
    fetches := 1;
    waited := 0;
    while Retries(result) && fetches < budget
      invariant 1 <= fetches <= budget
      invariant result == Attempt(answers[fetches - 1])
      invariant RetriedBefore(answers, fetches - 1)
      invariant waited == (fetches - 1) * opts.interval
      decreases budget - fetches
    {
      waited := waited + opts.interval;
      result := Attempt(answers[fetches]);
      fetches := fetches + 1;
    }
    ProtocolDeterminesSession(answers, budget, opts.interval,
                              Session(result, fetches, waited), Poll(answers, opts));
  }
}
