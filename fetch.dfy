/**
 * The polling engine's pure side: the outcome of `fetchWithRetry` as a function of
 * the network's answers, the 30-second failure-suppression window of
 * `fetchSignatureCount`, and how a response becomes a signature count.
 */
module Fetch {
  import opened Wrappers
  import opened Config
  import opened Text

  /** What `response.json()` makes of a body: not JSON (it throws), or an object with an optional `signature_count`. */
  datatype Body = NotJson | Json(signatureCount: Option<nat>)

  /** The network's answer to one `fetch` call: an HTTP reply, or a thrown error (transport failure, the 10 s abort). */
  datatype Attempt = Reply(status: nat, statusText: string, body: Body) | Thrown(message: string) {

    /** `response.ok`: a reply with a 2xx status. */
    predicate Ok() {
      Reply? && 200 <= status <= 299
    }

    /** The `message` of the error a failed attempt raises. */
    function ErrorMessage(): string
      requires !Ok()
    {
      match this
      case Reply(status, statusText, _) => "HTTP " + NatToString(status) + ": " + statusText
      case Thrown(message) => message
    }
  }

  /** The answer the network gives to the i-th attempt (counting from 0) of one `fetchWithRetry` call. */
  type Network = nat -> Attempt

  /** What `fetchWithRetry` settles with: a response, a rejection, or `undefined` when the loop never ran. */
  datatype FetchResult = Response(body: Body) | Rejected(message: string) | NoResult

  /** A result, the number of `fetch` calls made, and the backoff delays (ms) waited, in order. */
  datatype Retried = Retried(result: FetchResult, tries: nat, waits: seq<nat>)

  function ExhaustedMessage(attempts: nat, lastMessage: string): string {
    "Failed to fetch after " + NatToString(attempts) + " attempts: " + lastMessage
  }

  /** The loop of `fetchWithRetry` from iteration i on. */
  function RetryFrom(net: Network, attempts: int, i: nat): Retried
    decreases attempts - i
  {
    if attempts <= i then Retried(NoResult, 0, [])
    else if net(i).Ok() then Retried(Response(net(i).body), 1, [])
    else if i == attempts - 1 then Retried(Rejected(ExhaustedMessage(attempts, net(i).ErrorMessage())), 1, [])
    else
      var rest := RetryFrom(net, attempts, i + 1);
      Retried(rest.result, rest.tries + 1, [RETRY_DELAY * (i + 1)] + rest.waits)
  }

  function Retry(net: Network, attempts: int): Retried {
    RetryFrom(net, attempts, 0)
  }

  /** The loop from iteration i on: it stops at the first ok answer or after the last attempt, waiting 1000 * (j + 1) ms after each earlier failure j. */
  lemma {:induction false} RetryFromCharacterized(net: Network, attempts: int, i: nat)
    ensures var r := RetryFrom(net, attempts, i);
      && (attempts <= i ==> r == Retried(NoResult, 0, []))
      && (attempts > i ==> 1 <= r.tries <= attempts - i && !r.result.NoResult?)
      && (forall j :: i <= j < i + r.tries - 1 ==> !net(j).Ok())
      && (r.result.Response? ==> net(i + r.tries - 1).Ok() && r.result.body == net(i + r.tries - 1).body)
      && (r.result.Rejected? ==>
            && i + r.tries == attempts
            && !net(attempts - 1).Ok()
            && r.result.message == ExhaustedMessage(attempts, net(attempts - 1).ErrorMessage()))
      && |r.waits| == (if r.tries == 0 then 0 else r.tries - 1)
      && (forall k :: 0 <= k < |r.waits| ==> r.waits[k] == RETRY_DELAY * (i + k + 1))
    decreases attempts - i
  {
    if attempts > i && !net(i).Ok() && i != attempts - 1 {
      RetryFromCharacterized(net, attempts, i + 1);
      var rest := RetryFrom(net, attempts, i + 1);
      var r := RetryFrom(net, attempts, i);
      assert r.waits == [RETRY_DELAY * (i + 1)] + rest.waits;
      forall k | 0 <= k < |r.waits| ensures r.waits[k] == RETRY_DELAY * (i + k + 1) {
        if k > 0 {
          assert r.waits[k] == rest.waits[k - 1];
        }
      }
    }
  }

  /**
   * `fetchWithRetry(url, attempts)`: the first ok response is returned and no
   * further attempt is made; when every attempt fails it makes exactly `attempts`
   * tries, waits 1000 * (j + 1) ms after each failed try j except the last, and
   * rejects with "Failed to fetch after {attempts} attempts: {last message}";
   * with attempts <= 0 it makes no request and settles with `undefined`.
   */
  lemma RetryCharacterized(net: Network, attempts: int)
    ensures var r := Retry(net, attempts);
      && (attempts <= 0 ==> r == Retried(NoResult, 0, []))
      && (attempts > 0 ==> 1 <= r.tries <= attempts)
      && (forall j :: 0 <= j < r.tries - 1 ==> !net(j).Ok())
      && (r.result.Response? <==> attempts > 0 && net(r.tries - 1).Ok())
      && (r.result.Response? ==> r.result.body == net(r.tries - 1).body)
      && (r.result.Rejected? <==> attempts > 0 && !net(r.tries - 1).Ok())
      && (r.result.Rejected? ==>
            r.tries == attempts && r.result.message == ExhaustedMessage(attempts, net(attempts - 1).ErrorMessage()))
      && |r.waits| == (if r.tries == 0 then 0 else r.tries - 1)
      && (forall k :: 0 <= k < |r.waits| ==> r.waits[k] == RETRY_DELAY * (k + 1))
  {
    RetryFromCharacterized(net, attempts, 0);
  }

  lemma ExhaustedAfterThree(message: string)
    ensures ExhaustedMessage(3, message) == "Failed to fetch after 3 attempts: " + message
  {
    assert NatToString(3) == "3";
  }

  /** Every answer failing three times: three tries, waits of 1 s and 2 s, and the count "3" in the message. */
  lemma AlwaysFailingThreeAttempts(net: Network)
    requires forall j :: !net(j).Ok()
    ensures Retry(net, RETRY_ATTEMPTS).tries == 3
    ensures Retry(net, RETRY_ATTEMPTS).waits == [1000, 2000]
    ensures Retry(net, RETRY_ATTEMPTS).result
            == Rejected("Failed to fetch after 3 attempts: " + net(2).ErrorMessage())
  {
    ExhaustedAfterThree(net(2).ErrorMessage());
  }

  /** The count `fetchSignatureCount` returns for a settled fetch: `signature_count || 0`, or null when the fetch or `json()` failed. */
  function CountOf(r: FetchResult): Option<nat> {
    match r
    case Response(Json(count)) => Some(count.GetOr(0))
    case _ => None
  }

  /** A petition is skipped while its last failure, a truthy timestamp, is less than SUPPRESSION_WINDOW ms old. */
  predicate Suppressed(failedRequests: map<string, int>, id: string, now: int) {
    id in failedRequests && failedRequests[id] != 0 && now - failedRequests[id] < SUPPRESSION_WINDOW
  }

  /** One call of `fetchSignatureCount`: the network's answers and the two clock readings it takes. */
  datatype PollInput = PollInput(net: Network, checkedAt: int, failedAt: int)

  /** The value `fetchSignatureCount` resolves to. */
  function PollCount(failedRequests: map<string, int>, id: string, input: PollInput): Option<nat> {
    if Suppressed(failedRequests, id, input.checkedAt) then None
    else CountOf(Retry(input.net, RETRY_ATTEMPTS).result)
  }

  /** The `failedRequests` map after that call. */
  function PollFailures(failedRequests: map<string, int>, id: string, input: PollInput): map<string, int> {
    if Suppressed(failedRequests, id, input.checkedAt) then failedRequests
    else if PollCount(failedRequests, id, input).Some? then failedRequests - {id}
    else failedRequests[id := input.failedAt]
  }

  /** Inside the window the petition resolves to null and nothing is recorded. */
  lemma SuppressedPollChangesNothing(failedRequests: map<string, int>, id: string, input: PollInput)
    requires Suppressed(failedRequests, id, input.checkedAt)
    ensures PollCount(failedRequests, id, input) == None
    ensures PollFailures(failedRequests, id, input) == failedRequests
  {
  }

  /** Outside the window the petition is fetched: success clears its entry and yields the count, failure stamps the failure time. */
  lemma LivePoll(failedRequests: map<string, int>, id: string, input: PollInput)
    requires !Suppressed(failedRequests, id, input.checkedAt)
    ensures PollCount(failedRequests, id, input) == CountOf(Retry(input.net, RETRY_ATTEMPTS).result)
    ensures PollCount(failedRequests, id, input).Some? ==> PollFailures(failedRequests, id, input) == failedRequests - {id}
    ensures PollCount(failedRequests, id, input).None? ==>
              PollFailures(failedRequests, id, input) == failedRequests[id := input.failedAt]
  {
  }

  /**
   * A failure at time T (T != 0) suppresses every poll less than 30 s later,
   * one POLL_INTERVAL later included, and none from 30 s on.
   */
  lemma FailureOpensWindow(failedRequests: map<string, int>, id: string, input: PollInput, later: int)
    requires !Suppressed(failedRequests, id, input.checkedAt)
    requires PollCount(failedRequests, id, input) == None
    requires input.failedAt != 0
    ensures Suppressed(PollFailures(failedRequests, id, input), id, later)
            <==> later - input.failedAt < SUPPRESSION_WINDOW
    ensures Suppressed(PollFailures(failedRequests, id, input), id, input.failedAt + POLL_INTERVAL)
  {
  }

  /** After a success the petition is never suppressed, whenever it is polled next. */
  lemma SuccessClosesWindow(failedRequests: map<string, int>, id: string, input: PollInput, later: int)
    requires PollCount(failedRequests, id, input).Some?
    ensures id !in PollFailures(failedRequests, id, input)
    ensures !Suppressed(PollFailures(failedRequests, id, input), id, later)
  {
  }

  /** Polling one petition leaves every other petition's entry, and so its suppression, as it was. */
  lemma PollLeavesOthers(failedRequests: map<string, int>, id: string, input: PollInput, other: string, now: int)
    requires other != id
    ensures other in PollFailures(failedRequests, id, input) <==> other in failedRequests
    ensures other in failedRequests ==> PollFailures(failedRequests, id, input)[other] == failedRequests[other]
    ensures Suppressed(PollFailures(failedRequests, id, input), other, now) == Suppressed(failedRequests, other, now)
  {
  }

  /** A stored timestamp of 0 is falsy in `lastFailure && ...`, so it never suppresses. */
  lemma ZeroTimestampNeverSuppresses(failedRequests: map<string, int>, id: string, now: int)
    requires id in failedRequests && failedRequests[id] == 0
    ensures !Suppressed(failedRequests, id, now)
  {
  }
}
