/** The transport retries of `assessment_platform/agent_client.py`: how often one
    trigger is posted, and how long it can stay on the wire.  Times are milliseconds. */
module AgentClient {
  import opened Base
  import Grading
  import GradingRuns

  /** What one POST came to. */
  datatype Outcome = Answered(job: nat) | HttpError(code: int) | ConnectError | ConnectTimeout | ReadTimeout | OtherError

  predicate TriggerIsRetryable(o: Outcome) {
    match o
    case HttpError(code) => code in {429, 500, 502, 503, 504}
    case ConnectError => true
    case ConnectTimeout => true
    case ReadTimeout => true
    case _ => false
  }

  /** One trigger, as the network behaves: attempt `k` takes `took(k)` and ends in `outcome(k)`. */
  datatype Network = Network(outcome: nat -> Outcome, took: nat -> nat)

  /** The loop goes on after attempt `k`. */
  predicate GoesOn(net: Network, k: nat, attempts: int, retryable: Outcome -> bool) {
    !net.outcome(k).Answered? && k < attempts && retryable(net.outcome(k))
  }

  function Elapsed(net: Network, backoff: nat, sent: nat): nat {
    if sent == 0 then 0
    else Elapsed(net, backoff, sent - 1) + net.took(sent) + backoff * (sent - 1)
  }

  /** `_post_with_retry`: it posts exactly until an answer, a failure no retry can fix,
      or the last attempt, sleeping `backoff * k` after attempt `k`. */
  method PostWithRetry(attempts: int, backoff: nat, retryable: Outcome -> bool, net: Network)
    returns (result: Outcome, sent: nat, elapsed: nat)
    ensures 1 <= sent <= Max(1, attempts)
    ensures result == net.outcome(sent) && !GoesOn(net, sent, attempts, retryable)
    ensures forall k | 1 <= k < sent :: GoesOn(net, k, attempts, retryable)
    ensures elapsed == Elapsed(net, backoff, sent)
  {
    sent := 1;
    result := net.outcome(1);
    elapsed := net.took(1);
    while GoesOn(net, sent, attempts, retryable)
      invariant 1 <= sent <= Max(1, attempts)
      invariant result == net.outcome(sent)
      invariant forall k | 1 <= k < sent :: GoesOn(net, k, attempts, retryable)
      invariant elapsed == Elapsed(net, backoff, sent)
      decreases attempts - sent
    {
      elapsed := elapsed + backoff * sent;
      sent := sent + 1;
      result := net.outcome(sent);
      elapsed := elapsed + net.took(sent);
    }
  }

  /** A trigger gives up before its last attempt only on an answer, on a status that says the
      agent will not change its mind, or on a failure that is not the network's; everything it
      was retried for is the network's or one of five statuses. */
  lemma RetriedExactlyForTheseFailures(attempts: int, net: Network, sent: nat)
    requires 1 <= sent && !GoesOn(net, sent, attempts, TriggerIsRetryable)
    requires forall j | 1 <= j < sent :: GoesOn(net, j, attempts, TriggerIsRetryable)
    ensures sent < attempts ==> match net.outcome(sent)
                                case Answered(_) => true
                                case HttpError(code) => code != 429 && code != 500 && code != 502 && code != 503 && code != 504
                                case OtherError => true
                                case _ => false
    ensures forall j | 1 <= j < sent :: match net.outcome(j)
                                        case HttpError(code) => code == 429 || code == 500 || 502 <= code <= 504
                                        case ConnectError => true
                                        case ConnectTimeout => true
                                        case ReadTimeout => true
                                        case _ => false
  {
    forall j | 1 <= j < sent ensures TriggerIsRetryable(net.outcome(j)) && !net.outcome(j).Answered? {
      assert GoesOn(net, j, attempts, TriggerIsRetryable);
    }
  }

  /** The agent's refusal of the job as sent, a 400, is never retried: it is what the trigger
      raises at once. */
  lemma RefusalEndsTheTrigger(attempts: int, net: Network, sent: nat, k: nat)
    requires forall j | 1 <= j < sent :: GoesOn(net, j, attempts, TriggerIsRetryable)
    requires 1 <= k <= sent && net.outcome(k) == HttpError(400)
    ensures k == sent
  {
    assert k < sent ==> GoesOn(net, k, attempts, TriggerIsRetryable);
  }

  /** The longest one trigger can take: A * P + B * A * (A - 1) / 2. */
  function WireBound(attempts: int, post: nat, backoff: nat): nat {
    var a := Max(1, attempts);
    a * post + backoff * (a * (a - 1) / 2)
  }

  /** 0 + 1 + ... + (n - 1): the backoff units slept by `n` attempts. */
  function Triangle(n: nat): nat {
    if n == 0 then 0 else Triangle(n - 1) + (n - 1)
  }

  lemma {:induction false} TriangleClosedForm(n: nat)
    ensures 2 * Triangle(n) == n * (n - 1)
  {
    if n > 0 { TriangleClosedForm(n - 1); }
  }

  lemma {:induction false} TriangleGrows(a: nat, b: nat)
    requires a <= b
    ensures Triangle(a) <= Triangle(b)
  {
    if a < b { TriangleGrows(a, b - 1); }
  }

  lemma {:induction false} ElapsedBound(net: Network, backoff: nat, post: nat, sent: nat)
    requires forall k | 1 <= k <= sent :: net.took(k) <= post
    ensures Elapsed(net, backoff, sent) <= sent * post + backoff * Triangle(sent)
  {
    if sent > 0 {
      ElapsedBound(net, backoff, post, sent - 1);
      assert backoff * Triangle(sent) == backoff * Triangle(sent - 1) + backoff * (sent - 1);
      assert sent * post == (sent - 1) * post + post;
    }
  }

  lemma WireBoundIsTriangular(attempts: int, post: nat, backoff: nat)
    ensures var a := Max(1, attempts); WireBound(attempts, post, backoff) == a * post + backoff * Triangle(a)
  {
    var a := Max(1, attempts);
    TriangleClosedForm(a);
    assert a * (a - 1) / 2 == Triangle(a);
  }

  /** Whatever the network does, a trigger whose POSTs take at most `post` each is over within the bound. */
  lemma TriggerIsBounded(attempts: int, backoff: nat, post: nat, net: Network, sent: nat)
    requires 1 <= sent <= Max(1, attempts)
    requires forall k | 1 <= k <= sent :: net.took(k) <= post
    ensures Elapsed(net, backoff, sent) <= WireBound(attempts, post, backoff)
  {
    var a := Max(1, attempts);
    calc <= {
      Elapsed(net, backoff, sent);
      { ElapsedBound(net, backoff, post, sent); }
      sent * post + backoff * Triangle(sent);
      { MulKeepsOrder(post, sent, a); TriangleGrows(sent, a); MulKeepsOrder(backoff, Triangle(sent), Triangle(a)); }
      a * post + backoff * Triangle(a);
      { WireBoundIsTriangular(attempts, post, backoff); }
      WireBound(attempts, post, backoff);
    }
  }

  /** With the shipped defaults -- 3 attempts of three 10 s phases, 1 s linear backoff, and a
      120 s pending grace -- the wire bound is the 93 s the configuration names, so no claim
      ever doubles a trigger that is still on the wire. */
  lemma DefaultGraceOutlastsTheWire(es: seq<Grading.Event>, e: Grading.Event, id: Grading.Id)
    requires Grading.Along(Grading.Config(3, 120_000, 900_000), Grading.Empty, es, GradingRuns.Prompt(WireBound(3, 30_000, 1_000)))
    requires GradingRuns.ClaimWins(Grading.Run(Grading.Config(3, 120_000, 900_000), Grading.Empty, es), e, id)
    ensures WireBound(3, 30_000, 1_000) == 93_000
    ensures GradingRuns.WireIdle(Grading.Run(Grading.Config(3, 120_000, 900_000), Grading.Empty, es), id)
  {
    var wire := WireBound(3, 30_000, 1_000);
    assert wire == 93_000;
    GradingRuns.NoClaimWhileOnWire(Grading.Config(3, 120_000, 900_000), wire, es, e, id);
  }
}
