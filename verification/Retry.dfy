/** Opening a stream again after failures that may pass. */
module Retry {
  import opened Wrappers

  datatype Failure = Api(status: int, retryAfter: int) | OtherFailure(message: string)

  datatype Outcome = Opened(stream: string) | Failed(failure: Failure)

  /** What Open returns: a stream, an error, or, with neither, nothing at all. */
  datatype Answer = Stream(stream: string) | Refused(failure: Failure) | Cancelled | BodyUnreadable | Neither

  datatype Config = Config(maxRetries: int, initialBackoff: int, maxBackoff: int, retryable: int -> bool)

  /** defaultRetryableStatus */
  function DefaultRetryableStatus(status: int): bool {
    status == 429 || status == 500 || status == 502 || status == 503 || status == 504
  }

  function Retryable(cfg: Config, f: Failure): bool {
    f.Api? ==> cfg.retryable(f.status)
  }

  function Doubled(backoff: int, most: int): int {
    if 2 * backoff > most then most else 2 * backoff
  }

  /** The backoff the loop has in hand at its k-th attempt. */
  function Backoff(cfg: Config, k: nat): int {
    if k == 0 then cfg.initialBackoff else Doubled(Backoff(cfg, k - 1), cfg.maxBackoff)
  }

  /** What a server asks for overrides the backoff. */
  function Delay(cfg: Config, f: Failure, k: nat): int {
    if f.Api? && f.retryAfter > 0 then f.retryAfter else Backoff(cfg, k)
  }

  /** Attempt k is the last one. */
  predicate Ends(cfg: Config, outcome: nat -> Outcome, cancelled: nat -> bool, k: nat) {
    || outcome(k).Opened?
    || k == cfg.maxRetries
    || !Retryable(cfg, outcome(k).failure)
    || cancelled(k)
  }

  function AnswerAt(cfg: Config, outcome: nat -> Outcome, k: nat): Answer {
    if outcome(k).Opened? then Stream(outcome(k).stream)
    else if k == cfg.maxRetries || !Retryable(cfg, outcome(k).failure) then Refused(outcome(k).failure)
    else Cancelled
  }

  /**
   The retrying Open.  body is what the request's reader holds, if it can be read at
   all; outcome and cancelled say what each attempt meets.  bodies are the bodies
   sent, delays the waiting times begun.
   */
  method Open(cfg: Config, body: Option<string>, outcome: nat -> Outcome, cancelled: nat -> bool)
    returns (answer: Answer, bodies: seq<string>, delays: seq<int>)
    ensures body.None? ==> answer == BodyUnreadable && bodies == [] && delays == []
    ensures body.Some? && cfg.maxRetries < 0 ==> answer == Neither && bodies == [] && delays == []
    ensures body.Some? && cfg.maxRetries >= 0 ==>
      && 1 <= |bodies| <= cfg.maxRetries + 1
      && Ends(cfg, outcome, cancelled, |bodies| - 1)
      && (forall k | 0 <= k < |bodies| - 1 :: !Ends(cfg, outcome, cancelled, k))
      && answer == AnswerAt(cfg, outcome, |bodies| - 1)
      && (forall k | 0 <= k < |bodies| :: bodies[k] == body.value)
      && |delays| == (if answer == Cancelled then |bodies| else |bodies| - 1) && |delays| <= cfg.maxRetries
      && (forall k | 0 <= k < |delays| :: outcome(k).Failed? && delays[k] == Delay(cfg, outcome(k).failure, k))
  {
    bodies, delays := [], [];
    if body.None? {
      return BodyUnreadable, bodies, delays;
    }
    var backoff := cfg.initialBackoff;
    var attempt := 0;
    while attempt <= cfg.maxRetries
      invariant 0 <= attempt && (if cfg.maxRetries >= 0 then attempt <= cfg.maxRetries else attempt == 0)
      invariant |bodies| == |delays| == attempt && backoff == Backoff(cfg, attempt)
      invariant forall k | 0 <= k < attempt :: !Ends(cfg, outcome, cancelled, k)
      invariant forall k | 0 <= k < attempt :: bodies[k] == body.value
      invariant forall k | 0 <= k < attempt :: outcome(k).Failed? && delays[k] == Delay(cfg, outcome(k).failure, k)
      decreases cfg.maxRetries - attempt
    {
      bodies := bodies + [body.value];
      match outcome(attempt) {
        case Opened(stream) =>
          return Stream(stream), bodies, delays;
        case Failed(failure) =>
          if attempt == cfg.maxRetries || !Retryable(cfg, failure) {
            return Refused(failure), bodies, delays;
          }
          var delay := backoff;
          if failure.Api? && failure.retryAfter > 0 {
            delay := failure.retryAfter;
          }
          delays := delays + [delay];
          if cancelled(attempt) {
            return Cancelled, bodies, delays;
          }
          backoff := backoff * 2;
          if backoff > cfg.maxBackoff {
            backoff := cfg.maxBackoff;
          }
          attempt := attempt + 1;
      }
    }
    answer := Neither;
  }

  function Power(k: nat): nat { if k == 0 then 1 else 2 * Power(k - 1) }

  function Min(a: int, b: int): int { if a < b then a else b }

  /** From the second attempt on, the doubled and capped backoff is min(Initial * 2^k, Max). */
  lemma {:induction false} LaterBackoffs(cfg: Config, k: nat)
    requires 0 <= cfg.initialBackoff && 0 <= cfg.maxBackoff && k > 0
    ensures Backoff(cfg, k) == Min(cfg.initialBackoff * Power(k), cfg.maxBackoff)
  {
    if k == 1 {
      assert Power(1) == 2 * Power(0) && Backoff(cfg, 0) == cfg.initialBackoff;
    } else {
      LaterBackoffs(cfg, k - 1);
      DoubleProduct(cfg.initialBackoff, Power(k - 1));
    }
  }

  lemma DoubleProduct(a: int, p: nat)
    ensures a * (2 * p) == 2 * (a * p)
  {
  }

  /** All backoffs follow the law exactly when the first one does not exceed Max: it alone is not capped. */
  lemma BackoffLawIff(cfg: Config)
    requires 0 <= cfg.initialBackoff && 0 <= cfg.maxBackoff
    ensures (forall k: nat :: Backoff(cfg, k) == Min(cfg.initialBackoff * Power(k), cfg.maxBackoff))
            <==> cfg.initialBackoff <= cfg.maxBackoff
  {
    forall k: nat | k > 0 ensures Backoff(cfg, k) == Min(cfg.initialBackoff * Power(k), cfg.maxBackoff) {
      LaterBackoffs(cfg, k);
    }
    assert Backoff(cfg, 0) == cfg.initialBackoff && cfg.initialBackoff * Power(0) == cfg.initialBackoff;
  }

  function Sum(xs: seq<int>): int { if xs == [] then 0 else xs[0] + Sum(xs[1..]) }

  lemma {:induction false} SumBounded(xs: seq<int>, most: int)
    requires forall k | 0 <= k < |xs| :: xs[k] <= most
    ensures Sum(xs) <= |xs| * most
  {
    if xs != [] {
      SumBounded(xs[1..], most);
    }
  }

  lemma {:induction false} BackoffBounded(cfg: Config, k: nat)
    requires 0 <= cfg.initialBackoff <= cfg.maxBackoff
    ensures 0 <= Backoff(cfg, k) <= cfg.maxBackoff
  {
    if k > 0 {
      BackoffBounded(cfg, k - 1);
    }
  }

  /** Without Retry-After the waiting adds up to no more than MaxRetries times MaxBackoff. */
  lemma WaitingIsBounded(cfg: Config, outcome: nat -> Outcome, delays: seq<int>)
    requires 0 <= cfg.initialBackoff <= cfg.maxBackoff && |delays| <= cfg.maxRetries
    requires forall k | 0 <= k < |delays| ::
      && outcome(k).Failed? && delays[k] == Delay(cfg, outcome(k).failure, k)
      && (outcome(k).failure.Api? ==> outcome(k).failure.retryAfter <= 0)
    ensures Sum(delays) <= cfg.maxRetries * cfg.maxBackoff
  {
    forall k | 0 <= k < |delays| ensures delays[k] <= cfg.maxBackoff {
      BackoffBounded(cfg, k);
    }
    SumBounded(delays, cfg.maxBackoff);
    MoreTimes(|delays|, cfg.maxRetries, cfg.maxBackoff);
  }

  lemma MoreTimes(a: nat, b: int, c: int)
    requires a <= b && 0 <= c
    ensures a * c <= b * c
  {
  }

  /** NewDefaultRetryTransport, in milliseconds. */
  const DEFAULT_CONFIG := Config(2, 100, 2000, DefaultRetryableStatus)

  /** The default transport tries three times and waits 100 and then 200 milliseconds unless the server asks for other times. */
  lemma DefaultWaiting(outcome: nat -> Outcome, delays: seq<int>)
    requires |delays| <= DEFAULT_CONFIG.maxRetries
    requires forall k | 0 <= k < |delays| ::
      && outcome(k).Failed? && delays[k] == Delay(DEFAULT_CONFIG, outcome(k).failure, k)
      && (outcome(k).failure.Api? ==> outcome(k).failure.retryAfter <= 0)
    ensures Sum(delays) <= 300
  {
    if |delays| == 2 {
      assert delays == [delays[0], delays[1]] && delays[0] == 100 && delays[1] == 200;
      assert delays[1..] == [200] && delays[1..][1..] == [];
    } else if |delays| == 1 {
      assert delays == [delays[0]] && delays[0] == 100 && delays[1..] == [];
    }
  }

  /**
   An attempt of the default transport is followed by another one exactly when it is not
   the third, the waiting is not cancelled, and it failed with a status that may pass,
   429, 500, 502, 503 or 504, or without any status.
   */
  lemma DefaultRetriesIff(outcome: nat -> Outcome, cancelled: nat -> bool, k: nat)
    ensures !Ends(DEFAULT_CONFIG, outcome, cancelled, k)
       <==> k != 2 && !cancelled(k) && outcome(k).Failed?
            && (outcome(k).failure.Api? ==> outcome(k).failure.status in {429, 500, 502, 503, 504})
  {
  }

  /**
   The time waited after attempt k: what the server asks for, if it does, however long
   that is and whatever was waited before; else Initial * 2^k, after the first attempt
   at most Max.
   */
  lemma DelayLaw(cfg: Config, f: Failure, k: nat)
    requires 0 <= cfg.initialBackoff && 0 <= cfg.maxBackoff
    ensures
      Delay(cfg, f, k)
      == if f.Api? && f.retryAfter > 0 then f.retryAfter
         else if k == 0 then cfg.initialBackoff
         else Min(cfg.initialBackoff * Power(k), cfg.maxBackoff)
  {
    if k > 0 {
      LaterBackoffs(cfg, k);
    }
  }
}
