/**
 * The language client's delivery rules: a streamed issue is sent as a request
 * and retried with exponential backoff, a batch is sent once as a notification,
 * and the readiness flag is only ever switched on. Time is modelled by the
 * delays the client waits, and the outcome of each send by a parameter.
 */
module Client {
  import opened Publishing

  /** How many times `reporterStream` tries to send one issue. */
  const MaxAttempts: nat := 4

  function Pow2(n: nat): (r: nat)
    ensures r >= 1
  {
    if n == 0 then 1 else 2 * Pow2(n - 1)
  }

  /** `100 * Math.pow(2, attempt - 1)`: the wait after failed attempt `attempt`, from 1. */
  function BackoffDelay(attempt: nat): nat
    requires attempt >= 1
  {
    100 * Pow2(attempt - 1)
  }

  /** The waits after the first `k` attempts failed. */
  function Schedule(k: nat): (s: seq<nat>)
    ensures |s| == k
  {
    if k == 0 then [] else Schedule(k - 1) + [BackoffDelay(k)]
  }

  function Sum(s: seq<nat>): nat {
    if |s| == 0 then 0 else Sum(s[..|s| - 1]) + s[|s| - 1]
  }

  /** Each wait doubles the one before it. */
  lemma ScheduleDoubles(k: nat, i: nat)
    requires 1 <= i < k
    ensures Schedule(k)[i] == 2 * Schedule(k)[i - 1]
  {
    ScheduleAt(k, i);
    ScheduleAt(k, i - 1);
  }

  lemma {:induction false} ScheduleAt(k: nat, i: nat)
    requires i < k
    ensures Schedule(k)[i] == BackoffDelay(i + 1)
  {
    if i < k - 1 {
      ScheduleAt(k - 1, i);
    }
  }

  /** `k` failed attempts make the client wait 100 * (2^k - 1) ms in all. */
  lemma {:induction false} ScheduleTotal(k: nat)
    ensures Sum(Schedule(k)) == 100 * (Pow2(k) - 1)
  {
    if k > 0 {
      ScheduleTotal(k - 1);
      assert Schedule(k)[..k - 1] == Schedule(k - 1);
    }
  }

  /** Four failures: 100, 200, 400 and 800 ms, 1500 ms in all. */
  lemma FourFailures()
    ensures Schedule(MaxAttempts) == [100, 200, 400, 800]
    ensures Sum(Schedule(MaxAttempts)) == 1500
  {
    ScheduleTotal(4);
  }

  /** How many attempts after attempt `n` fail in a row, up to the last attempt. */
  function FailuresFrom(succeeds: nat -> bool, n: nat): nat
    decreases MaxAttempts - n
  {
    if n >= MaxAttempts || succeeds(n + 1) then 0 else 1 + FailuresFrom(succeeds, n + 1)
  }

  /** The failures in a row are never more than the attempts left. */
  lemma {:induction false} FailuresFromBound(succeeds: nat -> bool, n: nat)
    requires n <= MaxAttempts
    ensures n + FailuresFrom(succeeds, n) <= MaxAttempts
    ensures n + FailuresFrom(succeeds, n) < MaxAttempts ==> succeeds(n + FailuresFrom(succeeds, n) + 1)
    ensures forall j :: n < j <= n + FailuresFrom(succeeds, n) ==> !succeeds(j)
    decreases MaxAttempts - n
  {
    if n < MaxAttempts && !succeeds(n + 1) {
      FailuresFromBound(succeeds, n + 1);
    }
  }

  /** Attempts `n + 1` to `k` failing, and attempt `k + 1` succeeding or not being
      made, is `k - n` failures in a row. */
  lemma {:induction false} FailuresFromExact(succeeds: nat -> bool, n: nat, k: nat)
    requires n <= k <= MaxAttempts
    requires forall j :: n < j <= k ==> !succeeds(j)
    requires k < MaxAttempts ==> succeeds(k + 1)
    ensures FailuresFrom(succeeds, n) == k - n
    decreases k - n
  {
    if n < k {
      FailuresFromExact(succeeds, n + 1, k);
    }
  }

  /** The failed attempts `reporterStream` makes before it stops. */
  function Failures(succeeds: nat -> bool): nat {
    FailuresFrom(succeeds, 0)
  }

  /** A `sendRequest("pylint/diagnostics/stream", p)` or `sendNotification("pylint/diagnostics", p)`. */
  datatype Message =
    | StreamRequest(item: Streamed)
    | DiagnosticsNotification(batch: Batch)

  function Repeat(m: Message, n: nat): (r: seq<Message>)
    ensures |r| == n && forall i :: 0 <= i < n ==> r[i] == m
  {
    if n == 0 then [] else Repeat(m, n - 1) + [m]
  }

  class LspClient {
    /** `startPromise` has been set. */
    var started: bool
    /** `clientReady`; undefined is false. */
    var clientReady: bool
    /** What the client sent to the server, in order. */
    var sent: seq<Message>

    constructor ()
      ensures !started && !clientReady && sent == []
    {
      started := false;
      clientReady := false;
      sent := [];
    }

    /** `start`: the start is under way; readiness follows when it settles. */
    method Start()
      modifies this
      ensures started && clientReady == old(clientReady) && sent == old(sent)
    {
      started := true;
    }

    /** `setClientReady`: the only place readiness is assigned, and always to true. */
    method SetClientReady()
      modifies this
      ensures clientReady && started == old(started) && sent == old(sent)
    {
      clientReady := true;
    }

    /** `catchClientReady`: a failed start only logs; readiness stays as it was. */
    method CatchClientReady()
    {
    }

    /** `reporterStream(p)`, where `succeeds(n)` says whether attempt `n` gets an
        answer. It first waits for a start that is pending (how that wait ends is
        not modelled: both endings lead to the same attempts), then makes attempts
        until one succeeds or four have failed, waiting after each failure; it
        never throws. */
    method ReporterStream(p: Streamed, succeeds: nat -> bool)
      returns (preWaited: bool, attempts: nat, delays: seq<nat>, delivered: bool)
      modifies this
      ensures preWaited == (started && !clientReady)
      ensures delivered <==> Failures(succeeds) < MaxAttempts
      ensures attempts == if delivered then Failures(succeeds) + 1 else MaxAttempts
      ensures delays == Schedule(Failures(succeeds))
      ensures sent == old(sent) + Repeat(StreamRequest(p), attempts)
      ensures started == old(started) && clientReady == old(clientReady)
    {
      preWaited := started && !clientReady;
      attempts := 0;
      delays := [];
      delivered := false;
      while attempts < MaxAttempts
        invariant 0 <= attempts <= MaxAttempts
        invariant forall j :: 0 < j <= attempts ==> !succeeds(j)
        invariant delays == Schedule(attempts)
        invariant sent == old(sent) + Repeat(StreamRequest(p), attempts)
        invariant started == old(started) && clientReady == old(clientReady)
        invariant preWaited == (started && !clientReady)
      {
        attempts := attempts + 1;
        sent := sent + [StreamRequest(p)];
        if succeeds(attempts) {
          FailuresFromExact(succeeds, 0, attempts - 1);
          delivered := true;
          return;
        }
        delays := delays + [BackoffDelay(attempts)];
      }
      FailuresFromExact(succeeds, 0, MaxAttempts);
    }

    /** `reporter(params)`: one notification with the batch as it is, never retried. */
    method Reporter(b: Batch)
      modifies this
      ensures sent == old(sent) + [DiagnosticsNotification(b)]
      ensures started == old(started) && clientReady == old(clientReady)
    {
      sent := sent + [DiagnosticsNotification(b)];
    }
  }

  /** A delivered issue was sent on the first attempt that succeeded, after every
      earlier one failed; an undelivered one was tried four times. */
  lemma DeliveryOutcome(succeeds: nat -> bool)
    ensures Failures(succeeds) <= MaxAttempts
    ensures Failures(succeeds) < MaxAttempts ==> succeeds(Failures(succeeds) + 1)
    ensures forall j :: 0 < j <= Failures(succeeds) ==> !succeeds(j)
  {
    FailuresFromBound(succeeds, 0);
  }

  /** The total wait of one `reporterStream` call is below 1.6 seconds after the pre-wait. */
  lemma TotalBackoffBound(succeeds: nat -> bool)
    ensures Sum(Schedule(Failures(succeeds))) == 100 * (Pow2(Failures(succeeds)) - 1) <= 1500
  {
    DeliveryOutcome(succeeds);
    ScheduleTotal(Failures(succeeds));
    Pow2Monotone(Failures(succeeds), MaxAttempts);
  }

  lemma {:induction false} Pow2Monotone(a: nat, b: nat)
    requires a <= b
    ensures Pow2(a) <= Pow2(b)
    decreases b - a
  {
    if a < b {
      Pow2Monotone(a, b - 1);
    }
  }
}
