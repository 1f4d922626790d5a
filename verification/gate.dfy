/** The backend connectivity gate `RetryBackendCall`: up to `MaxRetries`
    probes of `/api/providers`, a growing pause after every failed probe but
    the last, and `m_backendAvailable` set to the outcome. The probe
    responses are given as an oracle sequence (a probe past its end gets an
    empty response) and the pauses are recorded instead of slept. */
module Gate {
  import opened Json
  import opened Records

  /** What one run of the gate did. */
  datatype GateRun = GateRun(available: bool, attempts: nat, delays: seq<nat>)

  /** Probe `k` (counting from 0) got a non-empty response. */
  predicate Answered(probes: seq<Response>, k: nat) {
    k < |probes| && !probes[k].NoResponse?
  }

  /** The loop from attempt number `attempt` (counting from 1) onwards. */
  function Attempts(probes: seq<Response>, attempt: nat): (r: GateRun)
    requires 1 <= attempt <= MaxRetries
    ensures attempt <= r.attempts <= MaxRetries
    ensures r.available <==> exists k :: attempt - 1 <= k < MaxRetries && Answered(probes, k)
    ensures r.available ==> Answered(probes, r.attempts - 1)
    ensures !r.available ==> r.attempts == MaxRetries
    ensures forall k :: attempt - 1 <= k < r.attempts - 1 ==> !Answered(probes, k)
    ensures |r.delays| == r.attempts - attempt
    ensures forall i :: 0 <= i < |r.delays| ==> r.delays[i] == RetryDelayMs * (attempt + i)
    decreases MaxRetries - attempt
  {
    if Answered(probes, attempt - 1) then GateRun(true, attempt, [])
    else if attempt < MaxRetries then
      var rest := Attempts(probes, attempt + 1);
      GateRun(rest.available, rest.attempts, [RetryDelayMs * attempt] + rest.delays)
    else GateRun(false, attempt, [])
  }

  /** `RetryBackendCall`: probes in order and stops at the first answer;
      pauses 2000 * k ms after failed attempt k < 10; succeeds iff some probe
      was answered; stores exactly that outcome in the state. */
  function RetryBackendCall(s: Addon, probes: seq<Response>): (r: (Addon, GateRun))
    ensures r.0 == s.(backendAvailable := r.1.available)
    ensures r.1.available <==> exists k :: 0 <= k < MaxRetries && Answered(probes, k)
    ensures 1 <= r.1.attempts <= MaxRetries
    ensures r.1.available ==> Answered(probes, r.1.attempts - 1)
    ensures forall k :: 0 <= k < r.1.attempts - 1 ==> !Answered(probes, k)
    ensures !r.1.available ==> r.1.attempts == MaxRetries
    ensures |r.1.delays| == r.1.attempts - 1
    ensures forall i :: 0 <= i < |r.1.delays| ==> r.1.delays[i] == RetryDelayMs * (i + 1)
  {
    var run := Attempts(probes, 1);
    (s.(backendAvailable := run.available), run)
  }

  /** The pauses after failed attempts 1..n: 2000, 4000, ..., 2000 * n. */
  function Backoff(n: nat): seq<nat> {
    seq(n, i requires 0 <= i < n => RetryDelayMs * (i + 1))
  }

  function Total(delays: seq<nat>): nat {
    if |delays| == 0 then 0 else Total(delays[..|delays| - 1]) + delays[|delays| - 1]
  }

  /** n failed attempts cost 2000 * (1 + ... + n) = 1000 * n * (n + 1) ms. */
  lemma {:induction false} TotalBackoff(n: nat)
    ensures Total(Backoff(n)) == 1000 * n * (n + 1)
  {
    if n > 0 {
      assert Backoff(n)[..n - 1] == Backoff(n - 1);
      TotalBackoff(n - 1);
    }
  }

  /** Whatever the probes, the gate pauses after each failed attempt but
      the last by the reference schedule: 1000 * n * (n + 1) ms in all for
      n failed attempts before the last. */
  lemma GateDelaysAreBackoff(s: Addon, probes: seq<Response>)
    ensures var r := RetryBackendCall(s, probes).1;
      var n := r.attempts - 1;
      && r.delays == Backoff(n)
      && Total(r.delays) == 1000 * n * (n + 1)
  {
    var r := RetryBackendCall(s, probes).1;
    var n := r.attempts - 1;
    assert forall i :: 0 <= i < n ==> r.delays[i] == Backoff(n)[i];
    assert r.delays == Backoff(n);
    TotalBackoff(n);
  }

  /** A gate that gets no answer makes 10 probes and sleeps 9 times,
      2000, 4000, ..., 18000 ms: 90 000 ms in all. */
  lemma FullyFailedGate(s: Addon, probes: seq<Response>)
    requires forall k :: 0 <= k < |probes| ==> probes[k].NoResponse?
    ensures var r := RetryBackendCall(s, probes);
      && !r.1.available && !r.0.backendAvailable
      && r.1.attempts == 10
      && r.1.delays == Backoff(9)
      && Total(r.1.delays) == 90000
  {
    TotalBackoff(9);
  }

  /** A backend that answers the first probe is reached without pausing. */
  lemma FirstProbeAnswered(s: Addon, probes: seq<Response>)
    requires |probes| > 0 && !probes[0].NoResponse?
    ensures RetryBackendCall(s, probes).1 == GateRun(true, 1, [])
    ensures RetryBackendCall(s, probes).0 == s.(backendAvailable := true)
  {
  }
}
