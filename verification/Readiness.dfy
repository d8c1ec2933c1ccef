/**
 The readiness back-off: probe, sleep, probe again, with a growing delay, until
 the polling loop has started or the deadline is reached. Time is in seconds on
 a monotonic clock; a probe takes as long as it takes, and a sleep lasts at
 least what was asked.
 */
module Readiness {

  const FIRST_DELAY: real := 1.5
  const MAX_DELAY: real := 5.0
  const GROWTH: real := 1.3

  datatype Probe = Probe(duration: real, ready: bool)

  function Min(a: real, b: real): real { if a < b then a else b }

  function Max(a: real, b: real): real { if a < b then b else a }

  /** The number of whole first delays it takes to fill a timeout. */
  function Ceiling(x: real): int { -((-x).Floor) }

  /** Sleeps are exact and no probe takes longer than the bound. */
  ghost predicate Prompt(probe: nat -> Probe, slack: nat -> real, bound: real) {
    0.0 <= bound && forall n :: probe(n).duration <= bound && slack(n) == 0.0
  }

  /** The delay before the deadline cuts it: it grows by three tenths to a maximum. */
  function Delay(n: nat): real {
    if n == 0 then FIRST_DELAY else Min(Delay(n - 1) * GROWTH, MAX_DELAY)
  }

  lemma {:induction false} DelayIs(n: nat)
    ensures Delay(n) ==
            if n == 0 then 1.5 else if n == 1 then 1.95 else if n == 2 then 2.535 else if n == 3 then 3.2955
            else if n == 4 then 4.28415 else 5.0
  {
    if n > 0 {
      DelayIs(n - 1);
    }
  }

  /** A sleep: when it was asked for, and for how long. */
  datatype Nap = Nap(at: real, pause: real)

  /** When the n-th probe begins: at once, or as the sleep before it ends. */
  ghost function Begins(begun: real, naps: seq<Nap>, slack: nat -> real, n: nat): real
    requires n <= |naps|
  {
    if n == 0 then begun else naps[n - 1].at + naps[n - 1].pause + slack(n - 1)
  }

  /** Every sleep follows its probe, is asked for before the deadline, and lasts
      the delay or what is left, whichever is less. */
  ghost predicate Backoff(begun: real, deadline: real, probe: nat -> Probe, slack: nat -> real, naps: seq<Nap>) {
    forall n :: 0 <= n < |naps| ==> NapAt(begun, deadline, probe, slack, naps, n)
  }

  ghost predicate NapAt(begun: real, deadline: real, probe: nat -> Probe, slack: nat -> real, naps: seq<Nap>, n: nat)
    requires n < |naps|
  {
    && Begins(begun, naps, slack, n) < deadline
    && naps[n].at == Begins(begun, naps, slack, n) + probe(n).duration < deadline
    && naps[n].pause == if Delay(n) < deadline - naps[n].at then Delay(n) else deadline - naps[n].at
  }

  lemma OneMore(begun: real, deadline: real, probe: nat -> Probe, slack: nat -> real, naps: seq<Nap>, nap: Nap)
    requires Backoff(begun, deadline, probe, slack, naps)
    requires NapAt(begun, deadline, probe, slack, naps + [nap], |naps|)
    ensures Backoff(begun, deadline, probe, slack, naps + [nap])
  {
    forall n | 0 <= n < |naps + [nap]| ensures NapAt(begun, deadline, probe, slack, naps + [nap], n) {
      if n < |naps| {
        assert NapAt(begun, deadline, probe, slack, naps, n);
      }
    }
  }

  /** Terminates for every sequence of probe outcomes. The n-th iteration meets
      probe(n) and oversleeps by slack(n). */
  method WaitTelegramReady(timeout: real, begun: real, probe: nat -> Probe, slack: nat -> real)
    returns (ready: bool, probes: nat, now: real, ghost naps: seq<Nap>)
    requires forall n :: probe(n).duration >= 0.0 && slack(n) >= 0.0
    ensures ready <==> probes > 0 && probe(probes - 1).ready
    ensures forall n :: 0 <= n < probes - 1 ==> !probe(n).ready
    ensures probes <= Ceiling(Max(0.0, timeout) / FIRST_DELAY)
    ensures !ready ==> now >= begun + Max(0.0, timeout)
    ensures now >= begun
    ensures Backoff(begun, begun + Max(0.0, timeout), probe, slack, naps)
    ensures probes - 1 <= |naps| <= probes
    ensures probes > 0 ==> Begins(begun, naps, slack, probes - 1) < begun + Max(0.0, timeout)
    ensures |naps| == probes ==> !ready && now == Begins(begun, naps, slack, probes)
    ensures |naps| < probes ==> now == Begins(begun, naps, slack, probes - 1) + probe(probes - 1).duration
    ensures forall bound :: Prompt(probe, slack, bound) ==> now <= begun + Max(0.0, timeout) + bound
  {
    var deadline := begun + Max(0.0, timeout);
    var delay := FIRST_DELAY;
    ready, probes, now, naps := false, 0, begun, [];
    while now < deadline
      invariant FIRST_DELAY <= delay <= MAX_DELAY
      invariant |naps| == probes && delay == Delay(probes)
      invariant probes > 0 ==> Begins(begun, naps, slack, probes - 1) < deadline
      invariant Backoff(begun, deadline, probe, slack, naps) && now == Begins(begun, naps, slack, probes)
      invariant forall n :: 0 <= n < probes ==> !probe(n).ready
      invariant begun <= now
      invariant now < deadline ==> now >= begun + FIRST_DELAY * probes as real
      invariant now >= deadline ==> probes <= Ceiling(Max(0.0, timeout) / FIRST_DELAY)
      invariant forall bound :: Prompt(probe, slack, bound) ==> now <= deadline + bound
      decreases if now < deadline then ((deadline - now) / FIRST_DELAY).Floor + 1 else 0
    {
      ghost var start := now;
      CountBound(begun, deadline, start, probes);
      var p := probe(probes);
      now := now + p.duration;
      probes := probes + 1;
      if p.ready {
        return true, probes, now, naps;
      }
      var remaining := deadline - now;
      if remaining <= 0.0 {
        break;
      }
      OneMore(begun, deadline, probe, slack, naps, Nap(now, Min(delay, remaining)));
      naps := naps + [Nap(now, Min(delay, remaining))];
      now := now + Min(delay, remaining) + slack(probes - 1);
      delay := Min(delay * GROWTH, MAX_DELAY);
    }
  }

  /** A probe that begins before the deadline, after so many full first delays,
      is within the count. */
  lemma CountBound(begun: real, deadline: real, now: real, probes: nat)
    requires begun + FIRST_DELAY * probes as real <= now < deadline
    ensures probes + 1 <= Ceiling((deadline - begun) / FIRST_DELAY)
  {
    var x := (deadline - begun) / FIRST_DELAY;
    assert FIRST_DELAY * x == deadline - begun;
    assert probes as real < x;
    assert (-x).Floor < -(probes as int);
  }
}
