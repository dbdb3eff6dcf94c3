/**
 Collecting an agent's result under a two-phase deadline: poll until the timeout and the grace
 have passed, cancel once, poll for the grace again, then give up.  Times are real numbers; the
 environment decides how long each collect call takes and how much longer than asked each sleep
 lasts, and when the agent becomes collectable.
 */
module CollectLoop {
  import opened Outcomes

  /** One pass round the loop: whether collect succeeded, the time its call took, the time cancel took, and the overshoot of the sleep. */
  datatype Pass = Pass(collected: bool, collecting: real, cancelling: real, oversleep: real)

  datatype Limits = Limits(timeout: real, grace: real, poll: real)

  predicate Sensible(l: Limits) {
    l.timeout > 0.0 && l.grace > 0.0 && l.poll > 0.0
  }

  predicate Forward(p: Pass) {
    p.collecting >= 0.0 && p.cancelling >= 0.0 && p.oversleep >= 0.0
  }

  datatype Outcome = Collected | GaveUp | StillPolling

  function Ceiling(x: real): int {
    if x.Floor as real == x then x.Floor else x.Floor + 1
  }

  function Times(n: nat, p: real): real {
    if n == 0 then 0.0 else Times(n - 1, p) + p
  }

  lemma {:induction false} TimesIsProduct(n: nat, p: real)
    ensures Times(n, p) == n as real * p
    decreases n
  {
    if n > 0 {
      TimesIsProduct(n - 1, p);
      assert n as real * p == ((n - 1) as real + 1.0) * p == (n - 1) as real * p + p;
    }
  }

  lemma Scaled(a: real, b: real, p: real)
    requires p > 0.0 && a <= b
    ensures a * p <= b * p
  {
  }

  lemma MultiplesBelow(n: nat, p: real, x: real)
    requires p > 0.0 && Times(n, p) < x
    ensures n < Ceiling(x / p)
  {
    TimesIsProduct(n, p);
    var quotient := x / p;
    assert quotient * p == x;
    if n as real >= quotient {
      Scaled(quotient, n as real, p);
      assert false;
    }
    BelowCeiling(n, quotient);
  }

  lemma BelowCeiling(n: nat, x: real)
    requires n as real < x
    ensures n < Ceiling(x)
  {
    assert x <= Ceiling(x) as real;
  }

  /** Every call and every sleep took exactly as long as asked. */
  predicate Exact(passes: seq<Pass>) {
    forall p | p in passes :: p.collecting == p.cancelling == p.oversleep == 0.0
  }

  /**
   The loop reads its passes from `passes`; StillPolling means they ran out.  `collects` and
   `cancels` count the calls made, `elapsed` is the clock when the loop ended.
   */
  method CollectAgent(l: Limits, passes: seq<Pass>) returns (o: Outcome, collects: nat, cancels: nat, elapsed: real)
    requires Sensible(l) && forall p | p in passes :: Forward(p)
    ensures collects <= |passes| && cancels <= 1
    ensures o == Collected <==> collects > 0 && passes[collects - 1].collected
    ensures forall k | 0 <= k < collects - 1 :: !passes[k].collected
    ensures o == StillPolling ==> collects == |passes|
    ensures o == GaveUp ==> cancels == 1 && elapsed >= l.timeout + l.grace + l.grace
    ensures collects <= Ceiling((l.timeout + l.grace) / l.poll) + Ceiling(l.grace / l.poll) + 1
    ensures Exact(passes) ==> elapsed < l.timeout + 2.0 * l.grace + 2.0 * l.poll
  {
    var now := 0.0;
    var deadline := l.timeout + l.grace;
    var requested := false;
    collects, cancels, elapsed := 0, 0, 0.0;
    ghost var first, second := Ceiling((l.timeout + l.grace) / l.poll), Ceiling(l.grace / l.poll);
    ghost var cancelledAt, polls := 0.0, 0;
    MultiplesBelow(0, l.poll, l.grace);
    while collects < |passes|
      invariant 0 <= collects <= |passes| && elapsed == now
      invariant cancels == if requested then 1 else 0
      invariant forall k | 0 <= k < collects :: !passes[k].collected
      invariant !requested ==> deadline == l.timeout + l.grace && collects <= first && Times(collects, l.poll) <= now
      invariant requested ==> deadline == cancelledAt + l.grace && cancelledAt >= l.timeout + l.grace
      invariant requested ==> collects <= first + 1 + polls && polls < second && cancelledAt + Times(polls + 1, l.poll) <= now
      invariant Exact(passes) && !requested ==> now < l.timeout + l.grace + l.poll
      invariant Exact(passes) && requested ==> cancelledAt < l.timeout + l.grace + l.poll && now < cancelledAt + l.grace + l.poll
    {
      var pass := passes[collects];
      assert pass in passes;
      collects := collects + 1;
      now := now + pass.collecting;
      elapsed := now;
      if pass.collected {
        return Collected, collects, cancels, elapsed;
      }
      if now >= deadline {
        if requested {
          return GaveUp, collects, cancels, elapsed;
        }
        cancels, requested := cancels + 1, true;
        now := now + pass.cancelling;
        deadline := now + l.grace;
        cancelledAt, polls := now, 0;
        assert Times(1, l.poll) == l.poll;
      } else if requested {
        MultiplesBelow(polls + 1, l.poll, l.grace);
        polls := polls + 1;
      } else {
        MultiplesBelow(collects - 1, l.poll, l.timeout + l.grace);
      }
      now := now + l.poll + pass.oversleep;
      elapsed := now;
    }
    return StillPolling, collects, cancels, elapsed;
  }
}
