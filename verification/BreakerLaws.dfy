/** What the breaker does over whole runs. */
module BreakerLaws {
  import opened Common
  import opened Breaker

  /** Every method keeps the invariant and does what the three-phase machine does, with the same answer. */
  lemma NextRefines(c: Config, b: Breaker, e: Event)
    requires Inv(c, b)
    ensures Inv(c, Next(c, b, e))
    ensures Happens(b, e) ==> Abstract(c, Next(c, b, e)) == PhaseNext(c, Abstract(c, b), e)
    ensures !Happens(b, e) ==> Next(c, b, e) == b
    ensures Admitted(c, b, e) <==> e.Request? && PhaseAdmits(c, Abstract(c, b), e.now)
  {
  }

  lemma {:induction false} RunInv(c: Config, events: seq<Event>)
    ensures Inv(c, Run(c, events))
  {
    if events != [] {
      RunInv(c, events[..|events| - 1]);
      NextRefines(c, Run(c, events[..|events| - 1]), events[|events| - 1]);
    }
  }

  /** The states before and after event `i`. */
  lemma RunStep(c: Config, events: seq<Event>, i: nat)
    requires i < |events|
    ensures Run(c, events[..i + 1]) == Next(c, Run(c, events[..i]), events[i])
    ensures Inv(c, Run(c, events[..i])) && Inv(c, Run(c, events[..i + 1]))
  {
    assert events[..i + 1][..i] == events[..i];
    RunInv(c, events[..i]);
    RunInv(c, events[..i + 1]);
  }

  /**
   In every reachable state: half-open, probe in flight and an armed timer coincide. So the branch that
   re-admits after a hung probe and the branch that ignores a duplicate failure are never taken.
   */
  lemma ReachableStates(c: Config, events: seq<Event>)
    ensures var b := Run(c, events);
            && (b.state == HalfOpen <==> b.probeInFlight)
            && (b.state == HalfOpen <==> b.timers != map[])
            && (b.state == HalfOpen ==> b.probeTimeout.Some? && b.timers.Keys == {b.probeTimeout.value})
            && (b.state == Open ==> b.circuitOpenedAt.Some?)
            && 0 <= b.failures < Max(1, c.failureThreshold)
            && !(b.state == HalfOpen && !b.probeInFlight)
  {
    RunInv(c, events);
    var b := Run(c, events);
    if b.state == HalfOpen {
      assert b.probeTimeout.value in b.timers;
    }
  }

  // ---- Admission ----

  /** The event decides a probe. */
  predicate Decides(b: Breaker, e: Event) {
    e.Succeeded? || e.Failed? || (e.TimerFired? && e.handle in b.timers && e.now >= b.timers[e.handle])
  }

  lemma StaysProbing(c: Config, events: seq<Event>, i: nat)
    requires i < |events|
    requires Run(c, events[..i]).state == HalfOpen && !Decides(Run(c, events[..i]), events[i])
    ensures Run(c, events[..i + 1]).state == HalfOpen
  {
    RunStep(c, events, i);
  }

  lemma {:induction false} ProbingUntilDecided(c: Config, events: seq<Event>, i: nat, j: nat)
    requires i <= j <= |events| && Run(c, events[..i]).state == HalfOpen
    requires forall k | i <= k < j :: !Decides(Run(c, events[..k]), events[k])
    ensures Run(c, events[..j]).state == HalfOpen
    decreases j - i
  {
    if i < j {
      ProbingUntilDecided(c, events, i, j - 1);
      StaysProbing(c, events, j - 1);
    }
  }

  /** At most one request a half-open period: between a probe and the next admission the probe is decided. */
  lemma OneProbe(c: Config, events: seq<Event>, i: nat, j: nat)
    requires i < j < |events|
    requires Admitted(c, Run(c, events[..i]), events[i]) && Run(c, events[..i]).state != Closed
    requires Admitted(c, Run(c, events[..j]), events[j])
    ensures Run(c, events[..i + 1]).state == HalfOpen
    ensures exists k :: i < k < j && Decides(Run(c, events[..k]), events[k])
  {
    RunStep(c, events, i);
    NextRefines(c, Run(c, events[..i]), events[i]);
    if forall k | i < k < j :: !Decides(Run(c, events[..k]), events[k]) {
      ProbingUntilDecided(c, events, i + 1, j);
      RunStep(c, events, j);
      assert false;
    }
  }

  /** The event opens the circuit, for the first time or again. */
  predicate Trips(c: Config, b: Breaker, e: Event) {
    Decides(b, e) && Next(c, b, e).state == Open && Next(c, b, e).circuitOpenedAt == Some(e.now)
    && Next(c, b, e).failures == 0
  }

  /** Open since `since` or later, or probing. */
  predicate Tripped(b: Breaker, since: int) {
    || b.state == HalfOpen
    || (b.state == Open && b.circuitOpenedAt.Some? && b.circuitOpenedAt.value >= since)
  }

  lemma StaysTripped(c: Config, b: Breaker, e: Event, since: int)
    requires Inv(c, b) && Tripped(b, since) && !e.Succeeded? && e.now >= since
    ensures Tripped(Next(c, b, e), since)
  {
  }

  /** A trip lasts until a success. */
  lemma {:induction false} AfterTrip(c: Config, events: seq<Event>, i: nat, j: nat)
    requires i < j <= |events| && Monotone(events)
    requires Trips(c, Run(c, events[..i]), events[i])
    requires forall k | i < k < j :: !events[k].Succeeded?
    ensures Tripped(Run(c, events[..j]), events[i].now)
    decreases j
  {
    RunStep(c, events, j - 1);
    if i + 1 < j {
      AfterTrip(c, events, i, j - 1);
      StaysTripped(c, Run(c, events[..j - 1]), events[j - 1], events[i].now);
    }
  }

  /** No request is admitted within the reset time after a trip unless a success came in between. */
  lemma AdmissionAfterTrip(c: Config, events: seq<Event>, i: nat, j: nat)
    requires i < j < |events| && Monotone(events)
    requires Trips(c, Run(c, events[..i]), events[i])
    requires forall k | i < k < j :: !events[k].Succeeded?
    requires Admitted(c, Run(c, events[..j]), events[j])
    ensures events[j].now > events[i].now + c.resetAfterMs
  {
    AfterTrip(c, events, i, j);
    RunInv(c, events[..j]);
  }

  // ---- The counter ----

  /** Failures after the last success in the trace; the state of the breaker plays no part. */
  function FailuresSinceSuccess(events: seq<Event>): nat {
    if events == [] then 0
    else
      var last := events[|events| - 1];
      if last.Succeeded? then 0
      else FailuresSinceSuccess(events[..|events| - 1]) + if last.Failed? then 1 else 0
  }

  /**
   The circuit is closed exactly as long as fewer failures than the threshold followed the last success,
   and then its counter is their number: it opens exactly on the failure that reaches the threshold.
   */
  lemma {:induction false} ClosedIff(c: Config, events: seq<Event>)
    ensures Run(c, events).state == Closed <==> FailuresSinceSuccess(events) < Max(1, c.failureThreshold)
    ensures Run(c, events).state == Closed ==> Run(c, events).failures == FailuresSinceSuccess(events)
  {
    if events != [] {
      ClosedIff(c, events[..|events| - 1]);
      RunInv(c, events[..|events| - 1]);
    }
  }

  /** Failures since the last event that reset the counter: a success or a trip. */
  function FailuresSinceReset(c: Config, events: seq<Event>): nat {
    if events == [] then 0
    else
      var before, last := events[..|events| - 1], events[|events| - 1];
      if last.Succeeded? || Trips(c, Run(c, before), last) then 0
      else FailuresSinceReset(c, before) + if last.Failed? then 1 else 0
  }

  /** In every state, closed or not. */
  lemma {:induction false} CounterCounts(c: Config, events: seq<Event>)
    ensures Run(c, events).failures == FailuresSinceReset(c, events)
  {
    if events != [] {
      CounterCounts(c, events[..|events| - 1]);
      RunInv(c, events[..|events| - 1]);
    }
  }

  // ---- Recovery ----

  /** Times lie in the past, deadlines not too far ahead. */
  predicate Timely(c: Config, b: Breaker, now: int) {
    && (b.state == Open && b.circuitOpenedAt.Some? ==> b.circuitOpenedAt.value <= now)
    && forall h | h in b.timers :: b.timers[h] <= now + c.proxyTimeoutMs + 1000
  }

  lemma {:induction false} RunTimely(c: Config, events: seq<Event>, now: int)
    requires Monotone(events) && (events != [] ==> events[|events| - 1].now <= now)
    ensures Timely(c, Run(c, events), now)
  {
    if events != [] {
      var n := |events| - 1;
      RunInv(c, events[..n]);
      if n > 0 {
        assert events[n - 1].now <= events[n].now;
      }
      RunTimely(c, events[..n], events[n].now);
    }
  }

  /**
   Once all is quiet from `quiet` on and a pending probe timer fires at most `jitter` late, a request
   after the probe timeout and the reset time is admitted, from whatever state was reached.
   */
  lemma BoundedRecovery(c: Config, events: seq<Event>, quiet: int, fired: seq<Event>, jitter: nat, now: int)
    requires Monotone(events) && (events != [] ==> events[|events| - 1].now <= quiet)
    requires c.proxyTimeoutMs + 1000 >= 0
    requires var b := Run(c, events);
             if b.probeTimeout.Some? then
               && |fired| == 1 && fired[0].TimerFired? && fired[0].handle == b.probeTimeout.value
               && b.probeTimeout.value in b.timers
               && b.timers[b.probeTimeout.value] <= fired[0].now <= b.timers[b.probeTimeout.value] + jitter
             else fired == []
    requires now > quiet + c.proxyTimeoutMs + 1000 + c.resetAfterMs + jitter
    ensures Admitted(c, Run(c, events + fired), Request(now))
  {
    RunInv(c, events);
    RunTimely(c, events, quiet);
    if fired == [] {
      assert events + fired == events;
    } else {
      assert (events + fired)[..|events|] == events;
      NextRefines(c, Run(c, events), fired[0]);
    }
  }
}
