/**
 The circuit breaker of the proxy client (proxy-client.abstract.ts): its fields and the timer of the
 event loop as a value, and what each method makes of it. Times are in milliseconds.
 */
module Breaker {
  import opened Common

  datatype CircuitState = Closed | Open | HalfOpen

  datatype Config = Config(failureThreshold: int, resetAfterMs: int, proxyTimeoutMs: int)

  /** `timers` are the callbacks the event loop will run: handle and earliest time. */
  datatype Breaker = Breaker(
    state: CircuitState,
    failures: int,
    circuitOpenedAt: Option<int>,
    probeInFlight: bool,
    probeTimeout: Option<nat>,
    timers: map<nat, int>,
    nextHandle: nat)

  const INITIAL := Breaker(Closed, 0, None, false, None, map[], 0)

  function ClearTimeout(b: Breaker): Breaker {
    if b.probeTimeout.Some? then b.(timers := b.timers - {b.probeTimeout.value}) else b
  }

  function StartProbeTimeout(c: Config, b: Breaker, now: int): Breaker {
    var b1 := ClearTimeout(b);
    b1.(timers := b1.timers[b1.nextHandle := now + c.proxyTimeoutMs + 1000],
        probeTimeout := Some(b1.nextHandle),
        nextHandle := b1.nextHandle + 1)
  }

  /** In arithmetic a null time counts as zero. */
  function OpenedAt(b: Breaker): int {
    if b.circuitOpenedAt.Some? then b.circuitOpenedAt.value else 0
  }

  /** Whether the request is rejected, and the breaker afterwards. */
  function IsCircuitOpen(c: Config, b: Breaker, now: int): (bool, Breaker) {
    match b.state
    case Closed => (false, b)
    case Open =>
      if now - OpenedAt(b) <= c.resetAfterMs then (true, b)
      else (false, StartProbeTimeout(c, b.(state := HalfOpen, probeInFlight := true), now))
    case HalfOpen =>
      if b.probeInFlight then (true, b)
      else (false, StartProbeTimeout(c, b.(probeInFlight := true), now))
  }

  function Success(b: Breaker): Breaker {
    ClearTimeout(b).(state := Closed, failures := 0, probeInFlight := false, circuitOpenedAt := None,
                     probeTimeout := None)
  }

  function Failure(c: Config, b: Breaker, now: int): Breaker {
    if b.state == HalfOpen && !b.probeInFlight then b
    else
      var b1 := ClearTimeout(b).(probeInFlight := false, probeTimeout := None);
      if b.state == HalfOpen then b1.(state := Open, circuitOpenedAt := Some(now), failures := 0)
      else if b.failures + 1 >= c.failureThreshold then b1.(state := Open, circuitOpenedAt := Some(now), failures := 0)
      else b1.(failures := b.failures + 1)
  }

  /** The event loop runs the callback of an armed timer that is due. */
  function FireTimer(c: Config, b: Breaker, handle: nat, now: int): Breaker {
    if handle !in b.timers || now < b.timers[handle] then b
    else
      var b1 := b.(timers := b.timers - {handle});
      if b1.probeInFlight then Failure(c, b1, now) else b1
  }

  // ---- Traces ----

  datatype Event =
    | Request(now: int)
    | Succeeded(now: int)
    | Failed(now: int)
    | TimerFired(handle: nat, now: int)

  function Next(c: Config, b: Breaker, e: Event): Breaker {
    match e
    case Request(now) => IsCircuitOpen(c, b, now).1
    case Succeeded(_) => Success(b)
    case Failed(now) => Failure(c, b, now)
    case TimerFired(h, now) => FireTimer(c, b, h, now)
  }

  function Run(c: Config, events: seq<Event>): Breaker {
    if events == [] then INITIAL else Next(c, Run(c, events[..|events| - 1]), events[|events| - 1])
  }

  predicate Admitted(c: Config, b: Breaker, e: Event) {
    e.Request? && !IsCircuitOpen(c, b, e.now).0
  }

  predicate Monotone(events: seq<Event>) {
    forall i, j | 0 <= i < j < |events| :: events[i].now <= events[j].now
  }

  // ---- Three phases are enough ----

  /** The breaker without its redundant fields. */
  datatype Phase =
    | Healthy(failures: nat)
    | Tripped(at: int, failures: nat)
    | Probing(deadline: int, failures: nat)

  function PhaseNext(c: Config, p: Phase, e: Event): Phase {
    match e
    case Request(now) =>
      if p.Tripped? && now - p.at > c.resetAfterMs then Probing(now + c.proxyTimeoutMs + 1000, p.failures) else p
    case Succeeded(_) => Healthy(0)
    case Failed(now) =>
      if p.Probing? || p.failures + 1 >= c.failureThreshold then Tripped(now, 0)
      else if p.Tripped? then Tripped(p.at, p.failures + 1)
      else Healthy(p.failures + 1)
    case TimerFired(_, now) =>
      if p.Probing? && now >= p.deadline then Tripped(now, 0) else p
  }

  predicate PhaseAdmits(c: Config, p: Phase, now: int) {
    p.Healthy? || (p.Tripped? && now - p.at > c.resetAfterMs)
  }

  /** Half-open, probe in flight and probe timer armed are one and the same. */
  predicate Inv(c: Config, b: Breaker) {
    && 0 <= b.failures < Max(1, c.failureThreshold)
    && (b.state == Open ==> b.circuitOpenedAt.Some?)
    && (b.state == HalfOpen <==> b.probeInFlight)
    && (b.state == HalfOpen <==> b.probeTimeout.Some?)
    && b.timers.Keys == (if b.probeTimeout.Some? then {b.probeTimeout.value} else {})
    && (b.probeTimeout.Some? ==> b.probeTimeout.value < b.nextHandle)
  }

  function Abstract(c: Config, b: Breaker): Phase
    requires Inv(c, b)
  {
    match b.state
    case Closed => Healthy(b.failures)
    case Open => Tripped(b.circuitOpenedAt.value, b.failures)
    case HalfOpen => Probing(b.timers[b.probeTimeout.value], b.failures)
  }

  /** A timer event that names no armed timer does not happen. */
  predicate Happens(b: Breaker, e: Event) {
    e.TimerFired? ==> e.handle in b.timers
  }
}
