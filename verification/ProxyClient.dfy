/** The breaker as the client object has it: fields that the methods update in place. */
module ProxyClient {
  import opened Common
  import B = Breaker
  import BL = BreakerLaws

  class AbstractProxyClient {
    const config: B.Config

    var state: B.CircuitState
    var failures: int
    var circuitOpenedAt: Option<int>
    var probeInFlight: bool
    var probeTimeout: Option<nat>

    // the event loop's side of the timers
    var timers: map<nat, int>
    var nextHandle: nat

    function View(): B.Breaker
      reads this
    {
      B.Breaker(state, failures, circuitOpenedAt, probeInFlight, probeTimeout, timers, nextHandle)
    }

    /** What every reachable state keeps. */
    ghost predicate Valid()
      reads this
    {
      B.Inv(config, View())
    }

    /** Healthy, tripped or probing. */
    ghost function Phase(): B.Phase
      requires Valid()
      reads this
    {
      B.Abstract(config, View())
    }

    constructor (config: B.Config)
      ensures this.config == config && View() == B.INITIAL
      ensures Valid() && Phase() == B.Healthy(0)
    {
      this.config := config;
      state, failures, circuitOpenedAt := B.Closed, 0, None;
      probeInFlight, probeTimeout := false, None;
      timers, nextHandle := map[], 0;
    }

    method ClearTimeout()
      modifies this`timers
      ensures View() == B.ClearTimeout(old(View()))
    {
      if probeTimeout.Some? {
        timers := timers - {probeTimeout.value};
      }
    }

    method StartProbeTimeout(now: int)
      modifies this`timers, this`probeTimeout, this`nextHandle
      ensures View() == B.StartProbeTimeout(config, old(View()), now)
      ensures probeTimeout == Some(old(nextHandle)) && probeTimeout.value in timers
      ensures timers[probeTimeout.value] == now + config.proxyTimeoutMs + 1000
      ensures forall h | h in timers && Some(h) != probeTimeout :: h in old(timers) && Some(h) != old(probeTimeout)
    {
      ClearTimeout();
      timers := timers[nextHandle := now + config.proxyTimeoutMs + 1000];
      probeTimeout := Some(nextHandle);
      nextHandle := nextHandle + 1;
    }

    method IsCircuitOpen(now: int) returns (rejected: bool)
      modifies this
      ensures (rejected, View()) == B.IsCircuitOpen(config, old(View()), now)
      ensures old(Valid()) ==>
                && Valid() && Phase() == B.PhaseNext(config, old(Phase()), B.Request(now))
                && (rejected <==> !B.PhaseAdmits(config, old(Phase()), now))
    {
      if Valid() { BL.NextRefines(config, View(), B.Request(now)); }
      match state {
        case Closed =>
          return false;
        case Open =>
          var openedAt := if circuitOpenedAt.Some? then circuitOpenedAt.value else 0;
          if now - openedAt <= config.resetAfterMs {
            return true;
          }
          state := B.HalfOpen;
          probeInFlight := true;
          StartProbeTimeout(now);
          return false;
        case HalfOpen =>
          if probeInFlight {
            return true;
          }
          probeInFlight := true;
          StartProbeTimeout(now);
          return false;
      }
    }

    method Success()
      modifies this
      ensures View() == B.Success(old(View()))
      ensures old(Valid()) ==> Valid() && Phase() == B.Healthy(0)
    {
      if Valid() { BL.NextRefines(config, View(), B.Succeeded(0)); }
      state := B.Closed;
      failures := 0;
      probeInFlight := false;
      circuitOpenedAt := None;
      if probeTimeout.Some? {
        ClearTimeout();
        probeTimeout := None;
      }
    }

    method Failure(now: int)
      modifies this
      ensures View() == B.Failure(config, old(View()), now)
      ensures old(Valid()) ==> Valid() && Phase() == B.PhaseNext(config, old(Phase()), B.Failed(now))
    {
      if Valid() { BL.NextRefines(config, View(), B.Failed(now)); }
      if state == B.HalfOpen && !probeInFlight {
        return;
      }
      probeInFlight := false;
      if state == B.HalfOpen {
        state := B.Open;
        circuitOpenedAt := Some(now);
        failures := 0;
        if probeTimeout.Some? {
          ClearTimeout();
          probeTimeout := None;
        }
        return;
      }
      failures := failures + 1;
      if failures >= config.failureThreshold {
        state := B.Open;
        circuitOpenedAt := Some(now);
        failures := 0;
      }
      if probeTimeout.Some? {
        ClearTimeout();
        probeTimeout := None;
      }
    }

    /** The event loop runs the callback that StartProbeTimeout handed to it. */
    method FireTimer(handle: nat, now: int)
      modifies this
      ensures View() == B.FireTimer(config, old(View()), handle, now)
      ensures old(Valid()) && handle in old(timers) ==>
                Valid() && Phase() == B.PhaseNext(config, old(Phase()), B.TimerFired(handle, now))
      ensures handle !in old(timers) ==> View() == old(View())
    {
      if Valid() { BL.NextRefines(config, View(), B.TimerFired(handle, now)); }
      if handle !in timers || now < timers[handle] {
        return;
      }
      timers := timers - {handle};
      if probeInFlight {
        Failure(now);
      }
    }
  }
}
