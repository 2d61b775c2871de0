/** The breaker in front of the transport adapter. Times are seconds on a monotonic clock. */
module CircuitBreaking {
  const FAILURE_THRESHOLD := 5
  const RESET_TIMEOUT := 30.0

  datatype Circuit = Closed | Open | HalfOpen

  datatype Breaker = Breaker(state: Circuit, failures: nat, openedAt: real, probeGrantedAt: real)

  const INITIAL_BREAKER := Breaker(Closed, 0, 0.0, 0.0)

  // The clock is read once to decide and once more to note when a probe was granted.
  function Allow(b: Breaker, checked: real, granted: real): (bool, Breaker) {
    match b.state
    case Closed => (true, b)
    case Open =>
      if checked - b.openedAt >= RESET_TIMEOUT then (true, b.(state := HalfOpen, probeGrantedAt := granted))
      else (false, b)
    case HalfOpen =>
      if checked - b.probeGrantedAt >= RESET_TIMEOUT then (true, b.(probeGrantedAt := granted)) else (false, b)
  }

  function Succeed(b: Breaker): Breaker {
    b.(failures := 0, state := Closed)
  }

  function Fail(b: Breaker, at: real): Breaker {
    var c := b.(failures := b.failures + 1);
    if c.state.HalfOpen? || c.failures >= FAILURE_THRESHOLD then c.(state := Open, openedAt := at) else c
  }

  class CircuitBreaker {
    var state: Circuit
    var failures: nat
    var openedAt: real
    var probeGrantedAt: real

    ghost function View(): Breaker
      reads this
    {
      Breaker(state, failures, openedAt, probeGrantedAt)
    }

    constructor ()
      ensures View() == INITIAL_BREAKER
    {
      state, failures, openedAt, probeGrantedAt := Closed, 0, 0.0, 0.0;
    }

    method AllowRequest(checked: real, granted: real) returns (allowed: bool)
      modifies this`state, this`probeGrantedAt
      ensures (allowed, View()) == Allow(old(View()), checked, granted)
    {
      if state.Closed? {
        return true;
      }
      if state.Open? {
        if checked - openedAt >= RESET_TIMEOUT {
          state := HalfOpen;
          probeGrantedAt := granted;
          return true;
        }
        return false;
      }
      if checked - probeGrantedAt >= RESET_TIMEOUT {
        probeGrantedAt := granted;
        return true;
      }
      return false;
    }

    method RecordSuccess()
      modifies this`failures, this`state
      ensures View() == Succeed(old(View()))
    {
      failures := 0;
      state := Closed;
    }

    method RecordFailure(at: real)
      modifies this`failures, this`state, this`openedAt
      ensures View() == Fail(old(View()), at)
    {
      failures := failures + 1;
      if state.HalfOpen? || failures >= FAILURE_THRESHOLD {
        state := Open;
        openedAt := at;
      }
    }
  }
}
