/** internal/llm/circuit_breaker.go and internal/llm/fallback.go.

    Admissions and results come in any order: a result may belong to a request admitted long
    ago, so a history is any list of calls whose clock readings do not decrease. */
module CircuitBreaker {

  datatype Mode = Closed | Open | HalfOpen

  datatype State = State(mode: Mode, halfOpenInFlight: bool, consecutiveFails: nat, lastFailure: int)

  datatype Verdict = Admitted | RefusedOpen | AwaitingProbe

  datatype Config = Config(failureThreshold: int, resetTimeout: int)

  const INITIAL := State(Closed, false, 0, 0)

  function Allow(c: Config, s: State, now: int): (State, Verdict) {
    match s.mode
    case Closed => (s, Admitted)
    case Open =>
      if now - s.lastFailure > c.resetTimeout then (s.(mode := HalfOpen, halfOpenInFlight := true), Admitted)
      else (s, RefusedOpen)
    case HalfOpen =>
      if s.halfOpenInFlight then (s, AwaitingProbe) else (s.(halfOpenInFlight := true), Admitted)
  }

  function Record(c: Config, s: State, failed: bool, now: int): State {
    if failed then
      var threshold := if c.failureThreshold == 0 then 5 else c.failureThreshold;
      State(if s.consecutiveFails + 1 >= threshold then Open else s.mode, false, s.consecutiveFails + 1, now)
    else
      s.(consecutiveFails := 0, mode := Closed, halfOpenInFlight := false)
  }

  // ---- histories -----------------------------------------------------------------

  datatype Call = Request(at: int) | Result(failed: bool, at: int)

  datatype History = Begin(start: int) | Then(prev: History, call: Call)

  function Clock(h: History): int {
    match h case Begin(start) => start case Then(_, call) => call.at
  }

  function Calls(h: History): nat { if h.Begin? then 0 else Calls(h.prev) + 1 }

  predicate Ordered(h: History) {
    h.Then? ==> Ordered(h.prev) && Clock(h.prev) <= h.call.at
  }

  /** The breaker's state after a history of calls. */
  function After(c: Config, h: History): State {
    match h
    case Begin(_) => INITIAL
    case Then(prev, Request(at)) => Allow(c, After(c, prev), at).0
    case Then(prev, Result(failed, at)) => Record(c, After(c, prev), failed, at)
  }

  /** How many failures in a row the breaker tolerates. Zero means five, and since one failure
      already reaches any negative threshold, a negative one acts as one. */
  function Effective(c: Config): (t: nat)
    ensures t >= 1
  {
    if c.failureThreshold == 0 then 5 else if c.failureThreshold < 1 then 1 else c.failureThreshold
  }

  // The next members read the history only, never the breaker's fields.

  /** The failures recorded since the last success. */
  function TrailingFailures(h: History): nat {
    match h
    case Begin(_) => 0
    case Then(prev, Request(_)) => TrailingFailures(prev)
    case Then(prev, Result(failed, _)) => if failed then TrailingFailures(prev) + 1 else 0
  }

  /** When the latest outage began: the failure that made the trailing run reach the threshold. */
  function OutageStart(c: Config, h: History): int {
    match h
    case Begin(start) => start
    case Then(prev, Result(true, at)) =>
      if TrailingFailures(prev) + 1 == Effective(c) then at else OutageStart(c, prev)
    case Then(prev, _) => OutageStart(c, prev)
  }

  predicate InOutage(c: Config, h: History) { TrailingFailures(h) >= Effective(c) }

  /** When the latest failure was recorded. */
  function LastFailureTime(h: History): int {
    match h
    case Begin(start) => start
    case Then(_, Result(true, at)) => at
    case Then(prev, _) => LastFailureTime(prev)
  }

  /** A request was let through to probe the provider, and no result of any request has come since. */
  predicate ProbeOut(c: Config, h: History) {
    match h
    case Begin(_) => false
    case Then(prev, Request(at)) =>
      ProbeOut(c, prev) || (InOutage(c, prev) && at - LastFailureTime(prev) > c.resetTimeout)
    case Then(_, Result(_, _)) => false
  }

  /** What a request is told, by the history alone. */
  function Foretold(c: Config, h: History, now: int): Verdict {
    if !InOutage(c, h) then Admitted
    else if ProbeOut(c, h) then AwaitingProbe
    else if now - LastFailureTime(h) > c.resetTimeout then Admitted
    else RefusedOpen
  }

  /** The requests admitted during the current outage, in order. */
  function Probes(c: Config, h: History): seq<int> {
    match h
    case Begin(_) => []
    case Then(prev, Request(at)) =>
      if InOutage(c, prev) && Allow(c, After(c, prev), at).1 == Admitted then Probes(c, prev) + [at]
      else Probes(c, prev)
    case Then(prev, Result(failed, _)) => if failed then Probes(c, prev) else []
  }

  /** The state is decided by the recorded results: closed exactly outside an outage, with a
      probe in flight exactly when half open. */
  lemma {:induction false} StateIsDecidedByHistory(c: Config, h: History)
    ensures After(c, h).consecutiveFails == TrailingFailures(h)
    ensures After(c, h).mode == Closed <==> !InOutage(c, h)
    ensures After(c, h).halfOpenInFlight <==> After(c, h).mode == HalfOpen
  {
    if h.Then? {
      StateIsDecidedByHistory(c, h.prev);
    }
  }

  /** Half open exactly while a probe is out, and the time an open breaker counts from is that of
      the latest recorded failure. */
  lemma {:induction false} HalfOpenExactlyWhileProbing(c: Config, h: History)
    ensures After(c, h).mode == HalfOpen <==> ProbeOut(c, h)
    ensures InOutage(c, h) ==> After(c, h).lastFailure == LastFailureTime(h)
    ensures ProbeOut(c, h) ==> InOutage(c, h)
  {
    if h.Then? {
      HalfOpenExactlyWhileProbing(c, h.prev);
      StateIsDecidedByHistory(c, h.prev);
    }
  }

  /** Every answer follows from the history: outside an outage all are admitted; during one, the
      first request more than the reset timeout after the latest failure, until some result comes. */
  lemma AnswersAreDecidedByHistory(c: Config, h: History, now: int)
    ensures Allow(c, After(c, h), now).1 == Foretold(c, h, now)
  {
    StateIsDecidedByHistory(c, h);
    HalfOpenExactlyWhileProbing(c, h);
  }

  /** So a breaker recovers: a late enough request is let through, and its success closes it. */
  lemma BreakerRecovers(c: Config, h: History, asked: int, answered: int)
    requires !ProbeOut(c, h) && asked > LastFailureTime(h) + c.resetTimeout
    ensures Allow(c, After(c, h), asked).1 == Admitted
    ensures var after := After(c, Then(Then(h, Request(asked)), Result(false, answered)));
      after.mode == Closed && after.consecutiveFails == 0
  {
    AnswersAreDecidedByHistory(c, h, asked);
  }

  /** An unset threshold is five: four failures in a row leave the breaker closed, the fifth does not. */
  lemma UnsetThresholdIsFive(c: Config, h: History)
    requires c.failureThreshold == 0
    ensures After(c, h).mode == Closed <==> TrailingFailures(h) < 5
  {
    StateIsDecidedByHistory(c, h);
  }

  /** So a half-open breaker admits nobody: the branch that starts a second probe is dead. */
  lemma HalfOpenAdmitsNobody(c: Config, h: History, now: int)
    requires After(c, h).mode == HalfOpen
    ensures Allow(c, After(c, h), now) == (After(c, h), AwaitingProbe)
  {
    StateIsDecidedByHistory(c, h);
  }

  lemma {:induction false} NoProbesWhenHealthy(c: Config, h: History)
    requires !InOutage(c, h)
    ensures Probes(c, h) == []
  {
    if h.Then? && (h.call.Request? || h.call.failed) {
      NoProbesWhenHealthy(c, h.prev);
    }
  }

  /** k times the reset timeout. */
  function Resets(c: Config, k: nat): int { if k == 0 then 0 else Resets(c, k - 1) + c.resetTimeout }

  lemma {:induction false} ResetsIsProduct(c: Config, k: nat)
    ensures Resets(c, k) == k * c.resetTimeout
  {
    if k > 0 { ResetsIsProduct(c, k - 1); }
  }

  /** The bound the k-th probe has passed: k resets after the outage began. */
  function Bound(c: Config, h: History, k: nat): int { OutageStart(c, h) + Resets(c, k) }

  ghost predicate Spaced(c: Config, h: History) {
    forall k :: 0 <= k < |Probes(c, h)| ==> Probes(c, h)[k] > Bound(c, h, k + 1)
  }

  /** What each state of an outage knows: the last probe is in the past, and when the breaker
      is open, so is a failure recorded after it. */
  ghost predicate Waiting(c: Config, h: History) {
    var n := |Probes(c, h)|;
    After(c, h).lastFailure <= Clock(h) && Bound(c, h, n) <= Clock(h) &&
    (After(c, h).mode == Open ==> Bound(c, h, n) <= After(c, h).lastFailure)
  }

  lemma RequestKeepsSpacing(c: Config, prev: History, at: int)
    requires Clock(prev) <= at && InOutage(c, prev) && Spaced(c, prev) && Waiting(c, prev)
    ensures Spaced(c, Then(prev, Request(at))) && Waiting(c, Then(prev, Request(at)))
  {
    var h := Then(prev, Request(at));
    StateIsDecidedByHistory(c, prev);
    var n := |Probes(c, prev)|;
    forall k | 0 <= k < |Probes(c, h)| ensures Probes(c, h)[k] > Bound(c, h, k + 1) {
      if k < n {
        assert Probes(c, h)[k] == Probes(c, prev)[k] > Bound(c, prev, k + 1);
      } else {
        assert Bound(c, prev, n + 1) == Bound(c, prev, n) + c.resetTimeout;
      }
    }
  }

  lemma FailureKeepsSpacing(c: Config, prev: History, at: int)
    requires InOutage(c, prev) ==> Spaced(c, prev) && Waiting(c, prev)
    requires Clock(prev) <= at && InOutage(c, Then(prev, Result(true, at)))
    ensures Spaced(c, Then(prev, Result(true, at))) && Waiting(c, Then(prev, Result(true, at)))
  {
    var h := Then(prev, Result(true, at));
    StateIsDecidedByHistory(c, prev);
    if !InOutage(c, prev) {
      NoProbesWhenHealthy(c, prev);
    } else {
      assert forall k: nat :: Bound(c, h, k) == Bound(c, prev, k);
    }
  }

  lemma {:induction false} OutageIsSpaced(c: Config, h: History)
    requires Ordered(h) && InOutage(c, h)
    ensures Spaced(c, h) && Waiting(c, h)
  {
    match h
    case Begin(_) =>
    case Then(prev, Request(at)) =>
      OutageIsSpaced(c, prev);
      RequestKeepsSpacing(c, prev, at);
    case Then(prev, Result(failed, at)) =>
      if InOutage(c, prev) { OutageIsSpaced(c, prev); }
      FailureKeepsSpacing(c, prev, at);
  }

  /** Probe spacing: whatever late results arrive, the k-th request admitted during an outage
      comes more than k reset timeouts after the failure that opened the breaker. */
  lemma ProbesAreSpaced(c: Config, h: History, k: nat)
    requires Ordered(h) && k < |Probes(c, h)|
    ensures Probes(c, h)[k] > OutageStart(c, h) + (k + 1) * c.resetTimeout
  {
    if !InOutage(c, h) { NoProbesWhenHealthy(c, h); } else { OutageIsSpaced(c, h); }
    ResetsIsProduct(c, k + 1);
  }

  // ---- the clients ---------------------------------------------------------------

  /** What a caller of Complete gets. */
  datatype Reply = Success | ProviderError | BreakerOpen | BreakerProbing | FallbackFailed(second: Reply)

  /** errors.Is(err, ErrCircuitBreakerOpen): a failed fallback wraps the fallback's own error. */
  predicate SaysOpen(reply: Reply) { reply == BreakerOpen || (reply.FallbackFailed? && SaysOpen(reply.second)) }

  /** The breaker refuses at that reading because it is open. */
  predicate RefusesOpen(c: Config, h: History, now: int) {
    InOutage(c, h) && !ProbeOut(c, h) && now - LastFailureTime(h) <= c.resetTimeout
  }

  /** What a provider would answer and when; used only if the provider is contacted. */
  datatype Provider = Provider(fails: bool, asked: int, answered: int)

  class Client {
    const config: Config
    var state: State
    ghost var history: History
    /** How often the provider behind the breaker was contacted. */
    var contacts: nat

    ghost predicate Valid()
      reads this
    {
      state == After(config, history) && Ordered(history)
    }

    constructor (config: Config, now: int)
      ensures Valid() && this.config == config && history == Begin(now) && contacts == 0
    {
      this.config := config;
      state, history, contacts := INITIAL, Begin(now), 0;
    }

    method AllowRequest(now: int) returns (verdict: Verdict)
      requires Valid() && Clock(history) <= now
      modifies this`state, this`history
      ensures Valid() && history == Then(old(history), Request(now))
      ensures verdict == Foretold(config, old(history), now)
    {
      AnswersAreDecidedByHistory(config, history, now);
      history := Then(history, Request(now));
      match state.mode
      case Closed => verdict := Admitted;
      case Open =>
        if now - state.lastFailure > config.resetTimeout {
          state := state.(mode := HalfOpen, halfOpenInFlight := true);
          verdict := Admitted;
        } else {
          verdict := RefusedOpen;
        }
      case HalfOpen =>
        if state.halfOpenInFlight {
          verdict := AwaitingProbe;
        } else {
          state := state.(halfOpenInFlight := true);
          verdict := Admitted;
        }
    }

    method RecordResult(failed: bool, now: int)
      requires Valid() && Clock(history) <= now
      modifies this`state, this`history
      ensures Valid() && history == Then(old(history), Result(failed, now))
    {
      history := Then(history, Result(failed, now));
      if failed {
        var threshold := if config.failureThreshold == 0 then 5 else config.failureThreshold;
        state := state.(consecutiveFails := state.consecutiveFails + 1, lastFailure := now, halfOpenInFlight := false);
        if state.consecutiveFails >= threshold {
          state := state.(mode := Open);
        }
      } else {
        state := state.(consecutiveFails := 0, mode := Closed, halfOpenInFlight := false);
      }
    }

    /** The provider is contacted exactly when the breaker admits the request. */
    method Complete(p: Provider) returns (reply: Reply)
      requires Valid() && Clock(history) <= p.asked <= p.answered
      modifies this
      ensures Valid()
      ensures contacts == old(contacts) + if Foretold(config, old(history), p.asked) == Admitted then 1 else 0
      ensures reply == match Foretold(config, old(history), p.asked)
                       case Admitted => if p.fails then ProviderError else Success
                       case RefusedOpen => BreakerOpen
                       case AwaitingProbe => BreakerProbing
      ensures Clock(history) <= p.answered && Calls(history) > Calls(old(history))
      ensures history == if Foretold(config, old(history), p.asked) == Admitted
                         then Then(Then(old(history), Request(p.asked)), Result(p.fails, p.answered))
                         else Then(old(history), Request(p.asked))
    {
      var verdict := AllowRequest(p.asked);
      match verdict
      case RefusedOpen => reply := BreakerOpen;
      case AwaitingProbe => reply := BreakerProbing;
      case Admitted =>
        contacts := contacts + 1;
        RecordResult(p.fails, p.answered);
        reply := if p.fails then ProviderError else Success;
    }
  }

  class FallbackClient {
    const primary: Client
    const fallback: Client

    constructor (primary: Client, fallback: Client)
      ensures this.primary == primary && this.fallback == fallback
    {
      this.primary, this.fallback := primary, fallback;
    }

    /** The fallback client is asked exactly when the primary refused in the open state, and
        never are both providers contacted; a half-open refusal is passed on. The error still
        matches ErrCircuitBreakerOpen exactly when both breakers refused in the open state. */
    method Complete(p: Provider, f: Provider) returns (reply: Reply)
      requires primary != fallback && primary.Valid() && fallback.Valid()
      requires Clock(primary.history) <= p.asked <= p.answered <= f.asked <= f.answered
      requires Clock(fallback.history) <= f.asked
      modifies primary, fallback
      ensures primary.Valid() && fallback.Valid()
      ensures Calls(fallback.history) > Calls(old(fallback.history)) <==>
              RefusesOpen(primary.config, old(primary.history), p.asked)
      ensures primary.contacts + fallback.contacts <= old(primary.contacts) + old(fallback.contacts) + 1
      ensures fallback.contacts > old(fallback.contacts) ==> primary.contacts == old(primary.contacts)
      ensures reply == Success ==> primary.contacts + fallback.contacts > old(primary.contacts) + old(fallback.contacts)
      ensures SaysOpen(reply) <==> RefusesOpen(primary.config, old(primary.history), p.asked) &&
                                   RefusesOpen(fallback.config, old(fallback.history), f.asked)
    {
      reply := primary.Complete(p);
      if reply == BreakerOpen {
        var second := fallback.Complete(f);
        reply := if second == Success then Success else FallbackFailed(second);
      }
    }
  }
}
