/** internal/llm/budget.go: token limits over an hourly, a daily and a monthly window. */
module TokenBudget {

  /** One window; a limit that is not positive means unlimited. */
  datatype Window = Window(limit: int, used: int, reset: int)

  datatype Budget = Budget(hourly: Window, daily: Window, monthly: Window)

  /** A clock reading, and the calendar's answer for one month later. */
  datatype Moment = Moment(now: int, monthLater: int)

  const HOUR: int := 3_600_000_000_000
  const DAY: int := 86_400_000_000_000

  function Renewed(w: Window, now: int, next: int): Window {
    if now > w.reset then Window(w.limit, 0, next) else w
  }

  function Reset(b: Budget, m: Moment): Budget {
    Budget(Renewed(b.hourly, m.now, m.now + HOUR), Renewed(b.daily, m.now, m.now + DAY),
           Renewed(b.monthly, m.now, m.monthLater))
  }

  predicate Fits(w: Window, tokens: int) { w.limit > 0 ==> w.used + tokens <= w.limit }

  predicate Grants(b: Budget, estimated: int) {
    Fits(b.hourly, estimated) && Fits(b.daily, estimated) && Fits(b.monthly, estimated)
  }

  function Spent(w: Window, tokens: int): Window { w.(used := w.used + tokens) }

  function Recorded(b: Budget, tokens: int): Budget {
    Budget(Spent(b.hourly, tokens), Spent(b.daily, tokens), Spent(b.monthly, tokens))
  }

  // ---- histories of requests -------------------------------------------------------

  /** Check asks for a grant; a granted request ends by recording its tokens or by giving up. */
  datatype Call =
    | Check(estimated: nat, at: Moment)
    | Finish(slot: nat, tokens: nat, at: Moment)
    | Abandon(slot: nat)

  /** The budget and the estimates of the granted requests that have not ended. */
  datatype State = State(budget: Budget, outstanding: seq<nat>)

  datatype History = Begin(budget: Budget) | Then(prev: History, call: Call)

  function Without(s: seq<nat>, i: nat): seq<nat>
    requires i < |s|
  {
    s[..i] + s[i + 1..]
  }

  function After(h: History): State {
    match h
    case Begin(budget) => State(budget, [])
    case Then(prev, Check(estimated, at)) =>
      var s := After(prev);
      var b := Reset(s.budget, at);
      State(b, if Grants(b, estimated) then s.outstanding + [estimated] else s.outstanding)
    case Then(prev, Finish(slot, tokens, at)) =>
      var s := After(prev);
      State(Recorded(Reset(s.budget, at), tokens),
            if slot < |s.outstanding| then Without(s.outstanding, slot) else s.outstanding)
    case Then(prev, Abandon(slot)) =>
      var s := After(prev);
      State(s.budget, if slot < |s.outstanding| then Without(s.outstanding, slot) else s.outstanding)
  }

  /** At most k granted requests at once, none estimated above e, none recording more than it
      estimated, all windows empty at the start. */
  predicate Disciplined(k: nat, e: nat, h: History) {
    match h
    case Begin(b) => b.hourly.used == b.daily.used == b.monthly.used == 0
    case Then(prev, call) =>
      Disciplined(k, e, prev) && |After(h).outstanding| <= k &&
      match call
      case Check(estimated, _) => estimated <= e
      case Finish(slot, tokens, _) => slot < |After(prev).outstanding| && tokens <= After(prev).outstanding[slot]
      case Abandon(slot) => slot < |After(prev).outstanding|
  }

  function Sum(s: seq<nat>): nat { if s == [] then 0 else s[0] + Sum(s[1..]) }

  function Times(n: nat, e: nat): nat { if n == 0 then 0 else Times(n - 1, e) + e }

  lemma {:induction false} TimesIsProduct(n: nat, e: nat)
    ensures Times(n, e) == n * e
  {
    if n > 0 { TimesIsProduct(n - 1, e); }
  }

  lemma {:induction false} TimesMonotone(m: nat, n: nat, e: nat)
    requires m <= n
    ensures Times(m, e) <= Times(n, e)
  {
    if m < n { TimesMonotone(m, n - 1, e); }
  }

  lemma {:induction false} SumOfWithout(s: seq<nat>, i: nat)
    requires i < |s|
    ensures Sum(Without(s, i)) == Sum(s) - s[i]
  {
    if i == 0 {
      assert Without(s, 0) == s[1..];
    } else {
      SumOfWithout(s[1..], i - 1);
      assert Without(s, i)[1..] == Without(s[1..], i - 1);
    }
  }

  lemma {:induction false} SumOfAppend(s: seq<nat>, x: nat)
    ensures Sum(s + [x]) == Sum(s) + x
  {
    if s == [] {
      assert s + [x] == [x];
    } else {
      assert (s + [x])[1..] == s[1..] + [x];
      SumOfAppend(s[1..], x);
    }
  }

  lemma {:induction false} SumIsBounded(s: seq<nat>, e: nat)
    requires forall i :: 0 <= i < |s| ==> s[i] <= e
    ensures Sum(s) <= Times(|s|, e)
  {
    if s != [] { SumIsBounded(s[1..], e); }
  }

  /** Used tokens plus everything promised stays within the limit and k - 1 estimates. */
  predicate Covered(w: Window, promised: nat, slack: nat) {
    w.used >= 0 && (w.limit > 0 ==> w.used + promised <= w.limit + slack)
  }

  ghost predicate Inv(e: nat, slack: nat, s: State) {
    (forall i :: 0 <= i < |s.outstanding| ==> s.outstanding[i] <= e) &&
    Covered(s.budget.hourly, Sum(s.outstanding), slack) &&
    Covered(s.budget.daily, Sum(s.outstanding), slack) &&
    Covered(s.budget.monthly, Sum(s.outstanding), slack)
  }

  lemma ResetKeepsInv(e: nat, slack: nat, s: State, at: Moment)
    requires Inv(e, slack, s)
    ensures Inv(e, slack, State(Reset(s.budget, at), s.outstanding))
  {
  }

  lemma GrantKeepsInv(e: nat, n: nat, s: State, estimated: nat)
    requires estimated <= e && Inv(e, Times(n, e), s) && |s.outstanding| <= n && Grants(s.budget, estimated)
    ensures Inv(e, Times(n, e), State(s.budget, s.outstanding + [estimated]))
  {
    SumOfAppend(s.outstanding, estimated);
    SumIsBounded(s.outstanding, e);
    TimesMonotone(|s.outstanding|, n, e);
  }

  lemma EndKeepsInv(e: nat, slack: nat, s: State, slot: nat, tokens: nat)
    requires Inv(e, slack, s) && slot < |s.outstanding| && tokens <= s.outstanding[slot]
    ensures Inv(e, slack, State(Recorded(s.budget, tokens), Without(s.outstanding, slot)))
    ensures Inv(e, slack, State(s.budget, Without(s.outstanding, slot)))
  {
    SumOfWithout(s.outstanding, slot);
  }

  lemma {:induction false} HistoryKeepsInv(k: nat, e: nat, h: History)
    requires k >= 1 && Disciplined(k, e, h)
    ensures Inv(e, Times(k - 1, e), After(h))
  {
    if h.Then? {
      HistoryKeepsInv(k, e, h.prev);
      StepKeepsInv(k, e, h, After(h.prev));
    }
  }

  lemma StepKeepsInv(k: nat, e: nat, h: History, s: State)
    requires k >= 1 && h.Then? && Disciplined(k, e, h) && s == After(h.prev) && Inv(e, Times(k - 1, e), s)
    ensures Inv(e, Times(k - 1, e), After(h))
  {
    match h.call
    case Check(estimated, at) =>
      ResetKeepsInv(e, Times(k - 1, e), s, at);
      if Grants(Reset(s.budget, at), estimated) {
        GrantKeepsInv(e, k - 1, State(Reset(s.budget, at), s.outstanding), estimated);
      }
    case Finish(slot, tokens, at) =>
      ResetKeepsInv(e, Times(k - 1, e), s, at);
      EndKeepsInv(e, Times(k - 1, e), State(Reset(s.budget, at), s.outstanding), slot, tokens);
    case Abandon(slot) => EndKeepsInv(e, Times(k - 1, e), s, slot, 0);
  }

  predicate WithinLimit(w: Window, overshoot: int) { w.limit > 0 ==> w.used <= w.limit + overshoot }

  /** Overshoot: with at most k requests outstanding, each estimated at e tokens or fewer, no
      limited window is ever exceeded by more than (k - 1) * e; one at a time, by nothing. */
  lemma OvershootIsBounded(k: nat, e: nat, h: History)
    requires k >= 1 && Disciplined(k, e, h)
    ensures WithinLimit(After(h).budget.hourly, (k - 1) * e)
    ensures WithinLimit(After(h).budget.daily, (k - 1) * e)
    ensures WithinLimit(After(h).budget.monthly, (k - 1) * e)
  {
    HistoryKeepsInv(k, e, h);
    TimesIsProduct(k - 1, e);
  }

  // ---- the bound is reached ----------------------------------------------------------

  /** Ask for n grants of e tokens at one moment, then record them all. */
  function Asked(b: Budget, e: nat, n: nat, at: Moment): History {
    if n == 0 then Begin(b) else Then(Asked(b, e, n - 1, at), Check(e, at))
  }

  function Answered(b: Budget, e: nat, k: nat, n: nat, at: Moment): History {
    if n == 0 then Asked(b, e, k, at) else Then(Answered(b, e, k, n - 1, at), Finish(0, e, at))
  }

  predicate Running(b: Budget, at: Moment) {
    at.now <= b.hourly.reset && at.now <= b.daily.reset && at.now <= b.monthly.reset
  }

  function Copies(e: nat, n: nat): seq<nat> { seq(n, _ => e) }

  lemma {:induction false} AllAreGranted(b: Budget, e: nat, k: nat, n: nat, at: Moment)
    requires n <= k && Running(b, at) && Grants(b, e) && b.hourly.used == b.daily.used == b.monthly.used == 0
    ensures After(Asked(b, e, n, at)) == State(b, Copies(e, n))
    ensures Disciplined(k, e, Asked(b, e, n, at))
  {
    if n > 0 {
      AllAreGranted(b, e, k, n - 1, at);
      assert Copies(e, n - 1) + [e] == Copies(e, n);
    }
  }

  lemma {:induction false} AllAreRecorded(b: Budget, e: nat, k: nat, n: nat, at: Moment)
    requires n <= k && Running(b, at) && Grants(b, e) && b.hourly.used == b.daily.used == b.monthly.used == 0
    ensures After(Answered(b, e, k, n, at)) == State(Recorded(b, Times(n, e)), Copies(e, k - n))
    ensures Disciplined(k, e, Answered(b, e, k, n, at))
  {
    if n == 0 {
      AllAreGranted(b, e, k, k, at);
    } else {
      AllAreRecorded(b, e, k, n - 1, at);
      var s := After(Answered(b, e, k, n - 1, at));
      assert Without(s.outstanding, 0) == Copies(e, k - n);
      assert Reset(s.budget, at) == s.budget;
    }
  }

  /** For every k and e there is a disciplined history that overshoots by exactly (k - 1) * e. */
  lemma OvershootIsReached(k: nat, e: nat, at: Moment)
    requires k >= 1 && e >= 1
    ensures exists h :: Disciplined(k, e, h) && After(h).budget.hourly.limit == e &&
              After(h).budget.hourly.used == e + (k - 1) * e
  {
    var b := Budget(Window(e, 0, at.now), Window(0, 0, at.now), Window(0, 0, at.now));
    AllAreRecorded(b, e, k, k, at);
    TimesIsProduct(k, e);
    var h := Answered(b, e, k, k, at);
    assert Disciplined(k, e, h) && After(h).budget.hourly.used == k * e;
  }

  // ---- alerts ------------------------------------------------------------------------

  /** Go's integer division, which truncates toward zero. */
  function Truncated(a: int, b: int): int
    requires b != 0
  {
    if (a >= 0) == (b > 0) then Abs(a) / Abs(b) else -(Abs(a) / Abs(b))
  }

  function Abs(a: int): nat { if a >= 0 then a else -a }

  predicate Alerts(threshold: int, w: Window) {
    w.limit != 0 && Truncated(w.used * 100, w.limit) >= threshold
  }

  lemma QuotientReaches(a: nat, b: nat, t: nat)
    requires b > 0
    ensures a / b >= t <==> a >= t * b
  {
    var q := a / b;
    assert a == q * b + a % b;
    if q >= t { assert q * b >= t * b; }
    if q < t { assert (q + 1) * b <= t * b; assert (q + 1) * b == q * b + b; }
  }

  /** For a limited window the rounded percentage reaches the threshold exactly when the
      unrounded one does; an unlimited window never alerts. */
  lemma AlertIsExact(threshold: nat, w: Window)
    requires threshold > 0 && w.used >= 0
    ensures Alerts(threshold, w) <==> w.limit > 0 && w.used * 100 >= threshold * w.limit
  {
    if w.limit > 0 {
      QuotientReaches(w.used * 100, w.limit, threshold);
    } else if w.limit < 0 {
      assert Abs(w.used * 100) / Abs(w.limit) >= 0;
      if w.used == 0 { assert Truncated(0, w.limit) == 0; }
    }
  }

  // ---- usage by history ------------------------------------------------------------------

  datatype Span = Hour | Day | Month

  /** The calls on a budget: each Check and each Record takes one reading. */
  datatype Use = Opened(budget: Budget) | Checked(prev: Use, at: Moment) | Used(prev: Use, tokens: int, at: Moment)

  function BudgetAfter(u: Use): Budget {
    match u
    case Opened(budget) => budget
    case Checked(prev, at) => Reset(BudgetAfter(prev), at)
    case Used(prev, tokens, at) => Recorded(Reset(BudgetAfter(prev), at), tokens)
  }

  function WindowOf(span: Span, b: Budget): Window {
    match span case Hour => b.hourly case Day => b.daily case Month => b.monthly
  }

  // The next four read the calls only: no window is renewed or charged in them.

  /** When a window renewed at a moment ends: an hour, a day or a calendar month later. */
  function EndOf(span: Span, m: Moment): int {
    match span case Hour => m.now + 3_600_000_000_000 case Day => m.now + 86_400_000_000_000 case Month => m.monthLater
  }

  /** The reset time in force after the calls: that of the last call which came after the reset
      time then in force. */
  function ResetTime(span: Span, u: Use): int {
    match u
    case Opened(budget) => WindowOf(span, budget).reset
    case Checked(prev, at) => if at.now > ResetTime(span, prev) then EndOf(span, at) else ResetTime(span, prev)
    case Used(prev, _, at) => if at.now > ResetTime(span, prev) then EndOf(span, at) else ResetTime(span, prev)
  }

  /** The tokens recorded since that call, itself included. */
  function TokensSince(span: Span, u: Use): int {
    match u
    case Opened(budget) => WindowOf(span, budget).used
    case Checked(prev, at) => if at.now > ResetTime(span, prev) then 0 else TokensSince(span, prev)
    case Used(prev, tokens, at) => (if at.now > ResetTime(span, prev) then 0 else TokensSince(span, prev)) + tokens
  }

  function LimitOf(span: Span, u: Use): int {
    match u
    case Opened(budget) => WindowOf(span, budget).limit
    case Checked(prev, _) => LimitOf(span, prev)
    case Used(prev, _, _) => LimitOf(span, prev)
  }

  /** Every window is decided by the calls. */
  lemma {:induction false} UsageIsDecidedByHistory(span: Span, u: Use)
    ensures WindowOf(span, BudgetAfter(u)) == Window(LimitOf(span, u), TokensSince(span, u), ResetTime(span, u))
  {
    if !u.Opened? {
      UsageIsDecidedByHistory(span, u.prev);
    }
  }

  /** The window has room for that many tokens, or is unlimited. */
  predicate HasRoom(span: Span, u: Use, tokens: int) {
    LimitOf(span, u) > 0 ==> TokensSince(span, u) + tokens <= LimitOf(span, u)
  }

  /** After its reset time an exhausted window starts afresh: it refuses no estimate within its limit. */
  lemma ExpiredWindowHasRoom(span: Span, u: Use, estimated: int, at: Moment)
    requires at.now > ResetTime(span, u) && estimated <= LimitOf(span, u)
    ensures HasRoom(span, Checked(u, at), estimated)
  {
  }

  function UseOf(h: History): Use {
    match h
    case Begin(budget) => Opened(budget)
    case Then(prev, Check(_, at)) => Checked(UseOf(prev), at)
    case Then(prev, Finish(_, tokens, at)) => Used(UseOf(prev), tokens, at)
    case Then(prev, Abandon(_)) => UseOf(prev)
  }

  lemma {:induction false} HistoryIsUse(h: History)
    ensures After(h).budget == BudgetAfter(UseOf(h))
  {
    if h.Then? { HistoryIsUse(h.prev); }
  }

  /** In a history of requests, a check is granted exactly when every limited window has room,
      counting from its last renewal. */
  lemma GrantedExactlyWhen(h: History, estimated: nat, at: Moment)
    ensures var asked := Then(h, Check(estimated, at));
      After(asked).outstanding == (if HasRoom(Hour, UseOf(asked), estimated) && HasRoom(Day, UseOf(asked), estimated) &&
                                      HasRoom(Month, UseOf(asked), estimated)
                                   then After(h).outstanding + [estimated] else After(h).outstanding)
  {
    var u := UseOf(Then(h, Check(estimated, at)));
    HistoryIsUse(h);
    UsageIsDecidedByHistory(Hour, u);
    UsageIsDecidedByHistory(Day, u);
    UsageIsDecidedByHistory(Month, u);
  }

  // ---- the object --------------------------------------------------------------------

  class Tokens {
    var hourlyUsed: int
    var dailyUsed: int
    var monthlyUsed: int
    var hourlyReset: int
    var dailyReset: int
    var monthlyReset: int
    const hourlyLimit: int
    const dailyLimit: int
    const monthlyLimit: int
    const alertThreshold: int
    /** Whether an alert function is set. */
    var alerting: bool
    /** The calls so far. */
    ghost var use: Use

    ghost function Value(): Budget
      reads this
    {
      Budget(Window(hourlyLimit, hourlyUsed, hourlyReset), Window(dailyLimit, dailyUsed, dailyReset),
             Window(monthlyLimit, monthlyUsed, monthlyReset))
    }

    ghost predicate Valid()
      reads this
    {
      Value() == BudgetAfter(use)
    }

    constructor (hourly: int, daily: int, monthly: int, alertThresholdPct: int, at: Moment)
      ensures Valid() && !alerting
      ensures use == Opened(Budget(Window(hourly, 0, EndOf(Hour, at)), Window(daily, 0, EndOf(Day, at)),
                                   Window(monthly, 0, EndOf(Month, at))))
      ensures alertThreshold == alertThresholdPct
    {
      hourlyLimit, dailyLimit, monthlyLimit, alertThreshold := hourly, daily, monthly, alertThresholdPct;
      hourlyUsed, dailyUsed, monthlyUsed, alerting := 0, 0, 0, false;
      hourlyReset, dailyReset, monthlyReset := at.now + HOUR, at.now + DAY, at.monthLater;
      use := Opened(Budget(Window(hourly, 0, at.now + HOUR), Window(daily, 0, at.now + DAY),
                           Window(monthly, 0, at.monthLater)));
    }

    method ResetExpiredWindows(at: Moment)
      modifies this`hourlyUsed, this`dailyUsed, this`monthlyUsed, this`hourlyReset, this`dailyReset, this`monthlyReset
      ensures Value() == Reset(old(Value()), at)
    {
      if at.now > hourlyReset { hourlyUsed, hourlyReset := 0, at.now + HOUR; }
      if at.now > dailyReset { dailyUsed, dailyReset := 0, at.now + DAY; }
      if at.now > monthlyReset { monthlyUsed, monthlyReset := 0, at.monthLater; }
    }

    method CheckBudget(estimated: int, at: Moment) returns (granted: bool)
      requires Valid()
      modifies this
      ensures Valid() && use == Checked(old(use), at) && alerting == old(alerting)
      ensures granted <==>
        HasRoom(Hour, use, estimated) && HasRoom(Day, use, estimated) && HasRoom(Month, use, estimated)
    {
      use := Checked(use, at);
      ResetExpiredWindows(at);
      UsageIsDecidedByHistory(Hour, use);
      UsageIsDecidedByHistory(Day, use);
      UsageIsDecidedByHistory(Month, use);
      if hourlyLimit > 0 && hourlyUsed + estimated > hourlyLimit { return false; }
      if dailyLimit > 0 && dailyUsed + estimated > dailyLimit { return false; }
      if monthlyLimit > 0 && monthlyUsed + estimated > monthlyLimit { return false; }
      return true;
    }

    /** The window as the calls so far decide it. */
    ghost function Decided(span: Span): Window
      reads this
    {
      Window(LimitOf(span, use), TokensSince(span, use), ResetTime(span, use))
    }

    /** `alerts` are the windows the alert function is called with, in order. */
    method Record(tokens: int, at: Moment) returns (alerts: seq<Window>)
      requires Valid()
      modifies this
      ensures Valid() && use == Used(old(use), tokens, at) && alerting == old(alerting)
      ensures !alerting || alertThreshold <= 0 ==> alerts == []
      ensures alerting && alertThreshold > 0 ==>
        alerts == Alerting(Decided(Hour)) + Alerting(Decided(Day)) + Alerting(Decided(Month))
    {
      use := Used(use, tokens, at);
      ResetExpiredWindows(at);
      hourlyUsed, dailyUsed, monthlyUsed := hourlyUsed + tokens, dailyUsed + tokens, monthlyUsed + tokens;
      UsageIsDecidedByHistory(Hour, use);
      UsageIsDecidedByHistory(Day, use);
      UsageIsDecidedByHistory(Month, use);
      alerts := [];
      if alerting && alertThreshold > 0 {
        alerts := Alerting(Window(hourlyLimit, hourlyUsed, hourlyReset)) +
                  Alerting(Window(dailyLimit, dailyUsed, dailyReset)) +
                  Alerting(Window(monthlyLimit, monthlyUsed, monthlyReset));
      }
    }

    function Alerting(w: Window): seq<Window> { if Alerts(alertThreshold, w) then [w] else [] }
  }
}
