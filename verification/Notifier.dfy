/** internal/notifier/notifier.go: the per-channel rate limiter, the deduplication cache and Send. */
module Notifier {
  import opened Severities
  import opened Text

  // ---- rate limiter ------------------------------------------------------------------

  datatype Limiter = Limiter(count: nat, limit: int, window: int)

  const MINUTE: int := 60_000_000_000

  function Rolled(l: Limiter, now: int): Limiter {
    if now - l.window > MINUTE then l.(count := 0, window := now) else l
  }

  predicate Admits(l: Limiter, now: int) {
    !(Rolled(l, now).limit > 0 && Rolled(l, now).count >= Rolled(l, now).limit)
  }

  function Tried(l: Limiter, now: int): Limiter {
    var r := Rolled(l, now);
    if Admits(l, now) then r.(count := r.count + 1) else r
  }

  /** The clock readings of the calls on one limiter, the latest outermost. */
  datatype Calls = Begin(limit: int, start: int) | Then(prev: Calls, now: int)

  function Clock(c: Calls): int { match c case Begin(_, start) => start case Then(_, now) => now }

  predicate Ordered(c: Calls) { c.Then? ==> Ordered(c.prev) && Clock(c.prev) <= c.now }

  function After(c: Calls): Limiter {
    match c
    case Begin(limit, start) => Limiter(0, limit, start)
    case Then(prev, now) => Tried(After(prev), now)
  }

  /** When sends were let through, oldest first. */
  function Allowed(c: Calls): seq<int> {
    match c
    case Begin(_, _) => []
    case Then(prev, now) => if Admits(After(prev), now) then Allowed(prev) + [now] else Allowed(prev)
  }

  // The next two read the calls only.

  /** When the window in force began: at the last call more than a minute after the window then in
      force began. */
  function WindowStart(c: Calls): int {
    match c
    case Begin(_, start) => start
    case Then(prev, now) => if now - WindowStart(prev) > 60_000_000_000 then now else WindowStart(prev)
  }

  /** The sends let through since then: with a positive limit no more than it allows. */
  function SentInWindow(c: Calls): nat {
    match c
    case Begin(_, _) => 0
    case Then(prev, now) =>
      var before := if now - WindowStart(prev) > 60_000_000_000 then 0 else SentInWindow(prev);
      if Limit(prev) > 0 && before >= Limit(prev) then before else before + 1
  }

  /** The limiter is decided by its calls. */
  lemma {:induction false} LimiterIsDecidedByCalls(c: Calls)
    ensures After(c) == Limiter(SentInWindow(c), Limit(c), WindowStart(c))
  {
    if c.Then? { LimiterIsDecidedByCalls(c.prev); }
  }

  /** A send is let through exactly when there is no limit, the window is over, or it has room. */
  predicate LetsThrough(c: Calls, now: int) {
    Limit(c) <= 0 || now - WindowStart(c) > 60_000_000_000 || SentInWindow(c) < Limit(c)
  }

  lemma AdmittedExactlyWhen(c: Calls, now: int)
    ensures Admits(After(c), now) <==> LetsThrough(c, now)
  {
    LimiterIsDecidedByCalls(c);
  }

  /** So after a minute of silence a limiter always admits again. */
  lemma {:induction false} SilenceReopens(c: Calls, now: int)
    requires Ordered(c) && now - Clock(c) > 60_000_000_000
    ensures Admits(After(c), now)
  {
    WindowIsPast(c);
    AdmittedExactlyWhen(c, now);
  }

  lemma {:induction false} WindowIsPast(c: Calls)
    requires Ordered(c)
    ensures WindowStart(c) <= Clock(c)
  {
    if c.Then? { WindowIsPast(c.prev); }
  }

  /** The last `count` sends fell in the current window, the others not after it began, and all
      but the `limit` latest of those more than a minute before it began. */
  ghost predicate LimiterInv(l: Limiter, sent: seq<int>, clock: int) {
    l.window <= clock && l.count <= l.limit && l.count <= |sent| &&
    (forall i :: 0 <= i < |sent| ==> sent[i] <= clock) &&
    (forall i :: 0 <= i < |sent| - l.count ==> sent[i] <= l.window) &&
    (forall i :: 0 <= i < |sent| - l.count - l.limit ==> sent[i] + MINUTE < l.window)
  }

  /** Sends 2 * limit apart are more than a minute apart. */
  ghost predicate Spread(limit: int, sent: seq<int>) {
    forall i, j :: 0 <= i < |sent| && 0 <= j < |sent| && j == i + 2 * limit ==> sent[j] > sent[i] + MINUTE
  }

  function Limit(c: Calls): int { match c case Begin(limit, _) => limit case Then(prev, _) => Limit(prev) }

  lemma {:induction false} LimitIsFixed(c: Calls)
    ensures After(c).limit == Limit(c)
  {
    if c.Then? { LimitIsFixed(c.prev); }
  }

  lemma RollKeepsInv(l: Limiter, sent: seq<int>, clock: int, now: int)
    requires LimiterInv(l, sent, clock) && clock <= now
    ensures LimiterInv(Rolled(l, now), sent, now)
  {
  }

  lemma SendKeepsInv(l: Limiter, sent: seq<int>, now: int)
    requires LimiterInv(l, sent, now) && Spread(l.limit, sent) && l.count < l.limit
    ensures LimiterInv(l.(count := l.count + 1), sent + [now], now) && Spread(l.limit, sent + [now])
  {
    var more := sent + [now];
    assert forall i :: 0 <= i < |sent| ==> more[i] == sent[i];
  }

  lemma {:induction false} CallsKeepInv(c: Calls)
    requires Ordered(c) && Limit(c) > 0
    ensures LimiterInv(After(c), Allowed(c), Clock(c)) && Spread(Limit(c), Allowed(c))
  {
    if c.Then? {
      LimitIsFixed(c.prev);
      CallsKeepInv(c.prev);
      RollKeepsInv(After(c.prev), Allowed(c.prev), Clock(c.prev), c.now);
      if Admits(After(c.prev), c.now) {
        SendKeepsInv(Rolled(After(c.prev), c.now), Allowed(c.prev), c.now);
      }
    }
  }

  /** Throttling: the (2 * limit + 1)-th of consecutive sends comes more than a minute after the
      first, so no minute sees more than twice the limit. */
  lemma AtMostTwiceTheLimit(c: Calls, i: nat, j: nat)
    requires Ordered(c) && Limit(c) > 0
    requires i <= j < |Allowed(c)| && Allowed(c)[j] <= Allowed(c)[i] + MINUTE
    ensures j - i + 1 <= 2 * Limit(c)
  {
    CallsKeepInv(c);
    LimitIsFixed(c);
    if j >= i + 2 * Limit(c) {
      SentInOrder(c, i + 2 * Limit(c), j);
    }
  }

  lemma {:induction false} SentInOrder(c: Calls, i: nat, j: nat)
    requires Ordered(c) && i <= j < |Allowed(c)|
    ensures Allowed(c)[i] <= Allowed(c)[j] <= Clock(c)
  {
    if c.Then? {
      if j < |Allowed(c.prev)| {
        SentInOrder(c.prev, i, j);
      } else if i < |Allowed(c.prev)| {
        SentInOrder(c.prev, i, i);
      }
    }
  }

  // ---- deduplication -------------------------------------------------------------------

  /** The questions asked of the cache, the latest outermost. */
  datatype Asked = Nothing(start: int) | Ask(prev: Asked, key: string, now: int)

  function Time(a: Asked): int { match a case Nothing(start) => start case Ask(_, _, now) => now }

  predicate InOrder(a: Asked) { a.Ask? ==> InOrder(a.prev) && Time(a.prev) <= a.now }

  function Swept(seen: map<string, int>, ttl: int, now: int): map<string, int> {
    map k | k in seen && now - seen[k] <= ttl :: seen[k]
  }

  function Seen(ttl: int, a: Asked): map<string, int> {
    match a
    case Nothing(_) => map[]
    case Ask(prev, key, now) =>
      var seen := Swept(Seen(ttl, prev), ttl, now);
      if key in seen then seen else seen[key := now]
  }

  predicate Duplicate(ttl: int, a: Asked)
    requires a.Ask?
  {
    a.key in Swept(Seen(ttl, a.prev), ttl, a.now)
  }

  /** Was the key accepted at a time no more than ttl before now? Reads the questions only. */
  predicate AcceptedRecently(ttl: int, a: Asked, key: string, now: int) {
    a.Ask? &&
    ((a.key == key && now - a.now <= ttl && !AcceptedRecently(ttl, a.prev, key, a.now)) ||
     AcceptedRecently(ttl, a.prev, key, now))
  }

  /** The cache answers for the last acceptance of every key, swept entries aside. */
  lemma {:induction false} CacheIsHistory(ttl: int, a: Asked, key: string, now: int)
    requires InOrder(a) && Time(a) <= now
    ensures key in Swept(Seen(ttl, a), ttl, now) <==> AcceptedRecently(ttl, a, key, now)
  {
    if a.Ask? {
      CacheIsHistory(ttl, a.prev, key, a.now);
      CacheIsHistory(ttl, a.prev, key, now);
    }
  }

  /** A notification is suppressed exactly when its key was accepted within the last ttl, so the
      expiry sweeps cannot be observed. */
  lemma DuplicateMeansAcceptedRecently(ttl: int, a: Asked)
    requires a.Ask? && InOrder(a)
    ensures Duplicate(ttl, a) <==> AcceptedRecently(ttl, a.prev, a.key, a.now)
  {
    CacheIsHistory(ttl, a.prev, a.key, a.now);
  }

  // ---- Send ----------------------------------------------------------------------------

  /** No minimum severity means every notification goes to the channel. */
  datatype Channel = Channel(name: string, minimum: Option<Severity>, ratePerMinute: int)

  /** severityOrder of the notifier: unknown labels rank below info. */
  function Urgency(severity: Severity): nat {
    match severity
    case Critical => 5
    case High => 4
    case Medium => 3
    case Low => 2
    case Info => 1
    case Other(_) => 0
  }

  predicate Wants(channel: Channel, severity: Severity) {
    channel.minimum.None? || Urgency(severity) >= Urgency(channel.minimum.value)
  }

  /** By labels: a channel without a minimum wants everything, one with a minimum what is at least as
      severe, and one with an unknown minimum everything again. */
  lemma WantedByLabel(channel: Channel, severity: Severity)
    ensures Wants(channel, severity) <==>
      match channel.minimum
      case None => true
      case Some(Critical) => severity == Critical
      case Some(High) => severity in {Critical, High}
      case Some(Medium) => severity in {Critical, High, Medium}
      case Some(Low) => severity in {Critical, High, Medium, Low}
      case Some(Info) => !severity.Other?
      case Some(Other(_)) => true
  {
  }

  /** A limiter starts with the rate of the last of the first n channels that has its name. */
  ghost predicate LastNamed(channels: seq<Channel>, n: nat, name: string, c: Calls, at: seq<int>)
    requires n <= |channels| == |at|
  {
    exists i :: 0 <= i < n && channels[i].name == name && c == Begin(channels[i].ratePerMinute, at[i]) &&
                (forall j :: i < j < n ==> channels[j].name != name)
  }

  /** The limiters of the first n channels, as the constructor leaves them. */
  ghost predicate Started(channels: seq<Channel>, n: nat, at: seq<int>, limiters: map<string, Limiter>,
                          calls: map<string, Calls>)
    requires n <= |channels| == |at|
  {
    limiters.Keys == calls.Keys && (forall j :: 0 <= j < n ==> channels[j].name in limiters) &&
    (forall name :: name in calls ==> limiters[name] == After(calls[name]) && Ordered(calls[name])) &&
    (forall name :: name in calls ==> LastNamed(channels, n, name, calls[name], at))
  }

  lemma StartNext(channels: seq<Channel>, i: nat, at: seq<int>, limiters: map<string, Limiter>,
                  calls: map<string, Calls>)
    requires i < |channels| == |at| && Started(channels, i, at, limiters, calls)
    ensures var name, rate := channels[i].name, channels[i].ratePerMinute;
      Started(channels, i + 1, at, limiters[name := Limiter(0, rate, at[i])], calls[name := Begin(rate, at[i])])
  {
    var after := calls[channels[i].name := Begin(channels[i].ratePerMinute, at[i])];
    forall name | name in after ensures LastNamed(channels, i + 1, name, after[name], at) {
      if name != channels[i].name {
        assert LastNamed(channels, i, name, calls[name], at);
      }
    }
  }

  /** How many of the tried channels have this name. */
  function Tries(channels: seq<Channel>, attempts: seq<nat>, name: string): nat {
    if attempts == [] then 0
    else
      var last := attempts[|attempts| - 1];
      Tries(channels, attempts[..|attempts| - 1], name) +
      if last < |channels| && channels[last].name == name then 1 else 0
  }

  /** One clock reading per channel, none before an earlier one. */
  ghost predicate Rising(channels: seq<Channel>, from: int, at: seq<int>) {
    |at| == |channels| && (forall i :: 0 <= i < |at| ==> from <= at[i]) &&
    (forall i, j :: 0 <= i < j < |at| ==> at[i] <= at[j])
  }

  /** The last reading once n channels are done. */
  function Reached(from: int, at: seq<int>, n: nat): int
    requires n <= |at|
  {
    if n == 0 then from else at[n - 1]
  }

  /** A limiter's calls after the first n channels: one for each that has its name and wants the
      severity, at that channel's reading. */
  function Asking(channels: seq<Channel>, severity: Severity, n: nat, name: string, at: seq<int>, c: Calls): Calls
    requires n <= |channels| == |at|
  {
    if n == 0 then c
    else
      var earlier := Asking(channels, severity, n - 1, name, at, c);
      if Wants(channels[n - 1], severity) && channels[n - 1].name == name then Then(earlier, at[n - 1]) else earlier
  }

  /** Every limiter was asked for the first n channels of its name that want the severity, and the
      tries are exactly the sends it let through. */
  ghost predicate Counted(channels: seq<Channel>, severity: Severity, n: nat, at: seq<int>,
                          before: map<string, Calls>, calls: map<string, Calls>, attempts: seq<nat>)
    requires n <= |channels| == |at|
  {
    calls.Keys == before.Keys &&
    forall name :: name in calls ==> CountedFor(channels, severity, n, at, name, before[name], calls[name], attempts)
  }

  ghost predicate CountedFor(channels: seq<Channel>, severity: Severity, n: nat, at: seq<int>, name: string,
                             before: Calls, calls: Calls, attempts: seq<nat>)
    requires n <= |channels| == |at|
  {
    calls == Asking(channels, severity, n, name, at, before) &&
    |Allowed(calls)| == |Allowed(before)| + Tries(channels, attempts, name)
  }

  lemma TriesGrow(channels: seq<Channel>, attempts: seq<nat>, i: nat, name: string)
    requires i < |channels|
    ensures Tries(channels, attempts + [i], name) ==
      Tries(channels, attempts, name) + if channels[i].name == name then 1 else 0
  {
    assert (attempts + [i])[..|attempts|] == attempts;
  }

  lemma TryIsCounted(channels: seq<Channel>, severity: Severity, i: nat, at: seq<int>,
                     before: map<string, Calls>, calls: map<string, Calls>, attempts: seq<nat>)
    requires i < |channels| == |at| && channels[i].name in calls && Wants(channels[i], severity)
    requires Counted(channels, severity, i, at, before, calls, attempts)
    ensures var name := channels[i].name;
            Counted(channels, severity, i + 1, at, before, calls[name := Then(calls[name], at[i])],
                    if Admits(After(calls[name]), at[i]) then attempts + [i] else attempts)
  {
    var asked := channels[i].name;
    var more := if Admits(After(calls[asked]), at[i]) then attempts + [i] else attempts;
    var after := calls[asked := Then(calls[asked], at[i])];
    forall name | name in after
      ensures CountedFor(channels, severity, i + 1, at, name, before[name], after[name], more)
    {
      assert CountedFor(channels, severity, i, at, name, before[name], calls[name], attempts);
      TriesGrow(channels, attempts, i, name);
    }
  }

  lemma SkipIsCounted(channels: seq<Channel>, severity: Severity, i: nat, at: seq<int>,
                      before: map<string, Calls>, calls: map<string, Calls>, attempts: seq<nat>)
    requires i < |channels| == |at| && !Wants(channels[i], severity)
    requires Counted(channels, severity, i, at, before, calls, attempts)
    ensures Counted(channels, severity, i + 1, at, before, calls, attempts)
  {
  }

  /** Channel i wants the severity, and its limiter admits a send after it was asked for all the
      earlier channels of that name. */
  ghost predicate Passes(channels: seq<Channel>, severity: Severity, at: seq<int>, before: map<string, Calls>, i: nat)
    requires i < |channels| == |at|
  {
    var name := channels[i].name;
    Wants(channels[i], severity) && name in before &&
    LetsThrough(Asking(channels, severity, i, name, at, before[name]), at[i])
  }

  /** The first n channels that pass, in order. */
  ghost function Passing(channels: seq<Channel>, severity: Severity, n: nat, at: seq<int>,
                         before: map<string, Calls>): seq<nat>
    requires n <= |channels| == |at|
  {
    if n == 0 then []
    else Passing(channels, severity, n - 1, at, before) +
         if Passes(channels, severity, at, before, n - 1) then [n - 1] else []
  }

  /** Each of them once, by increasing index, and no other. */
  lemma {:induction false} PassingContents(channels: seq<Channel>, severity: Severity, n: nat, at: seq<int>,
                                           before: map<string, Calls>, i: nat, k: nat)
    requires n <= |channels| == |at|
    ensures var passing := Passing(channels, severity, n, at, before);
      (i in passing <==> i < n && Passes(channels, severity, at, before, i)) &&
      (k < |passing| ==> passing[k] < n && (k + 1 < |passing| ==> passing[k] < passing[k + 1]))
  {
    if n > 0 {
      var front := Passing(channels, severity, n - 1, at, before);
      PassingContents(channels, severity, n - 1, at, before, i, k);
      var pass := Passes(channels, severity, at, before, n - 1);
      assert Passing(channels, severity, n, at, before) == if pass then front + [n - 1] else front;
    }
  }

  const DEDUP_TTL: int := 15 * MINUTE

  class Notifier {
    const channels: seq<Channel>
    var seen: map<string, int>
    /** One limiter per channel name; channels of one name share the last one's limit. */
    var limiters: map<string, Limiter>

    ghost var asked: Asked
    ghost var calls: map<string, Calls>

    ghost predicate Valid()
      reads this
    {
      seen == Seen(DEDUP_TTL, asked) && InOrder(asked) && LimitersValid()
    }

    ghost predicate LimitersValid()
      reads this`limiters, this`calls
    {
      limiters.Keys == calls.Keys &&
      (forall i :: 0 <= i < |channels| ==> channels[i].name in limiters) &&
      (forall name :: name in calls ==> limiters[name] == After(calls[name]) && Ordered(calls[name]))
    }

    /** No call on any limiter is later than this. */
    ghost predicate QuietSince(now: int)
      reads this`calls
    {
      forall name :: name in calls ==> Clock(calls[name]) <= now
    }

    constructor (channels: seq<Channel>, start: int, at: seq<int>, now: int)
      requires Rising(channels, start, at) && start <= now && forall i :: 0 <= i < |at| ==> at[i] <= now
      ensures Valid() && QuietSince(now) && this.channels == channels
      ensures asked == Nothing(now)
      ensures forall name :: name in calls ==> LastNamed(channels, |channels|, name, calls[name], at)
    {
      this.channels := channels;
      seen, asked := map[], Nothing(now);
      limiters, calls := map[], map[];
      new;
      for i := 0 to |channels|
        invariant seen == map[] && asked == Nothing(now)
        invariant Started(channels, i, at, limiters, calls)
      {
        StartNext(channels, i, at, limiters, calls);
        limiters := limiters[channels[i].name := Limiter(0, channels[i].ratePerMinute, at[i])];
        calls := calls[channels[i].name := Begin(channels[i].ratePerMinute, at[i])];
      }
    }

    method IsDuplicate(key: string, now: int) returns (duplicate: bool)
      requires Valid() && Time(asked) <= now
      modifies this`seen, this`asked
      ensures Valid() && asked == Ask(old(asked), key, now)
      ensures duplicate <==> AcceptedRecently(900_000_000_000, old(asked), key, now)
    {
      ghost var before := asked;
      asked := Ask(asked, key, now);
      var left := seen.Keys;
      var kept: map<string, int> := seen;
      while left != {}
        invariant left <= seen.Keys && kept.Keys <= seen.Keys
        invariant forall k :: k in seen ==> (k in kept <==> k in left || now - seen[k] <= DEDUP_TTL)
        invariant forall k :: k in kept ==> kept[k] == seen[k]
        decreases |left|
      {
        var k :| k in left;
        left := left - {k};
        if now - seen[k] > DEDUP_TTL {
          kept := kept - {k};
        }
      }
      assert kept == Swept(seen, DEDUP_TTL, now);
      CacheIsHistory(DEDUP_TTL, before, key, now);
      duplicate := key in kept;
      seen := if duplicate then kept else kept[key := now];
    }

    method Allow(name: string, now: int) returns (admitted: bool)
      requires LimitersValid() && QuietSince(now) && name in limiters
      modifies this`limiters, this`calls
      ensures LimitersValid() && QuietSince(now)
      ensures calls == old(calls)[name := Then(old(calls)[name], now)]
      ensures admitted == Admits(After(old(calls)[name]), now) == LetsThrough(old(calls)[name], now)
    {
      AdmittedExactlyWhen(calls[name], now);
      var l := limiters[name];
      if now - l.window > MINUTE {
        l := l.(count := 0, window := now);
      }
      admitted := !(l.limit > 0 && l.count >= l.limit);
      limiters := limiters[name := if admitted then l.(count := l.count + 1) else l];
      calls := calls[name := Then(calls[name], now)];
    }

    method TryChannel(i: nat, severity: Severity, from: int, at: seq<int>, ghost before: map<string, Calls>,
                      attempts: seq<nat>)
      returns (more: seq<nat>)
      requires Rising(channels, from, at) && i < |channels| && Routing(severity, i, from, at, before, attempts)
      modifies this`limiters, this`calls
      ensures Routing(severity, i + 1, from, at, before, more)
    {
      more := attempts;
      assert Reached(from, at, i) <= at[i];
      if Wants(channels[i], severity) {
        TryIsCounted(channels, severity, i, at, before, calls, attempts);
        var admitted := Allow(channels[i].name, at[i]);
        if admitted {
          more := attempts + [i];
        }
      } else {
        SkipIsCounted(channels, severity, i, at, before, calls, attempts);
      }
    }

    /** A channel is tried exactly when it wants the severity and its limiter lets the send
        through, in the channels' order. */
    method Route(severity: Severity, from: int, at: seq<int>) returns (attempts: seq<nat>)
      requires LimitersValid() && QuietSince(from) && Rising(channels, from, at)
      modifies this`limiters, this`calls
      ensures Routing(severity, |channels|, from, at, old(calls), attempts)
    {
      attempts := [];
      ghost var before := calls;
      RoutingStarts(severity, from, at);
      for i := 0 to |channels|
        invariant Routing(severity, i, from, at, before, attempts)
      {
        attempts := TryChannel(i, severity, from, at, before, attempts);
      }
    }

    lemma RoutingStarts(severity: Severity, from: int, at: seq<int>)
      requires LimitersValid() && QuietSince(from) && |at| == |channels|
      ensures Routing(severity, 0, from, at, calls, [])
    {
    }

    /** What holds after the first n channels. */
    ghost predicate Routing(severity: Severity, n: nat, from: int, at: seq<int>, before: map<string, Calls>,
                            attempts: seq<nat>)
      requires n <= |channels| == |at|
      reads this`limiters, this`calls
    {
      LimitersValid() && QuietSince(Reached(from, at, n)) &&
      Counted(channels, severity, n, at, before, calls, attempts) &&
      attempts == Passing(channels, severity, n, at, before)
    }

    /** Delivery itself is not modelled: `attempts` are the channels a delivery is tried on, and
        `at` the readings of their limiters, each after the delivery before it. A duplicate is
        tried nowhere; anything else is recorded as accepted before it is routed. */
    method Send(key: string, severity: Severity, now: int, at: seq<int>) returns (attempts: seq<nat>)
      requires Valid() && QuietSince(now) && Time(asked) <= now && Rising(channels, now, at)
      modifies this
      ensures Valid() && QuietSince(Reached(now, at, |channels|)) && asked == Ask(old(asked), key, now)
      ensures if AcceptedRecently(900_000_000_000, old(asked), key, now) then attempts == [] && calls == old(calls)
              else Counted(channels, severity, |channels|, at, old(calls), calls, attempts) &&
                   attempts == Passing(channels, severity, |channels|, at, old(calls))
    {
      var duplicate := IsDuplicate(key, now);
      if duplicate { return []; }
      attempts := Route(severity, now, at);
    }
  }
}
