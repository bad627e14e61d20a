/** internal/events/events.go: the event bus.

    Publish appends under the write lock, releases it, and then sends to every subscriber under
    the read lock, one non-blocking send at a time. The steps below are the places where
    goroutines interleave; subscribing, cancelling and appending need the write lock and so wait
    for every publisher that is still sending. */
module EventBus {
  import opened Text

  datatype Event = Event(id: string, kind: string, stage: string, title: string, timestamp: int,
                         meta: map<string, string>)

  /** One publication. The ordinal is its place in the order of all appends. */
  datatype Post = Post(ordinal: nat, publisher: nat, event: Event)

  /** `received` and `dropped` record what the reader took out and what a full queue turned away. */
  datatype Channel = Channel(queue: seq<Post>, received: seq<Post>, dropped: set<Post>, closed: bool)

  /** Where a publisher is between the two critical sections of Publish. */
  datatype Phase = Appended(post: Post) | Sending(post: Post, pending: set<nat>)

  /** `panicked` is set by a send on a closed channel and by closing a channel twice. */
  datatype State = State(buffer: seq<Post>, seqNo: nat, subscribers: set<nat>, channels: map<nat, Channel>,
                         phases: map<nat, Phase>, history: seq<Post>, panicked: bool)

  datatype Op =
    | Append(publisher: nat, event: Event, given: Option<int>, now: int)
    | BeginSend(publisher: nat)
    | Send(publisher: nat, channel: nat)
    | EndSend(publisher: nat)
    | Subscribe(channel: nat)
    | Cancel(channel: nat)
    | Receive(channel: nat)

  const CHANNEL_CAPACITY: nat := 64
  const DEFAULT_CAPACITY: nat := 500
  const DEFAULT_LIMIT: nat := 100

  /** The capacity NewBus settles on. */
  function Capacity(requested: int): (c: nat)
    ensures c > 0
  {
    if requested <= 0 then DEFAULT_CAPACITY else requested
  }

  function Last<T>(n: nat, s: seq<T>): seq<T> { if |s| <= n then s else s[|s| - n..] }

  // ---- steps ---------------------------------------------------------------------------

  predicate WriteLockFree(phases: map<nat, Phase>) { forall p :: p in phases ==> phases[p].Appended? }

  function Signed(n: int): string { if n < 0 then "-" + Decimal(-n) else Decimal(n) }

  function GeneratedId(timestamp: int, n: nat): string { "evt-" + Signed(timestamp) + "-" + Decimal(n) }

  /** The copy Publish keeps: stamped, and numbered when it came without an identifier. */
  function Sealed(event: Event, given: Option<int>, now: int, seqNo: nat): Event {
    var at := if given.Some? then given.value else now;
    event.(timestamp := at, id := if event.id == "" then GeneratedId(at, seqNo + 1) else event.id)
  }

  function Appending(capacity: nat, s: State, p: nat, event: Event, given: Option<int>, now: int): State {
    var post := Post(|s.history|, p, Sealed(event, given, now, s.seqNo));
    s.(buffer := Last(capacity, s.buffer + [post]), seqNo := if event.id == "" then s.seqNo + 1 else s.seqNo,
       phases := s.phases[p := Appended(post)], history := s.history + [post])
  }

  function Offered(c: Channel, post: Post): Channel {
    if |c.queue| < CHANNEL_CAPACITY then c.(queue := c.queue + [post]) else c.(dropped := c.dropped + {post})
  }

  function Sent(s: State, p: nat, ch: nat): State
    requires p in s.phases && s.phases[p].Sending? && ch in s.channels
  {
    var phase := s.phases[p];
    s.(channels := s.channels[ch := Offered(s.channels[ch], phase.post)],
       phases := s.phases[p := Sending(phase.post, phase.pending - {ch})],
       panicked := s.panicked || s.channels[ch].closed)
  }

  function Cancelled(s: State, ch: nat): State
    requires ch in s.channels
  {
    if ch !in s.subscribers then s
    else s.(subscribers := s.subscribers - {ch}, channels := s.channels[ch := s.channels[ch].(closed := true)],
            panicked := s.panicked || s.channels[ch].closed)
  }

  function Taken(c: Channel): Channel
    requires c.queue != []
  {
    c.(queue := c.queue[1..], received := c.received + [c.queue[0]])
  }

  ghost predicate Step(capacity: nat, s: State, op: Op, s': State) {
    match op
    case Append(p, event, given, now) =>
      p !in s.phases && WriteLockFree(s.phases) && s' == Appending(capacity, s, p, event, given, now)
    case BeginSend(p) =>
      p in s.phases && s.phases[p].Appended? &&
      s' == s.(phases := s.phases[p := Sending(s.phases[p].post, s.subscribers)])
    case Send(p, ch) =>
      p in s.phases && s.phases[p].Sending? && ch in s.phases[p].pending && ch in s.channels && s' == Sent(s, p, ch)
    case EndSend(p) =>
      p in s.phases && s.phases[p].Sending? && s.phases[p].pending == {} && s' == s.(phases := s.phases - {p})
    case Subscribe(ch) =>
      ch !in s.channels && WriteLockFree(s.phases) &&
      s' == s.(subscribers := s.subscribers + {ch}, channels := s.channels[ch := Channel([], [], {}, false)])
    case Cancel(ch) => ch in s.channels && WriteLockFree(s.phases) && s' == Cancelled(s, ch)
    case Receive(ch) =>
      ch in s.channels && s.channels[ch].queue != [] && s' == s.(channels := s.channels[ch := Taken(s.channels[ch])])
  }

  const Start: State := State([], 0, {}, map[], map[], [], false)

  datatype Run = Begin | Then(prev: Run, op: Op, state: State)

  function End(r: Run): State { match r case Begin => Start case Then(_, _, state) => state }

  ghost predicate Legal(capacity: nat, r: Run) {
    r.Then? ==> Legal(capacity, r.prev) && Step(capacity, End(r.prev), r.op, r.state)
  }

  // ---- the invariant -------------------------------------------------------------------

  /** Everything a channel accepted, oldest first. */
  function Delivered(c: Channel): seq<Post> { c.received + c.queue }

  predicate Genuine(posts: seq<Post>, history: seq<Post>) {
    forall i :: 0 <= i < |posts| ==> posts[i].ordinal < |history| && posts[i] == history[posts[i].ordinal]
  }

  /** Posts of one publisher appear in the order they were published. */
  predicate InOrder(posts: seq<Post>) {
    forall i, j :: 0 <= i < j < |posts| && posts[i].publisher == posts[j].publisher ==>
      posts[i].ordinal < posts[j].ordinal
  }

  /** What the publisher of `post` delivered here so far is older than `post`. */
  predicate Older(posts: seq<Post>, post: Post) {
    forall i :: 0 <= i < |posts| && posts[i].publisher == post.publisher ==> posts[i].ordinal < post.ordinal
  }

  predicate ChannelInv(c: Channel, history: seq<Post>) {
    |c.queue| <= CHANNEL_CAPACITY && Genuine(Delivered(c), history) && InOrder(Delivered(c))
  }

  /** Where the publisher's post stands at one channel. */
  predicate PhaseInv(phase: Phase, ch: nat, c: Channel, subscribed: bool) {
    match phase
    case Appended(post) => Older(Delivered(c), post)
    case Sending(post, pending) =>
      if ch in pending then subscribed && Older(Delivered(c), post)
      else subscribed ==> post in Delivered(c) || post in c.dropped
  }

  predicate PostInv(p: nat, post: Post, history: seq<Post>) {
    post.publisher == p && post.ordinal < |history| && post == history[post.ordinal]
  }

  ghost predicate Inv(capacity: nat, s: State) {
    !s.panicked && s.buffer == Last(capacity, s.history) &&
    (forall i :: 0 <= i < |s.history| ==> s.history[i].ordinal == i) &&
    (forall ch :: ch in s.subscribers <==> ch in s.channels && !s.channels[ch].closed) &&
    (forall ch :: ch in s.channels ==> ChannelInv(s.channels[ch], s.history)) &&
    (forall p :: p in s.phases ==> PostInv(p, s.phases[p].post, s.history)) &&
    (forall p :: p in s.phases && s.phases[p].Sending? ==> s.phases[p].pending <= s.subscribers) &&
    (forall p, ch :: p in s.phases && ch in s.channels ==>
      PhaseInv(s.phases[p], ch, s.channels[ch], ch in s.subscribers))
  }

  lemma AppendKeepsInv(capacity: nat, s: State, p: nat, event: Event, given: Option<int>, now: int)
    requires capacity > 0 && Inv(capacity, s) && p !in s.phases
    ensures Inv(capacity, Appending(capacity, s, p, event, given, now))
  {
    var s' := Appending(capacity, s, p, event, given, now);
    var post := s'.phases[p].post;
    forall ch | ch in s.channels
      ensures ChannelInv(s.channels[ch], s'.history) && PhaseInv(s'.phases[p], ch, s.channels[ch], ch in s.subscribers)
    {
      assert ChannelInv(s.channels[ch], s.history);
    }
    forall q | q in s'.phases ensures PostInv(q, s'.phases[q].post, s'.history) {
      assert q != p ==> PostInv(q, s.phases[q].post, s.history);
    }
  }

  /** Offering a post that is newer than all its publisher delivered before. */
  lemma OfferKeepsChannel(c: Channel, post: Post, p: nat, history: seq<Post>)
    requires ChannelInv(c, history) && PostInv(p, post, history) && Older(Delivered(c), post)
    ensures ChannelInv(Offered(c, post), history)
    ensures Delivered(Offered(c, post)) == Delivered(c) || Delivered(Offered(c, post)) == Delivered(c) + [post]
    ensures post in Delivered(Offered(c, post)) || post in Offered(c, post).dropped
  {
    if |c.queue| < CHANNEL_CAPACITY {
      var more := Delivered(Offered(c, post));
      assert more == Delivered(c) + [post];
      assert more[|more| - 1] == post;
    }
  }

  lemma OfferKeepsOthers(c: Channel, post: Post, phase: Phase, ch: nat, subscribed: bool)
    requires phase.post.publisher != post.publisher && PhaseInv(phase, ch, c, subscribed)
    ensures PhaseInv(phase, ch, Offered(c, post), subscribed)
  {
    if |c.queue| < CHANNEL_CAPACITY {
      assert Delivered(Offered(c, post)) == Delivered(c) + [post];
    }
  }

  lemma SendKeepsInv(capacity: nat, s: State, p: nat, ch: nat)
    requires Inv(capacity, s) && p in s.phases && s.phases[p].Sending? && ch in s.phases[p].pending && ch in s.channels
    ensures Inv(capacity, Sent(s, p, ch))
  {
    var s', post := Sent(s, p, ch), s.phases[p].post;
    assert PhaseInv(s.phases[p], ch, s.channels[ch], ch in s.subscribers);
    OfferKeepsChannel(s.channels[ch], post, p, s.history);
    forall q, other | q in s'.phases && other in s'.channels
      ensures PhaseInv(s'.phases[q], other, s'.channels[other], other in s'.subscribers)
    {
      assert PhaseInv(s.phases[q], other, s.channels[other], other in s.subscribers);
      assert PostInv(q, s.phases[q].post, s.history);
      if other == ch && q != p {
        OfferKeepsOthers(s.channels[ch], post, s.phases[q], ch, ch in s.subscribers);
      }
    }
    forall q | q in s'.phases ensures PostInv(q, s'.phases[q].post, s'.history) {
      assert PostInv(q, s.phases[q].post, s.history);
    }
  }

  lemma BeginKeepsInv(capacity: nat, s: State, p: nat, s': State)
    requires Inv(capacity, s) && Step(capacity, s, BeginSend(p), s')
    ensures Inv(capacity, s')
  {
    forall q, ch | q in s'.phases && ch in s'.channels
      ensures PhaseInv(s'.phases[q], ch, s'.channels[ch], ch in s'.subscribers)
    {
      assert PhaseInv(s.phases[q], ch, s.channels[ch], ch in s.subscribers);
    }
    forall q | q in s'.phases ensures PostInv(q, s'.phases[q].post, s'.history) {
      assert PostInv(q, s.phases[q].post, s.history);
    }
  }

  /** The steps that need the write lock and change no post. */
  lemma SubscriptionKeepsInv(capacity: nat, s: State, op: Op, s': State)
    requires Inv(capacity, s) && (op.Subscribe? || op.Cancel?) && Step(capacity, s, op, s')
    ensures Inv(capacity, s')
  {
    forall q, ch | q in s'.phases && ch in s'.channels
      ensures PhaseInv(s'.phases[q], ch, s'.channels[ch], ch in s'.subscribers)
    {
      if ch in s.channels {
        assert PhaseInv(s.phases[q], ch, s.channels[ch], ch in s.subscribers);
      }
    }
    forall ch | ch in s'.channels ensures ChannelInv(s'.channels[ch], s'.history) {
      if ch in s.channels {
        assert ChannelInv(s.channels[ch], s.history);
      }
    }
  }

  lemma ReceiveKeepsInv(capacity: nat, s: State, ch: nat, s': State)
    requires Inv(capacity, s) && Step(capacity, s, Receive(ch), s')
    ensures Inv(capacity, s')
  {
    var c := s.channels[ch];
    assert ChannelInv(c, s.history);
    assert Delivered(Taken(c)) == Delivered(c) by { assert c.queue == [c.queue[0]] + c.queue[1..]; }
    forall q, other | q in s'.phases && other in s'.channels
      ensures PhaseInv(s'.phases[q], other, s'.channels[other], other in s'.subscribers)
    {
      assert PhaseInv(s.phases[q], other, s.channels[other], other in s.subscribers);
    }
  }

  lemma StepKeepsInv(capacity: nat, s: State, op: Op, s': State)
    requires capacity > 0 && Inv(capacity, s) && Step(capacity, s, op, s')
    ensures Inv(capacity, s')
  {
    match op
    case Append(p, event, given, now) => AppendKeepsInv(capacity, s, p, event, given, now);
    case BeginSend(p) => BeginKeepsInv(capacity, s, p, s');
    case Send(p, ch) => SendKeepsInv(capacity, s, p, ch);
    case EndSend(p) =>
    case Subscribe(_) => SubscriptionKeepsInv(capacity, s, op, s');
    case Cancel(_) => SubscriptionKeepsInv(capacity, s, op, s');
    case Receive(ch) => ReceiveKeepsInv(capacity, s, ch, s');
  }

  lemma {:induction false} RunKeepsInv(capacity: nat, r: Run)
    requires capacity > 0 && Legal(capacity, r)
    ensures Inv(capacity, End(r))
  {
    if r.Then? {
      RunKeepsInv(capacity, r.prev);
      StepKeepsInv(capacity, End(r.prev), r.op, r.state);
    }
  }

  // ---- what holds after every interleaving ------------------------------------------------

  /** Nothing is sent on a closed channel and no channel is closed twice; no channel holds more
      than its capacity; the buffer is the tail of all that was appended. */
  lemma NothingPanics(capacity: nat, r: Run)
    requires capacity > 0 && Legal(capacity, r)
    ensures !End(r).panicked
    ensures forall ch :: ch in End(r).channels ==> |End(r).channels[ch].queue| <= 64
    ensures var n := |End(r).buffer|;
      n == (if |End(r).history| < capacity then |End(r).history| else capacity) &&
      End(r).buffer == End(r).history[|End(r).history| - n..]
  {
    RunKeepsInv(capacity, r);
    forall ch | ch in End(r).channels ensures |End(r).channels[ch].queue| <= CHANNEL_CAPACITY {
      assert ChannelInv(End(r).channels[ch], End(r).history);
    }
  }

  /** A subscriber sees each publication at most once, sees only what was published, and sees one
      publisher's events in publish order. */
  lemma DeliveryIsOrderedAndOnce(capacity: nat, r: Run, ch: nat, i: nat, j: nat)
    requires capacity > 0 && Legal(capacity, r) && ch in End(r).channels
    requires i <= j < |Delivered(End(r).channels[ch])|
    ensures var posts := Delivered(End(r).channels[ch]);
      posts[i] in End(r).history && posts[j] in End(r).history &&
      (i < j ==> posts[i].ordinal != posts[j].ordinal) &&
      (i < j && posts[i].publisher == posts[j].publisher ==> posts[i].ordinal < posts[j].ordinal)
  {
    RunKeepsInv(capacity, r);
    assert ChannelInv(End(r).channels[ch], End(r).history);
  }

  /** When a publisher is done, every subscriber has the event or had a full queue. */
  lemma FinishedPublishIsAccountedFor(capacity: nat, r: Run, p: nat, ch: nat)
    requires capacity > 0 && r.Then? && Legal(capacity, r) && r.op == EndSend(p) && ch in End(r).subscribers
    ensures ch in End(r).channels
    ensures var c := End(r).channels[ch]; var post := End(r.prev).phases[p].post;
      post in Delivered(c) || post in c.dropped
  {
    RunKeepsInv(capacity, r);
    RunKeepsInv(capacity, r.prev);
    assert PhaseInv(End(r.prev).phases[p], ch, End(r).channels[ch], true);
  }

  /** At some point of the run the post was sent to this channel while its queue was full. */
  ghost predicate MetFullQueue(r: Run, ch: nat, post: Post) {
    r.Then? && (SentToFull(End(r.prev), r.op, ch, post) || MetFullQueue(r.prev, ch, post))
  }

  predicate SentToFull(s: State, op: Op, ch: nat, post: Post) {
    op.Send? && op.channel == ch && ch in s.channels && |s.channels[ch].queue| >= 64 &&
    op.publisher in s.phases && s.phases[op.publisher].post == post
  }

  /** Whatever a channel dropped met its full queue at some point of the run. */
  lemma {:induction false} DroppedMeansFull(capacity: nat, r: Run, ch: nat, post: Post)
    requires Legal(capacity, r) && ch in End(r).channels && post in End(r).channels[ch].dropped
    ensures MetFullQueue(r, ch, post)
  {
    if r.Then? && !SentToFull(End(r.prev), r.op, ch, post) {
      OnlyFullQueuesDrop(capacity, End(r.prev), r.op, r.state, ch, post);
      DroppedMeansFull(capacity, r.prev, ch, post);
    }
  }

  lemma OnlyFullQueuesDrop(capacity: nat, s: State, op: Op, s': State, ch: nat, post: Post)
    requires Step(capacity, s, op, s') && ch in s'.channels && post in s'.channels[ch].dropped
    ensures ch in s.channels
    ensures post in s.channels[ch].dropped || SentToFull(s, op, ch, post)
  {
  }

  /** What a publication keeps of the event: everything, except that a missing time is the reading
      and a missing identifier is generated with the next number. */
  lemma SealingKeepsTheEvent(event: Event, given: Option<int>, now: int, seqNo: nat)
    ensures var kept := Sealed(event, given, now, seqNo);
      kept.kind == event.kind && kept.stage == event.stage && kept.title == event.title && kept.meta == event.meta &&
      (event.id != "" ==> kept.id == event.id) && (given.Some? ==> kept.timestamp == given.value) &&
      (given.None? ==> kept.timestamp == now) &&
      (event.id == "" ==>
        HasPrefix(kept.id, "evt-") && kept.id == "evt-" + Signed(kept.timestamp) + "-" + Decimal(seqNo + 1))
  {
  }

  // ---- generated identifiers --------------------------------------------------------------

  /** Two generated identifiers with different sequence numbers differ, whatever the clock says. */
  lemma GeneratedIdsNeverCollide(t1: int, n1: nat, t2: int, n2: nat)
    requires GeneratedId(t1, n1) == GeneratedId(t2, n2)
    ensures n1 == n2
  {
    IdEndsInNumber(t1, n1);
    IdEndsInNumber(t2, n2);
    NumeralOfDecimal(n1);
    NumeralOfDecimal(n2);
  }

  lemma IdEndsInNumber(t: int, n: nat)
    ensures var parts := Split(GeneratedId(t, n), '-'); parts[|parts| - 1] == Decimal(n)
  {
    var head := "evt-" + Signed(t);
    assert GeneratedId(t, n) == head + ['-'] + Decimal(n);
    SplitAppend(head, '-', Decimal(n));
    SplitWithout(Decimal(n), '-');
  }

  // ---- the buffer ---------------------------------------------------------------------------

  predicate Matches(post: Post, stage: string) { stage == "" || post.event.stage == stage }

  function Matching(posts: seq<Post>, stage: string): seq<Post> {
    if posts == [] then []
    else (if Matches(posts[0], stage) then [posts[0]] else []) + Matching(posts[1..], stage)
  }

  lemma Regroup(a: seq<Post>, b: seq<Post>, c: seq<Post>)
    ensures (a + b) + c == a + (b + c)
  {
  }

  lemma {:induction false} MatchingAppend(a: seq<Post>, b: seq<Post>, stage: string)
    ensures Matching(a + b, stage) == Matching(a, stage) + Matching(b, stage)
  {
    var all := a + b;
    if a == [] {
      assert all == b;
    } else {
      var rest := a[1..];
      assert all[0] == a[0] && all[1..] == rest + b;
      MatchingAppend(rest, b, stage);
      var head := if Matches(a[0], stage) then [a[0]] else [];
      assert Matching(all, stage) == head + Matching(rest + b, stage);
      assert Matching(a, stage) == head + Matching(rest, stage);
      Regroup(head, Matching(rest, stage), Matching(b, stage));
    }
  }

  /** Matching keeps exactly the posts of the stage, or all of them for an empty stage, in order. */
  lemma {:induction false} MatchingContents(posts: seq<Post>, stage: string, post: Post)
    ensures post in Matching(posts, stage) <==> post in posts && (stage == "" || post.event.stage == stage)
  {
    if posts != [] {
      MatchingContents(posts[1..], stage, post);
      assert posts == [posts[0]] + posts[1..];
    }
  }

  predicate Ascending(posts: seq<Post>) {
    forall i, j :: 0 <= i < j < |posts| ==> posts[i].ordinal < posts[j].ordinal
  }

  lemma {:induction false} MatchingKeepsOrder(posts: seq<Post>, stage: string)
    requires Ascending(posts)
    ensures Ascending(Matching(posts, stage))
  {
    if posts != [] {
      var rest := posts[1..];
      MatchingKeepsOrder(rest, stage);
      forall i | 0 <= i < |Matching(rest, stage)| ensures posts[0].ordinal < Matching(rest, stage)[i].ordinal {
        MatchingContents(rest, stage, Matching(rest, stage)[i]);
        var k :| 0 <= k < |rest| && rest[k] == Matching(rest, stage)[i];
        assert posts[k + 1] == rest[k];
      }
    }
  }

  predicate NewestFirst(out: seq<Post>, posts: seq<Post>) {
    |out| <= |posts| && forall i :: 0 <= i < |out| ==> out[i] == posts[|posts| - 1 - i]
  }

  /** The bus with its channels, and how far each running Publish has come. A method is one of the
      sections between which goroutines interleave; what it requires of `phases` is what the lock
      makes it wait for. */
  class Bus {
    var subscribers: set<nat>
    var buffer: seq<Post>
    var seqNo: nat
    var channels: map<nat, Channel>
    var phases: map<nat, Phase>
    var panicked: bool
    /** Supplies the ordinal of the next publication. */
    var appended: nat
    const capacity: nat
    ghost var history: seq<Post>

    ghost function Now(): State
      reads this
    {
      State(buffer, seqNo, subscribers, channels, phases, history, panicked)
    }

    ghost predicate Valid()
      reads this
    {
      capacity > 0 && appended == |history| && Inv(capacity, Now())
    }

    constructor (requested: int)
      ensures Valid() && capacity == (if requested <= 0 then 500 else requested) && Now() == Start
    {
      capacity := Capacity(requested);
      buffer, seqNo, subscribers, channels, phases := [], 0, {}, map[], map[];
      panicked, appended, history := false, 0, [];
    }

    /** The first critical section of Publish. */
    method Append(p: nat, event: Event, given: Option<int>, now: int)
      requires Valid() && p !in phases && WriteLockFree(phases)
      modifies this
      ensures Valid() && Step(capacity, old(Now()), Op.Append(p, event, given, now), Now())
    {
      ghost var s := Now();
      AppendKeepsInv(capacity, s, p, event, given, now);
      var post := Post(appended, p, Sealed(event, given, now, seqNo));
      if event.id == "" { seqNo := seqNo + 1; }
      Keep(post);
      appended, history := appended + 1, history + [post];
      phases := phases[p := Appended(post)];
      assert Now() == Appending(capacity, s, p, event, given, now);
    }

    /** Appends to the buffer and drops what exceeds the capacity. */
    method Keep(post: Post)
      modifies this`buffer
      ensures buffer == Last(capacity, old(buffer) + [post])
    {
      buffer := buffer + [post];
      if |buffer| > capacity {
        buffer := buffer[|buffer| - capacity..];
      }
    }

    /** Publish takes the read lock and sees the subscribers of this moment. */
    method BeginSend(p: nat)
      requires Valid() && p in phases && phases[p].Appended?
      modifies this`phases
      ensures Valid() && Step(capacity, old(Now()), Op.BeginSend(p), Now())
    {
      phases := phases[p := Sending(phases[p].post, subscribers)];
      BeginKeepsInv(capacity, old(Now()), p, Now());
    }

    /** One non-blocking send. */
    method Send(p: nat, ch: nat)
      requires Valid() && p in phases && phases[p].Sending? && ch in phases[p].pending && ch in channels
      modifies this
      ensures Valid() && Step(capacity, old(Now()), Op.Send(p, ch), Now())
    {
      SendKeepsInv(capacity, Now(), p, ch);
      var post, c := phases[p].post, channels[ch];
      panicked := panicked || c.closed;
      if |c.queue| < CHANNEL_CAPACITY {
        c := c.(queue := c.queue + [post]);
      } else {
        c := c.(dropped := c.dropped + {post});
      }
      channels := channels[ch := c];
      phases := phases[p := Sending(post, phases[p].pending - {ch})];
      assert Now() == Sent(old(Now()), p, ch);
    }

    method EndSend(p: nat)
      requires Valid() && p in phases && phases[p].Sending? && phases[p].pending == {}
      modifies this`phases
      ensures Valid() && Step(capacity, old(Now()), Op.EndSend(p), Now())
    {
      phases := phases - {p};
    }

    method Subscribe(ch: nat)
      requires Valid() && ch !in channels && WriteLockFree(phases)
      modifies this`subscribers, this`channels
      ensures Valid() && Step(capacity, old(Now()), Op.Subscribe(ch), Now())
    {
      channels := channels[ch := Channel([], [], {}, false)];
      subscribers := subscribers + {ch};
      SubscriptionKeepsInv(capacity, old(Now()), Op.Subscribe(ch), Now());
    }

    /** The cancel function; a second call does nothing. */
    method Cancel(ch: nat)
      requires Valid() && ch in channels && WriteLockFree(phases)
      modifies this`subscribers, this`channels, this`panicked
      ensures Valid() && Step(capacity, old(Now()), Op.Cancel(ch), Now())
    {
      if ch in subscribers {
        subscribers := subscribers - {ch};
        panicked := panicked || channels[ch].closed;
        channels := channels[ch := channels[ch].(closed := true)];
      }
      SubscriptionKeepsInv(capacity, old(Now()), Op.Cancel(ch), Now());
    }

    /** The newest matching events of the buffer, newest first. */
    method Recent(stage: string, limit: int) returns (out: seq<Post>)
      ensures NewestFirst(out, Matching(buffer, stage))
      ensures var most := if limit <= 0 then 100 else limit;
        |out| == if |Matching(buffer, stage)| < most then |Matching(buffer, stage)| else most
    {
      var most := if limit <= 0 then DEFAULT_LIMIT else limit;
      out := [];
      var i := |buffer|;
      while i > 0 && |out| < most
        invariant 0 <= i <= |buffer| && |out| <= most
        invariant |out| == |Matching(buffer[i..], stage)| && NewestFirst(out, Matching(buffer[i..], stage))
      {
        i := i - 1;
        assert buffer[i..][1..] == buffer[i + 1..];
        if Matches(buffer[i], stage) {
          out := out + [buffer[i]];
        }
      }
      assert buffer == buffer[..i] + buffer[i..];
      MatchingAppend(buffer[..i], buffer[i..], stage);
    }
  }
}
