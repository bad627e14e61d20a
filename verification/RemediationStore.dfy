/** internal/events/remediations.go: remediation contexts keyed by pull request URL, with an
    index by scan and an index by resource that every operation keeps exact. */
module RemediationStore {
  import opened Text

  /** One finding; `resolvedAt` is the stamp, absent while unresolved. */
  datatype Item = Item(resourceKey: string, resource: string, rule: string, title: string,
                       resolved: bool, resolvedAt: Option<int>)

  /** `details` stands for the fields the store only carries along. */
  datatype Context = Context(key: string, scanRef: string, prUrl: string, details: string, createdAt: int,
                             mergedAt: Option<int>, findings: seq<Item>, resolvedKeys: set<string>)

  type Contexts = map<string, Context>

  // ---- exact indexes -----------------------------------------------------------------

  /** An index lists, for each reference, the keys that carry it. */
  type Index = map<string, seq<string>>

  /** What a plain scan would find: the references each key carries. */
  type References = map<string, set<string>>

  predicate Distinct(s: seq<string>) { forall i, j :: 0 <= i < j < |s| ==> s[i] != s[j] }

  /** No stale, missing, duplicate or empty entry. */
  ghost predicate Exact(index: Index, refs: References) {
    (forall r :: r in index ==> index[r] != [] && Distinct(index[r])) &&
    (forall r, k :: r in index && k in index[r] ==> k in refs && r in refs[k]) &&
    (forall k, r :: k in refs && r in refs[k] ==> r in index && k in index[r])
  }

  function Listed(index: Index, r: string): seq<string> { if r in index then index[r] else [] }

  function AppendUnique(s: seq<string>, v: string): seq<string> { if v in s then s else s + [v] }

  function RemoveFirst(s: seq<string>, v: string): seq<string> {
    if s == [] then [] else if s[0] == v then s[1..] else [s[0]] + RemoveFirst(s[1..], v)
  }

  function Linked(index: Index, r: string, k: string): Index { index[r := AppendUnique(Listed(index, r), k)] }

  function Unlinked(index: Index, r: string, k: string): Index {
    var rest := RemoveFirst(Listed(index, r), k);
    if rest == [] then index - {r} else index[r := rest]
  }

  lemma {:induction false} RemoveFirstKeeps(s: seq<string>, v: string, x: string)
    requires Distinct(s)
    ensures x in RemoveFirst(s, v) <==> x in s && x != v
  {
    if s != [] {
      assert s == [s[0]] + s[1..];
      if s[0] == v {
        assert v !in s[1..];
      } else {
        RemoveFirstKeeps(s[1..], v, x);
      }
    }
  }

  lemma {:induction false} RemoveFirstIsDistinct(s: seq<string>, v: string)
    requires Distinct(s)
    ensures Distinct(RemoveFirst(s, v))
  {
    if s != [] && s[0] != v {
      var rest := RemoveFirst(s[1..], v);
      RemoveFirstIsDistinct(s[1..], v);
      forall i | 0 <= i < |rest| ensures rest[i] != s[0] {
        RemoveFirstKeeps(s[1..], v, rest[i]);
      }
    }
  }

  lemma RemoveFirstContents(s: seq<string>, v: string)
    requires Distinct(s)
    ensures Distinct(RemoveFirst(s, v))
    ensures forall x :: x in RemoveFirst(s, v) <==> x in s && x != v
  {
    RemoveFirstIsDistinct(s, v);
    forall x ensures x in RemoveFirst(s, v) <==> x in s && x != v {
      RemoveFirstKeeps(s, v, x);
    }
  }

  lemma LinkKeepsExact(index: Index, refs: References, k: string, had: set<string>, r: string)
    requires Exact(index, refs[k := had])
    ensures Exact(Linked(index, r, k), refs[k := had + {r}])
  {
    var keys := AppendUnique(Listed(index, r), k);
    assert k in keys && Distinct(keys);
    assert forall x :: x in keys <==> x in Listed(index, r) || x == k;
    var was, now := refs[k := had], refs[k := had + {r}];
    assert forall x :: x in now <==> x in was;
    assert forall x :: x in was ==> now[x] == if x == k then was[x] + {r} else was[x];
  }

  lemma UnlinkKeepsExact(index: Index, refs: References, k: string, had: set<string>, r: string)
    requires Exact(index, refs[k := had])
    ensures Exact(Unlinked(index, r, k), refs[k := had - {r}])
  {
    RemoveFirstContents(Listed(index, r), k);
    var rest := RemoveFirst(Listed(index, r), k);
    var was, now := refs[k := had], refs[k := had - {r}];
    assert forall x :: x in now <==> x in was;
    assert forall x :: x in was ==> now[x] == if x == k then was[x] - {r} else was[x];
    forall x | x in was && x != k && r in was[x] ensures x in rest { }
  }

  lemma DropKeepsExact(index: Index, refs: References, k: string)
    requires Exact(index, refs[k := {}])
    ensures Exact(index, refs - {k})
  {
    var was, now := refs[k := {}], refs - {k};
    assert forall x :: x in now ==> x in was && now[x] == was[x];
    assert forall x :: x in was ==> x in now || was[x] == {};
  }

  lemma AddKeepsExact(index: Index, refs: References, k: string)
    requires Exact(index, refs) && k !in refs
    ensures Exact(index, refs[k := {}])
  {
  }

  function ScanRefs(c: Context): set<string> { {c.scanRef} - {""} }

  function ResourceRefs(findings: seq<Item>): set<string> {
    set i | 0 <= i < |findings| && findings[i].resourceKey != "" :: findings[i].resourceKey
  }

  function ScansOf(contexts: Contexts): References { map k | k in contexts :: ScanRefs(contexts[k]) }

  function ResourcesOf(contexts: Contexts): References { map k | k in contexts :: ResourceRefs(contexts[k].findings) }

  // ---- the operations on contexts --------------------------------------------------------

  function Stored(c: Context, created: Option<int>, now: int): Context {
    c.(key := c.prUrl, createdAt := if created.Some? then created.value else now)
  }

  /** Eviction keeps the newest: nothing to do within capacity, otherwise exactly `capacity`
      entries survive and none is older than an evicted one. */
  ghost predicate Evicted(capacity: int, before: Contexts, after: Contexts) {
    if capacity <= 0 || |before| <= capacity then after == before
    else
      |after| == capacity &&
      (forall k :: k in after ==> k in before && after[k] == before[k]) &&
      (forall k, d :: k in after && d in before && d !in after ==> before[d].createdAt <= before[k].createdAt)
  }

  function StampedItem(item: Item, resource: string, at: int): Item {
    if item.resourceKey == resource && !item.resolved then item.(resolved := true, resolvedAt := Some(at)) else item
  }

  function StampedContext(c: Context, resource: string, at: int): Context {
    c.(resolvedKeys := c.resolvedKeys + {resource},
       findings := seq(|c.findings|, i requires 0 <= i < |c.findings| => StampedItem(c.findings[i], resource, at)))
  }

  /** The full scan: every context with a finding on the resource is stamped. */
  function ScanResolved(contexts: Contexts, resource: string, at: int): Contexts {
    map k | k in contexts ::
      if resource in ResourceRefs(contexts[k].findings) then StampedContext(contexts[k], resource, at) else contexts[k]
  }

  function Merged(contexts: Contexts, url: string, at: int): Contexts {
    if url in contexts then contexts[url := contexts[url].(mergedAt := Some(at))] else contexts
  }

  /** Between upserts the findings keep their place, and a stamp once given is never changed. */
  ghost predicate Continues(a: Context, b: Context) {
    |a.findings| == |b.findings| && a.createdAt == b.createdAt && a.resolvedKeys <= b.resolvedKeys &&
    forall i :: 0 <= i < |a.findings| ==>
      a.findings[i].resourceKey == b.findings[i].resourceKey && (a.findings[i].resolved ==>
        b.findings[i] == a.findings[i])
  }

  // ---- runs -------------------------------------------------------------------------------

  datatype Op =
    | Upsert(context: Context, created: Option<int>, now: int)
    | MarkResolved(resource: string, at: int)
    | MarkMerged(url: string, at: int)

  datatype Run = Begin | Then(prev: Run, op: Op, contexts: Contexts)

  function End(r: Run): Contexts { match r case Begin => map[] case Then(_, _, contexts) => contexts }

  ghost predicate Step(capacity: int, before: Contexts, op: Op, after: Contexts) {
    match op
    case Upsert(c, created, now) =>
      if c.prUrl == "" then after == before
      else Evicted(capacity, before[c.prUrl := Stored(c, created, now)], after)
    case MarkResolved(resource, at) => after == if resource == "" then before else ScanResolved(before, resource, at)
    case MarkMerged(url, at) => after == Merged(before, url, at)
  }

  ghost predicate Legal(capacity: int, r: Run) {
    r.Then? ==> Legal(capacity, r.prev) && Step(capacity, End(r.prev), r.op, r.contexts)
  }

  lemma StepKeepsSize(capacity: int, before: Contexts, op: Op, after: Contexts)
    requires capacity > 0 && |before| <= capacity && Step(capacity, before, op, after)
    ensures |after| <= capacity
  {
    match op
    case Upsert(_, _, _) =>
    case MarkResolved(resource, at) => assert after.Keys == before.Keys;
    case MarkMerged(url, at) => assert after.Keys == before.Keys;
  }

  /** A positive capacity is never exceeded. */
  lemma {:induction false} SizeIsBounded(capacity: int, r: Run)
    requires capacity > 0 && Legal(capacity, r)
    ensures |End(r)| <= capacity
  {
    if r.Then? {
      SizeIsBounded(capacity, r.prev);
      StepKeepsSize(capacity, End(r.prev), r.op, r.contexts);
    }
  }

  /** `late` extends `early` by operations none of which upserts k, and k is never evicted. */
  predicate Untouched(early: Run, late: Run, k: string) {
    early == late ||
    (late.Then? && k in late.contexts && !(late.op.Upsert? && late.op.context.prUrl == k) &&
      Untouched(early, late.prev, k))
  }

  lemma StepContinues(capacity: int, before: Contexts, op: Op, after: Contexts, k: string, first: Context)
    requires Step(capacity, before, op, after) && k in before && k in after && Continues(first, before[k])
    requires !(op.Upsert? && op.context.prUrl == k)
    ensures Continues(first, after[k])
  {
  }

  /** A resolved stamp is never overwritten without a new Upsert of that context. */
  lemma {:induction false} StampsAreFinal(capacity: int, early: Run, late: Run, k: string)
    requires Legal(capacity, late) && k in End(early) && Untouched(early, late, k)
    ensures k in End(late) && Continues(End(early)[k], End(late)[k])
    decreases late
  {
    if early != late {
      StampsAreFinal(capacity, early, late.prev, k);
      StepContinues(capacity, End(late.prev), late.op, late.contexts, k, End(early)[k]);
    }
  }

  // ---- what the operations mean, finding by finding -------------------------------------------

  predicate Carries(c: Context, resource: string) {
    exists i :: 0 <= i < |c.findings| && c.findings[i].resourceKey == resource
  }

  /** One finding before and after a resource is marked resolved: if it is on the resource it is
      resolved, with the new stamp unless it was resolved already; otherwise nothing happens to it. */
  predicate ItemMarked(b: Item, a: Item, resource: string, at: int) {
    if b.resourceKey != resource || b.resolved then a == b
    else a.resolved && a.resolvedAt == Some(at) && b == a.(resolved := false, resolvedAt := b.resolvedAt)
  }

  /** One context: its findings as above, the key noted exactly if some finding carries it, and
      every other field as it was. */
  ghost predicate ContextMarked(b: Context, a: Context, resource: string, at: int) {
    |a.findings| == |b.findings| &&
    (forall i :: 0 <= i < |b.findings| ==> ItemMarked(b.findings[i], a.findings[i], resource, at)) &&
    (forall r :: r in a.resolvedKeys <==> r in b.resolvedKeys || (r == resource && Carries(b, resource))) &&
    b == a.(findings := b.findings, resolvedKeys := b.resolvedKeys)
  }

  ghost predicate AllMarked(before: Contexts, after: Contexts, resource: string, at: int) {
    after.Keys == before.Keys && forall k :: k in before ==> ContextMarked(before[k], after[k], resource, at)
  }

  /** MarkResolved on a non-empty key resolves every finding on that resource, everywhere, and
      touches nothing else. */
  lemma ResolvingResolves(capacity: int, before: Contexts, resource: string, at: int, after: Contexts)
    requires resource != "" && Step(capacity, before, MarkResolved(resource, at), after)
    ensures AllMarked(before, after, resource, at)
  {
    assert after.Keys == before.Keys;
    forall k | k in before ensures ContextMarked(before[k], after[k], resource, at) {
      CarriedMeansReferred(before[k], resource);
      ScanMarks(before[k], after[k], resource, at);
    }
  }

  lemma CarriedMeansReferred(c: Context, resource: string)
    requires resource != ""
    ensures Carries(c, resource) <==> resource in ResourceRefs(c.findings)
  {
  }

  lemma ScanMarks(b: Context, a: Context, resource: string, at: int)
    requires a == if Carries(b, resource) then StampedContext(b, resource, at) else b
    ensures ContextMarked(b, a, resource, at)
  {
    forall i | 0 <= i < |b.findings| ensures ItemMarked(b.findings[i], a.findings[i], resource, at) {
      if Carries(b, resource) {
        assert a.findings[i] == StampedItem(b.findings[i], resource, at);
      }
    }
  }

  /** MarkMerged notes the time on the context of that URL and touches nothing else. */
  lemma MergingNotes(capacity: int, before: Contexts, url: string, at: int, after: Contexts)
    requires Step(capacity, before, MarkMerged(url, at), after)
    ensures after.Keys == before.Keys
    ensures forall k :: k in before && k != url ==> after[k] == before[k]
    ensures url in before ==>
      after[url].mergedAt == Some(at) && before[url] == after[url].(mergedAt := before[url].mergedAt)
  {
  }

  /** What Upsert stores, unless it is evicted at once: the given context under its URL, created
      when it says or else now. Everything else is kept as it was, or evicted. */
  lemma UpsertingStores(capacity: int, before: Contexts, c: Context, created: Option<int>, now: int, after: Contexts)
    requires c.prUrl != "" && Step(capacity, before, Upsert(c, created, now), after)
    ensures forall k :: k in after && k != c.prUrl ==> k in before && after[k] == before[k]
    ensures c.prUrl in after ==>
      (var s := after[c.prUrl];
       s.key == c.prUrl && s.createdAt == (if created.Some? then created.value else now) &&
       c == s.(key := c.key, createdAt := c.createdAt))
    ensures capacity <= 0 || |before| < capacity ==> c.prUrl in after && before.Keys <= after.Keys
  {
    var all := before[c.prUrl := Stored(c, created, now)];
    assert all.Keys == before.Keys + {c.prUrl};
  }

  /** What Upsert evicts: nothing that was in the store before, and not the new context either, if it
      is newer than something that stays. */
  lemma UpsertingEvictsTheOldest(capacity: int, before: Contexts, c: Context, created: Option<int>, now: int,
                                 after: Contexts, kept: string, gone: string)
    requires c.prUrl != "" && Step(capacity, before, Upsert(c, created, now), after) && kept in after && gone !in after
    ensures gone in before && gone != c.prUrl ==> before[gone].createdAt <= after[kept].createdAt
    ensures gone == c.prUrl ==> (if created.Some? then created.value else now) <= after[kept].createdAt
    ensures capacity > 0 && (gone in before || gone == c.prUrl) ==> |after| == capacity
  {
    var all := before[c.prUrl := Stored(c, created, now)];
    assert all.Keys == before.Keys + {c.prUrl};
    assert kept in all && after[kept] == all[kept];
  }

  /** Both indexes, read as what they are for: a scan's keys, and a resource's. */
  lemma IndexesAnswer(scans: Index, resources: Index, contexts: Contexts, r: string, k: string)
    requires InStep(scans, resources, contexts) && r != ""
    ensures (r in scans && k in scans[r]) <==> (k in contexts && contexts[k].scanRef == r)
    ensures (r in resources && k in resources[r]) <==> (k in contexts && Carries(contexts[k], r))
  {
    ExactAnswers(scans, ScansOf(contexts), r, k);
    ExactAnswers(resources, ResourcesOf(contexts), r, k);
    if k in contexts {
      CarriedMeansReferred(contexts[k], r);
    }
  }

  lemma ExactAnswers(index: Index, refs: References, r: string, k: string)
    requires Exact(index, refs)
    ensures (r in index && k in index[r]) <==> (k in refs && r in refs[k])
  {
  }

  // ---- the store ----------------------------------------------------------------------------

  lemma {:induction false} ResourceRefsGrow(findings: seq<Item>, i: nat)
    requires i < |findings|
    ensures ResourceRefs(findings[..i + 1]) == ResourceRefs(findings[..i]) + Naming(findings[i])
  {
    var more, less := findings[..i + 1], findings[..i];
    assert more == less + [findings[i]];
    forall r | r in ResourceRefs(less) ensures r in ResourceRefs(more) {
      var j :| 0 <= j < |less| && less[j].resourceKey == r && r != "";
      assert more[j] == less[j];
    }
    assert more[i] == findings[i];
  }

  /** Keys in order of creation, oldest first. */
  ghost predicate OldestFirst(contexts: Contexts, keys: seq<string>) {
    (forall i :: 0 <= i < |keys| ==> keys[i] in contexts) &&
    (forall i, j :: 0 <= i < j < |keys| ==> contexts[keys[i]].createdAt <= contexts[keys[j]].createdAt)
  }

  /** All keys, each once, oldest first. */
  ghost predicate ByAge(contexts: Contexts, keys: seq<string>) {
    Distinct(keys) && OldestFirst(contexts, keys) && |keys| == |contexts| && forall k :: k in keys <==> k in contexts
  }

  /** sort.Slice over the keys of the map, visited in any order. */
  method KeysByAge(contexts: Contexts) returns (keys: seq<string>)
    ensures ByAge(contexts, keys)
  {
    keys := [];
    var rest := contexts.Keys;
    while rest != {}
      invariant rest <= contexts.Keys && |keys| + |rest| == |contexts|
      invariant Distinct(keys) && OldestFirst(contexts, keys)
      invariant forall k :: k in keys <==> k in contexts.Keys - rest
      decreases |rest|
    {
      var k :| k in rest;
      var at := 0;
      while at < |keys| && contexts[keys[at]].createdAt <= contexts[k].createdAt
        invariant at <= |keys|
        invariant forall i :: 0 <= i < at ==> contexts[keys[i]].createdAt <= contexts[k].createdAt
      {
        at := at + 1;
      }
      var more := keys[..at] + [k] + keys[at..];
      InsertKeepsDistinct(keys, k, at, more);
      InsertContents(keys, k, at, more);
      InsertKeepsOrder(contexts, keys, k, at, more);
      keys, rest := more, rest - {k};
    }
  }

  predicate Inserted(keys: seq<string>, k: string, at: nat, more: seq<string>) {
    |more| == |keys| + 1 && at <= |keys| && more[at] == k &&
    (forall i :: 0 <= i < at ==> more[i] == keys[i]) && (forall i :: at < i < |more| ==> more[i] == keys[i - 1])
  }

  lemma InsertKeepsDistinct(keys: seq<string>, k: string, at: nat, more: seq<string>)
    requires Inserted(keys, k, at, more) && Distinct(keys) && k !in keys
    ensures Distinct(more)
  {
  }

  lemma InsertContents(keys: seq<string>, k: string, at: nat, more: seq<string>)
    requires Inserted(keys, k, at, more)
    ensures forall x :: x in more <==> x in keys || x == k
  {
    forall x | x in keys ensures x in more {
      var i :| 0 <= i < |keys| && keys[i] == x;
      assert more[if i < at then i else i + 1] == x;
    }
  }

  lemma InsertKeepsOrder(contexts: Contexts, keys: seq<string>, k: string, at: nat, more: seq<string>)
    requires Inserted(keys, k, at, more) && OldestFirst(contexts, keys) && k in contexts
    requires forall i :: 0 <= i < at ==> contexts[keys[i]].createdAt <= contexts[k].createdAt
    requires at == |keys| || contexts[k].createdAt <= contexts[keys[at]].createdAt
    ensures OldestFirst(contexts, more)
  {
    forall i | at <= i < |keys| ensures contexts[k].createdAt <= contexts[keys[i]].createdAt { }
  }

  function Without(contexts: Contexts, keys: seq<string>): Contexts {
    map k | k in contexts && k !in keys :: contexts[k]
  }

  lemma WithoutGrows(contexts: Contexts, keys: seq<string>, k: string)
    requires k in contexts && k !in keys
    ensures Without(contexts, keys) - {k} == Without(contexts, keys + [k])
    ensures |Without(contexts, keys + [k])| == |Without(contexts, keys)| - 1
  {
    var before, after := Without(contexts, keys), Without(contexts, keys + [k]);
    assert after == before - {k};
    assert after.Keys == before.Keys - {k} && k in before.Keys;
    assert |after.Keys| == |before.Keys| - 1;
  }

  lemma WithoutNext(contexts: Contexts, keys: seq<string>, i: nat)
    requires i < |keys| && Distinct(keys) && keys[i] in contexts
    ensures Without(contexts, keys[..i]) - {keys[i]} == Without(contexts, keys[..i + 1])
    ensures |Without(contexts, keys[..i + 1])| == |Without(contexts, keys[..i])| - 1
  {
    assert keys[..i + 1] == keys[..i] + [keys[i]];
    WithoutGrows(contexts, keys[..i], keys[i]);
  }

  lemma {:induction false} WithoutCounts(contexts: Contexts, keys: seq<string>, n: nat)
    requires n <= |keys| && Distinct(keys) && forall i :: 0 <= i < |keys| ==> keys[i] in contexts
    ensures |Without(contexts, keys[..n])| == |contexts| - n
  {
    if n == 0 {
      assert Without(contexts, []) == contexts;
    } else {
      WithoutCounts(contexts, keys, n - 1);
      WithoutNext(contexts, keys, n - 1);
    }
  }

  /** Dropping the oldest keys is an eviction. */
  lemma DropOldestIsEviction(capacity: int, contexts: Contexts, keys: seq<string>, drop: nat)
    requires 0 < capacity < |contexts| && drop == |contexts| - capacity && ByAge(contexts, keys)
    ensures Evicted(capacity, contexts, Without(contexts, keys[..drop]))
  {
    WithoutCounts(contexts, keys, drop);
    var after := Without(contexts, keys[..drop]);
    forall k, d | k in after && d in contexts && d !in after
      ensures contexts[d].createdAt <= contexts[k].createdAt
    {
      var i :| 0 <= i < drop && keys[..drop][i] == d;
      var j :| 0 <= j < |keys| && keys[j] == k;
      assert forall x :: 0 <= x < drop ==> keys[x] in keys[..drop];
      assert keys[i] == d;
    }
  }

  /** Both indexes hold exactly what a scan of all contexts would give. */
  ghost predicate InStep(scans: Index, resources: Index, contexts: Contexts) {
    Exact(scans, ScansOf(contexts)) && Exact(resources, ResourcesOf(contexts)) &&
    forall k :: k in contexts ==> contexts[k].key == k && k != ""
  }

  function StampedAt(contexts: Contexts, keys: seq<string>, resource: string, at: int): Contexts {
    map k | k in contexts :: if k in keys then StampedContext(contexts[k], resource, at) else contexts[k]
  }

  /** The keys the index lists for a resource are the ones the scan would visit. */
  lemma IndexAgreesWithScan(scans: Index, resources: Index, contexts: Contexts, resource: string, at: int)
    requires InStep(scans, resources, contexts) && resource != ""
    ensures StampedAt(contexts, Listed(resources, resource), resource, at) == ScanResolved(contexts, resource, at)
  {
    forall k | k in contexts
      ensures k in Listed(resources, resource) <==> resource in ResourceRefs(contexts[k].findings)
    {
      assert ResourcesOf(contexts)[k] == ResourceRefs(contexts[k].findings);
    }
  }

  lemma ListedIsCarried(index: Index, refs: References, r: string)
    requires Exact(index, refs) && r in index
    ensures exists k :: k in refs && r in refs[k]
  {
    var k := index[r][0];
    assert k in index[r];
    assert k in refs && r in refs[k];
  }

  lemma EmptyIsNotIndexed(scans: Index, resources: Index, contexts: Contexts)
    requires InStep(scans, resources, contexts)
    ensures "" !in resources
  {
    if "" in resources {
      ListedIsCarried(resources, ResourcesOf(contexts), "");
      assert false;
    }
  }

  lemma StampKeepsRefs(c: Context, resource: string, at: int)
    ensures ResourceRefs(StampedContext(c, resource, at).findings) == ResourceRefs(c.findings)
  {
    var d := StampedContext(c, resource, at);
    assert forall i :: 0 <= i < |c.findings| ==> c.findings[i].resourceKey == d.findings[i].resourceKey;
    forall r ensures r in ResourceRefs(d.findings) <==> r in ResourceRefs(c.findings) { }
  }

  lemma StampKeepsInStep(scans: Index, resources: Index, contexts: Contexts, keys: seq<string>, resource: string,
                         at: int)
    requires InStep(scans, resources, contexts)
    ensures InStep(scans, resources, StampedAt(contexts, keys, resource, at))
  {
    var after := StampedAt(contexts, keys, resource, at);
    forall k | k in contexts ensures ResourceRefs(after[k].findings) == ResourceRefs(contexts[k].findings) {
      StampKeepsRefs(contexts[k], resource, at);
    }
    assert ScansOf(after) == ScansOf(contexts);
    assert ResourcesOf(after) == ResourcesOf(contexts);
  }

  lemma MergeKeepsInStep(scans: Index, resources: Index, contexts: Contexts, url: string, at: int)
    requires InStep(scans, resources, contexts)
    ensures InStep(scans, resources, Merged(contexts, url, at))
  {
    assert ScansOf(Merged(contexts, url, at)) == ScansOf(contexts);
    assert ResourcesOf(Merged(contexts, url, at)) == ResourcesOf(contexts);
  }

  function Naming(item: Item): set<string> { {item.resourceKey} - {""} }

  method LinkOne(start: Index, item: Item, key: string, ghost refs: References, ghost had: set<string>)
    returns (index: Index)
    requires Exact(start, refs[key := had])
    ensures Exact(index, refs[key := had + Naming(item)])
  {
    index := start;
    if item.resourceKey != "" {
      LinkKeepsExact(start, refs, key, had, item.resourceKey);
      assert Naming(item) == {item.resourceKey};
      index := Linked(index, item.resourceKey, key);
    } else {
      assert had + Naming(item) == had;
    }
  }

  method LinkFindings(start: Index, findings: seq<Item>, key: string, ghost refs: References) returns (index: Index)
    requires Exact(start, refs[key := {}])
    ensures Exact(index, refs[key := ResourceRefs(findings)])
  {
    index := start;
    ghost var had := {};
    for i := 0 to |findings|
      invariant had == ResourceRefs(findings[..i]) && Exact(index, refs[key := had])
    {
      ResourceRefsGrow(findings, i);
      index := LinkOne(index, findings[i], key, refs, had);
      had := had + Naming(findings[i]);
    }
    assert findings[..|findings|] == findings;
  }

  method UnlinkOne(start: Index, item: Item, key: string, ghost refs: References, ghost had: set<string>)
    returns (index: Index)
    requires Exact(start, refs[key := had])
    ensures Exact(index, refs[key := had - Naming(item)])
  {
    index := start;
    if item.resourceKey != "" {
      UnlinkKeepsExact(start, refs, key, had, item.resourceKey);
      assert Naming(item) == {item.resourceKey};
      index := Unlinked(index, item.resourceKey, key);
    } else {
      assert had - Naming(item) == had;
    }
  }

  method UnlinkFindings(start: Index, findings: seq<Item>, key: string, ghost refs: References) returns (index: Index)
    requires Exact(start, refs[key := ResourceRefs(findings)])
    ensures Exact(index, refs[key := {}])
  {
    index := start;
    ghost var all := ResourceRefs(findings);
    ghost var left := all;
    for i := 0 to |findings|
      invariant left == all - ResourceRefs(findings[..i]) && Exact(index, refs[key := left])
    {
      ResourceRefsGrow(findings, i);
      index := UnlinkOne(index, findings[i], key, refs, left);
      left := left - Naming(findings[i]);
    }
    assert findings[..|findings|] == findings;
    assert left == {};
  }

  lemma AddedRefs(contexts: Contexts, c: Context)
    ensures ScansOf(contexts[c.key := c]) == ScansOf(contexts)[c.key := ScanRefs(c)]
    ensures ResourcesOf(contexts[c.key := c]) == ResourcesOf(contexts)[c.key := ResourceRefs(c.findings)]
  {
  }

  lemma RemovedRefs(contexts: Contexts, key: string)
    requires key in contexts
    ensures ScansOf(contexts) == ScansOf(contexts)[key := ScanRefs(contexts[key])]
    ensures ResourcesOf(contexts) == ResourcesOf(contexts)[key := ResourceRefs(contexts[key].findings)]
    ensures ScansOf(contexts - {key}) == ScansOf(contexts) - {key}
    ensures ResourcesOf(contexts - {key}) == ResourcesOf(contexts) - {key}
  {
  }

  method LinkScan(start: Index, context: Context, key: string, ghost refs: References) returns (index: Index)
    requires Exact(start, refs[key := {}])
    ensures Exact(index, refs[key := ScanRefs(context)])
  {
    index := start;
    assert ScanRefs(context) == if context.scanRef == "" then {} else {} + {context.scanRef};
    if context.scanRef != "" {
      LinkKeepsExact(start, refs, key, {}, context.scanRef);
      index := Linked(index, context.scanRef, key);
    }
  }

  method UnlinkScan(start: Index, context: Context, key: string, ghost refs: References) returns (index: Index)
    requires Exact(start, refs[key := ScanRefs(context)])
    ensures Exact(index, refs[key := {}])
  {
    index := start;
    if context.scanRef != "" {
      UnlinkKeepsExact(start, refs, key, ScanRefs(context), context.scanRef);
      assert ScanRefs(context) - {context.scanRef} == {};
      index := Unlinked(index, context.scanRef, key);
    } else {
      assert ScanRefs(context) == {};
    }
  }

  class Store {
    var byKey: Contexts
    var scanToKeys: Index
    var resourceToKeys: Index
    const capacity: int

    ghost predicate Valid()
      reads this
    {
      InStep(scanToKeys, resourceToKeys, byKey)
    }

    constructor (limit: int)
      ensures Valid() && byKey == End(Begin) && capacity == limit
    {
      byKey, scanToKeys, resourceToKeys, capacity := map[], map[], map[], limit;
    }

    method Upsert(context: Context, created: Option<int>, now: int)
      requires Valid()
      modifies this
      ensures Valid() && Step(capacity, old(byKey), Op.Upsert(context, created, now), byKey)
    {
      if context.prUrl == "" { return; }
      var stored := Stored(context, created, now);
      RemoveLocked(stored.key);
      AddLocked(stored);
      assert byKey == old(byKey)[stored.key := stored];
      EvictIfOverCapacity();
    }

    method AddLocked(stored: Context)
      requires Valid() && stored.key !in byKey && stored.key != ""
      modifies this
      ensures Valid() && byKey == old(byKey)[stored.key := stored]
    {
      ghost var scans, resources := ScansOf(byKey), ResourcesOf(byKey);
      AddedRefs(byKey, stored);
      AddKeepsExact(scanToKeys, scans, stored.key);
      AddKeepsExact(resourceToKeys, resources, stored.key);
      byKey := byKey[stored.key := stored];
      scanToKeys := LinkScan(scanToKeys, stored, stored.key, scans);
      resourceToKeys := LinkFindings(resourceToKeys, stored.findings, stored.key, resources);
    }

    method RemoveLocked(key: string)
      requires Valid()
      modifies this
      ensures Valid() && byKey == old(byKey) - {key}
    {
      if key !in byKey { return; }
      ghost var scans, resources := ScansOf(byKey), ResourcesOf(byKey);
      var context := byKey[key];
      RemovedRefs(byKey, key);
      byKey := byKey - {key};
      scanToKeys := UnlinkScan(scanToKeys, context, key, scans);
      resourceToKeys := UnlinkFindings(resourceToKeys, context.findings, key, resources);
      DropKeepsExact(scanToKeys, scans, key);
      DropKeepsExact(resourceToKeys, resources, key);
    }

    method EvictIfOverCapacity()
      requires Valid()
      modifies this
      ensures Valid() && Evicted(capacity, old(byKey), byKey)
    {
      if capacity <= 0 || |byKey| <= capacity { return; }
      var keys := KeysByAge(byKey);
      DropToCapacity(keys);
    }

    method DropToCapacity(keys: seq<string>)
      requires Valid() && 0 < capacity < |byKey| && ByAge(byKey, keys)
      modifies this
      ensures Valid() && Evicted(capacity, old(byKey), byKey)
    {
      var drop := |byKey| - capacity;
      ghost var left := Without(byKey, keys[..drop]);
      assert Evicted(capacity, byKey, left) by { DropOldestIsEviction(capacity, byKey, keys, drop); }
      DropOldest(keys, drop);
      assert byKey == left;
    }

    method DropOldest(keys: seq<string>, drop: nat)
      requires Valid() && drop <= |keys| && ByAge(byKey, keys)
      modifies this
      ensures Valid() && byKey == Without(old(byKey), keys[..drop])
    {
      ghost var before := byKey;
      for i := 0 to drop
        invariant Valid() && byKey == Without(before, keys[..i])
      {
        WithoutNext(before, keys, i);
        RemoveLocked(keys[i]);
      }
    }

    /** Goes through the index, and does what the full scan would. */
    method MarkResolved(resource: string, at: int)
      requires Valid()
      modifies this`byKey
      ensures Valid() && Step(capacity, old(byKey), Op.MarkResolved(resource, at), byKey)
      ensures if resource == "" then byKey == old(byKey) else AllMarked(old(byKey), byKey, resource, at)
    {
      MarkThroughIndex(resource, at);
      if resource != "" {
        ResolvingResolves(capacity, old(byKey), resource, at, byKey);
      }
    }

    method MarkThroughIndex(resource: string, at: int)
      requires Valid()
      modifies this`byKey
      ensures Valid() && Step(capacity, old(byKey), Op.MarkResolved(resource, at), byKey)
    {
      EmptyIsNotIndexed(scanToKeys, resourceToKeys, byKey);
      if resource != "" {
        IndexAgreesWithScan(scanToKeys, resourceToKeys, byKey, resource, at);
      }
      StampKeepsInStep(scanToKeys, resourceToKeys, byKey, Listed(resourceToKeys, resource), resource, at);
      if resource !in resourceToKeys {
        assert byKey == StampedAt(byKey, [], resource, at);
        return;
      }
      StampAll(resourceToKeys[resource], resource, at);
    }

    method StampAll(keys: seq<string>, resource: string, at: int)
      requires Distinct(keys)
      modifies this`byKey
      ensures byKey == StampedAt(old(byKey), keys, resource, at)
    {
      var i := 0;
      while i < |keys|
        invariant i <= |keys|
        invariant byKey == StampedAt(old(byKey), keys[..i], resource, at)
      {
        assert keys[..i + 1] == keys[..i] + [keys[i]];
        if keys[i] in byKey {
          var context := StampFindings(byKey[keys[i]], resource, at);
          byKey := byKey[keys[i] := context];
        }
        i := i + 1;
      }
      assert keys[..i] == keys;
    }

    method MarkMerged(url: string, at: int)
      requires Valid()
      modifies this`byKey
      ensures Valid() && Step(capacity, old(byKey), Op.MarkMerged(url, at), byKey)
    {
      MergeKeepsInStep(scanToKeys, resourceToKeys, byKey, url, at);
      if url in byKey {
        byKey := byKey[url := byKey[url].(mergedAt := Some(at))];
      }
    }

    method Get(key: string) returns (found: Option<Context>)
      ensures found == if key in byKey then Some(byKey[key]) else None
    {
      found := if key in byKey then Some(byKey[key]) else None;
    }

    /** Newest first; a positive limit keeps the newest ones. */
    method List(limit: int) returns (out: seq<Context>)
      requires Valid()
      ensures |out| == if 0 < limit < |byKey| then limit else |byKey|
      ensures Newest(byKey, out)
    {
      var keys := KeysByAge(byKey);
      var n := if 0 < limit < |keys| then limit else |keys|;
      out := [];
      while |out| < n
        invariant |out| <= n
        invariant forall i :: 0 <= i < |out| ==> out[i] == byKey[keys[|keys| - 1 - i]]
      {
        out := out + [byKey[keys[|keys| - 1 - |out|]]];
      }
      ListedIsNewest(byKey, keys, out);
    }
  }

  ghost predicate Newest(contexts: Contexts, out: seq<Context>) {
    (forall i :: 0 <= i < |out| ==> out[i].key in contexts && out[i] == contexts[out[i].key]) &&
    (forall i, j :: 0 <= i < j < |out| ==> out[i].key != out[j].key && out[i].createdAt >= out[j].createdAt) &&
    (forall k, i :: k in contexts && 0 <= i < |out| ==>
      (exists j :: 0 <= j < |out| && out[j].key == k) || contexts[k].createdAt <= out[i].createdAt)
  }

  lemma ListedIsNewest(contexts: Contexts, keys: seq<string>, out: seq<Context>)
    requires Distinct(keys) && OldestFirst(contexts, keys) && |out| <= |keys|
    requires forall k :: k in keys <==> k in contexts
    requires forall k :: k in contexts ==> contexts[k].key == k
    requires forall i :: 0 <= i < |out| ==> out[i] == contexts[keys[|keys| - 1 - i]]
    ensures Newest(contexts, out)
  {
    forall i | 0 <= i < |out| ensures out[i].key == keys[|keys| - 1 - i] && out[i] == contexts[out[i].key] { }
    forall k, i | k in contexts && 0 <= i < |out|
      ensures (exists j :: 0 <= j < |out| && out[j].key == k) || contexts[k].createdAt <= out[i].createdAt
    {
      var at :| 0 <= at < |keys| && keys[at] == k;
      var j := |keys| - 1 - at;
      if j < |out| {
        assert out[j].key == k;
      }
    }
  }

  method StampFindings(context: Context, resource: string, at: int) returns (stamped: Context)
    ensures stamped == StampedContext(context, resource, at)
  {
    var findings := context.findings;
    var i := 0;
    while i < |findings|
      invariant i <= |findings| == |context.findings|
      invariant forall j :: 0 <= j < i ==> findings[j] == StampedItem(context.findings[j], resource, at)
      invariant forall j :: i <= j < |findings| ==> findings[j] == context.findings[j]
    {
      if findings[i].resourceKey == resource && !findings[i].resolved {
        findings := findings[i := findings[i].(resolved := true, resolvedAt := Some(at))];
      }
      i := i + 1;
    }
    stamped := context.(resolvedKeys := context.resolvedKeys + {resource}, findings := findings);
  }
}
