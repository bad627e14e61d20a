/** internal/drift/live_detector.go: comparing a live object with the desired one. */
module Drift {
  import opened Text

  /** A decoded JSON value. A leaf is a string, a number, a boolean or null; its text is the JSON
      text, so that the string "1" and the number 1 are different leaves. */
  datatype Value = Leaf(text: string) | List(items: seq<Value>) | Object(fields: map<string, Value>)

  /** `keys` is the route to the field; the source keeps only its printed form. */
  datatype Difference = Difference(keys: seq<string>, fieldPath: string, liveValue: string, desiredValue: string)

  const MISSING := "<missing>"

  /** The printed path: every key with a dot before it. */
  function FieldPath(keys: seq<string>): string {
    if keys == [] then "" else FieldPath(keys[..|keys| - 1]) + "." + keys[|keys| - 1]
  }

  ghost predicate Ignored(ignore: seq<string>, fieldPath: string) {
    exists i :: 0 <= i < |ignore| && HasPrefix(fieldPath, ignore[i])
  }

  method ShouldIgnoreField(ignore: seq<string>, fieldPath: string) returns (skip: bool)
    ensures skip <==> Ignored(ignore, fieldPath)
  {
    for i := 0 to |ignore|
      invariant forall j :: 0 <= j < i ==> !HasPrefix(fieldPath, ignore[j])
    {
      if HasPrefix(fieldPath, ignore[i]) { return true; }
    }
    return false;
  }

  // ---- what a difference is ---------------------------------------------------------------

  function At(v: Value, keys: seq<string>): Option<Value> {
    if keys == [] then Some(v)
    else if v.Object? && keys[0] in v.fields then At(v.fields[keys[0]], keys[1..])
    else None
  }

  /** What the comparison takes for agreement: both are objects (their fields are compared one by
      one), or both print alike; `show` is the formatting verb %v. */
  predicate Agrees(show: Value -> string, live: Option<Value>, desired: Value) {
    live.Some? && ((live.value.Object? && desired.Object?) || show(live.value) == show(desired))
  }

  /** The desired object has a value at `keys`, the live one has an object right above, and the
      live value is absent or does not agree. */
  predicate Mismatch(show: Value -> string, live: Value, desired: Value, keys: seq<string>) {
    keys != [] && At(desired, keys).Some? &&
    (var above := At(live, keys[..|keys| - 1]); above.Some? && above.value.Object?) &&
    !Agrees(show, At(live, keys), At(desired, keys).value)
  }

  function Described(show: Value -> string, live: Value, desired: Value, base: seq<string>,
                     keys: seq<string>): Difference
    requires At(desired, keys).Some?
  {
    var found := At(live, keys);
    Difference(base + keys, FieldPath(base + keys), if found.Some? then show(found.value) else MISSING,
               show(At(desired, keys).value))
  }

  /** d reports a mismatch at a path that is not ignored. `base` is the route to both objects. */
  ghost predicate Reportable(ignore: seq<string>, show: Value -> string, live: Value, desired: Value,
                             base: seq<string>, d: Difference)
  {
    base <= d.keys && Mismatch(show, live, desired, d.keys[|base|..]) && !Ignored(ignore, FieldPath(d.keys)) &&
    d == Described(show, live, desired, base, d.keys[|base|..])
  }

  ghost predicate Under(base: seq<string>, key: string, d: Difference) { base + [key] <= d.keys }

  predicate OnePerPath(results: seq<Difference>) {
    forall i, j :: 0 <= i < j < |results| ==> results[i].keys != results[j].keys
  }

  // ---- lemmas -------------------------------------------------------------------------------

  lemma {:induction false} PathsNest(base: seq<string>, more: seq<string>)
    ensures HasPrefix(FieldPath(base + more), FieldPath(base))
  {
    if more == [] {
      assert base + more == base;
    } else {
      var keys := base + more;
      assert keys[..|keys| - 1] == base + more[..|more| - 1];
      PathsNest(base, more[..|more| - 1]);
    }
  }

  /** Ignoring a field ignores everything below it, so skipping the subtree loses nothing else. */
  lemma IgnoredBelow(ignore: seq<string>, base: seq<string>, keys: seq<string>)
    requires base <= keys && Ignored(ignore, FieldPath(base))
    ensures Ignored(ignore, FieldPath(keys))
  {
    PathsNest(base, keys[|base|..]);
    assert keys == base + keys[|base|..];
    var i :| 0 <= i < |ignore| && HasPrefix(FieldPath(base), ignore[i]);
    assert HasPrefix(FieldPath(keys), ignore[i]);
  }

  lemma MismatchUnfold(show: Value -> string, live: Value, desired: Value, keys: seq<string>)
    requires live.Object? && desired.Object? && |keys| >= 2
    ensures Mismatch(show, live, desired, keys) <==>
      keys[0] in live.fields && keys[0] in desired.fields &&
      Mismatch(show, live.fields[keys[0]], desired.fields[keys[0]], keys[1..])
  {
    var above := keys[..|keys| - 1];
    assert above[0] == keys[0] && above[1..] == keys[1..][..|keys| - 2];
  }

  lemma AtKey(v: Value, key: string)
    requires v.Object?
    ensures At(v, [key]) == if key in v.fields then Some(v.fields[key]) else None
  {
    var keys := [key];
    assert keys[0] == key && keys[1..] == [];
    if key in v.fields {
      assert At(v.fields[key], []) == Some(v.fields[key]);
    }
  }

  lemma MismatchHere(show: Value -> string, live: Value, desired: Value, key: string)
    requires live.Object? && desired.Object?
    ensures Mismatch(show, live, desired, [key]) <==>
      key in desired.fields &&
      !Agrees(show, if key in live.fields then Some(live.fields[key]) else None, desired.fields[key])
  {
    AtKey(live, key);
    AtKey(desired, key);
    var keys := [key];
    assert keys[..|keys| - 1] == [] && At(live, []) == Some(live);
  }

  lemma NoMismatchBelow(show: Value -> string, live: Value, desired: Value, keys: seq<string>)
    requires Mismatch(show, live, desired, keys)
    ensures live.Object? && desired.Object?
  {
    var above := keys[..|keys| - 1];
    assert above != [] ==> above[0] == keys[0];
  }

  /** One level down, the same differences are reportable. */
  lemma ReportableBelow(ignore: seq<string>, show: Value -> string, live: Value, desired: Value,
                        base: seq<string>, key: string, d: Difference)
    requires live.Object? && desired.Object? && key in live.fields && key in desired.fields
    requires base + [key] <= d.keys && |d.keys| > |base| + 1
    ensures Reportable(ignore, show, live, desired, base, d) <==>
      Reportable(ignore, show, live.fields[key], desired.fields[key], base + [key], d)
  {
    var keys := d.keys[|base|..];
    assert keys[0] == d.keys[|base|] == (base + [key])[|base|] == key;
    assert keys[1..] == d.keys[|base + [key]|..];
    MismatchUnfold(show, live, desired, keys);
    assert base + keys == (base + [key]) + keys[1..];
  }

  /** A lone field: nothing below it is reportable unless both sides are objects. */
  lemma ReportableField(ignore: seq<string>, show: Value -> string, live: Value, desired: Value,
                        base: seq<string>, key: string, d: Difference)
    requires live.Object? && desired.Object? && key in desired.fields && Under(base, key, d)
    requires key !in live.fields || !(live.fields[key].Object? && desired.fields[key].Object?)
    ensures Reportable(ignore, show, live, desired, base, d) ==> d.keys == base + [key]
  {
    var keys := d.keys[|base|..];
    assert keys[0] == d.keys[|base|] == (base + [key])[|base|] == key;
    if |keys| >= 2 && Mismatch(show, live, desired, keys) {
      MismatchUnfold(show, live, desired, keys);
      NoMismatchBelow(show, live.fields[key], desired.fields[key], keys[1..]);
      assert false;
    }
    if |keys| == 1 {
      assert d.keys == base + [key];
    }
  }

  /** A path is read key by key, each with a dot before it. */
  lemma {:induction false} PathsConcatenate(a: seq<string>, b: seq<string>)
    ensures FieldPath(a + b) == FieldPath(a) + FieldPath(b)
    ensures forall key :: FieldPath([key]) == "." + key
  {
    forall key ensures FieldPath([key]) == "." + key {
      assert [key][..0] == [];
    }
    if b == [] {
      assert a + b == a;
    } else {
      assert (a + b)[..|a + b| - 1] == a + b[..|b| - 1];
      PathsConcatenate(a, b[..|b| - 1]);
    }
  }

  /** A report names its path and both values: the live one as it prints, or "<missing>". */
  ghost predicate TellsValues(show: Value -> string, live: Value, desired: Value, base: seq<string>, d: Difference) {
    base <= d.keys && d.fieldPath == FieldPath(d.keys) &&
    var keys := d.keys[|base|..];
    At(desired, keys).Some? && d.desiredValue == show(At(desired, keys).value) &&
    (At(live, keys).Some? ==> d.liveValue == show(At(live, keys).value)) &&
    (At(live, keys).None? ==> d.liveValue == "<missing>")
  }

  // ---- diffObjects ----------------------------------------------------------------------------

  /** The body of the loop for one key of the desired object. */
  method DiffField(ignore: seq<string>, show: Value -> string, live: Value, desired: Value, base: seq<string>,
                   key: string)
    returns (results: seq<Difference>)
    requires live.Object? && desired.Object? && key in desired.fields
    ensures forall d :: d in results <==> Reportable(ignore, show, live, desired, base, d) && Under(base, key, d)
    ensures OnePerPath(results)
    decreases desired, 0
  {
    var here := base + [key];
    assert here[..|here| - 1] == base;
    var fieldPath := FieldPath(base) + "." + key;
    var skip := ShouldIgnoreField(ignore, fieldPath);
    if skip {
      forall d | Under(base, key, d) ensures !Reportable(ignore, show, live, desired, base, d) {
        IgnoredBelow(ignore, here, d.keys);
      }
      return [];
    }
    var dv := desired.fields[key];
    MismatchHere(show, live, desired, key);
    if key in live.fields && dv.Object? && live.fields[key].Object? {
      results := DiffObjects(ignore, show, live.fields[key], dv, here);
      NestedIsField(ignore, show, live, desired, base, key, results);
      return;
    }
    var one := Difference(here, fieldPath, if key in live.fields then show(live.fields[key]) else MISSING, show(dv));
    SingleIsField(ignore, show, live, desired, base, key, one);
    if key !in live.fields || show(live.fields[key]) != show(dv) {
      results := [one];
    } else {
      results := [];
    }
  }

  lemma NestedIsField(ignore: seq<string>, show: Value -> string, live: Value, desired: Value, base: seq<string>,
                      key: string, results: seq<Difference>)
    requires live.Object? && desired.Object? && key in desired.fields && key in live.fields
    requires live.fields[key].Object? && desired.fields[key].Object?
    requires forall d :: d in results <==>
      Reportable(ignore, show, live.fields[key], desired.fields[key], base + [key], d)
    ensures forall d :: d in results <==> Reportable(ignore, show, live, desired, base, d) && Under(base, key, d)
  {
    forall d ensures d in results <==> Reportable(ignore, show, live, desired, base, d) && Under(base, key, d) {
      if Under(base, key, d) {
        if |d.keys| > |base| + 1 {
          ReportableBelow(ignore, show, live, desired, base, key, d);
        } else {
          MismatchHere(show, live, desired, key);
          assert d.keys == base + [key];
          assert d.keys[|base|..] == [key];
        }
      }
    }
  }

  lemma SingleIsField(ignore: seq<string>, show: Value -> string, live: Value, desired: Value, base: seq<string>,
                      key: string, one: Difference)
    requires live.Object? && desired.Object? && key in desired.fields
    requires key !in live.fields || !(live.fields[key].Object? && desired.fields[key].Object?)
    requires !Ignored(ignore, FieldPath(base + [key]))
    requires one == Difference(base + [key], FieldPath(base + [key]),
      if key in live.fields then show(live.fields[key]) else MISSING, show(desired.fields[key]))
    ensures forall d :: (Reportable(ignore, show, live, desired, base, d) && Under(base, key, d)) <==>
      (d == one && (key !in live.fields || show(live.fields[key]) != show(desired.fields[key])))
  {
    MismatchHere(show, live, desired, key);
    AtKey(live, key);
    AtKey(desired, key);
    var here := base + [key];
    assert here[|base|..] == [key];
    forall d | Reportable(ignore, show, live, desired, base, d) && Under(base, key, d) ensures d == one {
      ReportableField(ignore, show, live, desired, base, key, d);
    }
  }

  /** Every difference is reported once, and nothing else is. */
  method DiffObjects(ignore: seq<string>, show: Value -> string, live: Value, desired: Value, base: seq<string>)
    returns (results: seq<Difference>)
    requires live.Object? && desired.Object?
    ensures forall d :: d in results <==> Reportable(ignore, show, live, desired, base, d)
    ensures forall d :: d in results ==> TellsValues(show, live, desired, base, d)
    ensures OnePerPath(results)
    decreases desired, 1
  {
    results := [];
    var rest := desired.fields.Keys;
    while rest != {}
      invariant rest <= desired.fields.Keys
      invariant OnePerPath(results)
      invariant forall d :: d in results <==>
        Reportable(ignore, show, live, desired, base, d) && |d.keys| > |base| && d.keys[|base|] !in rest
      decreases |rest|
    {
      var key :| key in rest;
      var more := DiffField(ignore, show, live, desired, base, key);
      ChunksJoin(results, more, base, key, rest);
      results, rest := results + more, rest - {key};
    }
    forall d | d in results ensures TellsValues(show, live, desired, base, d) {
      ReportTells(ignore, show, live, desired, base, d);
    }
  }

  lemma ReportTells(ignore: seq<string>, show: Value -> string, live: Value, desired: Value, base: seq<string>,
                    d: Difference)
    requires Reportable(ignore, show, live, desired, base, d)
    ensures TellsValues(show, live, desired, base, d)
  {
    assert base + d.keys[|base|..] == d.keys;
  }

  lemma ChunksJoin(results: seq<Difference>, more: seq<Difference>, base: seq<string>, key: string, rest: set<string>)
    requires OnePerPath(results) && OnePerPath(more) && key in rest
    requires forall d :: d in results ==> |d.keys| > |base| && d.keys[|base|] !in rest
    requires forall d :: d in more ==> Under(base, key, d)
    ensures OnePerPath(results + more)
  {
    var all := results + more;
    forall i, j | 0 <= i < j < |all| ensures all[i].keys != all[j].keys {
      if i < |results| <= j {
        assert all[i] in results && all[j] in more;
        assert all[j].keys[|base|] == (base + [key])[|base|];
      } else if |results| <= i {
        assert more[i - |results|] == all[i] && more[j - |results|] == all[j];
      }
    }
  }

  // ---- consequences ---------------------------------------------------------------------------

  /** Comparing with ignored fields reports exactly the differences of the full comparison whose
      path is not ignored, whatever order the maps are visited in; since both list a path at most
      once, they agree as multisets. */
  lemma PruningIsFiltering(ignore: seq<string>, show: Value -> string, live: Value, desired: Value, base: seq<string>,
                           pruned: seq<Difference>, full: seq<Difference>, d: Difference)
    requires forall x :: x in pruned <==> Reportable(ignore, show, live, desired, base, x)
    requires forall x :: x in full <==> Reportable([], show, live, desired, base, x)
    requires OnePerPath(pruned) && OnePerPath(full)
    ensures multiset(pruned)[d] == if Ignored(ignore, d.fieldPath) then 0 else multiset(full)[d]
  {
    OnePerPathCounts(pruned, d);
    OnePerPathCounts(full, d);
    assert d in pruned <==> d in full && !Ignored(ignore, d.fieldPath);
  }

  lemma {:induction false} OnePerPathCounts(results: seq<Difference>, d: Difference)
    requires OnePerPath(results)
    ensures multiset(results)[d] == if d in results then 1 else 0
  {
    if results != [] {
      var front, last := results[..|results| - 1], results[|results| - 1];
      assert results == front + [last];
      OnePerPathCounts(front, d);
      assert last == d ==> d !in front;
    }
  }

  /** The live object has what is desired at a path: an object where an object is desired, and
      otherwise the very value. */
  predicate Has(live: Value, desired: Value, keys: seq<string>) {
    var found, wanted := At(live, keys), At(desired, keys);
    wanted.Some? ==>
      found.Some? && ((found.value.Object? && wanted.value.Object?) || found.value == wanted.value)
  }

  ghost predicate Covers(ignore: seq<string>, live: Value, desired: Value) {
    forall keys :: keys != [] && !Ignored(ignore, FieldPath(keys)) ==> Has(live, desired, keys)
  }

  /** Two different values at the path, not both objects, that the formatting cannot tell apart. */
  predicate PrintsAlike(show: Value -> string, live: Value, desired: Value, keys: seq<string>) {
    var found, wanted := At(live, keys), At(desired, keys);
    found.Some? && wanted.Some? && !(found.value.Object? && wanted.value.Object?) &&
    found.value != wanted.value && show(found.value) == show(wanted.value)
  }

  /** Whatever prints alike is ignored. */
  ghost predicate ToldApart(ignore: seq<string>, show: Value -> string, live: Value, desired: Value) {
    forall keys :: PrintsAlike(show, live, desired, keys) ==> Ignored(ignore, FieldPath(keys))
  }

  predicate Disagrees(show: Value -> string, live: Value, desired: Value, keys: seq<string>) {
    Mismatch(show, live, desired, keys) || PrintsAlike(show, live, desired, keys)
  }

  lemma DisagreesHere(show: Value -> string, live: Value, desired: Value, key: string)
    requires live.Object? && desired.Object? && !Has(live, desired, [key])
    ensures Disagrees(show, live, desired, [key])
  {
    AtKey(live, key);
    AtKey(desired, key);
    MismatchHere(show, live, desired, key);
  }

  lemma DisagreesBelow(show: Value -> string, live: Value, desired: Value, keys: seq<string>)
    requires live.Object? && desired.Object? && |keys| >= 2 && keys[0] in live.fields && keys[0] in desired.fields
    requires Disagrees(show, live.fields[keys[0]], desired.fields[keys[0]], keys[1..])
    ensures Disagrees(show, live, desired, keys)
  {
    MismatchUnfold(show, live, desired, keys);
  }

  /** Where the live object lacks a desired value, something on the way does not match or prints
      alike. */
  lemma {:induction false} FirstDisagreement(show: Value -> string, live: Value, desired: Value, keys: seq<string>)
    requires live.Object? && desired.Object? && keys != [] && !Has(live, desired, keys)
    ensures exists n :: 0 < n <= |keys| && Disagrees(show, live, desired, keys[..n])
  {
    var key, below := keys[0], keys[1..];
    assert keys[..1] == [key];
    if !Has(live, desired, [key]) {
      DisagreesHere(show, live, desired, key);
    } else {
      AtKey(live, key);
      AtKey(desired, key);
      assert below != [] by { assert below == [] ==> keys == [key]; }
      var lv, dv := live.fields[key], desired.fields[key];
      assert At(dv, below).Some?;
      FirstDisagreement(show, lv, dv, below);
      var n :| 0 < n <= |below| && Disagrees(show, lv, dv, below[..n]);
      assert keys[..n + 1][1..] == below[..n];
      DisagreesBelow(show, live, desired, keys[..n + 1]);
    }
  }

  lemma MismatchIsReported(ignore: seq<string>, show: Value -> string, live: Value, desired: Value,
                           keys: seq<string>)
    requires Mismatch(show, live, desired, keys) && !Ignored(ignore, FieldPath(keys))
    ensures exists d :: Reportable(ignore, show, live, desired, [], d)
  {
    var d := Described(show, live, desired, [], keys);
    assert d.keys == keys && d.keys[0..] == keys;
    assert Reportable(ignore, show, live, desired, [], d);
  }

  lemma LackIsSeenOrPrintsAlike(ignore: seq<string>, show: Value -> string, live: Value, desired: Value,
                                keys: seq<string>)
    requires live.Object? && desired.Object? && keys != [] && !Has(live, desired, keys)
    requires !Ignored(ignore, FieldPath(keys)) && ToldApart(ignore, show, live, desired)
    ensures exists d :: Reportable(ignore, show, live, desired, [], d)
  {
    FirstDisagreement(show, live, desired, keys);
    var n :| 0 < n <= |keys| && Disagrees(show, live, desired, keys[..n]);
    NotIgnoredAbove(ignore, keys, n);
    MismatchIsReported(ignore, show, live, desired, keys[..n]);
  }

  /** For every pair of objects and every way of printing: the live object has everything desired
      outside the ignored paths if and only if nothing is reported and no two different values
      that print alike meet outside the ignored paths. */
  lemma EmptyExactlyWhenCovered(ignore: seq<string>, show: Value -> string, live: Value, desired: Value,
                                results: seq<Difference>)
    requires live.Object? && desired.Object?
    requires forall d :: d in results <==> Reportable(ignore, show, live, desired, [], d)
    ensures Covers(ignore, live, desired) <==> results == [] && ToldApart(ignore, show, live, desired)
  {
    if results == [] && ToldApart(ignore, show, live, desired) {
      forall keys | keys != [] && !Ignored(ignore, FieldPath(keys)) ensures Has(live, desired, keys) {
        if !Has(live, desired, keys) {
          LackIsSeenOrPrintsAlike(ignore, show, live, desired, keys);
        }
      }
    }
    if Covers(ignore, live, desired) {
      forall keys | PrintsAlike(show, live, desired, keys) ensures Ignored(ignore, FieldPath(keys)) {
        assert !Has(live, desired, keys);
      }
      if results != [] {
        ReportedIsLacking(ignore, show, live, desired, results[0]);
        assert false;
      }
    }
  }

  lemma ReportedIsLacking(ignore: seq<string>, show: Value -> string, live: Value, desired: Value, d: Difference)
    requires Reportable(ignore, show, live, desired, [], d)
    ensures d.keys != [] && !Ignored(ignore, FieldPath(d.keys)) && !Has(live, desired, d.keys)
  {
    assert d.keys[0..] == d.keys;
  }

  // ---- values that print alike ------------------------------------------------------------------

  function Holding(v: Value): Value { Object(map["spec" := v]) }

  /** Whenever two different values print alike, and are not both objects, a difference goes
      unreported. */
  lemma PrintingAlikeHidesDrift(show: Value -> string, a: Value, b: Value)
    requires a != b && show(a) == show(b) && !(a.Object? && b.Object?)
    ensures !Covers([], Holding(a), Holding(b))
    ensures forall d :: !Reportable([], show, Holding(a), Holding(b), [], d)
  {
    AtKey(Holding(a), "spec");
    AtKey(Holding(b), "spec");
    assert !Has(Holding(a), Holding(b), ["spec"]);
    assert !Ignored([], FieldPath(["spec"]));
    forall d ensures !Reportable([], show, Holding(a), Holding(b), [], d) {
      NothingMismatches(show, a, b, d.keys[0..]);
    }
  }

  lemma NothingMismatches(show: Value -> string, a: Value, b: Value, keys: seq<string>)
    requires show(a) == show(b) && !(a.Object? && b.Object?)
    ensures !Mismatch(show, Holding(a), Holding(b), keys)
  {
    if |keys| == 1 {
      assert keys == [keys[0]];
      MismatchHere(show, Holding(a), Holding(b), keys[0]);
    } else if |keys| >= 2 {
      MismatchUnfold(show, Holding(a), Holding(b), keys);
      if Mismatch(show, Holding(a), Holding(b), keys) {
        NoMismatchBelow(show, a, b, keys[1..]);
      }
    }
  }

  /** The verb %v prints the items of a list between brackets, separated by spaces. */
  function Spaced(show: Value -> string, items: seq<Value>): string {
    if items == [] then ""
    else if |items| == 1 then show(items[0])
    else show(items[0]) + " " + Spaced(show, items[1..])
  }

  ghost predicate PrintsLists(show: Value -> string) {
    forall items :: show(List(items)) == "[" + Spaced(show, items) + "]"
  }

  /** So a list of two strings goes for the list of one string that joins them with a space. */
  lemma ListsPrintAlike(show: Value -> string, a: Value, b: Value, joined: Value)
    requires PrintsLists(show) && show(joined) == show(a) + " " + show(b)
    ensures !Covers([], Holding(List([a, b])), Holding(List([joined])))
    ensures forall d :: !Reportable([], show, Holding(List([a, b])), Holding(List([joined])), [], d)
  {
    var two, one := [a, b], [joined];
    assert two[1..] == [b] && Spaced(show, [b]) == show(b);
    assert Spaced(show, two) == Spaced(show, one);
    assert |two| != |one|;
    PrintingAlikeHidesDrift(show, List(two), List(one));
  }

  lemma NotIgnoredAbove(ignore: seq<string>, keys: seq<string>, n: nat)
    requires n <= |keys| && !Ignored(ignore, FieldPath(keys))
    ensures !Ignored(ignore, FieldPath(keys[..n]))
  {
    if Ignored(ignore, FieldPath(keys[..n])) {
      IgnoredBelow(ignore, keys[..n], keys);
    }
  }
}
