/** internal/correlator/engine.go: grouping events into incidents.

    Times are integers (nanoseconds). Every `time.Now()` of the source is a clock
    reading passed in; the readings of one operation are ordered and none is earlier
    than the readings of the operation before it. */
module Correlator {
  import opened Text
  import opened Severities

  /** What a caller reports. The engine reads the namespace, the resource and the severity. */
  datatype Info = Info(kind: string, severity: Severity, policy: string, policyNamespace: string,
                       namespace: string, resource: string, resourceKind: string, message: string)

  /** A logged event; `ordinal` stands for the identity of the pointer the source keeps. */
  datatype Event = Event(ordinal: nat, info: Info, timestamp: int)

  /** `number` is the sequence number the source prints as the incident's ID; see IncidentId. */
  datatype Incident = Incident(number: nat, severity: Severity, title: string, events: seq<Event>,
                               namespace: string, resource: string,
                               createdAt: int, updatedAt: int, resolved: bool)

  /** The clock readings of one Ingest, in the order the source takes them. The scan reads the
      clock anew for every incident it visits: `scan(n)` is the reading for incident n. */
  datatype Readings = Readings(stamp: int, prune: int, scan: nat -> int, relate: int, created: int, updated: int) {
    ghost predicate Ordered(from: int) {
      from <= stamp <= prune <= relate <= created <= updated && forall n :: prune <= scan(n) <= relate
    }
  }

  /** `log` is the engine's event slice. `history` (every event ever logged), `horizon` (the
      last pruning cutoff) and `clock` (the last reading) are recorded for the statements only. */
  datatype State = State(log: seq<Event>, incidents: map<nat, Incident>, incidentSeq: nat,
                         history: seq<Event>, horizon: int, clock: int)

  datatype Op =
    | Ingest(info: Info, given: Option<int>, at: Readings)
    | Resolve(number: nat, now: int)

  datatype Outcome = Outcome(state: State, result: Option<Incident>)

  const FIVE_MINUTES: int := 300_000_000_000

  // ---- the operations as a specification -----------------------------------------

  function HighestSeverity(events: seq<Event>): Severity
  {
    if events == [] then Severity.Info
    else
      var before := HighestSeverity(events[..|events| - 1]);
      var severity := events[|events| - 1].info.severity;
      if Rank(severity) > Rank(before) then severity else before
  }

  predicate OnResource(event: Event, namespace: string, resource: string) {
    event.info.namespace == namespace && event.info.resource == resource
  }

  /** The retained part of a log: events strictly after the cutoff. */
  function After(log: seq<Event>, cutoff: int): seq<Event>
  {
    if log == [] then []
    else
      var kept := After(log[..|log| - 1], cutoff);
      if log[|log| - 1].timestamp > cutoff then kept + [log[|log| - 1]] else kept
  }

  predicate IsRelated(event: Event, namespace: string, resource: string, cutoff: int) {
    event.timestamp >= cutoff && OnResource(event, namespace, resource)
  }

  /** The events on one resource that are not before the cutoff. */
  function Related(log: seq<Event>, namespace: string, resource: string, cutoff: int): seq<Event>
  {
    if log == [] then []
    else
      var found := Related(log[..|log| - 1], namespace, resource, cutoff);
      if IsRelated(log[|log| - 1], namespace, resource, cutoff) then found + [log[|log| - 1]] else found
  }

  predicate Correlates(w: int, info: Info, incident: Incident, now: int) {
    info.namespace == incident.namespace && info.resource == incident.resource &&
    now - incident.updatedAt < w
  }

  /** The incidents the scan may join the event to; map iteration picks any of them. */
  function Joinable(w: int, incidents: map<nat, Incident>, info: Info, scan: nat -> int): set<nat> {
    set n | n in incidents && !incidents[n].resolved && Correlates(w, info, incidents[n], scan(n))
  }

  /** The identifier the source prints for incident n. */
  function IncidentId(n: nat): string { "INC-" + Padded(n) }

  function Extended(incident: Incident, event: Event, now: int): Incident {
    incident.(events := incident.events + [event], updatedAt := now,
      severity := if Rank(event.info.severity) > Rank(incident.severity) then event.info.severity
                  else incident.severity)
  }

  function Formed(n: nat, related: seq<Event>, info: Info, at: Readings): Incident {
    Incident(n, HighestSeverity(related), "Correlated incident on " + info.namespace + "/" + info.resource,
             related, info.namespace, info.resource, at.created, at.updated, false)
  }

  function Logged(s: State, info: Info, given: Option<int>, at: Readings): Event {
    Event(|s.history|, info, if given.Some? then given.value else at.stamp)
  }

  /** Appending the event; `pruning` is false for the reference engine that keeps everything. */
  function Appended(w: int, pruning: bool, s: State, event: Event, at: Readings): State {
    var cutoff := at.prune - 10 * w;
    State(if pruning then After(s.log + [event], cutoff) else s.log + [event], s.incidents, s.incidentSeq,
          s.history + [event], cutoff, at.updated)
  }

  /** Recording a new or changed incident. */
  function Recorded(s: State, incident: Incident): Outcome {
    Outcome(s.(incidents := s.incidents[incident.number := incident],
               incidentSeq := if incident.number > s.incidentSeq then incident.number else s.incidentSeq),
            Some(incident))
  }

  ghost predicate JoinStep(w: int, s: State, base: State, event: Event, at: Readings, n: nat, o: Outcome) {
    n in Joinable(w, s.incidents, event.info, at.scan) &&
    o == Recorded(base, Extended(s.incidents[n], event, at.updated))
  }

  function FormedOrNot(w: int, base: State, info: Info, at: Readings): Outcome {
    var related := Related(base.log, info.namespace, info.resource, at.relate - w);
    if |related| >= 2 then Recorded(base, Formed(base.incidentSeq + 1, related, info, at))
    else Outcome(base, None)
  }

  /** The appended event joins an incident, forms one, or waits. */
  ghost predicate Placed(w: int, s: State, base: State, event: Event, at: Readings, o: Outcome) {
    if Joinable(w, s.incidents, event.info, at.scan) == {} then o == FormedOrNot(w, base, event.info, at)
    else exists n :: JoinStep(w, s, base, event, at, n, o)
  }

  ghost predicate IngestStep(w: int, pruning: bool, s: State, info: Info, given: Option<int>, at: Readings,
                             o: Outcome)
  {
    var event := Logged(s, info, given, at);
    Placed(w, s, Appended(w, pruning, s, event, at), event, at, o)
  }

  function Resolved(s: State, number: nat, now: int): State {
    s.(clock := now,
       incidents := if number !in s.incidents then s.incidents
                    else s.incidents[number := s.incidents[number].(resolved := true, updatedAt := now)])
  }

  ghost predicate Step(w: int, pruning: bool, s: State, op: Op, o: Outcome) {
    match op
    case Ingest(info, given, at) => at.Ordered(s.clock) && IngestStep(w, pruning, s, info, given, at, o)
    case Resolve(number, now) => s.clock <= now && o == Outcome(Resolved(s, number, now), None)
  }

  function Start(w: int, now: int): State {
    State([], map[], 0, [], now - 10 * w, now)
  }

  /** A run of the engine, the latest operation outermost. */
  datatype Run = Begin(start: int) | Then(prev: Run, op: Op, o: Outcome)

  function End(w: int, r: Run): State {
    match r
    case Begin(start) => Start(w, start)
    case Then(_, _, o) => o.state
  }

  ghost predicate Legal(w: int, pruning: bool, r: Run) {
    match r
    case Begin(_) => true
    case Then(prev, op, o) => Legal(w, pruning, prev) && Step(w, pruning, End(w, prev), op, o)
  }

  // ---- filters -----------------------------------------------------------------

  lemma {:induction false} RelatedContents(log: seq<Event>, namespace: string, resource: string, cutoff: int, e: Event)
    ensures e in Related(log, namespace, resource, cutoff) <==> e in log && IsRelated(e, namespace, resource, cutoff)
  {
    if log != [] {
      assert log == log[..|log| - 1] + [log[|log| - 1]];
      RelatedContents(log[..|log| - 1], namespace, resource, cutoff, e);
    }
  }

  lemma {:induction false} AfterContents(log: seq<Event>, cutoff: int, e: Event)
    ensures e in After(log, cutoff) <==> e in log && e.timestamp > cutoff
  {
    if log != [] {
      assert log == log[..|log| - 1] + [log[|log| - 1]];
      AfterContents(log[..|log| - 1], cutoff, e);
    }
  }

  lemma {:induction false} AfterCompose(log: seq<Event>, early: int, late: int)
    requires early <= late
    ensures After(After(log, early), late) == After(log, late)
  {
    if log != [] {
      var front, last := log[..|log| - 1], log[|log| - 1];
      AfterCompose(front, early, late);
      var kept := After(front, early);
      assert (kept + [last])[..|kept|] == kept;
    }
  }

  lemma AfterAppend(log: seq<Event>, event: Event, early: int, late: int)
    requires early <= late
    ensures After(After(log, early) + [event], late) == After(log + [event], late)
  {
    assert (log + [event])[..|log|] == log;
    var kept := After(log, early);
    assert (kept + [event])[..|kept|] == kept;
    AfterCompose(log, early, late);
  }

  lemma {:induction false} RelatedIgnoresOld(log: seq<Event>, namespace: string, resource: string, horizon: int,
                                             cutoff: int)
    requires horizon < cutoff
    ensures Related(After(log, horizon), namespace, resource, cutoff) == Related(log, namespace, resource, cutoff)
  {
    if log != [] {
      var front, last := log[..|log| - 1], log[|log| - 1];
      RelatedIgnoresOld(front, namespace, resource, horizon, cutoff);
      var kept := After(front, horizon);
      assert (kept + [last])[..|kept|] == kept;
    }
  }

  lemma {:induction false} RelatedShrinks(log: seq<Event>, namespace: string, resource: string, early: int, late: int)
    requires early <= late
    ensures |Related(log, namespace, resource, late)| <= |Related(log, namespace, resource, early)|
  {
    if log != [] {
      RelatedShrinks(log[..|log| - 1], namespace, resource, early, late);
    }
  }

  /** Different incidents print different identifiers. */
  lemma IncidentIdsNeverCollide(m: nat, n: nat)
    requires IncidentId(m) == IncidentId(n)
    ensures m == n
  {
    assert IncidentId(m)[4..] == Padded(m) && IncidentId(n)[4..] == Padded(n);
    NumeralOfPadded(m);
    NumeralOfPadded(n);
  }

  // ---- the invariant of every state ----------------------------------------------

  predicate SameResource(a: Incident, b: Incident) {
    a.namespace == b.namespace && a.resource == b.resource
  }

  /** Last updated at least a window apart, unless resolved or about different resources. */
  predicate Apart(w: int, a: Incident, b: Incident) {
    a.resolved || b.resolved || !SameResource(a, b) || a.updatedAt - b.updatedAt >= w || b.updatedAt - a.updatedAt >= w
  }

  ghost predicate Separated(w: int, incidents: map<nat, Incident>) {
    forall i, j :: i in incidents && j in incidents && i != j ==> Apart(w, incidents[i], incidents[j])
  }

  /** No event ranks above the incident's severity, and one event has its rank. */
  ghost predicate SeverityIsMaximum(severity: Severity, events: seq<Event>) {
    (forall i :: 0 <= i < |events| ==> Rank(events[i].info.severity) <= Rank(severity)) &&
    (exists i :: 0 <= i < |events| && Rank(events[i].info.severity) == Rank(severity))
  }

  ghost predicate EventsBelong(incident: Incident, history: seq<Event>) {
    forall i :: 0 <= i < |incident.events| ==>
      incident.events[i].ordinal < |history| && incident.events[i] == history[incident.events[i].ordinal] &&
      OnResource(incident.events[i], incident.namespace, incident.resource)
  }

  ghost predicate WellFormed(n: nat, incident: Incident, incidentSeq: nat, clock: int, history: seq<Event>) {
    incident.number == n && 1 <= n <= incidentSeq && incident.updatedAt <= clock && |incident.events| >= 2 &&
    EventsBelong(incident, history) && SeverityIsMaximum(incident.severity, incident.events)
  }

  ghost predicate Inv(w: int, s: State) {
    (forall n :: n in s.incidents ==> WellFormed(n, s.incidents[n], s.incidentSeq, s.clock, s.history)) &&
    (forall n :: 1 <= n <= s.incidentSeq ==> n in s.incidents) &&
    (forall i :: 0 <= i < |s.history| ==> s.history[i].ordinal == i) &&
    (forall i :: 0 <= i < |s.log| ==> s.log[i] in s.history) &&
    Separated(w, s.incidents)
  }

  lemma {:induction false} HighestIsMaximum(events: seq<Event>)
    requires events != []
    ensures SeverityIsMaximum(HighestSeverity(events), events)
  {
    var front, last := events[..|events| - 1], events[|events| - 1];
    if front == [] {
      assert Rank(HighestSeverity(front)) == 1;
      assert Rank(events[0].info.severity) == Rank(HighestSeverity(events));
    } else {
      HighestIsMaximum(front);
      if Rank(last.info.severity) <= Rank(HighestSeverity(front)) {
        var k :| 0 <= k < |front| && Rank(front[k].info.severity) == Rank(HighestSeverity(front));
        assert events[k] == front[k];
      }
    }
  }

  lemma ExtendedIsMaximum(incident: Incident, event: Event, now: int)
    requires SeverityIsMaximum(incident.severity, incident.events)
    ensures SeverityIsMaximum(Extended(incident, event, now).severity, Extended(incident, event, now).events)
  {
    var more := Extended(incident, event, now);
    var k :| 0 <= k < |incident.events| && Rank(incident.events[k].info.severity) == Rank(incident.severity);
    if Rank(event.info.severity) > Rank(incident.severity) {
      assert more.events[|incident.events|] == event;
    } else {
      assert more.events[k] == incident.events[k];
    }
  }

  lemma LogStaysInHistory(log: seq<Event>, kept: seq<Event>, history: seq<Event>, event: Event, cutoff: int)
    requires forall i :: 0 <= i < |log| ==> log[i] in history
    requires kept == After(log + [event], cutoff) || kept == log + [event]
    ensures forall i :: 0 <= i < |kept| ==> kept[i] in history + [event]
  {
    forall i | 0 <= i < |kept| ensures kept[i] in history + [event] {
      AfterContents(log + [event], cutoff, kept[i]);
      assert kept[i] in log + [event];
    }
  }

  /** Appending to the log touches no incident. */
  lemma AppendKeepsInv(w: int, pruning: bool, s: State, event: Event, at: Readings)
    requires Inv(w, s) && at.Ordered(s.clock) && event.ordinal == |s.history|
    ensures Inv(w, Appended(w, pruning, s, event, at))
  {
    var base := Appended(w, pruning, s, event, at);
    LogStaysInHistory(s.log, base.log, s.history, event, base.horizon);
    forall n | n in base.incidents
      ensures WellFormed(n, base.incidents[n], base.incidentSeq, base.clock, base.history)
    {
      assert WellFormed(n, s.incidents[n], s.incidentSeq, s.clock, s.history);
    }
  }

  lemma RecordKeepsSeparated(w: int, incidents: map<nat, Incident>, incident: Incident)
    requires Separated(w, incidents)
    requires forall j :: j in incidents && j != incident.number ==> Apart(w, incidents[j], incident)
    ensures Separated(w, incidents[incident.number := incident])
  {
    forall j | j in incidents && j != incident.number ensures Apart(w, incident, incidents[j]) {
      assert Apart(w, incidents[j], incident);
    }
  }

  lemma RecordKeepsInv(w: int, base: State, incident: Incident)
    requires Inv(w, base)
    requires incident.number == base.incidentSeq + 1 || incident.number in base.incidents
    requires WellFormed(incident.number, incident, Recorded(base, incident).state.incidentSeq, base.clock, base.history)
    requires forall j :: j in base.incidents && j != incident.number ==> Apart(w, base.incidents[j], incident)
    ensures Inv(w, Recorded(base, incident).state)
  {
    var s' := Recorded(base, incident).state;
    RecordKeepsSeparated(w, base.incidents, incident);
    forall n | n in s'.incidents ensures WellFormed(n, s'.incidents[n], s'.incidentSeq, s'.clock, s'.history) {
      assert n != incident.number ==> WellFormed(n, base.incidents[n], base.incidentSeq, base.clock, base.history);
    }
  }

  /** The incidents on the resource whose window has not ended by the clock. */
  predicate Current(w: int, s: State, info: Info, n: nat) {
    n in s.incidents && !s.incidents[n].resolved && Correlates(w, info, s.incidents[n], s.clock)
  }

  /** There is at most one, and the scan can join no other, whenever it reads the clock. */
  lemma AtMostOneJoinable(w: int, s: State, info: Info, i: nat, j: nat)
    requires Inv(w, s) && Current(w, s, info, i) && Current(w, s, info, j)
    ensures i == j
  {
    assert WellFormed(i, s.incidents[i], s.incidentSeq, s.clock, s.history);
    assert WellFormed(j, s.incidents[j], s.incidentSeq, s.clock, s.history);
    assert i != j ==> Apart(w, s.incidents[i], s.incidents[j]);
  }

  /** Two scans of one state, at readings of their own: what a different iteration order may
      change. The window of the current incident does not end between its two readings. */
  ghost predicate SameSide(w: int, s: State, info: Info, a: Readings, b: Readings) {
    b == a.(scan := b.scan) &&
    forall n :: Current(w, s, info, n) ==>
      (Correlates(w, info, s.incidents[n], a.scan(n)) <==> Correlates(w, info, s.incidents[n], b.scan(n)))
  }

  /** So the outcome does not depend on the order in which the map is scanned, nor on when the
      scan reads the clock, as long as the one current incident stays current or stays stale. */
  lemma IngestIsDeterministic(w: int, pruning: bool, s: State, info: Info, given: Option<int>,
                              a: Readings, b: Readings, o1: Outcome, o2: Outcome)
    requires Inv(w, s) && a.Ordered(s.clock) && b.Ordered(s.clock) && SameSide(w, s, info, a, b)
    requires IngestStep(w, pruning, s, info, given, a, o1)
    requires IngestStep(w, pruning, s, info, given, b, o2)
    ensures o1 == o2
  {
    var event := Logged(s, info, given, a);
    SameAppend(w, pruning, s, info, given, event, a, b);
    PlacingIsDeterministic(w, s, Appended(w, pruning, s, event, a), event, a, b, o1, o2);
  }

  lemma SameAppend(w: int, pruning: bool, s: State, info: Info, given: Option<int>, event: Event, a: Readings,
                   b: Readings)
    requires b == a.(scan := b.scan) && event == Logged(s, info, given, a)
    ensures event == Logged(s, info, given, b) && Appended(w, pruning, s, event, a) == Appended(w, pruning, s, event, b)
  {
  }

  lemma PlacingIsDeterministic(w: int, s: State, base: State, event: Event, a: Readings, b: Readings,
                               o1: Outcome, o2: Outcome)
    requires Inv(w, s) && a.Ordered(s.clock) && b.Ordered(s.clock) && SameSide(w, s, event.info, a, b)
    requires Placed(w, s, base, event, a, o1) && Placed(w, s, base, event, b, o2)
    ensures o1 == o2
  {
    SameJoinable(w, s, event.info, a, b);
    if Joinable(w, s.incidents, event.info, a.scan) != {} {
      var i :| JoinStep(w, s, base, event, a, i, o1);
      var j :| JoinStep(w, s, base, event, b, j, o2);
      AtMostOneJoinable(w, s, event.info, i, j);
    }
  }

  lemma SameJoinable(w: int, s: State, info: Info, a: Readings, b: Readings)
    requires a.Ordered(s.clock) && b.Ordered(s.clock) && SameSide(w, s, info, a, b)
    ensures Joinable(w, s.incidents, info, a.scan) == Joinable(w, s.incidents, info, b.scan)
    ensures forall n :: n in Joinable(w, s.incidents, info, a.scan) ==> Current(w, s, info, n)
  {
    forall n ensures n in Joinable(w, s.incidents, info, a.scan) <==> n in Joinable(w, s.incidents, info, b.scan) {
      assert a.prune <= a.scan(n) && b.prune <= b.scan(n);
    }
  }

  lemma JoinKeepsInv(w: int, s: State, base: State, event: Event, at: Readings, n: nat)
    requires Inv(w, s) && Inv(w, base) && at.Ordered(s.clock)
    requires base.incidents == s.incidents && base.clock == at.updated
    requires event.ordinal < |base.history| && base.history[event.ordinal] == event
    requires n in Joinable(w, s.incidents, event.info, at.scan)
    ensures Inv(w, Recorded(base, Extended(s.incidents[n], event, at.updated)).state)
  {
    var incident := Extended(s.incidents[n], event, at.updated);
    assert WellFormed(n, s.incidents[n], base.incidentSeq, base.clock, base.history);
    ExtendedIsMaximum(s.incidents[n], event, at.updated);
    forall j | j in base.incidents && j != n ensures Apart(w, base.incidents[j], incident) {
      assert WellFormed(j, s.incidents[j], s.incidentSeq, s.clock, s.history);
      assert Apart(w, s.incidents[j], s.incidents[n]);
    }
    RecordKeepsInv(w, base, incident);
  }

  lemma RelatedBelong(history: seq<Event>, log: seq<Event>, n: nat, info: Info, cutoff: int, at: Readings)
    requires forall i :: 0 <= i < |history| ==> history[i].ordinal == i
    requires forall i :: 0 <= i < |log| ==> log[i] in history
    ensures EventsBelong(Formed(n, Related(log, info.namespace, info.resource, cutoff), info, at), history)
  {
    var related := Related(log, info.namespace, info.resource, cutoff);
    forall i | 0 <= i < |related|
      ensures related[i].ordinal < |history| && related[i] == history[related[i].ordinal] &&
              OnResource(related[i], info.namespace, info.resource)
    {
      RelatedContents(log, info.namespace, info.resource, cutoff, related[i]);
    }
  }

  lemma FormedIsWellFormed(base: State, related: seq<Event>, info: Info, cutoff: int, at: Readings)
    requires forall i :: 0 <= i < |base.history| ==> base.history[i].ordinal == i
    requires forall i :: 0 <= i < |base.log| ==> base.log[i] in base.history
    requires related == Related(base.log, info.namespace, info.resource, cutoff) && |related| >= 2
    ensures var n := base.incidentSeq + 1;
      WellFormed(n, Formed(n, related, info, at), n, at.updated, base.history)
  {
    HighestIsMaximum(related);
    RelatedBelong(base.history, base.log, base.incidentSeq + 1, info, cutoff, at);
  }

  lemma FormedIsApart(w: int, incidents: map<nat, Incident>, info: Info, at: Readings, clock: int, formed: Incident)
    requires at.Ordered(clock) && Joinable(w, incidents, info, at.scan) == {}
    requires formed.namespace == info.namespace && formed.resource == info.resource && formed.updatedAt == at.updated
    ensures forall j :: j in incidents ==> Apart(w, incidents[j], formed)
  {
    forall j | j in incidents ensures Apart(w, incidents[j], formed) {
      assert j !in Joinable(w, incidents, info, at.scan);
      assert at.scan(j) <= at.relate;
    }
  }

  lemma FormKeepsInv(w: int, s: State, base: State, info: Info, at: Readings)
    requires Inv(w, base) && at.Ordered(s.clock)
    requires base.incidents == s.incidents && base.clock == at.updated
    requires Joinable(w, s.incidents, info, at.scan) == {}
    ensures Inv(w, FormedOrNot(w, base, info, at).state)
  {
    var related := Related(base.log, info.namespace, info.resource, at.relate - w);
    var o := FormedOrNot(w, base, info, at);
    if |related| >= 2 {
      FormedKeepsInv(w, base, related, info, at, s.clock);
      assert o.state == Recorded(base, Formed(base.incidentSeq + 1, related, info, at)).state;
    } else {
      assert o.state == base;
    }
  }

  lemma FormedKeepsInv(w: int, base: State, related: seq<Event>, info: Info, at: Readings, clock: int)
    requires Inv(w, base) && at.Ordered(clock) && base.clock == at.updated
    requires Joinable(w, base.incidents, info, at.scan) == {}
    requires related == Related(base.log, info.namespace, info.resource, at.relate - w) && |related| >= 2
    ensures Inv(w, Recorded(base, Formed(base.incidentSeq + 1, related, info, at)).state)
  {
    var incident := Formed(base.incidentSeq + 1, related, info, at);
    FormedIsWellFormed(base, related, info, at.relate - w, at);
    FormedIsApart(w, base.incidents, info, at, clock, incident);
    RecordKeepsInv(w, base, incident);
  }

  lemma ResolveKeepsInv(w: int, s: State, n: nat, now: int)
    requires Inv(w, s) && s.clock <= now
    ensures Inv(w, Resolved(s, n, now))
  {
    var s' := Resolved(s, n, now);
    forall j | j in s'.incidents ensures WellFormed(j, s'.incidents[j], s'.incidentSeq, s'.clock, s'.history) {
      assert WellFormed(j, s.incidents[j], s.incidentSeq, s.clock, s.history);
    }
  }

  lemma StepKeepsInv(w: int, pruning: bool, s: State, op: Op, o: Outcome)
    requires Inv(w, s) && Step(w, pruning, s, op, o)
    ensures Inv(w, o.state)
  {
    match op
    case Ingest(info, given, at) =>
      var event := Logged(s, info, given, at);
      var base := Appended(w, pruning, s, event, at);
      AppendKeepsInv(w, pruning, s, event, at);
      if Joinable(w, s.incidents, info, at.scan) == {} {
        FormKeepsInv(w, s, base, info, at);
      } else {
        var n :| JoinStep(w, s, base, event, at, n, o);
        JoinKeepsInv(w, s, base, event, at, n);
      }
    case Resolve(number, now) => ResolveKeepsInv(w, s, number, now);
  }

  /** Every state of every run, for every window and for all timestamps callers supply: one
      joinable incident at most, incidents numbered without a gap, severities that are maxima. */
  lemma {:induction false} RunKeepsInv(w: int, pruning: bool, r: Run)
    requires Legal(w, pruning, r)
    ensures Inv(w, End(w, r))
  {
    if r.Then? {
      RunKeepsInv(w, pruning, r.prev);
      StepKeepsInv(w, pruning, End(w, r.prev), r.op, r.o);
    }
  }

  // ---- pruning is invisible ----------------------------------------------------

  /** The log is the history after the horizon, and the horizon is ten windows back. */
  ghost predicate Pruned(w: int, s: State) {
    s.horizon <= s.clock - 10 * w && s.log == After(s.history, s.horizon)
  }

  lemma AppendKeepsPruned(w: int, s: State, event: Event, at: Readings, base: State)
    requires w > 0 && Pruned(w, s) && at.Ordered(s.clock) && base == Appended(w, true, s, event, at)
    ensures Pruned(w, base)
    ensures Related(base.log, event.info.namespace, event.info.resource, at.relate - w)
         == Related(base.history, event.info.namespace, event.info.resource, at.relate - w)
  {
    AfterAppend(s.history, event, s.horizon, base.horizon);
    RelatedIgnoresOld(base.history, event.info.namespace, event.info.resource, base.horizon, at.relate - w);
  }

  /** Everything but the log agrees, and the reference engine's log is the history. */
  ghost predicate Indistinguishable(p: State, r: State) {
    p.incidents == r.incidents && p.incidentSeq == r.incidentSeq && p.history == r.history &&
    p.clock == r.clock && r.log == r.history
  }

  ghost predicate Twins(w: int, p: State, r: State) { Pruned(w, p) && Indistinguishable(p, r) }

  lemma IngestIsIndistinguishable(w: int, p: State, r: State, pbase: State, rbase: State, event: Event, at: Readings,
                                  pruned: Outcome, full: Outcome)
    requires Inv(w, p) && p.incidents == r.incidents && at.Ordered(p.clock)
    requires Indistinguishable(pbase, rbase)
    requires Related(pbase.log, event.info.namespace, event.info.resource, at.relate - w)
          == Related(rbase.log, event.info.namespace, event.info.resource, at.relate - w)
    requires if Joinable(w, p.incidents, event.info, at.scan) == {} then pruned == FormedOrNot(w, pbase, event.info, at)
             else exists n :: JoinStep(w, p, pbase, event, at, n, pruned)
    requires if Joinable(w, r.incidents, event.info, at.scan) == {} then full == FormedOrNot(w, rbase, event.info, at)
             else exists n :: JoinStep(w, r, rbase, event, at, n, full)
    ensures Indistinguishable(pruned.state, full.state) && pruned.result == full.result
    ensures pruned.state.log == pbase.log && pruned.state.history == pbase.history
    ensures pruned.state.horizon == pbase.horizon && pruned.state.clock == pbase.clock
  {
    if Joinable(w, p.incidents, event.info, at.scan) != {} {
      var i :| JoinStep(w, p, pbase, event, at, i, pruned);
      var j :| JoinStep(w, r, rbase, event, at, j, full);
      AtMostOneJoinable(w, p, event.info, i, j);
    }
  }

  lemma StepIsIndistinguishable(w: int, p: State, r: State, op: Op, pruned: Outcome, full: Outcome)
    requires w > 0 && Inv(w, p) && Twins(w, p, r)
    requires Step(w, true, p, op, pruned) && Step(w, false, r, op, full)
    ensures Twins(w, pruned.state, full.state) && pruned.result == full.result
  {
    match op
    case Ingest(info, given, at) =>
      var event := Logged(p, info, given, at);
      var pbase, rbase := Appended(w, true, p, event, at), Appended(w, false, r, event, at);
      AppendKeepsPruned(w, p, event, at, pbase);
      IngestIsIndistinguishable(w, p, r, pbase, rbase, event, at, pruned, full);
    case Resolve(_, _) =>
  }

  ghost predicate SameOps(a: Run, b: Run) {
    match a
    case Begin(start) => b == a
    case Then(prev, op, _) => b.Then? && op == b.op && SameOps(prev, b.prev)
  }

  /** The same calls, though each scan may visit the incidents in an order of its own and so read
      the clock differently, on the same side of the end of the current incident's window. */
  ghost predicate SameCalls(w: int, a: Run, b: Run) {
    match a
    case Begin(start) => b == a
    case Then(prev, op, _) => b.Then? && SameCalls(w, prev, b.prev) && SameCall(w, End(w, prev), op, b.op)
  }

  ghost predicate SameCall(w: int, s: State, a: Op, b: Op) {
    match a
    case Ingest(info, given, at) => b.Ingest? && b.info == info && b.given == given && SameSide(w, s, info, at, b.at)
    case Resolve(_, _) => b == a
  }

  /** No map iteration order ever shows: such runs have the same results and states throughout. */
  lemma {:induction false} RunsAreDeterministic(w: int, pruning: bool, a: Run, b: Run)
    requires Legal(w, pruning, a) && Legal(w, pruning, b) && SameCalls(w, a, b)
    ensures End(w, a) == End(w, b) && (a.Then? ==> a.o == b.o)
  {
    if a.Then? {
      RunsAreDeterministic(w, pruning, a.prev, b.prev);
      RunKeepsInv(w, pruning, a.prev);
      StepsAreDeterministic(w, pruning, End(w, a.prev), a.op, b.op, a.o, b.o);
    }
  }

  lemma StepsAreDeterministic(w: int, pruning: bool, s: State, a: Op, b: Op, o1: Outcome, o2: Outcome)
    requires Inv(w, s) && Step(w, pruning, s, a, o1) && Step(w, pruning, s, b, o2) && SameCall(w, s, a, b)
    ensures o1 == o2
  {
    if a.Ingest? {
      IngestIsDeterministic(w, pruning, s, a.info, a.given, a.at, b.at, o1, o2);
    }
  }

  /** Pruning at ten windows is invisible: a run of the engine and a run of one that never
      forgets an event give the same results and the same incidents at every step. */
  lemma {:induction false} PruningIsInvisible(w: int, pruned: Run, full: Run)
    requires w > 0 && Legal(w, true, pruned) && Legal(w, false, full) && SameOps(pruned, full)
    ensures Twins(w, End(w, pruned), End(w, full))
    ensures pruned.Then? ==> pruned.o.result == full.o.result
  {
    if pruned.Then? {
      PruningIsInvisible(w, pruned.prev, full.prev);
      RunKeepsInv(w, true, pruned.prev);
      StepIsIndistinguishable(w, End(w, pruned.prev), End(w, full.prev), pruned.op, pruned.o, full.o);
    }
  }

  // ---- nothing is lost ---------------------------------------------------------

  ghost predicate InSomeIncident(incidents: map<nat, Incident>, e: Event) {
    exists n :: n in incidents && e in incidents[n].events
  }

  predicate Stale(w: int, incident: Incident, now: int) { incident.resolved || now - incident.updatedAt >= w }

  /** An event in no incident is older than the window, or every unresolved incident on its
      resource has gone stale. */
  ghost predicate OrphansAreAlone(w: int, s: State) {
    forall e, n :: e in s.history && n in s.incidents &&
                   OnResource(e, s.incidents[n].namespace, s.incidents[n].resource) ==>
                     InSomeIncident(s.incidents, e) || Stale(w, s.incidents[n], s.clock) || e.timestamp < s.clock - w
  }

  /** If two events on the resource are no older than the window, all of them are in incidents. */
  ghost predicate NothingLost(w: int, s: State, info: Info) {
    var recent := Related(s.history, info.namespace, info.resource, s.clock - w);
    |recent| >= 2 ==> forall e :: e in recent ==> InSomeIncident(s.incidents, e)
  }

  /** Events that already belong to an incident still do after one is recorded. */
  lemma RecordKeepsMembers(incidents: map<nat, Incident>, incident: Incident, e: Event)
    requires incident.number in incidents ==> incidents[incident.number].events <= incident.events
    requires InSomeIncident(incidents, e) || e in incident.events
    ensures InSomeIncident(incidents[incident.number := incident], e)
  {
    var after := incidents[incident.number := incident];
    if e in incident.events {
      assert incident.number in after && e in after[incident.number].events;
    } else {
      var n :| n in incidents && e in incidents[n].events;
      assert n in after && e in after[n].events;
    }
  }

  lemma JoinLosesNothing(w: int, s: State, base: State, event: Event, at: Readings, n: nat, o: Outcome)
    requires OrphansAreAlone(w, s) && Inv(w, s) && at.Ordered(s.clock)
    requires base.incidents == s.incidents && base.clock == at.updated && base.history == s.history + [event]
    requires JoinStep(w, s, base, event, at, n, o)
    ensures OrphansAreAlone(w, o.state) && NothingLost(w, o.state, event.info)
  {
    var s', joined := o.state, Extended(s.incidents[n], event, at.updated);
    assert WellFormed(n, s.incidents[n], s.incidentSeq, s.clock, s.history);
    forall e | e in s'.history && OnResource(e, joined.namespace, joined.resource)
      ensures InSomeIncident(s'.incidents, e) || e.timestamp < s'.clock - w
    {
      JoinAccountsFor(w, s, event, joined, e, n);
    }
    forall e, m | e in s'.history && m in s'.incidents && m != n &&
                  OnResource(e, s'.incidents[m].namespace, s'.incidents[m].resource)
      ensures InSomeIncident(s'.incidents, e) || Stale(w, s'.incidents[m], s'.clock) || e.timestamp < s'.clock - w
    {
      JoinAccountsFor(w, s, event, joined, e, m);
    }
    RecentAreMembers(w, s', event.info);
  }

  lemma JoinAccountsFor(w: int, s: State, event: Event, joined: Incident, e: Event, m: nat)
    requires OrphansAreAlone(w, s) && e in s.history + [event] && event in joined.events
    requires joined.number in s.incidents && s.incidents[joined.number].events <= joined.events
    requires m in s.incidents && OnResource(e, s.incidents[m].namespace, s.incidents[m].resource)
    ensures InSomeIncident(s.incidents[joined.number := joined], e) ||
            Stale(w, s.incidents[m], s.clock) || e.timestamp < s.clock - w
  {
    if e == event || InSomeIncident(s.incidents, e) { RecordKeepsMembers(s.incidents, joined, e); }
  }

  lemma RecentAreMembers(w: int, s: State, info: Info)
    requires forall e :: e in s.history && OnResource(e, info.namespace, info.resource) ==>
               InSomeIncident(s.incidents, e) || e.timestamp < s.clock - w
    ensures NothingLost(w, s, info)
  {
    var recent := Related(s.history, info.namespace, info.resource, s.clock - w);
    forall e | e in recent ensures InSomeIncident(s.incidents, e) {
      RelatedContents(s.history, info.namespace, info.resource, s.clock - w, e);
    }
  }

  lemma FormedLosesNothing(w: int, s: State, base: State, event: Event, at: Readings, related: seq<Event>)
    requires OrphansAreAlone(w, s) && Inv(w, s) && at.Ordered(s.clock)
    requires base.incidents == s.incidents && base.clock == at.updated && base.history == s.history + [event]
    requires base.incidentSeq == s.incidentSeq
    requires Joinable(w, s.incidents, event.info, at.scan) == {}
    requires related == Related(base.history, event.info.namespace, event.info.resource, at.relate - w)
    ensures var o := Recorded(base, Formed(base.incidentSeq + 1, related, event.info, at));
            OrphansAreAlone(w, o.state) && NothingLost(w, o.state, event.info)
  {
    var info := event.info;
    var formed := Formed(base.incidentSeq + 1, related, info, at);
    var s' := Recorded(base, formed).state;
    assert formed.number !in s.incidents;
    forall e | e in s'.history && OnResource(e, info.namespace, info.resource)
      ensures InSomeIncident(s'.incidents, e) || e.timestamp < s'.clock - w
    {
      RelatedContents(s'.history, info.namespace, info.resource, at.relate - w, e);
      if e in related { RecordKeepsMembers(s.incidents, formed, e); }
    }
    forall e, m | e in s'.history && m in s.incidents &&
                  OnResource(e, s.incidents[m].namespace, s.incidents[m].resource)
      ensures InSomeIncident(s'.incidents, e) || Stale(w, s.incidents[m], s'.clock) || e.timestamp < s'.clock - w
    {
      assert m !in Joinable(w, s.incidents, info, at.scan);
      if InSomeIncident(s.incidents, e) { RecordKeepsMembers(s.incidents, formed, e); }
    }
    RecentAreMembers(w, s', info);
  }

  lemma UnformedLosesNothing(w: int, s: State, base: State, event: Event, at: Readings)
    requires OrphansAreAlone(w, s) && Inv(w, s) && at.Ordered(s.clock)
    requires base.incidents == s.incidents && base.clock == at.updated && base.history == s.history + [event]
    requires Joinable(w, s.incidents, event.info, at.scan) == {}
    requires |Related(base.history, event.info.namespace, event.info.resource, at.relate - w)| < 2
    ensures OrphansAreAlone(w, base) && NothingLost(w, base, event.info)
  {
    RelatedShrinks(base.history, event.info.namespace, event.info.resource, at.relate - w, base.clock - w);
    forall m | m in s.incidents && OnResource(event, s.incidents[m].namespace, s.incidents[m].resource)
      ensures Stale(w, s.incidents[m], base.clock)
    {
      assert m !in Joinable(w, s.incidents, event.info, at.scan);
    }
  }

  lemma ResolveKeepsOrphansAlone(w: int, s: State, number: nat, now: int)
    requires OrphansAreAlone(w, s) && s.clock <= now
    ensures OrphansAreAlone(w, Resolved(s, number, now))
  {
    var s' := Resolved(s, number, now);
    forall e, m | e in s'.history && m in s'.incidents &&
                  OnResource(e, s'.incidents[m].namespace, s'.incidents[m].resource)
      ensures InSomeIncident(s'.incidents, e) || Stale(w, s'.incidents[m], s'.clock) || e.timestamp < s'.clock - w
    {
      if InSomeIncident(s.incidents, e) {
        var k :| k in s.incidents && e in s.incidents[k].events;
        assert k in s'.incidents && e in s'.incidents[k].events;
      }
    }
  }

  /** Completeness over every run, for a positive window and whatever timestamps callers
      supply: after every Ingest, if two events on that resource are no older than the window,
      each of them belongs to an incident. */
  lemma {:induction false} NothingIsLost(w: int, r: Run)
    requires w > 0 && Legal(w, true, r)
    ensures OrphansAreAlone(w, End(w, r)) && Pruned(w, End(w, r))
    ensures r.Then? && r.op.Ingest? ==> NothingLost(w, r.o.state, r.op.info)
  {
    if r.Then? {
      NothingIsLost(w, r.prev);
      RunKeepsInv(w, true, r.prev);
      StepLosesNothing(w, End(w, r.prev), r.op, r.o);
    }
  }

  lemma StepLosesNothing(w: int, s: State, op: Op, o: Outcome)
    requires w > 0 && Inv(w, s) && Pruned(w, s) && OrphansAreAlone(w, s) && Step(w, true, s, op, o)
    ensures OrphansAreAlone(w, o.state) && Pruned(w, o.state)
    ensures op.Ingest? ==> NothingLost(w, o.state, op.info)
  {
    match op
    case Ingest(info, given, at) =>
      var event := Logged(s, info, given, at);
      var base := Appended(w, true, s, event, at);
      AppendKeepsPruned(w, s, event, at, base);
      IngestLosesNothing(w, s, base, event, at, o);
    case Resolve(number, now) => ResolveKeepsOrphansAlone(w, s, number, now);
  }

  lemma IngestLosesNothing(w: int, s: State, base: State, event: Event, at: Readings, o: Outcome)
    requires Inv(w, s) && OrphansAreAlone(w, s) && at.Ordered(s.clock)
    requires base.incidents == s.incidents && base.clock == at.updated && base.history == s.history + [event]
    requires base.incidentSeq == s.incidentSeq
    requires Related(base.log, event.info.namespace, event.info.resource, at.relate - w)
          == Related(base.history, event.info.namespace, event.info.resource, at.relate - w)
    requires Placed(w, s, base, event, at, o)
    ensures OrphansAreAlone(w, o.state) && NothingLost(w, o.state, event.info)
  {
    if Joinable(w, s.incidents, event.info, at.scan) != {} {
      var n :| JoinStep(w, s, base, event, at, n, o);
      JoinLosesNothing(w, s, base, event, at, n, o);
    } else {
      UnjoinedLosesNothing(w, s, base, event, at, o);
    }
  }

  lemma UnjoinedLosesNothing(w: int, s: State, base: State, event: Event, at: Readings, o: Outcome)
    requires Inv(w, s) && OrphansAreAlone(w, s) && at.Ordered(s.clock)
    requires base.incidents == s.incidents && base.clock == at.updated && base.history == s.history + [event]
    requires base.incidentSeq == s.incidentSeq
    requires Related(base.log, event.info.namespace, event.info.resource, at.relate - w)
          == Related(base.history, event.info.namespace, event.info.resource, at.relate - w)
    requires Joinable(w, s.incidents, event.info, at.scan) == {} && o == FormedOrNot(w, base, event.info, at)
    ensures OrphansAreAlone(w, o.state) && NothingLost(w, o.state, event.info)
  {
    var related := Related(base.log, event.info.namespace, event.info.resource, at.relate - w);
    if |related| >= 2 {
      FormedLosesNothing(w, s, base, event, at, related);
    } else {
      UnformedLosesNothing(w, s, base, event, at);
    }
  }

  // ---- resolution is final -----------------------------------------------------

  /** Identity is kept, the events only grow, and a resolved incident is closed for good. */
  predicate Continues(a: Incident, b: Incident) {
    a.number == b.number && SameResource(a, b) && a.createdAt == b.createdAt && a.events <= b.events &&
    (a.resolved ==> b.resolved && a.events == b.events && a.severity == b.severity)
  }

  lemma StepContinues(w: int, pruning: bool, s: State, op: Op, o: Outcome, n: nat, first: Incident)
    requires Inv(w, s) && Step(w, pruning, s, op, o) && n in s.incidents && Continues(first, s.incidents[n])
    ensures n in o.state.incidents && Continues(first, o.state.incidents[n])
  {
    assert WellFormed(n, s.incidents[n], s.incidentSeq, s.clock, s.history);
    match op
    case Ingest(info, given, at) =>
      var event := Logged(s, info, given, at);
      var base := Appended(w, pruning, s, event, at);
      if Joinable(w, s.incidents, info, at.scan) != {} {
        var m :| JoinStep(w, s, base, event, at, m, o);
        assert WellFormed(m, s.incidents[m], s.incidentSeq, s.clock, s.history);
      }
    case Resolve(_, _) =>
  }

  ghost predicate Prefix(early: Run, late: Run) { early == late || (late.Then? && Prefix(early, late.prev)) }

  /** From any point of a run to any later one: no incident is dropped or reopened. */
  lemma {:induction false} IncidentsContinue(w: int, pruning: bool, early: Run, late: Run, n: nat)
    requires Legal(w, pruning, late) && Prefix(early, late) && n in End(w, early).incidents
    ensures n in End(w, late).incidents
    ensures Continues(End(w, early).incidents[n], End(w, late).incidents[n])
    decreases late
  {
    if early != late {
      IncidentsContinue(w, pruning, early, late.prev, n);
      RunKeepsInv(w, pruning, late.prev);
      StepContinues(w, pruning, End(w, late.prev), late.op, late.o, n, End(w, early).incidents[n]);
    }
  }

  // ---- unresolved incidents do not share events ----------------------------------

  ghost predicate NoSharedEvent(a: Incident, b: Incident) {
    a.resolved || b.resolved || forall e :: e in a.events ==> e !in b.events
  }

  ghost predicate Disjoint(incidents: map<nat, Incident>) {
    forall i, j :: i in incidents && j in incidents && i != j ==> NoSharedEvent(incidents[i], incidents[j])
  }

  /** Nothing carries a timestamp after the clock, and no event was stamped after its incident's update. */
  ghost predicate Stamped(s: State) {
    (forall i :: 0 <= i < |s.history| ==> s.history[i].timestamp <= s.clock) &&
    (forall n, i :: n in s.incidents && 0 <= i < |s.incidents[n].events| ==>
                      s.incidents[n].events[i].timestamp <= s.incidents[n].updatedAt)
  }

  ghost predicate CleanlySplit(s: State) { Disjoint(s.incidents) && Stamped(s) }

  /** No event is stamped after the call that reports it; the engine's own stamps never are. */
  predicate NotFromTheFuture(op: Op) { op.Ingest? && op.given.Some? ==> op.given.value <= op.at.updated }

  predicate NothingFromTheFuture(r: Run) { r.Then? ==> NotFromTheFuture(r.op) && NothingFromTheFuture(r.prev) }

  /** The incident went stale at the very instant at which scan and search read the clock, and
      has an event of exactly the age that the search still accepts. */
  ghost predicate OnTheEdge(w: int, incident: Incident, scan: int, relate: int) {
    !incident.resolved && scan == relate && incident.updatedAt == relate - w &&
    exists i :: 0 <= i < |incident.events| && incident.events[i].timestamp == relate - w
  }

  ghost predicate AnyOnTheEdge(w: int, incidents: map<nat, Incident>, info: Info, at: Readings) {
    exists j :: j in incidents && incidents[j].namespace == info.namespace && incidents[j].resource == info.resource &&
      OnTheEdge(w, incidents[j], at.scan(j), at.relate)
  }

  /** The Ingest forms an incident while another one on the resource is on the edge. */
  ghost predicate EdgeStep(w: int, s: State, op: Op) {
    op.Ingest? &&
    var base := Appended(w, true, s, Logged(s, op.info, op.given, op.at), op.at);
    Joinable(w, s.incidents, op.info, op.at.scan) == {} &&
    |Related(base.log, op.info.namespace, op.info.resource, op.at.relate - w)| >= 2 &&
    AnyOnTheEdge(w, s.incidents, op.info, op.at)
  }

  lemma RecordKeepsDisjoint(incidents: map<nat, Incident>, incident: Incident)
    requires Disjoint(incidents)
    requires forall j :: j in incidents && j != incident.number ==>
               NoSharedEvent(incidents[j], incident) && NoSharedEvent(incident, incidents[j])
    ensures Disjoint(incidents[incident.number := incident])
  {
  }

  lemma JoinKeepsDisjoint(w: int, s: State, base: State, event: Event, at: Readings, n: nat, o: Outcome)
    requires Inv(w, s) && Disjoint(s.incidents) && Stamped(s) && at.Ordered(s.clock)
    requires event.ordinal == |s.history| && event.timestamp <= at.updated
    requires base.incidents == s.incidents && base.clock == at.updated && base.history == s.history + [event]
    requires JoinStep(w, s, base, event, at, n, o)
    ensures Disjoint(o.state.incidents) && Stamped(o.state)
  {
    assert WellFormed(n, s.incidents[n], s.incidentSeq, s.clock, s.history);
    var joined := Extended(s.incidents[n], event, at.updated);
    forall j | j in s.incidents && j != n
      ensures NoSharedEvent(s.incidents[j], joined) && NoSharedEvent(joined, s.incidents[j])
    {
      assert WellFormed(j, s.incidents[j], s.incidentSeq, s.clock, s.history);
      assert event !in s.incidents[j].events;
      assert NoSharedEvent(s.incidents[j], s.incidents[n]) && NoSharedEvent(s.incidents[n], s.incidents[j]);
    }
    RecordKeepsDisjoint(s.incidents, joined);
  }

  lemma FormKeepsDisjoint(w: int, s: State, base: State, event: Event, at: Readings)
    requires Inv(w, s) && Disjoint(s.incidents) && Stamped(s) && at.Ordered(s.clock)
    requires base.incidents == s.incidents && base.incidentSeq == s.incidentSeq
    requires Joinable(w, s.incidents, event.info, at.scan) == {}
    requires |Related(base.log, event.info.namespace, event.info.resource, at.relate - w)| >= 2 ==>
               !AnyOnTheEdge(w, s.incidents, event.info, at)
    ensures Disjoint(FormedOrNot(w, base, event.info, at).state.incidents)
  {
    var related := Related(base.log, event.info.namespace, event.info.resource, at.relate - w);
    var incidents := FormedOrNot(w, base, event.info, at).state.incidents;
    if |related| >= 2 {
      var formed := Formed(base.incidentSeq + 1, related, event.info, at);
      assert incidents == s.incidents[formed.number := formed];
      RecordStaysDisjoint(w, s, base.log, formed, event, at);
    } else {
      assert incidents == s.incidents;
    }
  }

  lemma RecordStaysDisjoint(w: int, s: State, log: seq<Event>, formed: Incident, event: Event, at: Readings)
    requires Inv(w, s) && Disjoint(s.incidents) && Stamped(s) && at.Ordered(s.clock)
    requires !AnyOnTheEdge(w, s.incidents, event.info, at)
    requires Joinable(w, s.incidents, event.info, at.scan) == {} && formed.number == s.incidentSeq + 1
    requires formed.events == Related(log, event.info.namespace, event.info.resource, at.relate - w)
    ensures Disjoint(s.incidents[formed.number := formed])
  {
    forall j | j in s.incidents
      ensures NoSharedEvent(s.incidents[j], formed) && NoSharedEvent(formed, s.incidents[j])
    {
      StaleSharesNothing(w, s, log, formed, j, event, at);
    }
    RecordKeepsDisjoint(s.incidents, formed);
  }

  lemma FormKeepsStamped(w: int, s: State, base: State, event: Event, at: Readings)
    requires Inv(w, base) && Stamped(s) && at.Ordered(s.clock) && event.timestamp <= at.updated
    requires base.incidents == s.incidents && base.clock == at.updated && base.history == s.history + [event]
    ensures Stamped(FormedOrNot(w, base, event.info, at).state)
  {
    var related := Related(base.log, event.info.namespace, event.info.resource, at.relate - w);
    RelatedBelong(base.history, base.log, base.incidentSeq + 1, event.info, at.relate - w, at);
    forall i | 0 <= i < |related| ensures related[i].timestamp <= at.updated {
      assert related[i] == base.history[related[i].ordinal];
    }
  }

  lemma StaleSharesNothing(w: int, s: State, log: seq<Event>, formed: Incident, j: nat, event: Event, at: Readings)
    requires Inv(w, s) && Stamped(s) && at.Ordered(s.clock) && j in s.incidents
    requires Joinable(w, s.incidents, event.info, at.scan) == {} && !AnyOnTheEdge(w, s.incidents, event.info, at)
    requires formed.events == Related(log, event.info.namespace, event.info.resource, at.relate - w)
    ensures NoSharedEvent(s.incidents[j], formed) && NoSharedEvent(formed, s.incidents[j])
  {
    var info, incident := event.info, s.incidents[j];
    assert WellFormed(j, incident, s.incidentSeq, s.clock, s.history);
    assert j !in Joinable(w, s.incidents, info, at.scan);
    forall i | 0 <= i < |incident.events| && !incident.resolved ensures incident.events[i] !in formed.events {
      RelatedContents(log, info.namespace, info.resource, at.relate - w, incident.events[i]);
      assert at.scan(j) <= at.relate;
      assert incident.namespace == info.namespace && incident.resource == info.resource ==>
        !OnTheEdge(w, incident, at.scan(j), at.relate);
    }
  }

  /** Conversely, an incident on the edge does share its event with the new one. */
  lemma EdgeSharesEvent(w: int, s: State, base: State, event: Event, at: Readings, j: nat)
    requires Inv(w, s) && j in s.incidents && OnTheEdge(w, s.incidents[j], at.scan(j), at.relate)
    requires s.incidents[j].namespace == event.info.namespace && s.incidents[j].resource == event.info.resource
    requires base.incidents == s.incidents && base.incidentSeq == s.incidentSeq && base.history == s.history + [event]
    requires Related(base.log, event.info.namespace, event.info.resource, at.relate - w)
          == Related(base.history, event.info.namespace, event.info.resource, at.relate - w)
    requires |Related(base.log, event.info.namespace, event.info.resource, at.relate - w)| >= 2
    ensures !Disjoint(FormedOrNot(w, base, event.info, at).state.incidents)
  {
    var e := EdgeEvent(w, s, base, event, at, j);
    var after := FormedOrNot(w, base, event.info, at).state.incidents;
    assert j != base.incidentSeq + 1 by {
      assert WellFormed(j, s.incidents[j], s.incidentSeq, s.clock, s.history);
    }
    SharedByBoth(after, j, base.incidentSeq + 1, e);
  }

  lemma EdgeEvent(w: int, s: State, base: State, event: Event, at: Readings, j: nat) returns (e: Event)
    requires Inv(w, s) && j in s.incidents && OnTheEdge(w, s.incidents[j], at.scan(j), at.relate)
    requires s.incidents[j].namespace == event.info.namespace && s.incidents[j].resource == event.info.resource
    requires base.history == s.history + [event]
    ensures e in s.incidents[j].events
    ensures e in Related(base.history, event.info.namespace, event.info.resource, at.relate - w)
  {
    var incident := s.incidents[j];
    assert WellFormed(j, incident, s.incidentSeq, s.clock, s.history);
    var i :| 0 <= i < |incident.events| && incident.events[i].timestamp == at.relate - w;
    e := incident.events[i];
    assert e == base.history[e.ordinal];
    RelatedContents(base.history, event.info.namespace, event.info.resource, at.relate - w, e);
  }

  lemma SharedByBoth(incidents: map<nat, Incident>, i: nat, j: nat, e: Event)
    requires i in incidents && j in incidents && i != j && !incidents[i].resolved && !incidents[j].resolved
    requires e in incidents[i].events && e in incidents[j].events
    ensures !Disjoint(incidents)
  {
    assert !NoSharedEvent(incidents[i], incidents[j]);
  }

  lemma StepKeepsDisjoint(w: int, s: State, op: Op, o: Outcome)
    requires Inv(w, s) && Step(w, true, s, op, o) && NotFromTheFuture(op) && Stamped(s)
    requires Disjoint(s.incidents) && !EdgeStep(w, s, op)
    ensures CleanlySplit(o.state)
  {
    match op
    case Ingest(info, given, at) =>
      var event := Logged(s, info, given, at);
      var base := Appended(w, true, s, event, at);
      AppendKeepsInv(w, true, s, event, at);
      if Joinable(w, s.incidents, info, at.scan) != {} {
        var n :| JoinStep(w, s, base, event, at, n, o);
        JoinKeepsDisjoint(w, s, base, event, at, n, o);
      } else {
        FormKeepsDisjoint(w, s, base, event, at);
        FormKeepsStamped(w, s, base, event, at);
      }
    case Resolve(number, now) => ResolveKeepsDisjoint(w, s, number, now);
  }

  lemma EdgeNeedsPositiveWindow(w: int, s: State, op: Op, o: Outcome)
    requires w != 0 && Inv(w, s) && Step(w, true, s, op, o) && EdgeStep(w, s, op)
    ensures w > 0
  {
    var j :| j in s.incidents && s.incidents[j].namespace == op.info.namespace &&
      s.incidents[j].resource == op.info.resource && OnTheEdge(w, s.incidents[j], op.at.scan(j), op.at.relate);
    assert WellFormed(j, s.incidents[j], s.incidentSeq, s.clock, s.history);
  }

  lemma EdgeStepBreaksDisjoint(w: int, s: State, op: Op, o: Outcome)
    requires w > 0 && Inv(w, s) && Pruned(w, s) && Step(w, true, s, op, o) && EdgeStep(w, s, op)
    ensures !Disjoint(o.state.incidents)
  {
    var event := Logged(s, op.info, op.given, op.at);
    var base := Appended(w, true, s, event, op.at);
    EdgeStepForms(w, s, base, event, op.at, o);
    EdgeFormBreaksDisjoint(w, s, base, event, op.at, o);
  }

  lemma EdgeStepForms(w: int, s: State, base: State, event: Event, at: Readings, o: Outcome)
    requires w > 0 && Pruned(w, s) && at.Ordered(s.clock) && base == Appended(w, true, s, event, at)
    requires Placed(w, s, base, event, at, o) && Joinable(w, s.incidents, event.info, at.scan) == {}
    ensures o == FormedOrNot(w, base, event.info, at)
    ensures Related(base.log, event.info.namespace, event.info.resource, at.relate - w)
         == Related(base.history, event.info.namespace, event.info.resource, at.relate - w)
  {
    AppendKeepsPruned(w, s, event, at, base);
  }

  lemma EdgeFormBreaksDisjoint(w: int, s: State, base: State, event: Event, at: Readings, o: Outcome)
    requires o == FormedOrNot(w, base, event.info, at)
    requires Inv(w, s) && AnyOnTheEdge(w, s.incidents, event.info, at)
    requires base.incidents == s.incidents && base.incidentSeq == s.incidentSeq && base.history == s.history + [event]
    requires Related(base.log, event.info.namespace, event.info.resource, at.relate - w)
          == Related(base.history, event.info.namespace, event.info.resource, at.relate - w)
    requires |Related(base.log, event.info.namespace, event.info.resource, at.relate - w)| >= 2
    ensures !Disjoint(o.state.incidents)
  {
    var j :| j in s.incidents && s.incidents[j].namespace == event.info.namespace &&
      s.incidents[j].resource == event.info.resource && OnTheEdge(w, s.incidents[j], at.scan(j), at.relate);
    EdgeSharesEvent(w, s, base, event, at, j);
  }

  /** No two unresolved incidents share an event, now or at any earlier point of the run. */
  ghost predicate DisjointThroughout(w: int, r: Run) {
    Disjoint(End(w, r).incidents) && (r.Then? ==> DisjointThroughout(w, r.prev))
  }

  ghost predicate NoEdgeStep(w: int, r: Run) {
    r.Then? ==> NoEdgeStep(w, r.prev) && !EdgeStep(w, End(w, r.prev), r.op)
  }

  lemma {:induction false} NoEdgeMeansDisjoint(w: int, r: Run)
    requires Legal(w, true, r) && NothingFromTheFuture(r) && NoEdgeStep(w, r)
    ensures DisjointThroughout(w, r) && Stamped(End(w, r))
  {
    if r.Then? {
      NoEdgeMeansDisjoint(w, r.prev);
      RunKeepsInv(w, true, r.prev);
      StepKeepsDisjoint(w, End(w, r.prev), r.op, r.o);
    }
  }

  lemma {:induction false} DisjointMeansNoEdge(w: int, r: Run)
    requires w != 0 && Legal(w, true, r) && DisjointThroughout(w, r)
    ensures NoEdgeStep(w, r)
  {
    if r.Then? {
      DisjointMeansNoEdge(w, r.prev);
      RunKeepsInv(w, true, r.prev);
      if EdgeStep(w, End(w, r.prev), r.op) {
        EdgeNeedsPositiveWindow(w, End(w, r.prev), r.op, r.o);
        NothingIsLost(w, r.prev);
        EdgeStepBreaksDisjoint(w, End(w, r.prev), r.op, r.o);
      }
    }
  }

  /** Over any run without events from the future, unresolved incidents never share an event if
      and only if no incident is formed while another on the resource is on the edge: gone stale
      at the instant that both scan and search read, with an event exactly one window old. */
  lemma SharedExactlyOnTheEdge(w: int, r: Run)
    requires w != 0 && Legal(w, true, r) && NothingFromTheFuture(r)
    ensures DisjointThroughout(w, r) <==> NoEdgeStep(w, r)
  {
    if NoEdgeStep(w, r) { NoEdgeMeansDisjoint(w, r); }
    if DisjointThroughout(w, r) { DisjointMeansNoEdge(w, r); }
  }

  predicate SearchReadsLater(op: Op, incidents: map<nat, Incident>) {
    op.Ingest? ==> forall n :: n in incidents ==> op.at.scan(n) < op.at.relate
  }

  ghost predicate AlwaysReadsLater(w: int, r: Run) {
    r.Then? ==> AlwaysReadsLater(w, r.prev) && SearchReadsLater(r.op, End(w, r.prev).incidents)
  }

  /** In particular when every search reads a later clock than the scan before it. */
  lemma {:induction false} UnresolvedIncidentsAreDisjoint(w: int, r: Run)
    requires Legal(w, true, r) && NothingFromTheFuture(r) && AlwaysReadsLater(w, r)
    ensures DisjointThroughout(w, r) && NoEdgeStep(w, r)
  {
    LaterMeansNoEdge(w, r);
    NoEdgeMeansDisjoint(w, r);
  }

  lemma {:induction false} LaterMeansNoEdge(w: int, r: Run)
    requires AlwaysReadsLater(w, r)
    ensures NoEdgeStep(w, r)
  {
    if r.Then? { LaterMeansNoEdge(w, r.prev); }
  }

  lemma ResolveKeepsDisjoint(w: int, s: State, number: nat, now: int)
    requires Inv(w, s) && Disjoint(s.incidents) && Stamped(s) && s.clock <= now
    ensures Disjoint(Resolved(s, number, now).incidents) && Stamped(Resolved(s, number, now))
  {
    if number in s.incidents {
      assert WellFormed(number, s.incidents[number], s.incidentSeq, s.clock, s.history);
      var closed := s.incidents[number].(resolved := true, updatedAt := now);
      RecordKeepsDisjoint(s.incidents, closed);
    }
  }

  // ---- severities by label -------------------------------------------------------------

  predicate AnyIs(events: seq<Event>, severity: Severity) {
    exists i :: 0 <= i < |events| && events[i].info.severity == severity
  }

  /** The severity of an incident is the worst label among its events. */
  ghost predicate WorstLabel(severity: Severity, events: seq<Event>) {
    (severity == Critical <==> AnyIs(events, Critical)) &&
    (severity == High <==> AnyIs(events, High) && !AnyIs(events, Critical)) &&
    (severity == Medium <==> AnyIs(events, Medium) && !AnyIs(events, High) && !AnyIs(events, Critical)) &&
    (severity == Low <==>
      AnyIs(events, Low) && !AnyIs(events, Medium) && !AnyIs(events, High) && !AnyIs(events, Critical)) &&
    severity in {Critical, High, Medium, Low, Severity.Info}
  }

  lemma MaximumIsWorstLabel(severity: Severity, events: seq<Event>)
    requires SeverityIsMaximum(severity, events) && !severity.Other?
    ensures WorstLabel(severity, events)
  {
    var k :| 0 <= k < |events| && Rank(events[k].info.severity) == Rank(severity);
    assert Rank(severity) > 1 ==> AnyIs(events, severity);
  }

  /** Over any run, and below Low every event is Info or carries an unknown label. */
  lemma SeveritiesAreWorstLabels(w: int, pruning: bool, r: Run, n: nat)
    requires Legal(w, pruning, r) && n in End(w, r).incidents
    ensures WorstLabel(End(w, r).incidents[n].severity, End(w, r).incidents[n].events)
  {
    RunKeepsInv(w, pruning, r);
    TouchesAreDecided(w, pruning, r, n);
    var s := End(w, r);
    assert WellFormed(n, s.incidents[n], s.incidentSeq, s.clock, s.history);
    MaximumIsWorstLabel(s.incidents[n].severity, s.incidents[n].events);
  }

  // ---- incidents by calls and answers ------------------------------------------------------

  /** When a call last touched incident n: an Ingest that answered with it, or a Resolve of it. */
  function TouchedAt(r: Run, n: nat): Option<int> {
    match r
    case Begin(_) => None
    case Then(prev, Ingest(_, _, at), o) =>
      if o.result.Some? && o.result.value.number == n then Some(at.updated) else TouchedAt(prev, n)
    case Then(prev, Resolve(number, now), _) =>
      if number == n && TouchedAt(prev, n).Some? then Some(now) else TouchedAt(prev, n)
  }

  predicate ResolvedBy(r: Run, n: nat) {
    match r
    case Begin(_) => false
    case Then(prev, Ingest(_, _, _), _) => ResolvedBy(prev, n)
    case Then(prev, Resolve(number, _), _) => ResolvedBy(prev, n) || (number == n && TouchedAt(prev, n).Some?)
  }

  lemma HighestIsKnown(events: seq<Event>)
    ensures !HighestSeverity(events).Other?
  {
  }

  /** What one step leaves of incident n. */
  ghost predicate StepTouches(s: State, op: Op, o: Outcome, n: nat) {
    match op
    case Ingest(_, _, at) =>
      if o.result.Some? && o.result.value.number == n then
        n in o.state.incidents && o.state.incidents[n] == o.result.value &&
        o.state.incidents[n].updatedAt == at.updated &&
        !o.state.incidents[n].resolved && (n in s.incidents ==> !s.incidents[n].resolved) &&
        (o.state.incidents[n].severity.Other? ==> n in s.incidents && s.incidents[n].severity.Other?)
      else
        (n in o.state.incidents <==> n in s.incidents) &&
        (n in s.incidents ==> o.state.incidents[n] == s.incidents[n])
    case Resolve(number, now) =>
      (n in o.state.incidents <==> n in s.incidents) &&
      (n in s.incidents && number != n ==> o.state.incidents[n] == s.incidents[n]) &&
      (n in s.incidents && number == n ==>
        o.state.incidents[n] == s.incidents[n].(resolved := true, updatedAt := now))
  }

  lemma StepIsTouch(w: int, pruning: bool, s: State, op: Op, o: Outcome, n: nat)
    requires Inv(w, s) && Step(w, pruning, s, op, o)
    ensures StepTouches(s, op, o, n)
  {
    if op.Ingest? {
      var event := Logged(s, op.info, op.given, op.at);
      PlacingTouches(w, s, Appended(w, pruning, s, event, op.at), event, op, o, n);
    }
  }

  lemma PlacingTouches(w: int, s: State, base: State, event: Event, op: Op, o: Outcome, n: nat)
    requires Inv(w, s) && op.Ingest? && Placed(w, s, base, event, op.at, o)
    requires base.incidents == s.incidents && base.incidentSeq == s.incidentSeq
    ensures StepTouches(s, op, o, n)
  {
    if Joinable(w, s.incidents, event.info, op.at.scan) != {} {
      var m :| JoinStep(w, s, base, event, op.at, m, o);
      assert s.incidents[m].number == m by {
        assert WellFormed(m, s.incidents[m], s.incidentSeq, s.clock, s.history);
      }
    } else {
      assert base.incidentSeq + 1 !in s.incidents by {
        assert forall m :: m in s.incidents ==> m <= s.incidentSeq;
      }
      FormingTouches(w, s, base, event, op, o, n);
    }
  }

  lemma FormingTouches(w: int, s: State, base: State, event: Event, op: Op, o: Outcome, n: nat)
    requires op.Ingest? && base.incidentSeq + 1 !in s.incidents && o == FormedOrNot(w, base, event.info, op.at)
    requires base.incidents == s.incidents && base.incidentSeq == s.incidentSeq
    ensures StepTouches(s, op, o, n)
  {
    HighestIsKnown(Related(base.log, event.info.namespace, event.info.resource, op.at.relate - w));
  }

  /** An incident exists once an Ingest answered with it, was updated by the last call that touched
      it, is resolved once a Resolve named it, and never carries an unknown label. */
  lemma {:induction false} TouchesAreDecided(w: int, pruning: bool, r: Run, n: nat)
    requires Legal(w, pruning, r)
    ensures n in End(w, r).incidents <==> TouchedAt(r, n).Some?
    ensures n in End(w, r).incidents ==>
      (var incident := End(w, r).incidents[n];
       incident.updatedAt == TouchedAt(r, n).value && incident.resolved == ResolvedBy(r, n) &&
       !incident.severity.Other?)
    ensures ResolvedBy(r, n) ==> TouchedAt(r, n).Some?
  {
    if r.Then? {
      TouchesAreDecided(w, pruning, r.prev, n);
      RunKeepsInv(w, pruning, r.prev);
      StepIsTouch(w, pruning, End(w, r.prev), r.op, r.o, n);
    }
  }

  /** Incident n is on the resource, open, and was last touched less than a window before the scan
      looked at it. */
  ghost predicate Takes(w: int, r: Run, info: Info, at: Readings, n: nat) {
    n in End(w, r).incidents && TouchedAt(r, n).Some? && !ResolvedBy(r, n) &&
    End(w, r).incidents[n].namespace == info.namespace && End(w, r).incidents[n].resource == info.resource &&
    at.scan(n) - TouchedAt(r, n).value < w
  }

  predicate IsRecent(e: Event, info: Info, cutoff: int) {
    e.info.namespace == info.namespace && e.info.resource == info.resource && e.timestamp >= cutoff
  }

  /** Exactly the events on the resource that are not older than a window, in the order they came. */
  ghost predicate RecentOnes(history: seq<Event>, info: Info, cutoff: int, events: seq<Event>) {
    (forall e :: e in events <==> e in history && IsRecent(e, info, cutoff)) &&
    (forall i, j :: 0 <= i < j < |events| ==> events[i].ordinal < events[j].ordinal)
  }

  /** What an Ingest answers, by the calls and answers before it: the event is appended to the
      incident that takes it; else the recent events on the resource, if there are two, become the
      next incident; else there is no answer. */
  ghost predicate AnswerIs(w: int, prev: Run, info: Info, given: Option<int>, at: Readings, o: Outcome) {
    var before, after := End(w, prev), o.state;
    |after.history| == |before.history| + 1 && after.history[..|before.history|] == before.history &&
    var event := after.history[|before.history|];
    event.info == info && event.timestamp == (if given.Some? then given.value else at.stamp) &&
    if exists n :: Takes(w, prev, info, at, n) then
      o.result.Some? && Takes(w, prev, info, at, o.result.value.number) &&
      o.result.value.events == before.incidents[o.result.value.number].events + [event]
    else
      exists recent ::
        RecentOnes(after.history, info, at.relate - w, recent) && NewIncident(before, o, info, at, recent)
  }

  ghost predicate NewIncident(before: State, o: Outcome, info: Info, at: Readings, recent: seq<Event>) {
    if |recent| < 2 then o.result.None?
    else
      o.result.Some? && o.result.value.number !in before.incidents && o.result.value.events == recent &&
      o.result.value.namespace == info.namespace && o.result.value.resource == info.resource &&
      o.result.value.createdAt == at.created &&
      o.result.value.title == "Correlated incident on " + info.namespace + "/" + info.resource
  }

  ghost predicate Ascending(events: seq<Event>, bound: int) {
    (forall i :: 0 <= i < |events| ==> events[i].ordinal < bound) &&
    (forall i, j :: 0 <= i < j < |events| ==> events[i].ordinal < events[j].ordinal)
  }

  lemma {:induction false} RelatedInOrder(log: seq<Event>, namespace: string, resource: string, cutoff: int)
    requires forall i :: 0 <= i < |log| ==> log[i].ordinal == i
    ensures Ascending(Related(log, namespace, resource, cutoff), |log|)
  {
    if log != [] {
      var front, last := log[..|log| - 1], log[|log| - 1];
      RelatedInOrder(front, namespace, resource, cutoff);
      assert last.ordinal == |front|;
      assert Ascending(Related(front, namespace, resource, cutoff) + [last], |log|);
      assert Ascending(Related(front, namespace, resource, cutoff), |log|);
    }
  }

  lemma RelatedAreRecent(history: seq<Event>, info: Info, cutoff: int)
    requires forall i :: 0 <= i < |history| ==> history[i].ordinal == i
    ensures RecentOnes(history, info, cutoff, Related(history, info.namespace, info.resource, cutoff))
  {
    RelatedInOrder(history, info.namespace, info.resource, cutoff);
    forall e
      ensures e in Related(history, info.namespace, info.resource, cutoff) <==>
        e in history && IsRecent(e, info, cutoff)
    {
      RelatedContents(history, info.namespace, info.resource, cutoff, e);
    }
  }

  lemma TakesMeansJoinable(w: int, prev: Run, info: Info, at: Readings, n: nat)
    requires Legal(w, true, prev)
    ensures Takes(w, prev, info, at, n) <==> n in Joinable(w, End(w, prev).incidents, info, at.scan)
  {
    TouchesAreDecided(w, true, prev, n);
  }

  /** Over any run with a positive window. */
  lemma IngestAnswers(w: int, r: Run)
    requires w > 0 && Legal(w, true, r) && r.Then? && r.op.Ingest?
    ensures AnswerIs(w, r.prev, r.op.info, r.op.given, r.op.at, r.o)
  {
    var s, at := End(w, r.prev), r.op.at;
    var event := Logged(s, r.op.info, r.op.given, at);
    var base := Appended(w, true, s, event, at);
    RunKeepsInv(w, true, r.prev);
    NothingIsLost(w, r.prev);
    AppendKeepsPruned(w, s, event, at, base);
    forall n ensures Takes(w, r.prev, r.op.info, at, n) <==> n in Joinable(w, s.incidents, r.op.info, at.scan) {
      TakesMeansJoinable(w, r.prev, r.op.info, at, n);
    }
    PlacingAnswers(w, r.prev, s, base, event, r.op.given, at, r.o);
  }

  lemma PlacingAnswers(w: int, prev: Run, s: State, base: State, event: Event, given: Option<int>, at: Readings,
                       o: Outcome)
    requires Inv(w, s) && s == End(w, prev) && Placed(w, s, base, event, at, o)
    requires base.incidents == s.incidents && base.incidentSeq == s.incidentSeq && base.history == s.history + [event]
    requires event.ordinal == |s.history| && event.timestamp == (if given.Some? then given.value else at.stamp)
    requires forall n :: Takes(w, prev, event.info, at, n) <==> n in Joinable(w, s.incidents, event.info, at.scan)
    requires Related(base.log, event.info.namespace, event.info.resource, at.relate - w)
          == Related(base.history, event.info.namespace, event.info.resource, at.relate - w)
    ensures AnswerIs(w, prev, event.info, given, at, o)
  {
    assert base.history[..|s.history|] == s.history && base.history[|s.history|] == event;
    if Joinable(w, s.incidents, event.info, at.scan) != {} {
      var m :| JoinStep(w, s, base, event, at, m, o);
      assert WellFormed(m, s.incidents[m], s.incidentSeq, s.clock, s.history);
      assert Takes(w, prev, event.info, at, m);
    } else {
      assert forall n :: !Takes(w, prev, event.info, at, n);
      FormingAnswers(w, s, base, event.info, at, o);
    }
  }

  lemma FormingAnswers(w: int, s: State, base: State, info: Info, at: Readings, o: Outcome)
    requires Inv(w, s) && base.incidents == s.incidents && base.incidentSeq == s.incidentSeq
    requires forall i :: 0 <= i < |base.history| ==> base.history[i].ordinal == i
    requires Related(base.log, info.namespace, info.resource, at.relate - w)
          == Related(base.history, info.namespace, info.resource, at.relate - w)
    requires o == FormedOrNot(w, base, info, at)
    ensures o.state.history == base.history
    ensures exists recent ::
      RecentOnes(o.state.history, info, at.relate - w, recent) && NewIncident(s, o, info, at, recent)
  {
    var recent := Related(base.history, info.namespace, info.resource, at.relate - w);
    RelatedAreRecent(base.history, info, at.relate - w);
    var n := base.incidentSeq + 1;
    assert n !in s.incidents;
    assert NewIncident(s, o, info, at, recent);
  }

  // ---- why the later reading is needed ---------------------------------------------

  /** All readings at one instant. */
  function Instant(t: int): Readings { Readings(t, t, (n: nat) => t, t, t, t) }

  function Witness(n: nat, info: Info, t: int): Event { Event(n, info, t) }

  lemma FirstIngest(info: Info)
    ensures var e0 := Witness(0, info, 0);
            Step(1, true, Start(1, 0), Ingest(info, None, Instant(0)),
                 Outcome(State([e0], map[], 0, [e0], -10, 0), None))
  {
    var e0 := Witness(0, info, 0);
    assert [] + [e0] == [e0];
    AfterOne(e0, -10);
    RelatedGrows([], e0, info, -1);
    var base := State([e0], map[], 0, [e0], -10, 0);
    assert base == Appended(1, true, Start(1, 0), e0, Instant(0));
    assert Joinable(1, map[], info, Instant(0).scan) == {};
    assert FormedOrNot(1, base, info, Instant(0)) == Outcome(base, None);
  }

  predicate Fresh(incident: Incident, info: Info, events: seq<Event>, t: int) {
    incident.namespace == info.namespace && incident.resource == info.resource && incident.events == events &&
    incident.updatedAt == t && !incident.resolved
  }

  lemma SecondIngest(info: Info) returns (first: Incident)
    ensures var e0, e1 := Witness(0, info, 0), Witness(1, info, 0);
            Fresh(first, info, [e0, e1], 0) &&
            Step(1, true, State([e0], map[], 0, [e0], -10, 0), Ingest(info, None, Instant(0)),
                 Outcome(State([e0, e1], map[1 := first], 1, [e0, e1], -10, 0), Some(first)))
  {
    var e0, e1 := Witness(0, info, 0), Witness(1, info, 0);
    assert [e0] + [e1] == [e0, e1] && [] + [e0] == [e0];
    AfterOne(e0, -10);
    AfterGrows([e0], e1, -10);
    RelatedGrows([], e0, info, -1);
    RelatedGrows([e0], e1, info, -1);
    first := Formed(1, [e0, e1], info, Instant(0));
  }

  lemma ThirdIngest(info: Info, first: Incident) returns (second: Incident)
    requires first.namespace == info.namespace && first.resource == info.resource && first.updatedAt == 0
    ensures var e0, e1, e2 := Witness(0, info, 0), Witness(1, info, 0), Witness(2, info, 1);
            Fresh(second, info, [e0, e1, e2], 1) &&
            Step(1, true, State([e0, e1], map[1 := first], 1, [e0, e1], -10, 0), Ingest(info, None, Instant(1)),
                 Outcome(State([e0, e1, e2], map[1 := first, 2 := second], 2, [e0, e1, e2], -9, 1), Some(second)))
  {
    var e0, e1, e2 := Witness(0, info, 0), Witness(1, info, 0), Witness(2, info, 1);
    ThreeLogged(info, e0, e1, e2);
    second := Formed(2, [e0, e1, e2], info, Instant(1));
    var s := State([e0, e1], map[1 := first], 1, [e0, e1], -10, 0);
    var base := State([e0, e1, e2], map[1 := first], 1, [e0, e1, e2], -9, 1);
    assert base == Appended(1, true, s, e2, Instant(1));
    assert Joinable(1, s.incidents, info, Instant(1).scan) == {};
    assert FormedOrNot(1, base, info, Instant(1)) == Recorded(base, second);
    assert map[1 := first][2 := second] == map[1 := first, 2 := second];
  }

  lemma ThreeLogged(info: Info, e0: Event, e1: Event, e2: Event)
    requires e0 == Witness(0, info, 0) && e1 == Witness(1, info, 0) && e2 == Witness(2, info, 1)
    ensures [e0, e1] + [e2] == [e0, e1, e2] && After([e0, e1, e2], -9) == [e0, e1, e2]
    ensures Related([e0, e1, e2], info.namespace, info.resource, 0) == [e0, e1, e2]
  {
    assert [e0] + [e1] == [e0, e1] && [] + [e0] == [e0] && [e0, e1] + [e2] == [e0, e1, e2];
    AfterOne(e0, -9);
    AfterGrows([e0], e1, -9);
    AfterGrows([e0, e1], e2, -9);
    RelatedGrows([], e0, info, 0);
    RelatedGrows([e0], e1, info, 0);
    RelatedGrows([e0, e1], e2, info, 0);
  }

  /** Stamped by the engine, with every reading of the call at one instant. */
  ghost predicate EngineStamped(op: Op) { op.Ingest? ==> op.given.None? && op.at == Instant(op.at.stamp) }

  ghost predicate AllEngineStamped(r: Run) { r.Then? ==> EngineStamped(r.op) && AllEngineStamped(r.prev) }

  lemma ThreeSteps(w: int, op1: Op, o1: Outcome, op2: Op, o2: Outcome, op3: Op, o3: Outcome) returns (r: Run)
    requires Step(w, true, Start(w, 0), op1, o1)
    requires Step(w, true, o1.state, op2, o2)
    requires Step(w, true, o2.state, op3, o3)
    ensures Legal(w, true, r) && End(w, r) == o3.state
    ensures (EngineStamped(op1) && EngineStamped(op2) && EngineStamped(op3)) ==> AllEngineStamped(r)
  {
    var r1 := Then(Begin(0), op1, o1);
    assert Legal(w, true, Begin(0)) && Legal(w, true, r1);
    var r2 := Then(r1, op2, o2);
    assert Legal(w, true, r2);
    r := Then(r2, op3, o3);
    if EngineStamped(op1) && EngineStamped(op2) && EngineStamped(op3) {
      assert AllEngineStamped(Begin(0)) && AllEngineStamped(r1) && AllEngineStamped(r2);
    }
  }

  /** When scan and search read the same instant, an event exactly one window old is shared:
      the first incident is just stale, and the event is just recent enough for the second. */
  lemma SharedEventWithoutALaterReading(info: Info)
    ensures exists r: Run :: Legal(1, true, r) && AllEngineStamped(r) && !Disjoint(End(1, r).incidents)
  {
    var e0, e1, e2 := Witness(0, info, 0), Witness(1, info, 0), Witness(2, info, 1);
    FirstIngest(info);
    var first := SecondIngest(info);
    var second := ThirdIngest(info, first);
    var r := ThreeSteps(1, Ingest(info, None, Instant(0)), Outcome(State([e0], map[], 0, [e0], -10, 0), None),
      Ingest(info, None, Instant(0)), Outcome(State([e0, e1], map[1 := first], 1, [e0, e1], -10, 0), Some(first)),
      Ingest(info, None, Instant(1)),
      Outcome(State([e0, e1, e2], map[1 := first, 2 := second], 2, [e0, e1, e2], -9, 1), Some(second)));
    assert first.events[0] == e0 && second.events[0] == e0;
    SharedByBoth(End(1, r).incidents, 1, 2, e0);
  }

  lemma AfterOne(e: Event, cutoff: int)
    requires e.timestamp > cutoff
    ensures After([e], cutoff) == [e]
  {
    assert [e][..0] == [];
  }

  lemma AfterGrows(log: seq<Event>, e: Event, cutoff: int)
    requires e.timestamp > cutoff
    ensures After(log + [e], cutoff) == After(log, cutoff) + [e]
  {
    assert (log + [e])[..|log|] == log;
  }

  lemma RelatedGrows(log: seq<Event>, e: Event, info: Info, cutoff: int)
    requires e.info == info && e.timestamp >= cutoff
    ensures Related(log + [e], info.namespace, info.resource, cutoff)
         == Related(log, info.namespace, info.resource, cutoff) + [e]
  {
    assert (log + [e])[..|log|] == log;
  }
}
