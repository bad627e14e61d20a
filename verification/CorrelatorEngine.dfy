/** The Engine of internal/correlator/engine.go as an object: every method is proved to make
    exactly the step that module Correlator specifies. */
module CorrelatorEngine {
  import opened Text
  import opened Severities
  import opened Correlator

  method HighestOf(events: seq<Event>) returns (highest: Severity)
    ensures highest == HighestSeverity(events)
    ensures events != [] ==> SeverityIsMaximum(highest, events)
  {
    highest := Severity.Info;
    for i := 0 to |events|
      invariant highest == HighestSeverity(events[..i])
    {
      assert events[..i + 1][..i] == events[..i];
      if Rank(events[i].info.severity) > Rank(highest) {
        highest := events[i].info.severity;
      }
    }
    assert events[..|events|] == events;
    if events != [] { HighestIsMaximum(events); }
  }

  lemma InvNumbers(w: int, s: State)
    requires Inv(w, s)
    ensures forall n :: n in s.incidents ==> s.incidents[n].number == n && n <= s.incidentSeq
  {
    forall n | n in s.incidents ensures s.incidents[n].number == n && n <= s.incidentSeq {
      assert WellFormed(n, s.incidents[n], s.incidentSeq, s.clock, s.history);
    }
  }

  class Engine {
    const window: int
    var events: seq<Event>
    var incidents: map<nat, Incident>
    var incidentSeq: nat
    /** Supplies the identity of the next event; the source's pointers need no such counter. */
    var ingested: nat

    ghost var history: seq<Event>
    ghost var horizon: int
    ghost var clock: int

    /** The engine's state as module Correlator sees it. */
    ghost function Snapshot(): State
      reads this
    {
      State(events, incidents, incidentSeq, history, horizon, clock)
    }

    ghost predicate Valid()
      reads this
    {
      Inv(window, Snapshot()) && ingested == |history|
    }

    ghost predicate Numbered()
      reads this
    {
      forall n :: n in incidents ==> incidents[n].number == n
    }

    constructor (correlationWindow: int, now: int)
      ensures window == if correlationWindow == 0 then 300_000_000_000 else correlationWindow
      ensures Snapshot() == Start(window, now) && Valid()
    {
      window := if correlationWindow == 0 then FIVE_MINUTES else correlationWindow;
      events, incidents, incidentSeq, ingested := [], map[], 0, 0;
      history, clock := [], now;
      horizon := now - 10 * (if correlationWindow == 0 then FIVE_MINUTES else correlationWindow);
    }

    method Ingest(info: Info, given: Option<int>, at: Readings) returns (result: Option<Incident>)
      requires Valid() && at.Ordered(clock)
      modifies this
      ensures Step(window, true, old(Snapshot()), Op.Ingest(info, given, at), Outcome(Snapshot(), result))
      ensures Valid()
    {
      ghost var s := Snapshot();
      InvNumbers(window, s);
      var event := LogEvent(info, given, at);
      result := PlaceEvent(event, at, s);
      StepKeepsInv(window, true, s, Op.Ingest(info, given, at), Outcome(Snapshot(), result));
    }

    method LogEvent(info: Info, given: Option<int>, at: Readings) returns (event: Event)
      requires ingested == |history|
      modifies this
      ensures event == Logged(old(Snapshot()), info, given, at) && ingested == |history|
      ensures Snapshot() == Appended(window, true, old(Snapshot()), event, at)
    {
      ghost var s := Snapshot();
      event := Event(ingested, info, if given.Some? then given.value else at.stamp);
      AppendEvent(event, at);
      assert Snapshot() == Appended(window, true, s, event, at);
    }

    /** Appends to the log and prunes it; the counter and the recorded fields keep pace. */
    method AppendEvent(event: Event, at: Readings)
      modifies this`events, this`ingested, this`history, this`horizon, this`clock
      ensures events == After(old(events) + [event], at.prune - 10 * window) && ingested == old(ingested) + 1
      ensures history == old(history) + [event] && horizon == at.prune - 10 * window && clock == at.updated
    {
      ingested := ingested + 1;
      history, horizon, clock := history + [event], at.prune - 10 * window, at.updated;
      events := events + [event];
      PruneOldEvents(at.prune);
    }

    method PlaceEvent(event: Event, at: Readings, ghost s: State) returns (result: Option<Incident>)
      requires incidents == s.incidents && Numbered()
      requires forall n :: n in incidents ==> n <= incidentSeq
      modifies this`incidents, this`incidentSeq
      ensures Placed(window, s, old(Snapshot()), event, at, Outcome(Snapshot(), result))
    {
      result := JoinOpenIncident(event, at, s);
      if result.None? {
        result := FormIncident(event.info, at);
      }
    }

    /** The scan of Ingest: the first unresolved, fresh incident on the resource gets the event. */
    method JoinOpenIncident(event: Event, at: Readings, ghost s: State) returns (result: Option<Incident>)
      requires incidents == s.incidents && Numbered()
      requires forall n :: n in incidents ==> n <= incidentSeq
      modifies this`incidents
      ensures result.None? ==>
        incidents == old(incidents) && Joinable(window, s.incidents, event.info, at.scan) == {}
      ensures result.Some? ==>
        exists n :: JoinStep(window, s, old(Snapshot()), event, at, n, Outcome(Snapshot(), result))
    {
      result := None;
      var unseen := incidents.Keys;
      while unseen != {}
        invariant unseen <= incidents.Keys && incidents == s.incidents
        invariant forall n :: n in incidents && n !in unseen ==>
          n !in Joinable(window, s.incidents, event.info, at.scan)
        decreases |unseen|
      {
        var n :| n in unseen;
        unseen := unseen - {n};
        if !incidents[n].resolved && Correlates(window, event.info, incidents[n], at.scan(n)) {
          var incident := Extended(incidents[n], event, at.updated);
          incidents := incidents[n := incident];
          result := Some(incident);
          assert JoinStep(window, s, old(Snapshot()), event, at, n, Outcome(Snapshot(), result));
          return;
        }
      }
    }

    /** The second half of Ingest: two related events make a new incident. */
    method FormIncident(info: Info, at: Readings) returns (result: Option<Incident>)
      modifies this`incidents, this`incidentSeq
      ensures Outcome(Snapshot(), result) == FormedOrNot(window, old(Snapshot()), info, at)
    {
      result := None;
      var related := FindRelated(info, at.relate);
      if |related| >= 2 {
        var severity := HighestOf(related);
        incidentSeq := incidentSeq + 1;
        var incident := Incident(incidentSeq, severity,
                                 "Correlated incident on " + info.namespace + "/" + info.resource,
                                 related, info.namespace, info.resource, at.created, at.updated, false);
        incidents := incidents[incidentSeq := incident];
        result := Some(incident);
      }
    }

    method PruneOldEvents(now: int)
      modifies this`events
      ensures events == After(old(events), now - 10 * window)
    {
      var pruned := [];
      for i := 0 to |events|
        invariant pruned == After(events[..i], now - 10 * window)
      {
        assert events[..i + 1][..i] == events[..i];
        if events[i].timestamp > now - 10 * window {
          pruned := pruned + [events[i]];
        }
      }
      assert events[..|events|] == events;
      events := pruned;
    }

    method FindRelated(info: Info, now: int) returns (related: seq<Event>)
      ensures related == Related(events, info.namespace, info.resource, now - window)
    {
      related := [];
      for i := 0 to |events|
        invariant related == Related(events[..i], info.namespace, info.resource, now - window)
      {
        assert events[..i + 1][..i] == events[..i];
        if events[i].timestamp >= now - window &&
           events[i].info.namespace == info.namespace && events[i].info.resource == info.resource {
          related := related + [events[i]];
        }
      }
      assert events[..|events|] == events;
    }

    /** Every unresolved incident exactly once, in no particular order. */
    method GetOpenIncidents() returns (open: seq<Incident>)
      requires Numbered()
      ensures forall i :: 0 <= i < |open| ==>
                open[i].number in incidents && open[i] == incidents[open[i].number] && !open[i].resolved
      ensures forall n :: n in incidents && !incidents[n].resolved ==> incidents[n] in open
      ensures forall i, j :: 0 <= i < j < |open| ==> open[i].number != open[j].number
    {
      open := [];
      var unseen := incidents.Keys;
      while unseen != {}
        invariant unseen <= incidents.Keys
        invariant forall i :: 0 <= i < |open| ==>
          open[i].number in incidents && open[i].number !in unseen &&
          open[i] == incidents[open[i].number] && !open[i].resolved
        invariant forall n :: n in incidents && !incidents[n].resolved ==> n in unseen || incidents[n] in open
        invariant forall i, j :: 0 <= i < j < |open| ==> open[i].number != open[j].number
        decreases |unseen|
      {
        var n :| n in unseen;
        unseen := unseen - {n};
        if !incidents[n].resolved {
          open := open + [incidents[n]];
        }
      }
    }

    method ResolveIncident(number: nat, now: int)
      requires Valid() && clock <= now
      modifies this`incidents, this`clock
      ensures Step(window, true, old(Snapshot()), Op.Resolve(number, now), Outcome(Snapshot(), None))
      ensures Valid()
    {
      ghost var s := Snapshot();
      clock := now;
      if number in incidents {
        incidents := incidents[number := incidents[number].(resolved := true, updatedAt := now)];
      }
      StepKeepsInv(window, true, s, Op.Resolve(number, now), Outcome(Snapshot(), None));
    }
  }
}
