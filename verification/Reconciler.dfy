/** internal/controller/remediationpolicy_controller.go: one cycle from open incidents to pull
    requests, and ApplyPlan and createPR of internal/remediation/engine.go.

    Cycles run one after another; what the model answers, how the server's calls turn out and
    what the clock reads is given per incident. */
module Reconciler {
  import opened Text
  import opened Severities
  import C = Correlator
  import FixPlan
  import Gitops
  import GitHub

  datatype Strategy = DryRun | Report | GitOpsPR | Unknown(text: string)

  /** A policy with the repository it targets and the engine that serves it. An empty severity
      filter is None; `owner` is the repository's owner as its URL spells it; `configured` says that
      a GitOps engine exists for the repository. */
  datatype Config = Config(namespace: string, targets: seq<string>, severityFilter: Option<Severity>,
                           maxConcurrentPRs: int, dryRun: bool, paths: seq<string>, owner: string,
                           strategy: Strategy, configured: bool)

  datatype Finding = Finding(title: string, severity: Severity, namespace: string, resource: string,
                             kind: string, rule: string)

  /** What the outside does while one incident is handled. */
  datatype Oracle = Oracle(answer: FixPlan.Answer, faults: GitHub.Faults, now: int)

  /** `existing` maps branches to open pull requests; `generated` counts plan generations and
      `resolved` lists the incidents resolved, in order. */
  datatype Progress = Progress(server: GitHub.Server, correlator: C.State, existing: map<string, nat>,
                               processed: nat, created: nat, generated: nat, resolved: seq<nat>)

  const DEFAULT_MAX_PRS := 5

  function MaxPRs(c: Config): int { if c.maxConcurrentPRs == 0 then DEFAULT_MAX_PRS else c.maxConcurrentPRs }

  // ---- scope and severity ----------------------------------------------------------------

  /** severityOrder of internal/controller/securitypolicy_controller.go: lower is worse. */
  function Order(severity: Severity): Option<nat> {
    match severity
    case Critical => Some(0) case High => Some(1) case Medium => Some(2) case Low => Some(3) case Info => Some(4)
    case Other(_) => None
  }

  /** An unknown filter reads as zero, so that only critical incidents pass. */
  function Threshold(filter: Option<Severity>): nat {
    var order := Order(if filter.Some? then filter.value else High);
    if order.Some? then order.value else 0
  }

  predicate SevereEnough(c: Config, severity: Severity) {
    Order(severity).Some? && Order(severity).value <= Threshold(c.severityFilter)
  }

  predicate Names(info: C.Info, namespace: string, targets: seq<string>) {
    info.policy != "" && info.policyNamespace != "" && info.policyNamespace == namespace && info.policy in targets
  }

  ghost predicate InScope(c: Config, incident: C.Incident) {
    c.targets == [] || exists i :: 0 <= i < |incident.events| && Names(incident.events[i].info, c.namespace, c.targets)
  }

  method IncidentMatchesTargets(incident: C.Incident, namespace: string, targets: seq<string>) returns (matches: bool)
    ensures matches <==> exists i :: 0 <= i < |incident.events| && Names(incident.events[i].info, namespace, targets)
  {
    if targets == [] { return false; }
    for i := 0 to |incident.events|
      invariant forall j :: 0 <= j < i ==> !Names(incident.events[j].info, namespace, targets)
    {
      var info := incident.events[i].info;
      if info.policy == "" || info.policyNamespace == "" { continue; }
      if info.policyNamespace == namespace && info.policy in targets { return true; }
    }
    return false;
  }

  /** The finding takes its title from the latest event, if that one has a message. */
  function FindingOf(incident: C.Incident): Finding {
    if incident.events == [] then
      Finding(incident.title, incident.severity, incident.namespace, incident.resource, "", "")
    else
      var latest := incident.events[|incident.events| - 1].info;
      Finding(if latest.message != "" then latest.message else incident.title, incident.severity,
              incident.namespace, incident.resource, latest.resourceKind, latest.kind)
  }

  function PurposeOf(finding: Finding): Gitops.Purpose {
    Gitops.Purpose(finding.resource, finding.namespace, finding.title)
  }

  function BranchOf(finding: Finding): (branch: string)
    ensures HasPrefix(branch, Gitops.OWN_PREFIX) && branch == Gitops.BranchFor(PurposeOf(finding))
  {
    Gitops.BranchName(finding.resource, finding.namespace, finding.title)
  }

  /** By labels: without a filter critical and high incidents pass, with one those at least as
      severe, with an unknown filter critical ones only, and unknown labels never. */
  lemma FilterByLabel(c: Config, severity: Severity)
    ensures SevereEnough(c, severity) <==>
      match c.severityFilter
      case None => severity in {Critical, High}
      case Some(Critical) => severity == Critical
      case Some(High) => severity in {Critical, High}
      case Some(Medium) => severity in {Critical, High, Medium}
      case Some(Low) => severity in {Critical, High, Medium, Low}
      case Some(Info) => severity in {Critical, High, Medium, Low, Severity.Info}
      case Some(Other(_)) => severity == Critical
  {
  }

  /** By what is asked: some event has a policy of one of the listed names in the policy's own
      namespace, neither name being empty; an empty list asks nothing. */
  lemma ScopeByPolicy(c: Config, incident: C.Incident)
    ensures InScope(c, incident) <==>
      |c.targets| == 0 ||
      exists i, j :: 0 <= i < |incident.events| && 0 <= j < |c.targets| && OfPolicy(c, incident, i, j)
  {
    if c.targets != [] && InScope(c, incident) {
      var i :| 0 <= i < |incident.events| && Names(incident.events[i].info, c.namespace, c.targets);
      var j :| 0 <= j < |c.targets| && c.targets[j] == incident.events[i].info.policy;
      assert OfPolicy(c, incident, i, j);
    }
  }

  /** Event i comes from the j-th listed policy. */
  predicate OfPolicy(c: Config, incident: C.Incident, i: nat, j: nat)
    requires i < |incident.events| && j < |c.targets|
  {
    c.targets[j] != "" && c.namespace != "" && incident.events[i].info.policy == c.targets[j] &&
    incident.events[i].info.policyNamespace == c.namespace
  }

  /** The finding speaks of the event that came last: its message, if any, its kind and its rule. */
  lemma FindingSpeaksOfTheLatest(incident: C.Incident, earlier: seq<C.Event>, latest: C.Event)
    requires incident.events == earlier + [latest]
    ensures var f, info := FindingOf(incident), latest.info;
      f.title == (if info.message == "" then incident.title else info.message) && f.kind == info.resourceKind &&
      f.rule == info.kind && f.severity == incident.severity &&
      f.namespace == incident.namespace && f.resource == incident.resource
  {
  }

  // ---- ApplyPlan ------------------------------------------------------------------------------

  function ChangesOf(fixes: seq<FixPlan.Fix>): seq<GitHub.FileChange> {
    seq(|fixes|, i requires 0 <= i < |fixes| =>
      GitHub.FileChange(fixes[i].filePath, fixes[i].patch, fixes[i].operation))
  }

  function RequestFor(c: Config, finding: Finding, plan: FixPlan.Plan): GitHub.PullRequest {
    GitHub.PullRequest(c.owner, BranchOf(finding), "main", {"zelyo-operator", "security", "automated"},
                       ChangesOf(plan.fixes), PurposeOf(finding))
  }

  /** Success without a result is what the dry-run and report strategies return. */
  datatype Applied = Failure | Success(result: Option<GitHub.Result>)

  /** The strategies that open nothing and report no error. */
  predicate Audits(c: Config) { c.strategy == DryRun || c.strategy == Report }

  ghost predicate Applying(c: Config, s: GitHub.Server, pr: GitHub.PullRequest, faults: GitHub.Faults,
                           s': GitHub.Server, outcome: Applied)
  {
    match c.strategy
    case DryRun => s' == s && outcome == Success(None)
    case Report => s' == s && outcome == Success(None)
    case Unknown(_) => s' == s && outcome == Failure
    case GitOpsPR =>
      if !c.configured then s' == s && outcome == Failure
      else
        (outcome == Failure && GitHub.Creating(s, pr, faults, s', None)) ||
        (outcome.Success? && outcome.result.Some? && GitHub.Creating(s, pr, faults, s', outcome.result))
  }

  // ---- one incident ------------------------------------------------------------------------------

  function Resolving(p: Progress, number: nat, now: int): Progress {
    p.(correlator := C.Resolved(p.correlator, number, now), resolved := p.resolved + [number])
  }

  function Generated(p: Progress): Progress { p.(generated := p.generated + 1) }

  /** The counters that processIncidents keeps. */
  function Tally(p: Progress, isOpened: bool, charged: bool): Progress {
    p.(processed := p.processed + (if charged then 1 else 0), created := p.created + (if isOpened then 1 else 0))
  }

  ghost predicate Submitted(c: Config, incident: C.Incident, plan: FixPlan.Plan, oracle: Oracle, p: Progress,
                            q: Progress)
  {
    var finding := FindingOf(incident);
    exists s', outcome ::
      Applying(c, p.server, RequestFor(c, finding, plan), oracle.faults, s', outcome) &&
      q == AfterApply(p, incident.number, BranchOf(finding), oracle.now, s', outcome)
  }

  function AfterApply(p: Progress, number: nat, branch: string, now: int, s': GitHub.Server,
                      outcome: Applied): Progress
  {
    var tried := p.(server := s');
    match outcome
    case Failure => Tally(tried, false, true)
    case Success(None) => Tally(Resolving(tried, number, now), false, true)
    case Success(Some(result)) =>
      Tally(Resolving(tried, number, now).(existing := p.existing[branch := result.number]), true, true)
  }

  /** remediateIncident, with the counters of its caller. */
  ghost predicate Handled(c: Config, incident: C.Incident, oracle: Oracle, p: Progress, q: Progress) {
    var finding := FindingOf(incident);
    if !SevereEnough(c, incident.severity) then q == p
    else if BranchOf(finding) in p.existing then q == if c.dryRun then p else Resolving(p, incident.number, oracle.now)
    else
      match FixPlan.PlanFor(finding.severity, oracle.answer, c.paths)
      case None => q == Tally(Generated(p), false, true)
      case Some(plan) =>
        if c.dryRun then q == Tally(Generated(p), false, true)
        else Submitted(c, incident, plan, oracle, Generated(p), q)
  }

  /** The loop of processIncidents from position i on. */
  ghost predicate Processing(c: Config, budget: int, list: seq<C.Incident>, oracles: seq<Oracle>, i: nat,
                             p: Progress, p': Progress)
    requires i <= |list| <= |oracles|
    decreases |list| - i
  {
    if i == |list| || p.processed >= budget then p' == p
    else if !InScope(c, list[i]) then Processing(c, budget, list, oracles, i + 1, p, p')
    else exists q :: Handled(c, list[i], oracles[i], p, q) && Processing(c, budget, list, oracles, i + 1, q, p')
  }

  // ---- one cycle -----------------------------------------------------------------------------------

  function BranchMap(results: seq<GitHub.Result>): map<string, nat> {
    if results == [] then map[]
    else BranchMap(results[..|results| - 1])[results[|results| - 1].branch := results[|results| - 1].number]
  }

  /** snapshotOpenPRs; a failed listing counts as nothing open. */
  function Listed(c: Config, s: GitHub.Server, listed: bool): seq<GitHub.Result> {
    if c.configured && listed then GitHub.Snapshot(s.pulls) else []
  }

  function Initial(s: GitHub.Server, correlator: C.State, results: seq<GitHub.Result>): Progress {
    Progress(s, correlator, BranchMap(results), 0, 0, 0, [])
  }

  ghost predicate Cycle(c: Config, listed: bool, list: seq<C.Incident>, oracles: seq<Oracle>,
                        s: GitHub.Server, correlator: C.State, p': Progress)
    requires |list| <= |oracles|
  {
    var results := Listed(c, s, listed);
    var start := Initial(s, correlator, results);
    if list == [] || MaxPRs(c) - |results| <= 0 then p' == start
    else Processing(c, MaxPRs(c) - |results|, list, oracles, 0, start, p')
  }

  class Controller {
    const github: GitHub.Engine
    var correlator: C.State
    var existing: map<string, nat>
    var processed: nat
    var created: nat
    var generated: nat
    ghost var resolved: seq<nat>

    ghost function Now(): Progress
      reads this, github
    {
      Progress(github.server, correlator, existing, processed, created, generated, resolved)
    }

    constructor (engine: GitHub.Engine, incidents: C.State)
      ensures github == engine && correlator == incidents
    {
      github, correlator := engine, incidents;
      existing, processed, created, generated, resolved := map[], 0, 0, 0, [];
    }

    method ResolveIncident(number: nat, now: int)
      modifies this`correlator, this`resolved
      ensures Now() == Resolving(old(Now()), number, now)
    {
      correlator := C.Resolved(correlator, number, now);
      resolved := resolved + [number];
    }

    method SnapshotOpenPRs(c: Config, pages: seq<GitHub.Fault>) returns (count: nat, branches: map<string, nat>)
      ensures var results := Listed(c, github.server, GitHub.ListingWorks(github.server.pulls, pages));
        count == |results| && branches == BranchMap(results)
    {
      branches := map[];
      if !c.configured { return 0, branches; }
      var found := GitHub.ListOpenPulls(github.server.pulls, pages);
      if found.None? { return 0, branches; }
      var results := found.value;
      for i := 0 to |results|
        invariant branches == BranchMap(results[..i])
      {
        assert results[..i + 1][..i] == results[..i];
        branches := branches[results[i].branch := results[i].number];
      }
      assert results[..|results|] == results;
      count := |results|;
    }

    method ApplyPlan(c: Config, finding: Finding, plan: FixPlan.Plan, faults: GitHub.Faults) returns (outcome: Applied)
      requires GitHub.Sound(github.server)
      modifies github
      ensures Applying(c, old(github.server), RequestFor(c, finding, plan), faults, github.server, outcome)
    {
      match c.strategy
      case DryRun => outcome := Success(None);
      case Report => outcome := Success(None);
      case Unknown(_) => outcome := Failure;
      case GitOpsPR =>
        if !c.configured { return Failure; }
        var result := github.CreatePullRequest(RequestFor(c, finding, plan), faults);
        outcome := if result.Some? then Success(result) else Failure;
    }

    /** The rest of remediateIncident once there is a plan to apply. */
    method Submit(c: Config, incident: C.Incident, plan: FixPlan.Plan, oracle: Oracle) returns (isOpened: bool)
      requires GitHub.Sound(github.server)
      modifies this`correlator, this`existing, this`resolved, github
      ensures Submitted(c, incident, plan, oracle, old(Now()), Tally(Now(), isOpened, true))
    {
      var finding := FindingOf(incident);
      var outcome := ApplyPlan(c, finding, plan, oracle.faults);
      isOpened := false;
      if outcome.Success? {
        if outcome.result.Some? {
          existing := existing[BranchOf(finding) := outcome.result.value.number];
          isOpened := true;
        }
        ResolveIncident(incident.number, oracle.now);
      }
      assert Tally(Now(), isOpened, true) ==
        AfterApply(old(Now()), incident.number, BranchOf(finding), oracle.now, github.server, outcome);
    }

    method RemediateIncident(c: Config, incident: C.Incident, oracle: Oracle) returns (isOpened: bool, charged: bool)
      requires GitHub.Sound(github.server)
      modifies this`correlator, this`existing, this`generated, this`resolved, github
      ensures Handled(c, incident, oracle, old(Now()), Tally(Now(), isOpened, charged))
    {
      if !SevereEnough(c, incident.severity) { return false, false; }
      var finding := FindingOf(incident);
      if BranchOf(finding) in existing {
        if !c.dryRun { ResolveIncident(incident.number, oracle.now); }
        return false, false;
      }
      var plan := FixPlan.GeneratePlan(finding.severity, oracle.answer, c.paths);
      generated := generated + 1;
      assert Now() == Generated(old(Now()));
      if plan.None? || c.dryRun { return false, true; }
      isOpened := Submit(c, incident, plan.value, oracle);
      charged := true;
    }

    method ProcessIncidents(c: Config, list: seq<C.Incident>, oracles: seq<Oracle>, pages: seq<GitHub.Fault>)
      returns (openPRs: nat)
      requires GitHub.Sound(github.server) && |list| <= |oracles|
      modifies this, github
      ensures Cycle(c, GitHub.ListingWorks(old(github.server).pulls, pages), list, oracles,
                    old(github.server), old(correlator), Now())
      ensures openPRs == |Listed(c, old(github.server), GitHub.ListingWorks(old(github.server).pulls, pages))|
    {
      processed, created, generated, resolved := 0, 0, 0, [];
      openPRs, existing := SnapshotOpenPRs(c, pages);
      if list == [] { return; }
      var budget := MaxPRs(c) - openPRs;
      if budget <= 0 { return; }
      RemediateAll(c, budget, list, oracles);
    }

    method RemediateAll(c: Config, budget: int, list: seq<C.Incident>, oracles: seq<Oracle>)
      requires GitHub.Sound(github.server) && |list| <= |oracles|
      modifies this, github
      ensures Processing(c, budget, list, oracles, 0, old(Now()), Now())
    {
      ghost var start := Now();
      var i := 0;
      while i < |list| && processed < budget
        invariant 0 <= i <= |list| && GitHub.Sound(github.server)
        invariant Leads(c, budget, list, oracles, i, Now(), start)
      {
        ghost var p := Now();
        RemediateNext(c, list[i], oracles[i]);
        LeadsOn(c, budget, list, oracles, i, p, Now(), start);
        i := i + 1;
      }
    }

    /** The body of the loop. */
    method RemediateNext(c: Config, incident: C.Incident, oracle: Oracle)
      requires GitHub.Sound(github.server)
      modifies this, github
      ensures if InScope(c, incident) then Handled(c, incident, oracle, old(Now()), Now()) else Now() == old(Now())
      ensures GitHub.Sound(github.server)
    {
      var matches := IncidentMatchesTargets(incident, c.namespace, c.targets);
      if c.targets != [] && !matches { return; }
      var isOpened, charged := RemediateIncident(c, incident, oracle);
      ghost var q := Tally(Now(), isOpened, charged);
      if charged { processed := processed + 1; }
      if isOpened { created := created + 1; }
      assert Now() == q;
      HandledKeepsSound(c, incident, oracle, old(Now()), q);
    }
  }

  /** Whatever the rest of the loop can do from p, the whole loop can do from start. */
  ghost predicate Leads(c: Config, budget: int, list: seq<C.Incident>, oracles: seq<Oracle>, i: nat, p: Progress,
                        start: Progress)
    requires i <= |list| <= |oracles|
  {
    forall p' :: Processing(c, budget, list, oracles, i, p, p') ==> Processing(c, budget, list, oracles, 0, start, p')
  }

  lemma LeadsOn(c: Config, budget: int, list: seq<C.Incident>, oracles: seq<Oracle>, i: nat, p: Progress,
                q: Progress, start: Progress)
    requires i < |list| <= |oracles| && p.processed < budget && Leads(c, budget, list, oracles, i, p, start)
    requires if InScope(c, list[i]) then Handled(c, list[i], oracles[i], p, q) else q == p
    ensures Leads(c, budget, list, oracles, i + 1, q, start)
  {
    forall p' | Processing(c, budget, list, oracles, i + 1, q, p')
      ensures Processing(c, budget, list, oracles, 0, start, p') {
      assert Processing(c, budget, list, oracles, i, p, p');
    }
  }

  // ---- what one incident changes -------------------------------------------------------------------

  lemma AppliedHasEffect(c: Config, s: GitHub.Server, pr: GitHub.PullRequest, faults: GitHub.Faults,
                         s': GitHub.Server, outcome: Applied)
    requires GitHub.Sound(s) && Applying(c, s, pr, faults, s', outcome)
    ensures GitHub.Sound(s')
    ensures s' == s || (c.configured &&
      GitHub.Effect(s, s', pr, GitHub.Unseen(s, pr, faults), if outcome.Failure? then None else outcome.result))
    ensures outcome.Success? && outcome.result.Some? ==> GitHub.ResultHolds(s, s', pr, outcome.result.value)
    ensures c.strategy == GitOpsPR && outcome.Success? ==> outcome.result.Some?
    ensures outcome.Success? && outcome.result.None? ==> s' == s && Audits(c)
  {
    if c.strategy == GitOpsPR && c.configured {
      var result := if outcome.Failure? then None else outcome.result;
      GitHub.CallHasEffect(s, pr, faults, s', result);
      GitHub.EffectKeepsSound(s, s', pr, GitHub.Unseen(s, pr, faults), result);
    }
  }

  /** An incident is resolved without a pull request of this repository on its branch exactly
      when there is none before and either the dedup map has the branch all the same, or there is
      a plan and the strategy opens nothing. */
  lemma ResolvedWithoutOwnPull(c: Config, incident: C.Incident, oracle: Oracle, p: Progress, q: Progress)
    requires GitHub.Sound(p.server) && Handled(c, incident, oracle, p, q)
    ensures var branch := BranchOf(FindingOf(incident));
      (q.resolved != p.resolved && !GitHub.Backed(q.server, branch)) <==>
      (SevereEnough(c, incident.severity) && !c.dryRun && !GitHub.Backed(p.server, branch) &&
       (branch in p.existing ||
        (Audits(c) && FixPlan.PlanFor(FindingOf(incident).severity, oracle.answer, c.paths).Some?)))
  {
    var finding := FindingOf(incident);
    if SevereEnough(c, incident.severity) && BranchOf(finding) !in p.existing && !c.dryRun {
      match FixPlan.PlanFor(finding.severity, oracle.answer, c.paths)
      case None =>
      case Some(plan) => SubmittedResolves(c, incident, plan, oracle, Generated(p), q);
    }
  }

  /** A pull request on this repository's branch was opened for this very purpose. */
  predicate BackedFor(s: GitHub.Server, purpose: Gitops.Purpose) {
    exists i :: 0 <= i < |s.pulls| && GitHub.Backs(s.pulls[i], s.owner, Gitops.BranchFor(purpose)) &&
      s.pulls[i].purpose == Some(purpose)
  }

  /** The branch is backed, though by pull requests made for something else only. */
  predicate BackedByOthers(s: GitHub.Server, finding: Finding) {
    GitHub.Backed(s, BranchOf(finding)) && !BackedFor(s, PurposeOf(finding))
  }

  /** An incident is resolved on another finding's pull request exactly when its branch is backed
      by such pull requests only, and the dedup map has the branch, or there is a plan and either
      the strategy opens nothing or the engine's lookup finds one of them. */
  lemma ResolvedOnAnothersPull(c: Config, incident: C.Incident, oracle: Oracle, p: Progress, q: Progress)
    requires GitHub.Sound(p.server) && Handled(c, incident, oracle, p, q)
    ensures var finding := FindingOf(incident);
      var plan := FixPlan.PlanFor(finding.severity, oracle.answer, c.paths);
      (q.resolved != p.resolved && BackedByOthers(q.server, finding)) <==>
      (SevereEnough(c, incident.severity) && !c.dryRun && BackedByOthers(p.server, finding) &&
       (BranchOf(finding) in p.existing || (plan.Some? && (Audits(c) || Adopts(c, finding, plan.value, oracle, p)))))
  {
    var finding := FindingOf(incident);
    if SevereEnough(c, incident.severity) && BranchOf(finding) !in p.existing && !c.dryRun {
      match FixPlan.PlanFor(finding.severity, oracle.answer, c.paths)
      case None =>
      case Some(plan) => SubmittedAdopts(c, incident, plan, oracle, Generated(p), q);
    }
  }

  /** The engine is asked to open a pull request and finds one on the branch instead. */
  predicate Adopts(c: Config, finding: Finding, plan: FixPlan.Plan, oracle: Oracle, p: Progress) {
    c.strategy == GitOpsPR && c.configured && GitHub.Finds(p.server, RequestFor(c, finding, plan), oracle.faults)
  }

  lemma SubmittedAdopts(c: Config, incident: C.Incident, plan: FixPlan.Plan, oracle: Oracle, p: Progress, q: Progress)
    requires GitHub.Sound(p.server) && Submitted(c, incident, plan, oracle, p, q)
    ensures var finding := FindingOf(incident);
      if Audits(c) || Adopts(c, finding, plan, oracle, p) then q.server == p.server && q.resolved != p.resolved
      else q.resolved != p.resolved ==> BackedFor(q.server, PurposeOf(finding))
  {
    var finding := FindingOf(incident);
    var pr := RequestFor(c, finding, plan);
    var s', outcome :| Applying(c, p.server, pr, oracle.faults, s', outcome) &&
      q == AfterApply(p, incident.number, BranchOf(finding), oracle.now, s', outcome);
    if c.strategy == GitOpsPR && c.configured {
      var result := if outcome.Failure? then None else outcome.result;
      GitHub.FoundExactlyWhen(p.server, pr, oracle.faults, s', result);
      if result.Some? && !GitHub.Finds(p.server, pr, oracle.faults) {
        assert s'.pulls[|p.server.pulls|].purpose == Some(PurposeOf(finding));
      }
    }
  }

  lemma SubmittedResolves(c: Config, incident: C.Incident, plan: FixPlan.Plan, oracle: Oracle, p: Progress, q: Progress)
    requires GitHub.Sound(p.server) && Submitted(c, incident, plan, oracle, p, q)
    ensures Audits(c) ==> q.server == p.server && q.resolved != p.resolved
    ensures !Audits(c) && q.resolved != p.resolved ==> GitHub.Backed(q.server, BranchOf(FindingOf(incident)))
  {
    var finding := FindingOf(incident);
    var pr := RequestFor(c, finding, plan);
    var s', outcome :| Applying(c, p.server, pr, oracle.faults, s', outcome) &&
      q == AfterApply(p, incident.number, BranchOf(finding), oracle.now, s', outcome);
    AppliedHasEffect(c, p.server, pr, oracle.faults, s', outcome);
    if outcome.Success? && outcome.result.Some? {
      assert GitHub.Backs(s'.pulls[outcome.result.value.number], s'.owner, pr.head);
    }
  }

  lemma HandledKeepsSound(c: Config, incident: C.Incident, oracle: Oracle, p: Progress, q: Progress)
    requires GitHub.Sound(p.server) && Handled(c, incident, oracle, p, q)
    ensures GitHub.Sound(q.server)
  {
    if q.server != p.server {
      var finding := FindingOf(incident);
      var plan := FixPlan.PlanFor(finding.severity, oracle.answer, c.paths).value;
      var s', outcome :| Applying(c, p.server, RequestFor(c, finding, plan), oracle.faults, s', outcome) &&
        q == AfterApply(Generated(p), incident.number, BranchOf(finding), oracle.now, s', outcome);
      AppliedHasEffect(c, p.server, RequestFor(c, finding, plan), oracle.faults, s', outcome);
    }
  }

  /** A server changes only by one call to CreatePullRequest, for a plan that was just charged. */
  ghost predicate Called(c: Config, incident: C.Incident, oracle: Oracle, p: Progress, q: Progress,
                         plan: FixPlan.Plan, result: Option<GitHub.Result>)
  {
    q.processed == p.processed + 1 && !c.dryRun && c.configured &&
    FixPlan.PlanFor(FindingOf(incident).severity, oracle.answer, c.paths) == Some(plan) &&
    var pr := RequestFor(c, FindingOf(incident), plan);
    GitHub.Effect(p.server, q.server, pr, GitHub.Unseen(p.server, pr, oracle.faults), result)
  }

  lemma ServerCase(c: Config, incident: C.Incident, oracle: Oracle, p: Progress, q: Progress)
    requires GitHub.Sound(p.server) && Handled(c, incident, oracle, p, q)
    ensures q.server == p.server || exists plan, result :: Called(c, incident, oracle, p, q, plan, result)
  {
    if q.server != p.server {
      var finding := FindingOf(incident);
      var plan := FixPlan.PlanFor(finding.severity, oracle.answer, c.paths).value;
      var s', outcome :| Applying(c, p.server, RequestFor(c, finding, plan), oracle.faults, s', outcome) &&
        q == AfterApply(Generated(p), incident.number, BranchOf(finding), oracle.now, s', outcome);
      AppliedHasEffect(c, p.server, RequestFor(c, finding, plan), oracle.faults, s', outcome);
      assert Called(c, incident, oracle, p, q, plan, if outcome.Failure? then None else outcome.result);
    }
  }

  // ---- the invariants of a cycle ---------------------------------------------------------------------

  /** Opened by the operator, on the branch made for its purpose. */
  predicate OperatorPull(pull: GitHub.Pull) {
    pull.open && pull.purpose.Some? && pull.headRef == Gitops.BranchFor(pull.purpose.value)
  }

  /** Pull requests are only added, on the operator's own branches, and no more than were charged. */
  ghost predicate PullsInv(start: GitHub.Server, p: Progress) {
    p.server.owner == start.owner && start.pulls <= p.server.pulls &&
    |p.server.pulls| <= |start.pulls| + p.processed &&
    forall i :: |start.pulls| <= i < |p.server.pulls| ==> OperatorPull(p.server.pulls[i])
  }

  /** A change that may be committed: a clean path at or below an allowed one. */
  predicate SafeChange(paths: seq<string>, change: GitHub.FileChange) {
    FixPlan.ValidPath(change.path) && GitHub.UsablePath(change.path) &&
    (FixPlan.WholeRepo(paths) || FixPlan.Below(change.path, paths))
  }

  /** Commits are only added, and only safe changes. */
  ghost predicate CommitsInv(paths: seq<string>, start: seq<GitHub.Commit>, now: seq<GitHub.Commit>) {
    start <= now && forall i :: |start| <= i < |now| ==> SafeChange(paths, now[i].change)
  }

  /** None of the added commits went onto an open pull request. */
  ghost predicate NoneOntoSince(start: seq<GitHub.Commit>, now: seq<GitHub.Commit>) {
    start <= now && forall i :: |start| <= i < |now| ==> !now[i].ontoOpenPull
  }

  /** A lookup that misses nothing among `open` pull requests: the server honours the head filter,
      or the unfiltered list fits the page. */
  predicate Sighted(faults: GitHub.Faults, open: nat) {
    faults.page > 0 && (faults.narrowed || open <= faults.page)
  }

  /** So are all lookups of a cycle, and the owner is configured as the login is spelled. */
  predicate AllSighted(c: Config, s: GitHub.Server, oracles: seq<Oracle>, budget: int) {
    c.owner == s.owner && budget >= 0 &&
    forall i :: 0 <= i < |oracles| ==> Sighted(oracles[i].faults, |GitHub.OpenOf(s.pulls)| + budget)
  }

  /** The change is what a model wrote in one of the cycle's answers: path, content and operation. */
  ghost predicate Drafted(oracles: seq<Oracle>, change: GitHub.FileChange) {
    exists k, j :: 0 <= k < |oracles| && WroteAt(oracles[k].answer, j, change)
  }

  predicate WroteAt(answer: FixPlan.Answer, j: int, change: GitHub.FileChange) {
    answer.Answered? && answer.decoded.Some? && 0 <= j < |answer.decoded.value.fixes| &&
    var raw := answer.decoded.value.fixes[j];
    change.path == raw.filePath && change.content == raw.patch &&
    (change.operation == FixPlan.Create <==> raw.operation == "create") &&
    (change.operation == FixPlan.Update <==> raw.operation == "update") &&
    (change.operation == FixPlan.Delete <==> raw.operation == "delete")
  }

  ghost predicate DraftedSince(oracles: seq<Oracle>, start: seq<GitHub.Commit>, now: seq<GitHub.Commit>) {
    start <= now && forall i :: |start| <= i < |now| ==> Drafted(oracles, now[i].change)
  }

  lemma RequestHasFix(c: Config, finding: Finding, plan: FixPlan.Plan, i: nat)
    requires i < |plan.fixes|
    ensures var files := RequestFor(c, finding, plan).files;
      |files| == |plan.fixes| && files[i].path == plan.fixes[i].filePath && files[i].content == plan.fixes[i].patch &&
      files[i].operation == plan.fixes[i].operation
  {
  }

  lemma FixIsWritten(answer: FixPlan.Answer, j: nat, fix: FixPlan.Fix, change: GitHub.FileChange)
    requires answer.Answered? && answer.decoded.Some? && j < |answer.decoded.value.fixes|
    requires FixPlan.Comes(answer.decoded.value.fixes[j], fix)
    requires change.path == fix.filePath && change.content == fix.patch && change.operation == fix.operation
    ensures WroteAt(answer, j, change)
  {
  }

  lemma PlanIsDrafted(c: Config, incident: C.Incident, oracles: seq<Oracle>, k: nat, plan: FixPlan.Plan, i: nat)
    requires k < |oracles| && i < |plan.fixes|
    requires FixPlan.PlanFor(FindingOf(incident).severity, oracles[k].answer, c.paths) == Some(plan)
    ensures Drafted(oracles, RequestFor(c, FindingOf(incident), plan).files[i])
  {
    var answer := oracles[k].answer;
    assert plan.fixes[i] in plan.fixes;
    FixPlan.FixesComeFromTheAnswer(FindingOf(incident).severity, answer, c.paths, plan.fixes[i]);
    var j :| 0 <= j < |answer.decoded.value.fixes| && FixPlan.Comes(answer.decoded.value.fixes[j], plan.fixes[i]);
    RequestHasFix(c, FindingOf(incident), plan, i);
    FixIsWritten(answer, j, plan.fixes[i], RequestFor(c, FindingOf(incident), plan).files[i]);
    assert WroteAt(answer, j, RequestFor(c, FindingOf(incident), plan).files[i]);
  }

  lemma DraftedGrowth(oracles: seq<Oracle>, start: seq<GitHub.Commit>, before: seq<GitHub.Commit>,
                      after: seq<GitHub.Commit>, branch: string, files: seq<GitHub.FileChange>, onto: bool)
    requires DraftedSince(oracles, start, before) && GitHub.CommitsGrew(before, after, branch, files, onto)
    requires forall i :: 0 <= i < |files| ==> Drafted(oracles, files[i])
    ensures DraftedSince(oracles, start, after)
  {
    forall i | |start| <= i < |after| ensures Drafted(oracles, after[i].change) {
      if i < |before| {
        assert after[i] == before[i];
      } else {
        assert after[i].change == files[i - |before|];
      }
    }
  }

  lemma DraftedStep(c: Config, incident: C.Incident, oracles: seq<Oracle>, k: nat, start: seq<GitHub.Commit>,
                    p: Progress, q: Progress)
    requires k < |oracles| && GitHub.Sound(p.server) && Handled(c, incident, oracles[k], p, q)
    requires DraftedSince(oracles, start, p.server.commits)
    ensures DraftedSince(oracles, start, q.server.commits)
  {
    ServerCase(c, incident, oracles[k], p, q);
    if q.server != p.server {
      var plan, result :| Called(c, incident, oracles[k], p, q, plan, result);
      var pr := RequestFor(c, FindingOf(incident), plan);
      forall i | 0 <= i < |pr.files| ensures Drafted(oracles, pr.files[i]) {
        PlanIsDrafted(c, incident, oracles, k, plan, i);
      }
      DraftedGrowth(oracles, start, p.server.commits, q.server.commits, pr.head, pr.files,
                    GitHub.Unseen(p.server, pr, oracles[k].faults));
    }
  }

  predicate HasPull(s: GitHub.Server, branch: string) {
    exists i :: 0 <= i < |s.pulls| && s.pulls[i].open && s.pulls[i].headRef == branch
  }

  /** Every branch in the dedup map was in the snapshot or backs a pull request of this repository. */
  ghost predicate MapInv(first: map<string, nat>, p: Progress) {
    forall b :: b in p.existing ==> b in first || GitHub.Backed(p.server, b)
  }

  /** What entitles a cycle to resolve an incident: `first` is the snapshot's branch map. */
  ghost predicate Justified(c: Config, first: map<string, nat>, s: GitHub.Server, incident: C.Incident) {
    InScope(c, incident) && SevereEnough(c, incident.severity) && !c.dryRun &&
    Covered(c, first, s, BranchOf(FindingOf(incident)))
  }

  ghost predicate Covered(c: Config, first: map<string, nat>, s: GitHub.Server, branch: string) {
    branch in first || GitHub.Backed(s, branch) || Audits(c)
  }

  /** Incidents are untouched, or were resolved for a reason. */
  ghost predicate ResolveInv(c: Config, first: map<string, nat>, list: seq<C.Incident>, start: C.State, p: Progress) {
    p.correlator == start.(incidents := p.correlator.incidents, clock := p.correlator.clock) &&
    p.correlator.incidents.Keys == start.incidents.Keys &&
    forall n :: n in start.incidents ==>
      p.correlator.incidents[n] == start.incidents[n] ||
      (p.correlator.incidents[n] ==
        start.incidents[n].(resolved := true, updatedAt := p.correlator.incidents[n].updatedAt) &&
       exists i :: 0 <= i < |list| && list[i].number == n && Justified(c, first, p.server, list[i]))
  }

  ghost predicate CycleInv(c: Config, first: map<string, nat>, list: seq<C.Incident>, s: GitHub.Server,
                           correlator: C.State, budget: int, p: Progress)
  {
    GitHub.Sound(p.server) && PullsInv(s, p) && CommitsInv(c.paths, s.commits, p.server.commits) && MapInv(first, p) &&
    ResolveInv(c, first, list, correlator, p) && p.generated == p.processed && p.processed <= budget &&
    (c.configured || p.server == s)
  }

  lemma PullsStep(c: Config, incident: C.Incident, oracle: Oracle, start: GitHub.Server, p: Progress, q: Progress)
    requires GitHub.Sound(p.server) && Handled(c, incident, oracle, p, q) && PullsInv(start, p)
    ensures PullsInv(start, q) && p.server.pulls <= q.server.pulls
  {
    ServerCase(c, incident, oracle, p, q);
    if q.server != p.server {
      var plan, result :| Called(c, incident, oracle, p, q, plan, result);
      OnePullMore(start, p, q, RequestFor(c, FindingOf(incident), plan));
    }
  }

  lemma OnePullMore(start: GitHub.Server, p: Progress, q: Progress, pr: GitHub.PullRequest)
    requires PullsInv(start, p) && q.processed == p.processed + 1 && q.server.owner == p.server.owner
    requires GitHub.PullsGrew(p.server, q.server, pr) && pr.head == Gitops.BranchFor(pr.purpose)
    ensures PullsInv(start, q) && p.server.pulls <= q.server.pulls
  {
  }

  lemma PlanIsSafe(c: Config, incident: C.Incident, answer: FixPlan.Answer, plan: FixPlan.Plan, i: nat)
    requires FixPlan.PlanFor(FindingOf(incident).severity, answer, c.paths) == Some(plan) && i < |plan.fixes|
    ensures var change := RequestFor(c, FindingOf(incident), plan).files[i];
      GitHub.UsablePath(change.path) ==> SafeChange(c.paths, change)
  {
    FixPlan.PlansAreConfined(FindingOf(incident).severity, answer, c.paths);
    assert plan.fixes[i] in plan.fixes;
  }

  lemma SafeGrowth(paths: seq<string>, start: seq<GitHub.Commit>, before: seq<GitHub.Commit>, after: seq<GitHub.Commit>,
                   branch: string, files: seq<GitHub.FileChange>, onto: bool)
    requires CommitsInv(paths, start, before) && GitHub.CommitsGrew(before, after, branch, files, onto)
    requires forall i :: 0 <= i < |files| ==> (GitHub.UsablePath(files[i].path) ==> SafeChange(paths, files[i]))
    ensures CommitsInv(paths, start, after)
  {
    forall i | |start| <= i < |after| ensures SafeChange(paths, after[i].change) {
      if i < |before| {
        assert after[i] == before[i];
      } else {
        assert after[i].change == files[i - |before|];
      }
    }
  }

  lemma CommitsStep(c: Config, incident: C.Incident, oracle: Oracle, start: seq<GitHub.Commit>, p: Progress,
                    q: Progress)
    requires GitHub.Sound(p.server) && Handled(c, incident, oracle, p, q) &&
      CommitsInv(c.paths, start, p.server.commits)
    ensures CommitsInv(c.paths, start, q.server.commits)
  {
    ServerCase(c, incident, oracle, p, q);
    if q.server != p.server {
      var plan, result :| Called(c, incident, oracle, p, q, plan, result);
      var pr := RequestFor(c, FindingOf(incident), plan);
      forall i | 0 <= i < |pr.files| ensures GitHub.UsablePath(pr.files[i].path) ==> SafeChange(c.paths, pr.files[i]) {
        PlanIsSafe(c, incident, oracle.answer, plan, i);
      }
      SafeGrowth(c.paths, start, p.server.commits, q.server.commits, pr.head, pr.files,
                 GitHub.Unseen(p.server, pr, oracle.faults));
    }
  }

  lemma BackedStays(s: GitHub.Server, s': GitHub.Server, branch: string)
    requires s.pulls <= s'.pulls && s'.owner == s.owner && GitHub.Backed(s, branch)
    ensures GitHub.Backed(s', branch)
  {
    var i :| 0 <= i < |s.pulls| && GitHub.Backs(s.pulls[i], s.owner, branch);
    assert s'.pulls[i] == s.pulls[i];
  }

  ghost predicate ResolvedFor(c: Config, first: map<string, nat>, incident: C.Incident, now: int, p: Progress,
                              q: Progress)
  {
    SevereEnough(c, incident.severity) && !c.dryRun && q.correlator == C.Resolved(p.correlator, incident.number, now) &&
    Covered(c, first, q.server, BranchOf(FindingOf(incident)))
  }

  /** The dedup map grows only by the branch of a pull request that is open. */
  lemma MapStep(c: Config, first: map<string, nat>, incident: C.Incident, oracle: Oracle, p: Progress, q: Progress)
    requires GitHub.Sound(p.server) && Handled(c, incident, oracle, p, q) && MapInv(first, p)
    requires p.server.pulls <= q.server.pulls && q.server.owner == p.server.owner
    ensures MapInv(first, q)
    ensures q.correlator == p.correlator || ResolvedFor(c, first, incident, oracle.now, p, q)
  {
    var branch := BranchOf(FindingOf(incident));
    forall b | b in p.existing ensures b in first || GitHub.Backed(q.server, b) {
      if b !in first { BackedStays(p.server, q.server, b); }
    }
    if SevereEnough(c, incident.severity) && branch !in p.existing && !c.dryRun {
      match FixPlan.PlanFor(FindingOf(incident).severity, oracle.answer, c.paths)
      case None =>
      case Some(plan) => SubmittedMap(c, incident, plan, oracle, Generated(p), q);
    }
  }

  lemma SubmittedMap(c: Config, incident: C.Incident, plan: FixPlan.Plan, oracle: Oracle, p: Progress, q: Progress)
    requires GitHub.Sound(p.server) && Submitted(c, incident, plan, oracle, p, q)
    ensures var branch := BranchOf(FindingOf(incident));
      (q.existing == p.existing || (GitHub.Backed(q.server, branch) &&
        q.existing.Keys == p.existing.Keys + {branch})) &&
      (q.correlator == p.correlator ||
       (q.correlator == C.Resolved(p.correlator, incident.number, oracle.now) &&
        (GitHub.Backed(q.server, branch) || Audits(c))))
  {
    var finding := FindingOf(incident);
    var pr := RequestFor(c, finding, plan);
    var s', outcome :| Applying(c, p.server, pr, oracle.faults, s', outcome) &&
      q == AfterApply(p, incident.number, BranchOf(finding), oracle.now, s', outcome);
    AppliedHasEffect(c, p.server, pr, oracle.faults, s', outcome);
    if outcome.Success? && outcome.result.Some? {
      assert GitHub.Backs(s'.pulls[outcome.result.value.number], s'.owner, pr.head);
    }
  }

  lemma ResolveStep(c: Config, first: map<string, nat>, list: seq<C.Incident>, i: nat, now: int, start: C.State,
                    p: Progress, q: Progress)
    requires i < |list| && InScope(c, list[i]) && ResolveInv(c, first, list, start, p)
    requires p.server.pulls <= q.server.pulls && q.server.owner == p.server.owner
    requires q.correlator == p.correlator || ResolvedFor(c, first, list[i], now, p, q)
    ensures ResolveInv(c, first, list, start, q)
  {
    forall n | n in start.incidents && p.correlator.incidents[n] != start.incidents[n]
      ensures exists j :: 0 <= j < |list| && list[j].number == n && Justified(c, first, q.server, list[j])
    {
      var j :| 0 <= j < |list| && list[j].number == n && Justified(c, first, p.server, list[j]);
      if GitHub.Backed(p.server, BranchOf(FindingOf(list[j]))) {
        BackedStays(p.server, q.server, BranchOf(FindingOf(list[j])));
      }
      assert Justified(c, first, q.server, list[j]);
    }
    if q.correlator != p.correlator {
      assert Justified(c, first, q.server, list[i]);
    }
  }

  lemma CountStep(c: Config, incident: C.Incident, oracle: Oracle, p: Progress, q: Progress)
    requires Handled(c, incident, oracle, p, q) && p.generated == p.processed
    ensures q.generated == q.processed && q.processed <= p.processed + 1
  {
  }

  lemma CycleStep(c: Config, first: map<string, nat>, list: seq<C.Incident>, oracles: seq<Oracle>, i: nat,
                  s: GitHub.Server, correlator: C.State, budget: int, p: Progress, q: Progress)
    requires i < |list| <= |oracles| && InScope(c, list[i]) && Handled(c, list[i], oracles[i], p, q)
    requires CycleInv(c, first, list, s, correlator, budget, p) && p.processed < budget
    ensures CycleInv(c, first, list, s, correlator, budget, q)
  {
    HandledKeepsSound(c, list[i], oracles[i], p, q);
    PullsStep(c, list[i], oracles[i], s, p, q);
    CommitsStep(c, list[i], oracles[i], s.commits, p, q);
    MapStep(c, first, list[i], oracles[i], p, q);
    ResolveStep(c, first, list, i, oracles[i].now, correlator, p, q);
    CountStep(c, list[i], oracles[i], p, q);
    ServerCase(c, list[i], oracles[i], p, q);
  }

  lemma {:induction false} LoopKeepsInv(c: Config, first: map<string, nat>, list: seq<C.Incident>,
                                        oracles: seq<Oracle>, i: nat, s: GitHub.Server, correlator: C.State,
                                        budget: int, p: Progress, p': Progress)
    requires i <= |list| <= |oracles| && Processing(c, budget, list, oracles, i, p, p')
    requires CycleInv(c, first, list, s, correlator, budget, p)
    requires DraftedSince(oracles, s.commits, p.server.commits)
    ensures CycleInv(c, first, list, s, correlator, budget, p')
    ensures DraftedSince(oracles, s.commits, p'.server.commits)
    ensures AllSighted(c, s, oracles, budget) && NoneOntoSince(s.commits, p.server.commits) ==>
      NoneOntoSince(s.commits, p'.server.commits)
    decreases |list| - i
  {
    if i < |list| && p.processed < budget {
      if !InScope(c, list[i]) {
        LoopKeepsInv(c, first, list, oracles, i + 1, s, correlator, budget, p, p');
      } else {
        var q :| Handled(c, list[i], oracles[i], p, q) && Processing(c, budget, list, oracles, i + 1, q, p');
        CycleStep(c, first, list, oracles, i, s, correlator, budget, p, q);
        DraftedStep(c, list[i], oracles, i, s.commits, p, q);
        LoopKeepsInv(c, first, list, oracles, i + 1, s, correlator, budget, q, p');
        if AllSighted(c, s, oracles, budget) && NoneOntoSince(s.commits, p.server.commits) {
          SightedStep(c, list[i], oracles[i], s, budget, p, q);
        }
      }
    }
  }

  lemma {:induction false} OpenGrows(before: seq<GitHub.Pull>, after: seq<GitHub.Pull>)
    requires before <= after
    ensures |GitHub.OpenOf(after)| <= |GitHub.OpenOf(before)| + |after| - |before|
    decreases |after|
  {
    if |before| == |after| {
      assert before == after;
    } else {
      OpenGrows(before, after[..|after| - 1]);
    }
  }

  lemma SightedStep(c: Config, incident: C.Incident, oracle: Oracle, s: GitHub.Server, budget: int, p: Progress,
                    q: Progress)
    requires GitHub.Sound(p.server) && Handled(c, incident, oracle, p, q) && PullsInv(s, p)
    requires c.owner == s.owner && p.processed <= budget && Sighted(oracle.faults, |GitHub.OpenOf(s.pulls)| + budget)
    requires NoneOntoSince(s.commits, p.server.commits)
    ensures NoneOntoSince(s.commits, q.server.commits)
  {
    ServerCase(c, incident, oracle, p, q);
    if q.server != p.server {
      var plan, result :| Called(c, incident, oracle, p, q, plan, result);
      var pr := RequestFor(c, FindingOf(incident), plan);
      OpenGrows(s.pulls, p.server.pulls);
      GitHub.FilterOrShortListSuffices(p.server, pr, oracle.faults);
      CleanGrowth(s.commits, p.server.commits, q.server.commits, pr.head, pr.files);
    }
  }

  lemma CleanGrowth(start: seq<GitHub.Commit>, before: seq<GitHub.Commit>, after: seq<GitHub.Commit>,
                    branch: string, files: seq<GitHub.FileChange>)
    requires NoneOntoSince(start, before) && GitHub.CommitsGrew(before, after, branch, files, false)
    ensures NoneOntoSince(start, after)
  {
    assert forall j :: 0 <= j < |before| ==> after[j] == before[j];
  }

  // ---- counting open pull requests -----------------------------------------------------------------------

  predicate Counts(pull: GitHub.Pull) { pull.open && GitHub.Own(pull) }

  /** How many open pull requests the listing attributes to the operator. */
  function OwnOpen(pulls: seq<GitHub.Pull>): nat {
    if pulls == [] then 0 else OwnOpen(pulls[..|pulls| - 1]) + (if Counts(pulls[|pulls| - 1]) then 1 else 0)
  }

  lemma {:induction false} OwnOpenGrows(before: seq<GitHub.Pull>, after: seq<GitHub.Pull>)
    requires before <= after
    ensures OwnOpen(before) <= OwnOpen(after) <= OwnOpen(before) + |after| - |before|
    decreases |after|
  {
    if |before| == |after| {
      assert before == after;
    } else {
      OwnOpenGrows(before, after[..|after| - 1]);
    }
  }

  lemma {:induction false} OwnOfIgnoresLater(pulls: seq<GitHub.Pull>, more: seq<GitHub.Pull>, numbers: seq<nat>)
    requires pulls <= more && forall i :: 0 <= i < |numbers| ==> numbers[i] < |pulls|
    ensures GitHub.OwnOf(pulls, numbers) == GitHub.OwnOf(more, numbers)
  {
    if numbers != [] {
      OwnOfIgnoresLater(pulls, more, numbers[..|numbers| - 1]);
    }
  }

  /** The full listing has one entry per open pull request of the operator. */
  lemma {:induction false} ListingCounts(pulls: seq<GitHub.Pull>)
    ensures forall i :: 0 <= i < |GitHub.OpenOf(pulls)| ==> GitHub.OpenOf(pulls)[i] < |pulls|
    ensures |GitHub.OwnOf(pulls, GitHub.OpenOf(pulls))| == OwnOpen(pulls)
  {
    GitHub.OpenOfIsInRange(pulls);
    if pulls != [] {
      var front := pulls[..|pulls| - 1];
      var numbers := GitHub.OpenOf(front);
      ListingCounts(front);
      OwnOfIgnoresLater(front, pulls, numbers);
      assert (numbers + [|pulls| - 1])[..|numbers|] == numbers;
    }
  }

  lemma {:induction false} OwnOfPrefix(pulls: seq<GitHub.Pull>, numbers: seq<nat>, n: nat)
    requires n <= |numbers| && forall i :: 0 <= i < |numbers| ==> numbers[i] < |pulls|
    ensures |GitHub.OwnOf(pulls, numbers[..n])| <= |GitHub.OwnOf(pulls, numbers)|
    decreases |numbers|
  {
    if n == |numbers| {
      assert numbers[..n] == numbers;
    } else {
      var front := numbers[..|numbers| - 1];
      assert front[..n] == numbers[..n];
      OwnOfPrefix(pulls, front, n);
    }
  }

  lemma {:induction false} OwnOfIsShorter(pulls: seq<GitHub.Pull>, numbers: seq<nat>)
    requires forall i :: 0 <= i < |numbers| ==> numbers[i] < |pulls|
    ensures |GitHub.OwnOf(pulls, numbers)| <= |numbers|
  {
    if numbers != [] { OwnOfIsShorter(pulls, numbers[..|numbers| - 1]); }
  }

  /** A listing of at most a thousand open pull requests is exact; a longer one undercounts. */
  lemma SnapshotCounts(pulls: seq<GitHub.Pull>)
    ensures |GitHub.Snapshot(pulls)| <= OwnOpen(pulls) && |GitHub.Snapshot(pulls)| <= 1000
    ensures |GitHub.OpenOf(pulls)| <= GitHub.PAGE * GitHub.MAX_PAGES ==> |GitHub.Snapshot(pulls)| == OwnOpen(pulls)
  {
    ListingCounts(pulls);
    var numbers := GitHub.OpenOf(pulls);
    OwnOfIsShorter(pulls, if |numbers| <= 1000 then numbers else numbers[..1000]);
    if |numbers| > GitHub.PAGE * GitHub.MAX_PAGES {
      OwnOfPrefix(pulls, numbers, GitHub.PAGE * GitHub.MAX_PAGES);
    }
  }

  predicate NamesOpen(s: GitHub.Server, result: GitHub.Result) {
    result.number < |s.pulls| && s.pulls[result.number].open && s.pulls[result.number].headRef == result.branch
  }

  lemma OwnOfIsOpen(s: GitHub.Server, numbers: seq<nat>, b: string)
    requires forall i :: 0 <= i < |numbers| ==> numbers[i] < |s.pulls| && s.pulls[numbers[i]].open
    requires b in BranchMap(GitHub.OwnOf(s.pulls, numbers))
    ensures HasPull(s, b)
  {
    var results := GitHub.OwnOf(s.pulls, numbers);
    forall r | r in results ensures NamesOpen(s, r) {
      GitHub.OwnOfContents(s.pulls, numbers, r);
    }
    ListedHasPull(s, results, b);
  }

  lemma ListedHasPull(s: GitHub.Server, results: seq<GitHub.Result>, b: string)
    requires (forall r :: r in results ==> NamesOpen(s, r)) && b in BranchMap(results)
    ensures HasPull(s, b)
  {
    BranchMapContents(results, b);
    var i :| 0 <= i < |results| && results[i].branch == b;
    assert NamesOpen(s, results[i]);
  }

  // ---- what one cycle changes ----------------------------------------------------------------------------

  function FirstMap(c: Config, s: GitHub.Server, listed: bool): map<string, nat> { BranchMap(Listed(c, s, listed)) }

  lemma InitialInv(c: Config, listed: bool, list: seq<C.Incident>, s: GitHub.Server, correlator: C.State, budget: int)
    requires GitHub.Sound(s) && budget >= 0
    ensures CycleInv(c, FirstMap(c, s, listed), list, s, correlator, budget,
                     Initial(s, correlator, Listed(c, s, listed)))
  {
  }

  /** A branch in the snapshot has an open pull request; when it is none of this repository's, it
      is a fork's. */
  lemma SnapshotBranchesAreOpen(c: Config, s: GitHub.Server, listed: bool, branch: string)
    requires branch in FirstMap(c, s, listed)
    ensures HasPull(s, branch)
    ensures !GitHub.Backed(s, branch) ==> ForkPull(s, branch)
  {
    GitHub.OpenOfIsInRange(s.pulls);
    var numbers := GitHub.OpenOf(s.pulls);
    var most := GitHub.PAGE * GitHub.MAX_PAGES;
    OwnOfIsOpen(s, if |numbers| <= most then numbers else numbers[..most], branch);
    var i :| 0 <= i < |s.pulls| && s.pulls[i].open && s.pulls[i].headRef == branch;
    if !GitHub.Backed(s, branch) {
      assert !GitHub.Backs(s.pulls[i], s.owner, branch);
    }
  }

  /** An open pull request from another owner's branch of that name. */
  predicate ForkPull(s: GitHub.Server, branch: string) {
    exists i :: 0 <= i < |s.pulls| && s.pulls[i].open && s.pulls[i].headRef == branch && s.pulls[i].headOwner != s.owner
  }

  function Budget(c: Config, s: GitHub.Server, listed: bool): nat {
    var left := MaxPRs(c) - |Listed(c, s, listed)|;
    if left < 0 then 0 else left
  }

  lemma CycleKeepsInv(c: Config, listed: bool, list: seq<C.Incident>, oracles: seq<Oracle>, s: GitHub.Server,
                      correlator: C.State, p': Progress)
    requires |list| <= |oracles| && GitHub.Sound(s) && Cycle(c, listed, list, oracles, s, correlator, p')
    ensures CycleInv(c, FirstMap(c, s, listed), list, s, correlator, Budget(c, s, listed), p')
    ensures DraftedSince(oracles, s.commits, p'.server.commits)
    ensures AllSighted(c, s, oracles, Budget(c, s, listed)) ==> NoneOntoSince(s.commits, p'.server.commits)
  {
    InitialInv(c, listed, list, s, correlator, Budget(c, s, listed));
    if list != [] && MaxPRs(c) - |Listed(c, s, listed)| > 0 {
      LoopKeepsInv(c, FirstMap(c, s, listed), list, oracles, 0, s, correlator, Budget(c, s, listed),
                   Initial(s, correlator, Listed(c, s, listed)), p');
    }
  }

  /** A cycle resolves an incident only for a reason, and touches no other; it generates no more
      plans than its budget; it commits only safe changes, as written in its answers, and never
      onto an open pull request unless a lookup misses one. */
  lemma CycleIsJustified(c: Config, listed: bool, list: seq<C.Incident>, oracles: seq<Oracle>, s: GitHub.Server,
                         correlator: C.State, p': Progress)
    requires |list| <= |oracles| && GitHub.Sound(s) && Cycle(c, listed, list, oracles, s, correlator, p')
    ensures ResolveInv(c, FirstMap(c, s, listed), list, correlator, p')
    ensures forall b :: b in FirstMap(c, s, listed) ==> GitHub.Backed(s, b) || ForkPull(s, b)
    ensures p'.generated <= Budget(c, s, listed)
    ensures CommitsInv(c.paths, s.commits, p'.server.commits)
    ensures DraftedSince(oracles, s.commits, p'.server.commits)
    ensures AllSighted(c, s, oracles, Budget(c, s, listed)) ==> NoneOntoSince(s.commits, p'.server.commits)
    ensures GitHub.Sound(p'.server)
  {
    CycleKeepsInv(c, listed, list, oracles, s, correlator, p');
    forall b | b in FirstMap(c, s, listed) ensures GitHub.Backed(s, b) || ForkPull(s, b) {
      SnapshotBranchesAreOpen(c, s, listed, b);
    }
  }

  /** The pull request of a fork is enough: with it alone on the server, a cycle resolves the
      incident and this repository never gets a pull request. */
  lemma ForkPullResolvesIncident(c: Config, incident: C.Incident, oracles: seq<Oracle>, owner: string, fork: string,
                                 correlator: C.State, p': Progress)
    requires InScope(c, incident) && SevereEnough(c, incident.severity) && !c.dryRun && c.configured && MaxPRs(c) > 1
    requires |oracles| == 1 && fork != owner
    requires var branch := BranchOf(FindingOf(incident));
      Cycle(c, true, [incident], oracles, Forked(owner, fork, branch), correlator, p')
    ensures p'.resolved == [incident.number] && p'.server == Forked(owner, fork, BranchOf(FindingOf(incident)))
    ensures !GitHub.Backed(p'.server, BranchOf(FindingOf(incident)))
  {
    var branch := BranchOf(FindingOf(incident));
    var s := Forked(owner, fork, branch);
    ForkedSnapshot(owner, fork, branch);
    var start := Initial(s, correlator, [GitHub.Result(0, branch)]);
    var q :| Handled(c, incident, oracles[0], start, q) && Processing(c, MaxPRs(c) - 1, [incident], oracles, 1, q, p');
    assert branch in start.existing;
  }

  /** A server with one pull request, open from a fork's branch of that name. */
  function Forked(owner: string, fork: string, branch: string): GitHub.Server {
    GitHub.Server(owner, {owner}, {"main"}, [], [GitHub.Pull(fork, branch, "main", {}, true, None)])
  }

  lemma ForkedSnapshot(owner: string, fork: string, branch: string)
    requires HasPrefix(branch, Gitops.OWN_PREFIX)
    ensures GitHub.Snapshot(Forked(owner, fork, branch).pulls) == [GitHub.Result(0, branch)]
    ensures branch in BranchMap([GitHub.Result(0, branch)])
  {
    var pulls := Forked(owner, fork, branch).pulls;
    GitHub.OpenListing(pulls);
    assert GitHub.OpenOf(pulls) == [0];
    assert [0][..0] == [];
    assert GitHub.OwnOf(pulls, [0]) == GitHub.OwnOf(pulls, []) + [GitHub.Result(0, branch)];
  }

  lemma {:induction false} DryRunLoop(c: Config, budget: int, list: seq<C.Incident>, oracles: seq<Oracle>, i: nat,
                                      p: Progress, p': Progress)
    requires c.dryRun && i <= |list| <= |oracles| && Processing(c, budget, list, oracles, i, p, p')
    ensures p'.server == p.server && p'.correlator == p.correlator
    decreases |list| - i
  {
    if i < |list| && p.processed < budget {
      if !InScope(c, list[i]) {
        DryRunLoop(c, budget, list, oracles, i + 1, p, p');
      } else {
        var q :| Handled(c, list[i], oracles[i], p, q) && Processing(c, budget, list, oracles, i + 1, q, p');
        DryRunLoop(c, budget, list, oracles, i + 1, q, p');
      }
    }
  }

  /** A dry-run cycle changes neither the server nor the correlator. */
  lemma DryRunChangesNothing(c: Config, listed: bool, list: seq<C.Incident>, oracles: seq<Oracle>, s: GitHub.Server,
                             correlator: C.State, p': Progress)
    requires c.dryRun && |list| <= |oracles| && Cycle(c, listed, list, oracles, s, correlator, p')
    ensures p'.server == s && p'.correlator == correlator
  {
    var results := Listed(c, s, listed);
    if list != [] && MaxPRs(c) - |results| > 0 {
      DryRunLoop(c, MaxPRs(c) - |results|, list, oracles, 0, Initial(s, correlator, results), p');
    }
  }

  // ---- a cycle that meets no failure ------------------------------------------------------------------------

  /** Whatever is asked for this incident works: there is a plan, with paths free of backslashes,
      and no request of the engine fails. */
  ghost predicate Smooth(c: Config, incident: C.Incident, oracle: Oracle) {
    var plan := FixPlan.PlanFor(FindingOf(incident).severity, oracle.answer, c.paths);
    plan.Some? && (forall i :: 0 <= i < |plan.value.fixes| ==> '\\' !in plan.value.fixes[i].filePath) &&
    var f := oracle.faults;
    f.base == f.ref == f.lookup == f.open == f.labels == GitHub.Works &&
    forall i :: 0 <= i < |f.files| ==> f.files[i] == GitHub.FileFaults(GitHub.Works, GitHub.Works)
  }

  /** The engine opens pull requests and reaches a repository that has a main branch. */
  predicate Working(c: Config, s: GitHub.Server) {
    !c.dryRun && c.strategy == GitOpsPR && c.configured && c.owner in s.names && "main" in s.branches
  }

  lemma SmoothNothingFails(c: Config, incident: C.Incident, oracle: Oracle, s: GitHub.Server, plan: FixPlan.Plan)
    requires Working(c, s) && Smooth(c, incident, oracle)
    requires FixPlan.PlanFor(FindingOf(incident).severity, oracle.answer, c.paths) == Some(plan)
    ensures GitHub.NothingFails(s, RequestFor(c, FindingOf(incident), plan), oracle.faults)
  {
    FixPlan.PlansAreConfined(FindingOf(incident).severity, oracle.answer, c.paths);
    var pr := RequestFor(c, FindingOf(incident), plan);
    forall i | 0 <= i < |pr.files| ensures GitHub.UsablePath(pr.files[i].path) {
      assert plan.fixes[i] in plan.fixes;
    }
  }

  /** The plan's fixes, one commit each and in order: the path, the patch as content, the operation. */
  predicate CommitsPlan(before: seq<GitHub.Commit>, after: seq<GitHub.Commit>, branch: string, plan: FixPlan.Plan) {
    before <= after && |after| == |before| + |plan.fixes| &&
    forall i :: 0 <= i < |plan.fixes| ==> CommitsFix(after[|before| + i], branch, plan.fixes[i])
  }

  predicate CommitsFix(commit: GitHub.Commit, branch: string, fix: FixPlan.Fix) {
    commit.branch == branch && commit.change.path == fix.filePath && commit.change.content == fix.patch &&
    commit.change.operation == fix.operation
  }

  /** What the new pull request is: from the incident's branch to main, labelled, for this finding. */
  predicate PullFor(pull: GitHub.Pull, owner: string, finding: Finding) {
    pull.open && pull.headOwner == owner && pull.base == "main" &&
    pull.headRef == Gitops.BranchName(finding.resource, finding.namespace, finding.title) &&
    pull.labels == {"zelyo-operator", "security", "automated"} &&
    pull.purpose == Some(Gitops.Purpose(finding.resource, finding.namespace, finding.title))
  }

  /** A smooth incident whose branch is not in the dedup map is resolved, and unless the engine finds
      a pull request on its branch, its whole plan is committed and one pull request opened. */
  lemma SmoothIncidentIsFixed(c: Config, incident: C.Incident, oracle: Oracle, p: Progress, q: Progress)
    requires GitHub.Sound(p.server) && Working(c, p.server) && Smooth(c, incident, oracle)
    requires SevereEnough(c, incident.severity) && BranchOf(FindingOf(incident)) !in p.existing
    requires Handled(c, incident, oracle, p, q)
    ensures q.resolved == p.resolved + [incident.number] && BranchOf(FindingOf(incident)) in q.existing
    ensures var plan := FixPlan.PlanFor(FindingOf(incident).severity, oracle.answer, c.paths).value;
      if GitHub.Finds(p.server, RequestFor(c, FindingOf(incident), plan), oracle.faults) then q.server == p.server
      else
        CommitsPlan(p.server.commits, q.server.commits, BranchOf(FindingOf(incident)), plan) &&
        |q.server.pulls| == |p.server.pulls| + 1 && q.server.pulls[..|p.server.pulls|] == p.server.pulls &&
        PullFor(q.server.pulls[|p.server.pulls|], p.server.owner, FindingOf(incident))
  {
    var finding := FindingOf(incident);
    var plan := FixPlan.PlanFor(finding.severity, oracle.answer, c.paths).value;
    SmoothNothingFails(c, incident, oracle, p.server, plan);
    SmoothSubmission(c, incident, plan, oracle, Generated(p), q);
  }

  lemma SmoothSubmission(c: Config, incident: C.Incident, plan: FixPlan.Plan, oracle: Oracle, p: Progress, q: Progress)
    requires GitHub.Sound(p.server) && Working(c, p.server) && Submitted(c, incident, plan, oracle, p, q)
    requires GitHub.NothingFails(p.server, RequestFor(c, FindingOf(incident), plan), oracle.faults)
    ensures q.resolved == p.resolved + [incident.number] && BranchOf(FindingOf(incident)) in q.existing
    ensures if GitHub.Finds(p.server, RequestFor(c, FindingOf(incident), plan), oracle.faults) then q.server == p.server
      else
        CommitsPlan(p.server.commits, q.server.commits, BranchOf(FindingOf(incident)), plan) &&
        |q.server.pulls| == |p.server.pulls| + 1 && q.server.pulls[..|p.server.pulls|] == p.server.pulls &&
        PullFor(q.server.pulls[|p.server.pulls|], p.server.owner, FindingOf(incident))
  {
    var finding := FindingOf(incident);
    var pr := RequestFor(c, finding, plan);
    var s', outcome :| Applying(c, p.server, pr, oracle.faults, s', outcome) &&
      q == AfterApply(p, incident.number, BranchOf(finding), oracle.now, s', outcome);
    var result := if outcome.Failure? then None else outcome.result;
    GitHub.FoundExactlyWhen(p.server, pr, oracle.faults, s', result);
    if !GitHub.Finds(p.server, pr, oracle.faults) {
      GitHub.WorkingCallOpens(p.server, pr, oracle.faults, s', result);
      RequestIsPlan(c, finding, plan, p.server.commits, s'.commits);
    }
  }

  lemma RequestIsPlan(c: Config, finding: Finding, plan: FixPlan.Plan, before: seq<GitHub.Commit>,
                      after: seq<GitHub.Commit>)
    requires GitHub.CommitsExactly(before, after, RequestFor(c, finding, plan))
    ensures CommitsPlan(before, after, BranchOf(finding), plan)
  {
    var pr := RequestFor(c, finding, plan);
    assert |pr.files| == |plan.fixes|;
    forall i | 0 <= i < |plan.fixes| ensures CommitsFix(after[|before| + i], pr.head, plan.fixes[i]) {
      RequestHasFix(c, finding, plan, i);
      assert after[|before| + i].change == pr.files[i];
    }
  }

  /** In scope, severe enough, and met by no failure. */
  ghost predicate Due(c: Config, incident: C.Incident, oracle: Oracle) {
    InScope(c, incident) && SevereEnough(c, incident.severity) && Smooth(c, incident, oracle)
  }

  lemma StepKeepsWorking(c: Config, incident: C.Incident, oracle: Oracle, p: Progress, q: Progress)
    requires GitHub.Sound(p.server) && Working(c, p.server) && Handled(c, incident, oracle, p, q)
    ensures GitHub.Sound(q.server) && Working(c, q.server)
  {
    HandledKeepsSound(c, incident, oracle, p, q);
    ServerCase(c, incident, oracle, p, q);
  }

  lemma {:induction false} ResolvedStays(c: Config, budget: int, list: seq<C.Incident>, oracles: seq<Oracle>, i: nat,
                                         p: Progress, p': Progress)
    requires i <= |list| <= |oracles| && Processing(c, budget, list, oracles, i, p, p')
    ensures p.resolved <= p'.resolved
    decreases |list| - i
  {
    if i < |list| && p.processed < budget {
      if !InScope(c, list[i]) {
        ResolvedStays(c, budget, list, oracles, i + 1, p, p');
      } else {
        var q :| Handled(c, list[i], oracles[i], p, q) && Processing(c, budget, list, oracles, i + 1, q, p');
        ResolvedGrows(c, list[i], oracles[i], p, q);
        ResolvedStays(c, budget, list, oracles, i + 1, q, p');
      }
    }
  }

  lemma ResolvedGrows(c: Config, incident: C.Incident, oracle: Oracle, p: Progress, q: Progress)
    requires Handled(c, incident, oracle, p, q)
    ensures p.resolved <= q.resolved
  {
  }

  lemma {:induction false} SmoothLoop(c: Config, budget: int, list: seq<C.Incident>, oracles: seq<Oracle>, i: nat,
                                      p: Progress, p': Progress, k: nat)
    requires i <= k < |list| <= |oracles| && Processing(c, budget, list, oracles, i, p, p')
    requires GitHub.Sound(p.server) && Working(c, p.server) && Due(c, list[k], oracles[k])
    ensures list[k].number in p'.resolved || p'.processed >= budget
    decreases |list| - i
  {
    if p.processed < budget {
      if !InScope(c, list[i]) {
        SmoothLoop(c, budget, list, oracles, i + 1, p, p', k);
      } else {
        var q :| Handled(c, list[i], oracles[i], p, q) && Processing(c, budget, list, oracles, i + 1, q, p');
        if i == k {
          SmoothIsResolved(c, list[i], oracles[i], p, q);
          ResolvedStays(c, budget, list, oracles, i + 1, q, p');
          LastStays(p.resolved, list[i].number, q.resolved, p'.resolved);
        } else {
          StepKeepsWorking(c, list[i], oracles[i], p, q);
          SmoothLoop(c, budget, list, oracles, i + 1, q, p', k);
        }
      }
    }
  }

  lemma LastStays(before: seq<nat>, n: nat, more: seq<nat>, all: seq<nat>)
    requires more == before + [n] && more <= all
    ensures n in all
  {
    assert all[|before|] == more[|before|];
  }

  lemma SmoothIsResolved(c: Config, incident: C.Incident, oracle: Oracle, p: Progress, q: Progress)
    requires GitHub.Sound(p.server) && Working(c, p.server) && Smooth(c, incident, oracle)
    requires SevereEnough(c, incident.severity) && Handled(c, incident, oracle, p, q)
    ensures q.resolved == p.resolved + [incident.number]
  {
    if BranchOf(FindingOf(incident)) !in p.existing {
      SmoothIncidentIsFixed(c, incident, oracle, p, q);
    }
  }

  /** A cycle resolves every incident that is in scope and severe enough and meets no failure,
      whatever happens to the others, or it spends its whole budget. */
  lemma SmoothIncidentsAreResolved(c: Config, listed: bool, list: seq<C.Incident>, oracles: seq<Oracle>,
                                   s: GitHub.Server, correlator: C.State, p': Progress, k: nat)
    requires k < |list| <= |oracles| && GitHub.Sound(s) && Working(c, s) && Due(c, list[k], oracles[k])
    requires Cycle(c, listed, list, oracles, s, correlator, p')
    ensures list[k].number in p'.resolved || p'.processed >= Budget(c, s, listed)
  {
    var results := Listed(c, s, listed);
    var budget, start := MaxPRs(c) - |results|, Initial(s, correlator, results);
    if budget > 0 {
      assert Processing(c, budget, list, oracles, 0, start, p');
      SmoothLoop(c, budget, list, oracles, 0, start, p', k);
    }
  }

  // ---- the snapshot, branch by branch ---------------------------------------------------------------------

  lemma {:induction false} BranchMapContents(results: seq<GitHub.Result>, branch: string)
    ensures branch in BranchMap(results) <==> exists i :: 0 <= i < |results| && results[i].branch == branch
  {
    if results != [] {
      var front, last := results[..|results| - 1], results[|results| - 1];
      BranchMapContents(front, branch);
      assert forall i :: 0 <= i < |front| ==> front[i] == results[i];
      if last.branch == branch { assert results[|front|].branch == branch; }
      if i :| 0 <= i < |results| && results[i].branch == branch {
        assert i < |front| ==> front[i].branch == branch;
      }
    }
  }

  /** A reliable snapshot has exactly the branches of the open pull requests that have the
      operator's prefix or label. */
  lemma SnapshotBranchesExactly(c: Config, s: GitHub.Server, branch: string)
    requires c.configured && |GitHub.OpenOf(s.pulls)| <= 1000
    ensures branch in FirstMap(c, s, true) <==>
      exists n :: 0 <= n < |s.pulls| && s.pulls[n].open && s.pulls[n].headRef == branch &&
        (HasPrefix(branch, "zelyo-operator/") || "zelyo-operator" in s.pulls[n].labels)
  {
    var results := GitHub.Snapshot(s.pulls);
    BranchMapContents(results, branch);
    if branch in FirstMap(c, s, true) {
      var i :| 0 <= i < |results| && results[i].branch == branch;
      GitHub.SnapshotContents(s.pulls, results[i]);
    }
    forall n | 0 <= n < |s.pulls| && s.pulls[n].open && s.pulls[n].headRef == branch &&
               (HasPrefix(branch, "zelyo-operator/") || "zelyo-operator" in s.pulls[n].labels)
      ensures branch in FirstMap(c, s, true)
    {
      GitHub.SnapshotContents(s.pulls, GitHub.Result(n, branch));
    }
  }

  /** The budget of a cycle: five without a maximum of its own, less the pull requests the snapshot
      counts; a failed snapshot counts none and knows no branch. */
  lemma BudgetIsWhatIsLeft(c: Config, s: GitHub.Server)
    ensures var cap := if c.maxConcurrentPRs == 0 then 5 else c.maxConcurrentPRs;
      Budget(c, s, false) == Max(0, cap) && FirstMap(c, s, false) == map[] &&
      (c.configured && |GitHub.OpenOf(s.pulls)| <= 1000 ==> Budget(c, s, true) == Max(0, cap - OwnOpen(s.pulls)))
  {
    SnapshotCounts(s.pulls);
  }

  /** An incident is charged exactly when a plan is asked for it: severe enough and not in the dedup
      map. It counts as a created pull request exactly when it is charged and then resolved by an
      engine that opens pull requests. */
  lemma ChargedExactlyWhen(c: Config, incident: C.Incident, oracle: Oracle, p: Progress, q: Progress)
    requires Handled(c, incident, oracle, p, q)
    ensures var asked := SevereEnough(c, incident.severity) && BranchOf(FindingOf(incident)) !in p.existing;
      q.processed == p.processed + (if asked then 1 else 0) &&
      q.created == p.created + (if asked && q.resolved != p.resolved && !Audits(c) then 1 else 0)
  {
    var finding := FindingOf(incident);
    if SevereEnough(c, incident.severity) && BranchOf(finding) !in p.existing && !c.dryRun {
      match FixPlan.PlanFor(finding.severity, oracle.answer, c.paths)
      case None =>
      case Some(plan) => SubmittedCounts(c, incident, plan, oracle, Generated(p), q);
    }
  }

  lemma SubmittedCounts(c: Config, incident: C.Incident, plan: FixPlan.Plan, oracle: Oracle, p: Progress, q: Progress)
    requires Submitted(c, incident, plan, oracle, p, q)
    ensures q.processed == p.processed + 1
    ensures q.created == p.created + (if q.resolved != p.resolved && !Audits(c) then 1 else 0)
  {
    var finding := FindingOf(incident);
    var s', outcome :| Applying(c, p.server, RequestFor(c, finding, plan), oracle.faults, s', outcome) &&
      q == AfterApply(p, incident.number, BranchOf(finding), oracle.now, s', outcome);
    assert outcome.Success? ==> q.resolved == p.resolved + [incident.number];
  }

  // ---- runs: the cap -------------------------------------------------------------------------------------------

  datatype World = World(server: GitHub.Server, correlator: C.State)

  datatype Op = Reconcile(c: Config, listed: bool, list: seq<C.Incident>, oracles: seq<Oracle>) | Others

  datatype Run = Begin(start: World) | Then(prev: Run, op: Op, world: World)

  function End(r: Run): World { match r case Begin(start) => start case Then(_, _, world) => world }

  /** Others merge or close pull requests, delete branches, and open pull requests that are not
      attributed to the operator. */
  ghost predicate OnlyOthers(before: seq<GitHub.Pull>, after: seq<GitHub.Pull>) {
    |before| <= |after| &&
    (forall i :: 0 <= i < |before| ==> after[i] == before[i] || after[i] == before[i].(open := false)) &&
    (forall i :: |before| <= i < |after| ==> !GitHub.Own(after[i]) && after[i].purpose.None?)
  }

  ghost predicate Legal(r: Run) {
    match r
    case Begin(start) => GitHub.Sound(start.server)
    case Then(prev, Reconcile(c, listed, list, oracles), world) =>
      Legal(prev) && |list| <= |oracles| &&
      exists p' :: Cycle(c, listed, list, oracles, End(prev).server, End(prev).correlator, p') &&
        world == World(p'.server, p'.correlator)
    case Then(prev, Others, world) =>
      Legal(prev) && GitHub.Sound(world.server) && world.server.owner == End(prev).server.owner &&
      world.server.commits == End(prev).server.commits && OnlyOthers(End(prev).server.pulls, world.server.pulls)
  }

  /** The snapshot succeeds and sees every open pull request. */
  predicate Reliable(op: Op, s: GitHub.Server) {
    op.Reconcile? && op.listed && |GitHub.OpenOf(s.pulls)| <= GitHub.PAGE * GitHub.MAX_PAGES
  }

  function Max(a: int, b: int): int { if a < b then b else a }

  /** The allowance a run has built up: the initial count, raised to a policy's maximum by a
      reliable cycle, and increased by that maximum by an unreliable one; a cycle without an
      engine changes nothing. */
  function Allowance(r: Run): int {
    match r
    case Begin(start) => OwnOpen(start.server.pulls)
    case Then(prev, Others, _) => Allowance(prev)
    case Then(prev, Reconcile(c, _, _, _), _) =>
      if !c.configured then Allowance(prev)
      else if Reliable(r.op, End(prev).server) then Max(Allowance(prev), MaxPRs(c))
      else Allowance(prev) + Max(0, MaxPRs(c))
  }

  lemma {:induction false} OthersDoNotRaise(before: seq<GitHub.Pull>, after: seq<GitHub.Pull>)
    requires OnlyOthers(before, after)
    ensures OwnOpen(after) <= OwnOpen(before)
    decreases |after|
  {
    if |after| > |before| {
      OthersDoNotRaise(before, after[..|after| - 1]);
    } else if after != [] {
      OthersDoNotRaise(before[..|before| - 1], after[..|after| - 1]);
    }
  }

  lemma CycleRespectsCap(c: Config, listed: bool, list: seq<C.Incident>, oracles: seq<Oracle>, s: GitHub.Server,
                         correlator: C.State, p': Progress)
    requires |list| <= |oracles| && GitHub.Sound(s) && Cycle(c, listed, list, oracles, s, correlator, p')
    ensures GitHub.Sound(p'.server)
    ensures OwnOpen(p'.server.pulls) <= OwnOpen(s.pulls) + Max(0, MaxPRs(c))
    ensures !c.configured ==> p'.server == s
    ensures c.configured && listed && |GitHub.OpenOf(s.pulls)| <= GitHub.PAGE * GitHub.MAX_PAGES ==>
      OwnOpen(p'.server.pulls) <= Max(OwnOpen(s.pulls), MaxPRs(c))
  {
    CycleKeepsInv(c, listed, list, oracles, s, correlator, p');
    OwnOpenGrows(s.pulls, p'.server.pulls);
    SnapshotCounts(s.pulls);
  }

  /** The operator's open pull requests never exceed the allowance. */
  lemma {:induction false} OpenPullsStayWithinAllowance(r: Run)
    requires Legal(r)
    ensures GitHub.Sound(End(r).server) && OwnOpen(End(r).server.pulls) <= Allowance(r)
  {
    match r
    case Begin(_) =>
    case Then(prev, op, world) =>
      OpenPullsStayWithinAllowance(prev);
      match op
      case Others => OthersDoNotRaise(End(prev).server.pulls, world.server.pulls);
      case Reconcile(c, listed, list, oracles) =>
        var p' :| Cycle(c, listed, list, oracles, End(prev).server, End(prev).correlator, p') &&
          world == World(p'.server, p'.correlator);
        CycleRespectsCap(c, listed, list, oracles, End(prev).server, End(prev).correlator, p');
  }

  predicate WithinCap(op: Op, s: GitHub.Server, cap: int) {
    op.Reconcile? && op.c.configured ==> Reliable(op, s) && MaxPRs(op.c) <= cap
  }

  /** Every cycle with an engine had a reliable snapshot and a maximum of at most `cap`. */
  ghost predicate AllReliable(r: Run, cap: int) {
    r.Then? ==> AllReliable(r.prev, cap) && WithinCap(r.op, End(r.prev).server, cap)
  }

  function First(r: Run): World { match r case Begin(start) => start case Then(prev, _, _) => First(prev) }

  lemma {:induction false} AllowanceIsCap(r: Run, cap: int)
    requires AllReliable(r, cap)
    ensures Allowance(r) <= Max(OwnOpen(First(r).server.pulls), cap)
  {
    if r.Then? {
      AllowanceIsCap(r.prev, cap);
    }
  }

  /** The cap over whole runs, for any set of policies with maxima up to `cap`. */
  lemma OpenPullsNeverExceedTheCap(r: Run, cap: int)
    requires Legal(r) && AllReliable(r, cap)
    ensures OwnOpen(End(r).server.pulls) <= Max(OwnOpen(First(r).server.pulls), cap)
  {
    OpenPullsStayWithinAllowance(r);
    AllowanceIsCap(r, cap);
  }

  // ---- runs: every pull request of the operator is counted --------------------------------------------------

  predicate OperatorPullsAreOwn(pulls: seq<GitHub.Pull>) {
    forall i :: 0 <= i < |pulls| && pulls[i].purpose.Some? ==> GitHub.Own(pulls[i])
  }

  predicate CycleSighted(op: Op, s: GitHub.Server) {
    op.Reconcile? ==> AllSighted(op.c, s, op.oracles, Budget(op.c, s, op.listed))
  }

  /** Every lookup of every cycle is sighted. */
  ghost predicate EveryLookupSighted(r: Run) {
    r.Then? ==> EveryLookupSighted(r.prev) && CycleSighted(r.op, End(r.prev).server)
  }

  /** The branch prefix is what makes the listing see every pull request the operator opened; and
      with sighted lookups no commit of a whole run lands on an open pull request. */
  lemma {:induction false} OperatorPullsAreCounted(r: Run)
    requires Legal(r) && OperatorPullsAreOwn(First(r).server.pulls)
    ensures OperatorPullsAreOwn(End(r).server.pulls)
    ensures EveryLookupSighted(r) && GitHub.NoneOntoOpenPull(First(r).server.commits) ==>
      GitHub.NoneOntoOpenPull(End(r).server.commits)
  {
    match r
    case Begin(_) =>
    case Then(prev, op, world) =>
      OperatorPullsAreCounted(prev);
      match op
      case Others =>
      case Reconcile(c, listed, list, oracles) =>
        var p' :| Cycle(c, listed, list, oracles, End(prev).server, End(prev).correlator, p') &&
          world == World(p'.server, p'.correlator);
        OpenPullsStayWithinAllowance(prev);
        CycleKeepsInv(c, listed, list, oracles, End(prev).server, End(prev).correlator, p');
        CycleKeepsOwn(End(prev).server, p');
        if EveryLookupSighted(r) && GitHub.NoneOntoOpenPull(First(r).server.commits) {
          StaysClean(End(prev).server.commits, p'.server.commits);
        }
  }

  lemma CycleKeepsOwn(s: GitHub.Server, p: Progress)
    requires PullsInv(s, p) && OperatorPullsAreOwn(s.pulls)
    ensures OperatorPullsAreOwn(p.server.pulls)
  {
    forall i | 0 <= i < |p.server.pulls| && p.server.pulls[i].purpose.Some? ensures GitHub.Own(p.server.pulls[i]) {
      if i < |s.pulls| {
        assert p.server.pulls[i] == s.pulls[i];
      }
    }
  }

  lemma StaysClean(before: seq<GitHub.Commit>, after: seq<GitHub.Commit>)
    requires GitHub.NoneOntoOpenPull(before) && NoneOntoSince(before, after)
    ensures GitHub.NoneOntoOpenPull(after)
  {
    assert forall i :: 0 <= i < |before| ==> after[i] == before[i];
  }
}
