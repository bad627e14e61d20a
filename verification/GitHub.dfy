/** internal/github/engine.go: opening a pull request against a server whose every call may fail.

    The server is one repository: its branches, the commits the operator made, and its pull
    requests. A call works, is refused without effect, or takes effect while its response is
    lost. Nobody else acts while CreatePullRequest runs. */
module GitHub {
  import opened Text
  import opened RepoPath
  import FixPlan
  import Gitops

  datatype Fault = Works | Refused(status: int) | Lost

  datatype FileChange = FileChange(path: string, content: string, operation: FixPlan.FileOp)

  /** `owner` is the repository's owner as configured; `purpose` is what the request is made for. */
  datatype PullRequest = PullRequest(owner: string, head: string, base: string, labels: set<string>,
                                     files: seq<FileChange>, purpose: Gitops.Purpose)

  /** `purpose` records what the operator opened it for, None for anybody else's pull request; it
      is for the statements only. */
  datatype Pull = Pull(headOwner: string, headRef: string, base: string, labels: set<string>, open: bool,
                       purpose: Option<Gitops.Purpose>)

  /** One commit of the operator; `ontoOpenPull` records whether its branch backed an open pull
      request at that moment. */
  datatype Commit = Commit(branch: string, change: FileChange, ontoOpenPull: bool)

  /** `owner` is the login that labels carry; `names` are the spellings of it, in other letter
      case for instance, under which requests reach the repository. A pull request's number is its
      position. */
  datatype Server = Server(owner: string, names: set<string>, branches: set<string>, commits: seq<Commit>,
                           pulls: seq<Pull>)

  datatype Result = Result(number: nat, branch: string)

  datatype FileFaults = FileFaults(get: Fault, put: Fault)

  /** How the calls of one CreatePullRequest turn out. `narrowed` is false when a proxy ignores
      the head filter of the lookup and lists every open pull request; either way the reply is
      one page, of at most `page` entries. */
  datatype Faults = Faults(base: Fault, ref: Fault, lookup: Fault, narrowed: bool, page: nat,
                           files: seq<FileFaults>, open: Fault, labels: Fault)

  const UNPROCESSABLE := 422
  const OWN_LABEL := "zelyo-operator"

  function Label(owner: string, ref: string): string { owner + ":" + ref }

  /** The pull request is open on that branch of this very repository. */
  predicate Backs(pull: Pull, owner: string, branch: string) {
    pull.open && pull.headOwner == owner && pull.headRef == branch
  }

  predicate Backed(s: Server, branch: string) {
    exists i :: 0 <= i < |s.pulls| && Backs(s.pulls[i], s.owner, branch)
  }

  // ---- branch -----------------------------------------------------------------------------

  function WithBranch(s: Server, branch: string): Server { s.(branches := s.branches + {branch}) }

  predicate IsListed(pull: Pull, narrowed: bool, want: string) {
    pull.open && (!narrowed || Label(pull.headOwner, pull.headRef) == want)
  }

  /** The numbers the lookup lists, in order. */
  function Listing(pulls: seq<Pull>, narrowed: bool, want: string): seq<nat> {
    if pulls == [] then []
    else
      var front := Listing(pulls[..|pulls| - 1], narrowed, want);
      if IsListed(pulls[|pulls| - 1], narrowed, want) then front + [|pulls| - 1] else front
  }

  lemma {:induction false} ListingContents(pulls: seq<Pull>, narrowed: bool, want: string, n: nat)
    ensures n in Listing(pulls, narrowed, want) <==> n < |pulls| && IsListed(pulls[n], narrowed, want)
  {
    if pulls != [] {
      var front := pulls[..|pulls| - 1];
      ListingContents(front, narrowed, want, n);
      assert n < |front| ==> front[n] == pulls[n];
    }
  }

  function Reply(s: Server, branch: string, narrowed: bool, page: nat): seq<nat> {
    var listed := Listing(s.pulls, narrowed, Label(s.owner, branch));
    if |listed| > page then listed[..page] else listed
  }

  /** The reply has a pull request with the label that the configured owner and the branch make. */
  predicate Seen(s: Server, owner: string, branch: string, narrowed: bool, page: nat) {
    var reply := Reply(s, branch, narrowed, page);
    exists i :: 0 <= i < |reply| && reply[i] < |s.pulls| && Labelled(s.pulls[reply[i]], owner, branch)
  }

  predicate Labelled(pull: Pull, owner: string, branch: string) {
    Label(pull.headOwner, pull.headRef) == Label(owner, branch)
  }

  /** findOpenPRByHeadBranch over a successful response. */
  method FindOpenPull(s: Server, owner: string, branch: string, narrowed: bool, page: nat) returns (found: Option<nat>)
    requires Sound(s) && owner in s.names
    ensures found.Some? <==> Seen(s, owner, branch, narrowed, page)
    ensures found.Some? ==> found.value < |s.pulls| && Backs(s.pulls[found.value], s.owner, branch)
  {
    var reply := Reply(s, branch, narrowed, page);
    for i := 0 to |reply|
      invariant forall j :: 0 <= j < i && reply[j] < |s.pulls| ==> !Labelled(s.pulls[reply[j]], owner, branch)
    {
      ListedIsOpen(s, branch, narrowed, page, i);
      var pull := s.pulls[reply[i]];
      if Label(pull.headOwner, pull.headRef) == Label(owner, branch) {
        LabelsIdentify(pull.headOwner, pull.headRef, owner, branch);
        return Some(reply[i]);
      }
    }
    return None;
  }

  lemma ListedIsOpen(s: Server, branch: string, narrowed: bool, page: nat, i: nat)
    requires i < |Reply(s, branch, narrowed, page)|
    ensures var n := Reply(s, branch, narrowed, page)[i]; n < |s.pulls| && s.pulls[n].open
  {
    var n := Reply(s, branch, narrowed, page)[i];
    assert n in Listing(s.pulls, narrowed, Label(s.owner, branch));
    ListingContents(s.pulls, narrowed, Label(s.owner, branch), n);
  }

  /** In a reply, the label of owner and branch marks a pull request on this repository's branch,
      provided the owner is spelled as the login. */
  lemma LabelledMeansBacks(s: Server, owner: string, branch: string, n: nat)
    requires Sound(s) && owner in s.names && n < |s.pulls| && s.pulls[n].open
    ensures Labelled(s.pulls[n], owner, branch) <==> owner == s.owner && Backs(s.pulls[n], s.owner, branch)
  {
    if Labelled(s.pulls[n], owner, branch) {
      LabelsIdentify(s.pulls[n].headOwner, s.pulls[n].headRef, owner, branch);
    }
  }

  /** One of the first `page` open pull requests backs the branch. */
  predicate OnFirstPage(s: Server, branch: string, page: nat) {
    var open := OpenOf(s.pulls);
    exists i :: 0 <= i < |open| && i < page && open[i] < |s.pulls| && Backs(s.pulls[open[i]], s.owner, branch)
  }

  lemma {:induction false} UnnarrowedListing(pulls: seq<Pull>, want: string)
    ensures Listing(pulls, false, want) == OpenOf(pulls)
  {
    if pulls != [] { UnnarrowedListing(pulls[..|pulls| - 1], want); }
  }

  /** The reply has a pull request that backs the branch. */
  predicate Shown(s: Server, branch: string, narrowed: bool, page: nat) {
    var reply := Reply(s, branch, narrowed, page);
    exists i :: 0 <= i < |reply| && reply[i] < |s.pulls| && Backs(s.pulls[reply[i]], s.owner, branch)
  }

  /** The lookup sees a pull request on the branch exactly when the owner is configured in the
      spelling of the login and either the server honours the filter and there is one, or one is on
      the first page of the unfiltered list. */
  lemma SeenExactlyWhen(s: Server, owner: string, branch: string, narrowed: bool, page: nat)
    requires Sound(s) && owner in s.names
    ensures Seen(s, owner, branch, narrowed, page) <==>
      owner == s.owner && if narrowed then Backed(s, branch) && page > 0 else OnFirstPage(s, branch, page)
  {
    SeenIsShown(s, owner, branch, narrowed, page);
    if narrowed {
      NarrowedShowsBacking(s, branch, page);
    } else {
      UnnarrowedListing(s.pulls, Label(s.owner, branch));
      var reply, open := Reply(s, branch, false, page), OpenOf(s.pulls);
      assert forall i :: 0 <= i < |reply| ==> i < |open| && i < page && reply[i] == open[i];
      assert forall i :: 0 <= i < |open| && i < page ==> i < |reply| && reply[i] == open[i];
    }
  }

  lemma SeenIsShown(s: Server, owner: string, branch: string, narrowed: bool, page: nat)
    requires Sound(s) && owner in s.names
    ensures Seen(s, owner, branch, narrowed, page) <==> owner == s.owner && Shown(s, branch, narrowed, page)
  {
    var reply := Reply(s, branch, narrowed, page);
    forall i | 0 <= i < |reply|
      ensures reply[i] < |s.pulls|
      ensures Labelled(s.pulls[reply[i]], owner, branch) <==>
        owner == s.owner && Backs(s.pulls[reply[i]], s.owner, branch)
    {
      ListedIsOpen(s, branch, narrowed, page, i);
      LabelledMeansBacks(s, owner, branch, reply[i]);
    }
  }

  lemma NarrowedShowsBacking(s: Server, branch: string, page: nat)
    requires Sound(s)
    ensures Shown(s, branch, true, page) <==> Backed(s, branch) && page > 0
  {
    var want, reply := Label(s.owner, branch), Reply(s, branch, true, page);
    var listed := Listing(s.pulls, true, want);
    if Backed(s, branch) && page > 0 {
      var n :| 0 <= n < |s.pulls| && Backs(s.pulls[n], s.owner, branch);
      ListingContents(s.pulls, true, want, n);
      var first := reply[0];
      assert first in listed;
      ListingContents(s.pulls, true, want, first);
      LabelsIdentify(s.pulls[first].headOwner, s.pulls[first].headRef, s.owner, branch);
      assert Backs(s.pulls[reply[0]], s.owner, branch);
    }
  }

  /** Owners contain no colon, so a label names one owner and one branch: the pull request of a
      fork with the same branch name is never mistaken for our own. */
  lemma LabelsIdentify(o1: string, r1: string, o2: string, r2: string)
    requires ':' !in o1 && ':' !in o2 && Label(o1, r1) == Label(o2, r2)
    ensures o1 == o2 && r1 == r2
  {
    var s := Label(o1, r1);
    assert s[|o1|] == ':' && s[|o2|] == ':';
    assert s[..|o1|] == o1 && s[..|o2|] == o2;
    assert s[|o1| + 1..] == r1 && s[|o2| + 1..] == r2;
  }

  // ---- the server's rules ---------------------------------------------------------------------

  /** What holds of the server between calls: an open pull request of this repository has its
      branch, owners contain no colon, and no other account answers to this owner's names. */
  ghost predicate Sound(s: Server) {
    s.owner in s.names && (forall name :: name in s.names ==> ':' !in name) &&
    (forall i :: 0 <= i < |s.pulls| ==> PullIsSound(s.pulls[i], s.owner, s.names, s.branches))
  }

  predicate PullIsSound(pull: Pull, owner: string, names: set<string>, branches: set<string>) {
    ':' !in pull.headOwner && (pull.headOwner in names ==> pull.headOwner == owner) &&
    (pull.open && pull.headOwner == owner ==> pull.headRef in branches)
  }

  /** No branch of this repository backs two open pull requests. Others may break this, with
      pull requests from one branch to different bases. */
  ghost predicate Unique(s: Server) {
    forall i, j, b :: 0 <= i < j < |s.pulls| && Backs(s.pulls[i], s.owner, b) ==> !Backs(s.pulls[j], s.owner, b)
  }

  /** Steps 1 and 2 of CreatePullRequest. */
  datatype Prepared = Abort | Found(number: nat) | Proceed

  ghost predicate Looked(s: Server, pr: PullRequest, faults: Faults, next: Prepared) {
    if faults.lookup != Works then next == Abort
    else if Seen(s, pr.owner, pr.head, faults.narrowed, faults.page) then
      next.Found? && next.number < |s.pulls| && Backs(s.pulls[next.number], s.owner, pr.head)
    else next == Proceed
  }

  /** The request reaches the repository and finds its base branch. */
  predicate Reaches(s: Server, pr: PullRequest, faults: Faults) {
    faults.base == Works && pr.owner in s.names && pr.base in s.branches
  }

  /** getRef, createRef and, when the branch exists, the lookup. */
  ghost predicate Preparing(s: Server, pr: PullRequest, faults: Faults, s': Server, next: Prepared) {
    if !Reaches(s, pr, faults) then s' == s && next == Abort
    else
      match faults.ref
      case Works =>
        if pr.head in s.branches then s' == s && Looked(s, pr, faults, next)
        else s' == WithBranch(s, pr.head) && next == Proceed
      case Refused(status) =>
        s' == s && if status == UNPROCESSABLE then Looked(s, pr, faults, next) else next == Abort
      case Lost => s' == WithBranch(s, pr.head) && next == Abort
  }

  // ---- commits -----------------------------------------------------------------------------

  function FaultsAt(faults: seq<FileFaults>, i: nat): FileFaults {
    if i < |faults| then faults[i] else FileFaults(Works, Works)
  }

  datatype Committing = Committing(server: Server, ok: bool)

  function Landed(s: Server, branch: string, change: FileChange): Server {
    s.(commits := s.commits + [Commit(branch, change, Backed(s, branch))])
  }

  predicate UsablePath(path: string) { Clean(path) && '\\' !in path }

  /** deleteFile and createOrUpdateFile. A failed read of the old version matters to a delete only. */
  function CommitOne(s: Server, branch: string, change: FileChange, faults: FileFaults): Committing {
    if !UsablePath(change.path) || branch !in s.branches then Committing(s, false)
    else if change.operation == FixPlan.Delete && faults.get != Works then Committing(s, false)
    else
      match faults.put
      case Works => Committing(Landed(s, branch, change), true)
      case Refused(_) => Committing(s, false)
      case Lost => Committing(Landed(s, branch, change), false)
  }

  /** Commits the files from position i on, stopping at the first failure. */
  function CommitFrom(s: Server, branch: string, files: seq<FileChange>, faults: seq<FileFaults>, i: nat): Committing
    requires i <= |files|
    decreases |files| - i
  {
    if i == |files| then Committing(s, true)
    else
      var one := CommitOne(s, branch, files[i], FaultsAt(faults, i));
      if one.ok then CommitFrom(one.server, branch, files, faults, i + 1) else one
  }

  // ---- the pull request -----------------------------------------------------------------------

  function Opened(s: Server, pr: PullRequest): Server {
    s.(pulls := s.pulls + [Pull(s.owner, pr.head, pr.base, {}, true, Some(pr.purpose))])
  }

  function WithLabels(s: Server, number: nat, labels: set<string>): Server
    requires number < |s.pulls|
  {
    s.(pulls := s.pulls[number := s.pulls[number].(labels := s.pulls[number].labels + labels)])
  }

  /** openPR and addLabels. The server need not refuse a second pull request for one branch. */
  function Finish(s: Server, pr: PullRequest, faults: Faults): (Server, Option<Result>) {
    if pr.head !in s.branches || faults.open.Refused? then (s, None)
    else
      var s1 := Opened(s, pr);
      if faults.open.Lost? then (s1, None)
      else
        (if pr.labels != {} && !faults.labels.Refused? then WithLabels(s1, |s.pulls|, pr.labels) else s1,
         Some(Result(|s.pulls|, pr.head)))
  }

  /** The whole call: its effect and its result, None for an error. */
  ghost predicate Creating(s: Server, pr: PullRequest, faults: Faults, s': Server, result: Option<Result>) {
    exists s1, next :: Preparing(s, pr, faults, s1, next) && Continuing(s1, next, pr, faults, s', result)
  }

  ghost predicate Continuing(s1: Server, next: Prepared, pr: PullRequest, faults: Faults, s': Server,
                             result: Option<Result>)
  {
    match next
    case Abort => s' == s1 && result == None
    case Found(n) => s' == s1 && result == Some(Result(n, pr.head))
    case Proceed =>
      var c := CommitFrom(s1, pr.head, pr.files, faults.files, 0);
      if c.ok then (s', result) == Finish(c.server, pr, faults) else s' == c.server && result == None
  }

  // ---- the engine ----------------------------------------------------------------------------------

  class Engine {
    var server: Server

    constructor (initial: Server)
      ensures server == initial
    {
      server := initial;
    }

    method Prepare(pr: PullRequest, faults: Faults) returns (next: Prepared)
      requires Sound(server)
      modifies this
      ensures Preparing(old(server), pr, faults, server, next)
    {
      if faults.base != Works || pr.owner !in server.names || pr.base !in server.branches { return Abort; }
      var status := 0;
      match faults.ref {
        case Works =>
          if pr.head !in server.branches {
            server := WithBranch(server, pr.head);
            return Proceed;
          }
          status := UNPROCESSABLE;
        case Refused(code) => status := code;
        case Lost => server := WithBranch(server, pr.head);
      }
      if status != UNPROCESSABLE { return Abort; }
      if faults.lookup != Works { return Abort; }
      var existing := FindOpenPull(server, pr.owner, pr.head, faults.narrowed, faults.page);
      next := if existing.Some? then Found(existing.value) else Proceed;
    }

    method CommitFiles(branch: string, files: seq<FileChange>, faults: seq<FileFaults>) returns (ok: bool)
      modifies this
      ensures Committing(server, ok) == CommitFrom(old(server), branch, files, faults, 0)
    {
      for i := 0 to |files|
        invariant CommitFrom(old(server), branch, files, faults, 0) == CommitFrom(server, branch, files, faults, i)
      {
        var change, f := files[i], FaultsAt(faults, i);
        var escaped := SafeRepoPath(change.path);
        if escaped.None? || branch !in server.branches { return false; }
        if change.operation == FixPlan.Delete && f.get != Works { return false; }
        if f.put.Refused? { return false; }
        server := Landed(server, branch, change);
        if f.put.Lost? { return false; }
      }
      return true;
    }

    method CreatePullRequest(pr: PullRequest, faults: Faults) returns (result: Option<Result>)
      requires Sound(server)
      modifies this
      ensures Creating(old(server), pr, faults, server, result)
    {
      var next := Prepare(pr, faults);
      ghost var s1 := server;
      assert Preparing(old(server), pr, faults, s1, next);
      if next == Abort { return None; }
      if next.Found? { return Some(Result(next.number, pr.head)); }
      var ok := CommitFiles(pr.head, pr.files, faults.files);
      if !ok {
        assert Continuing(s1, next, pr, faults, server, None);
        return None;
      }
      var end := Finish(server, pr, faults);
      server := end.0;
      result := end.1;
      assert Continuing(s1, next, pr, faults, server, result);
    }
  }

  // ---- what one call does ----------------------------------------------------------------------

  /** The call comes to its lookup, the lookup succeeds, and yet it misses the pull request that
      backs the branch. */
  predicate Unseen(s: Server, pr: PullRequest, faults: Faults) {
    LooksUp(s, pr, faults) && Backed(s, pr.head) && !Seen(s, pr.owner, pr.head, faults.narrowed, faults.page)
  }

  /** The call comes to its lookup, and the lookup succeeds. */
  predicate LooksUp(s: Server, pr: PullRequest, faults: Faults) {
    Reaches(s, pr, faults) && faults.lookup == Works &&
    ((faults.ref == Works && pr.head in s.branches) || faults.ref == Refused(422))
  }

  /** The lookup finds a pull request on the branch. */
  predicate Finds(s: Server, pr: PullRequest, faults: Faults) {
    LooksUp(s, pr, faults) && Seen(s, pr.owner, pr.head, faults.narrowed, faults.page)
  }

  /** Files were committed to the branch in order; `onto` says whether it backed an open pull request. */
  predicate CommitsGrew(before: seq<Commit>, after: seq<Commit>, branch: string, files: seq<FileChange>, onto: bool) {
    before <= after && |after| - |before| <= |files| &&
    forall j :: |before| <= j < |after| ==>
      after[j] == Commit(branch, files[j - |before|], onto) && UsablePath(files[j - |before|].path)
  }

  lemma {:induction false} CommitsLand(s: Server, branch: string, files: seq<FileChange>, faults: seq<FileFaults>,
                                       i: nat)
    requires i <= |files|
    ensures var c := CommitFrom(s, branch, files, faults, i);
      c.server == s.(commits := c.server.commits) &&
      CommitsGrew(s.commits, c.server.commits, branch, files[i..], Backed(s, branch)) &&
      (c.ok ==> |c.server.commits| == |s.commits| + |files| - i)
    decreases |files| - i
  {
    if i < |files| {
      var one := CommitOne(s, branch, files[i], FaultsAt(faults, i));
      assert files[i..][0] == files[i] && files[i..][1..] == files[i + 1..];
      assert Landed(s, branch, files[i]).pulls == s.pulls;
      if one.ok {
        assert Backed(one.server, branch) == Backed(s, branch);
        CommitsLand(one.server, branch, files, faults, i + 1);
        var c := CommitFrom(one.server, branch, files, faults, i + 1);
        GrowthComposes(s.commits, c.server.commits, branch, files[i..], Backed(s, branch));
      }
    }
  }

  lemma GrowthComposes(before: seq<Commit>, after: seq<Commit>, branch: string, files: seq<FileChange>, onto: bool)
    requires |files| > 0 && UsablePath(files[0].path)
    requires CommitsGrew(before + [Commit(branch, files[0], onto)], after, branch, files[1..], onto)
    ensures CommitsGrew(before, after, branch, files, onto)
  {
    var mid := before + [Commit(branch, files[0], onto)];
    assert after[|before|] == mid[|before|];
    forall j | |before| <= j < |after|
      ensures after[j] == Commit(branch, files[j - |before|], onto) && UsablePath(files[j - |before|].path)
    {
      if j > |before| {
        assert files[1..][j - |mid|] == files[j - |before|];
      }
    }
  }

  /** At most one pull request is opened, on the head branch, after every file was committed. */
  ghost predicate PullsGrew(s: Server, s': Server, pr: PullRequest) {
    s'.pulls == s.pulls ||
    (|s'.pulls| == |s.pulls| + 1 && s'.pulls[..|s.pulls|] == s.pulls &&
     Backs(s'.pulls[|s.pulls|], s.owner, pr.head) && s'.pulls[|s.pulls|].purpose == Some(pr.purpose) &&
     pr.head in s'.branches && |s'.commits| == |s.commits| + |pr.files|)
  }

  /** A result names a pull request that is open on the head branch; it was there before and
      nothing changed, or it is new. */
  ghost predicate ResultHolds(s: Server, s': Server, pr: PullRequest, result: Result) {
    result.branch == pr.head && result.number < |s'.pulls| && Backs(s'.pulls[result.number], s'.owner, pr.head) &&
    (s' == s || result.number == |s.pulls|)
  }

  /** What a call changes; `unseen` tells whether its lookup missed an open pull request. Only
      then does it commit or open anything while the branch is backed. */
  ghost predicate Effect(s: Server, s': Server, pr: PullRequest, unseen: bool, result: Option<Result>) {
    s'.owner == s.owner && s'.names == s.names && s.branches <= s'.branches <= s.branches + {pr.head} &&
    CommitsGrew(s.commits, s'.commits, pr.head, pr.files, unseen) && PullsGrew(s, s', pr) &&
    (s'.pulls != s.pulls ==> (Backed(s, pr.head) <==> unseen)) &&
    (result.Some? ==> ResultHolds(s, s', pr, result.value))
  }

  lemma PreparedIsUnbacked(s: Server, pr: PullRequest, faults: Faults, s1: Server, next: Prepared)
    requires Sound(s) && Preparing(s, pr, faults, s1, next)
    ensures s1.owner == s.owner && s1.names == s.names && s1.commits == s.commits && s1.pulls == s.pulls
    ensures s.branches <= s1.branches <= s.branches + {pr.head}
    ensures next == Proceed ==> (Backed(s, pr.head) <==> Unseen(s, pr, faults))
    ensures next.Found? ==> s1 == s && next.number < |s.pulls| && Backs(s.pulls[next.number], s.owner, pr.head)
  {
  }

  lemma ProceedHasEffect(s: Server, s1: Server, pr: PullRequest, faults: Faults, s': Server, result: Option<Result>)
    requires s1.owner == s.owner && s1.names == s.names && s1.commits == s.commits && s1.pulls == s.pulls
    requires s.branches <= s1.branches <= s.branches + {pr.head}
    requires Continuing(s1, Proceed, pr, faults, s', result)
    ensures Effect(s, s', pr, Backed(s, pr.head), result)
  {
    assert Backed(s1, pr.head) == Backed(s, pr.head);
    CommitsLand(s1, pr.head, pr.files, faults.files, 0);
    assert pr.files[0..] == pr.files;
    var c := CommitFrom(s1, pr.head, pr.files, faults.files, 0);
    if c.ok {
      FinishOpensOne(c.server, pr, faults);
    }
  }

  lemma FinishOpensOne(s: Server, pr: PullRequest, faults: Faults)
    ensures var (s', result) := Finish(s, pr, faults);
      s' == s.(pulls := s'.pulls) &&
      ((s' == s && result == None) ||
       (|s'.pulls| == |s.pulls| + 1 && s'.pulls[..|s.pulls|] == s.pulls && pr.head in s.branches &&
        Backs(s'.pulls[|s.pulls|], s.owner, pr.head) && s'.pulls[|s.pulls|].purpose == Some(pr.purpose) &&
        (result.Some? ==> result.value == Result(|s.pulls|, pr.head))))
  {
  }

  /** For any faults. */
  lemma CallHasEffect(s: Server, pr: PullRequest, faults: Faults, s': Server, result: Option<Result>)
    requires Sound(s) && Creating(s, pr, faults, s', result)
    ensures Effect(s, s', pr, Unseen(s, pr, faults), result)
  {
    var s1, next :| Preparing(s, pr, faults, s1, next) && Continuing(s1, next, pr, faults, s', result);
    PreparedIsUnbacked(s, pr, faults, s1, next);
    if next == Proceed {
      ProceedHasEffect(s, s1, pr, faults, s', result);
    }
  }

  lemma EffectKeepsSound(s: Server, s': Server, pr: PullRequest, unseen: bool, result: Option<Result>)
    requires Sound(s) && Effect(s, s', pr, unseen, result)
    ensures Sound(s')
  {
    forall i | 0 <= i < |s'.pulls| ensures PullIsSound(s'.pulls[i], s'.owner, s'.names, s'.branches) {
      if i < |s.pulls| {
        assert s'.pulls[i] == s.pulls[i] && PullIsSound(s.pulls[i], s.owner, s.names, s.branches);
      }
    }
  }

  /** Uniqueness is lost exactly by opening a pull request that the lookup should have found. */
  lemma EffectOnUnique(s: Server, s': Server, pr: PullRequest, unseen: bool, result: Option<Result>)
    requires Unique(s) && Effect(s, s', pr, unseen, result)
    ensures Unique(s') <==> !(unseen && s'.pulls != s.pulls)
  {
    if s'.pulls != s.pulls {
      var n := |s.pulls|;
      assert forall i :: 0 <= i < n ==> s'.pulls[i] == s.pulls[i];
      if unseen {
        var i :| 0 <= i < n && Backs(s.pulls[i], s.owner, pr.head);
        assert Backs(s'.pulls[i], s'.owner, pr.head) && Backs(s'.pulls[n], s'.owner, pr.head);
      } else {
        forall i, j, b | 0 <= i < j < |s'.pulls| && Backs(s'.pulls[i], s'.owner, b)
          ensures !Backs(s'.pulls[j], s'.owner, b)
        {
          if j == n {
            assert !Backs(s.pulls[i], s.owner, pr.head);
          }
        }
      }
    }
  }

  /** A call returns a pull request that was there before exactly when its lookup finds one, and
      then changes nothing; any other result is a new pull request, opened for its purpose. */
  lemma FoundExactlyWhen(s: Server, pr: PullRequest, faults: Faults, s': Server, result: Option<Result>)
    requires Sound(s) && Creating(s, pr, faults, s', result)
    ensures Finds(s, pr, faults) ==> s' == s && result.Some?
    ensures !Finds(s, pr, faults) && result.Some? ==>
      |s'.pulls| == |s.pulls| + 1 && Backs(s'.pulls[|s.pulls|], s'.owner, pr.head) &&
      s'.pulls[|s.pulls|].purpose == Some(pr.purpose)
  {
    var s1, next :| Preparing(s, pr, faults, s1, next) && Continuing(s1, next, pr, faults, s', result);
    PreparedIsUnbacked(s, pr, faults, s1, next);
    if next == Proceed {
      CommitsLand(s1, pr.head, pr.files, faults.files, 0);
      FinishOpensOne(CommitFrom(s1, pr.head, pr.files, faults.files, 0).server, pr, faults);
    }
  }

  // ---- a call that meets no failure --------------------------------------------------------------

  /** Every request works, the base branch is there, and every path is usable. */
  predicate NothingFails(s: Server, pr: PullRequest, faults: Faults) {
    pr.owner in s.names && pr.base in s.branches &&
    faults.base == faults.ref == faults.lookup == faults.open == faults.labels == Works &&
    (forall i :: 0 <= i < |faults.files| ==> faults.files[i] == FileFaults(Works, Works)) &&
    (forall i :: 0 <= i < |pr.files| ==> UsablePath(pr.files[i].path))
  }

  lemma {:induction false} EveryFileLands(s: Server, branch: string, files: seq<FileChange>,
                                          faults: seq<FileFaults>, i: nat)
    requires i <= |files| && branch in s.branches
    requires forall j :: 0 <= j < |faults| ==> faults[j] == FileFaults(Works, Works)
    requires forall j :: 0 <= j < |files| ==> UsablePath(files[j].path)
    ensures CommitFrom(s, branch, files, faults, i).ok
    decreases |files| - i
  {
    if i < |files| {
      EveryFileLands(CommitOne(s, branch, files[i], FaultsAt(faults, i)).server, branch, files, faults, i + 1);
    }
  }

  /** A failed read of the old version stops a delete, and a delete only. */
  lemma FailedReadStopsDeletesOnly(s: Server, branch: string, change: FileChange, faults: FileFaults)
    requires UsablePath(change.path) && branch in s.branches && faults.put == Works && faults.get != Works
    ensures var one := CommitOne(s, branch, change, faults);
      if change.operation == FixPlan.Delete then one == Committing(s, false)
      else one.ok && one.server.commits == s.commits + [Commit(branch, change, Backed(s, branch))]
  {
  }

  /** The changes of the request, one commit each and in order, on its branch. */
  predicate CommitsExactly(before: seq<Commit>, after: seq<Commit>, pr: PullRequest) {
    before <= after && |after| == |before| + |pr.files| &&
    forall i :: 0 <= i < |pr.files| ==>
      after[|before| + i].branch == pr.head && after[|before| + i].change == pr.files[i]
  }

  /** If it finds no pull request, it commits every file in order and opens one, from the head to
      the base branch, with the labels asked for. */
  lemma WorkingCallOpens(s: Server, pr: PullRequest, faults: Faults, s': Server, result: Option<Result>)
    requires Sound(s) && NothingFails(s, pr, faults) && !Finds(s, pr, faults) && Creating(s, pr, faults, s', result)
    ensures CommitsExactly(s.commits, s'.commits, pr) && result == Some(Result(|s.pulls|, pr.head))
    ensures s'.pulls == s.pulls + [Pull(s.owner, pr.head, pr.base, pr.labels, true, Some(pr.purpose))]
  {
    var s1, next :| Preparing(s, pr, faults, s1, next) && Continuing(s1, next, pr, faults, s', result);
    PreparedIsUnbacked(s, pr, faults, s1, next);
    WorkingCallProceeds(s, pr, faults, s1, next);
    WorkingRestOpens(s1, pr, faults, s', result);
  }

  lemma WorkingCallProceeds(s: Server, pr: PullRequest, faults: Faults, s1: Server, next: Prepared)
    requires NothingFails(s, pr, faults) && !Finds(s, pr, faults) && Preparing(s, pr, faults, s1, next)
    ensures next == Proceed && pr.head in s1.branches
  {
  }

  lemma WorkingRestOpens(s1: Server, pr: PullRequest, faults: Faults, s': Server, result: Option<Result>)
    requires pr.head in s1.branches && faults.open == faults.labels == Works
    requires forall i :: 0 <= i < |faults.files| ==> faults.files[i] == FileFaults(Works, Works)
    requires forall i :: 0 <= i < |pr.files| ==> UsablePath(pr.files[i].path)
    requires Continuing(s1, Proceed, pr, faults, s', result)
    ensures CommitsExactly(s1.commits, s'.commits, pr) && result == Some(Result(|s1.pulls|, pr.head))
    ensures s'.pulls == s1.pulls + [Pull(s1.owner, pr.head, pr.base, pr.labels, true, Some(pr.purpose))]
  {
    EveryFileLands(s1, pr.head, pr.files, faults.files, 0);
    CommitsLand(s1, pr.head, pr.files, faults.files, 0);
    assert pr.files[0..] == pr.files;
    FinishLabels(CommitFrom(s1, pr.head, pr.files, faults.files, 0).server, pr, faults);
  }

  lemma FinishLabels(s: Server, pr: PullRequest, faults: Faults)
    requires pr.head in s.branches && faults.open == faults.labels == Works
    ensures Finish(s, pr, faults).0.pulls ==
      s.pulls + [Pull(s.owner, pr.head, pr.base, pr.labels, true, Some(pr.purpose))]
    ensures Finish(s, pr, faults).0.commits == s.commits
    ensures Finish(s, pr, faults).1 == Some(Result(|s.pulls|, pr.head))
  {
    assert {} + pr.labels == pr.labels;
  }

  // ---- runs ------------------------------------------------------------------------------------------

  /** Between calls anyone may do anything the server allows. */
  datatype Op = Create(pr: PullRequest, faults: Faults, result: Option<Result>) | Others

  datatype Run = Begin(start: Server) | Then(prev: Run, op: Op, server: Server)

  function End(r: Run): Server { match r case Begin(start) => start case Then(_, _, server) => server }

  ghost predicate Legal(r: Run) {
    match r
    case Begin(start) => Sound(start) && start.commits == []
    case Then(prev, Create(pr, faults, result), server) => Legal(prev) &&
      Creating(End(prev), pr, faults, server, result)
    case Then(prev, Others, server) =>
      Legal(prev) && Sound(server) && server.owner == End(prev).owner && server.commits == End(prev).commits
  }

  /** The last operation committed something although its lookup missed an open pull request. */
  predicate BlindCommit(r: Run) {
    r.Then? && r.op.Create? && Unseen(End(r.prev), r.op.pr, r.op.faults) && |r.server.commits| > |End(r.prev).commits|
  }

  predicate NoBlindCommit(r: Run) { !BlindCommit(r) && (r.Then? ==> NoBlindCommit(r.prev)) }

  predicate NoneOntoOpenPull(commits: seq<Commit>) {
    forall i :: 0 <= i < |commits| ==> !commits[i].ontoOpenPull
  }

  predicate UsableCommits(commits: seq<Commit>) {
    forall i :: 0 <= i < |commits| ==> UsablePath(commits[i].change.path)
  }

  lemma GrowthIsClean(before: seq<Commit>, after: seq<Commit>, branch: string, files: seq<FileChange>, onto: bool)
    requires CommitsGrew(before, after, branch, files, onto)
    ensures UsableCommits(before) ==> UsableCommits(after)
    ensures NoneOntoOpenPull(after) <==> NoneOntoOpenPull(before) && !(onto && |after| > |before|)
  {
    assert forall j :: 0 <= j < |before| ==> after[j] == before[j];
    if |after| > |before| {
      assert after[|before|].ontoOpenPull == onto;
    }
  }

  /** Over any run no commit lands on a branch that backs an open pull request, if and only if no
      call committed after a lookup that missed one; and every committed path is usable. */
  lemma {:induction false} NeverOntoAnOpenPull(r: Run)
    requires Legal(r)
    ensures Sound(End(r)) && UsableCommits(End(r).commits)
    ensures NoneOntoOpenPull(End(r).commits) <==> NoBlindCommit(r)
  {
    match r
    case Begin(_) =>
    case Then(prev, op, server) =>
      NeverOntoAnOpenPull(prev);
      match op
      case Others =>
      case Create(pr, faults, result) =>
        var unseen := Unseen(End(prev), pr, faults);
        CallHasEffect(End(prev), pr, faults, server, result);
        EffectKeepsSound(End(prev), server, pr, unseen, result);
        GrowthIsClean(End(prev).commits, server.commits, pr.head, pr.files, unseen);
  }

  /** No lookup misses anything when the owner is configured as the login is spelled, and the
      server honours the head filter or the whole list of open pull requests fits the page. */
  lemma FilterOrShortListSuffices(s: Server, pr: PullRequest, faults: Faults)
    requires Sound(s) && pr.owner == s.owner && faults.page > 0
    requires faults.narrowed || |OpenOf(s.pulls)| <= faults.page
    ensures !Unseen(s, pr, faults)
  {
    SeenExactlyWhen(s, pr.owner, pr.head, faults.narrowed, faults.page);
    if !faults.narrowed && Backed(s, pr.head) {
      var n :| 0 <= n < |s.pulls| && Backs(s.pulls[n], s.owner, pr.head);
      ListingContents(s.pulls, false, "", n);
      var i :| 0 <= i < |OpenOf(s.pulls)| && OpenOf(s.pulls)[i] == n;
      assert OnFirstPage(s, pr.head, faults.page);
    }
  }

  /** The last operation opened a pull request although its lookup missed an open one. */
  predicate BlindOpen(r: Run) {
    r.Then? && r.op.Create? && Unseen(End(r.prev), r.op.pr, r.op.faults) && r.server.pulls != End(r.prev).pulls
  }

  predicate NoBlindOpen(r: Run) { !BlindOpen(r) && (r.Then? ==> NoBlindOpen(r.prev)) }

  ghost predicate UniqueThroughout(r: Run) { Unique(End(r)) && (r.Then? ==> UniqueThroughout(r.prev)) }

  ghost predicate OthersKeepUnique(r: Run) {
    match r
    case Begin(start) => Unique(start)
    case Then(prev, op, server) => OthersKeepUnique(prev) && (op.Others? ==> Unique(server))
  }

  /** As long as others leave no branch with two open pull requests, no call ever does, if and only
      if no call opens one after a lookup that missed one. */
  lemma {:induction false} AtMostOnePullPerBranch(r: Run)
    requires Legal(r) && OthersKeepUnique(r)
    ensures UniqueThroughout(r) <==> NoBlindOpen(r)
  {
    if r.Then? {
      AtMostOnePullPerBranch(r.prev);
      if r.op.Create? && UniqueThroughout(r.prev) {
        NeverOntoAnOpenPull(r.prev);
        var unseen := Unseen(End(r.prev), r.op.pr, r.op.faults);
        CallHasEffect(End(r.prev), r.op.pr, r.op.faults, r.server, r.op.result);
        EffectOnUnique(End(r.prev), r.server, r.op.pr, unseen, r.op.result);
      }
    }
  }

  /** A result that is not an error names a pull request that is open on the head branch. */
  lemma ResultsNameOpenPulls(r: Run)
    requires Legal(r) && r.Then? && r.op.Create? && r.op.result.Some?
    ensures ResultHolds(End(r.prev), r.server, r.op.pr, r.op.result.value)
  {
    NeverOntoAnOpenPull(r.prev);
    CallHasEffect(End(r.prev), r.op.pr, r.op.faults, r.server, r.op.result);
  }

  // ---- a reply without our pull request -------------------------------------------------------------

  /** As many open pull requests of a fork as fit the page, and then ours. */
  function Crowded(owner: string, fork: string, pr: PullRequest, page: nat): Server {
    Server(owner, {owner}, {"main", pr.head}, [],
           seq(page, _ => Pull(fork, pr.head, "main", {}, true, None)) +
           [Pull(owner, pr.head, "main", {}, true, Some(pr.purpose))])
  }

  lemma {:induction false} OpenListing(pulls: seq<Pull>)
    requires forall i :: 0 <= i < |pulls| ==> pulls[i].open
    ensures |OpenOf(pulls)| == |pulls| && forall i :: 0 <= i < |pulls| ==> OpenOf(pulls)[i] == i
  {
    if pulls != [] { OpenListing(pulls[..|pulls| - 1]); }
  }

  /** No failure occurs, and there is one file to commit. */
  predicate PlainSailing(pr: PullRequest, faults: Faults) {
    |pr.files| == 1 && UsablePath(pr.files[0].path) && faults.files == [] &&
    faults.base == faults.ref == faults.lookup == faults.open == Works
  }

  /** When a proxy drops the filter and our pull request is not on the first page, a call that
      meets no failure commits onto it and opens a second one. */
  lemma CrowdedPageIsMissed(fork: string, pr: PullRequest, faults: Faults, s': Server, result: Option<Result>)
    requires ':' !in pr.owner && ':' !in fork && fork != pr.owner && pr.base == "main"
    requires PlainSailing(pr, faults) && !faults.narrowed
    requires Creating(Crowded(pr.owner, fork, pr, faults.page), pr, faults, s', result)
    ensures |s'.commits| == 1 && s'.commits[0].ontoOpenPull && !Unique(s')
  {
    var s, n := Crowded(pr.owner, fork, pr, faults.page), faults.page;
    assert Sound(s) && Backs(s.pulls[n], pr.owner, pr.head);
    OpenListing(s.pulls);
    SeenExactlyWhen(s, pr.owner, pr.head, false, n);
    assert Unseen(s, pr, faults);
    BlindCallPollutes(s, pr, faults, s', result);
  }

  /** When the owner is configured in another spelling than the login's, the same happens even
      though the filter is honoured: on every server, for every branch with an open pull request. */
  lemma OtherSpellingIsMissed(s: Server, pr: PullRequest, faults: Faults, s': Server, result: Option<Result>)
    requires Sound(s) && pr.owner in s.names && pr.owner != s.owner && pr.base in s.branches && Backed(s, pr.head)
    requires PlainSailing(pr, faults) && Creating(s, pr, faults, s', result)
    ensures |s'.commits| == |s.commits| + 1 && s'.commits[|s.commits|].ontoOpenPull && !Unique(s')
  {
    SeenExactlyWhen(s, pr.owner, pr.head, faults.narrowed, faults.page);
    BackedHasBranch(s, pr.head);
    BlindCallPollutes(s, pr, faults, s', result);
  }

  lemma BackedHasBranch(s: Server, branch: string)
    requires Sound(s) && Backed(s, branch)
    ensures branch in s.branches
  {
    var i :| 0 <= i < |s.pulls| && Backs(s.pulls[i], s.owner, branch);
    assert PullIsSound(s.pulls[i], s.owner, s.names, s.branches);
  }

  lemma BlindCallPollutes(s: Server, pr: PullRequest, faults: Faults, s': Server, result: Option<Result>)
    requires Sound(s) && Unseen(s, pr, faults) && PlainSailing(pr, faults) && Creating(s, pr, faults, s', result)
    ensures |s'.commits| == |s.commits| + 1 && s'.commits[|s.commits|].ontoOpenPull && !Unique(s')
  {
    CallHasEffect(s, pr, faults, s', result);
    BlindCallFinishes(s, pr, faults, s', result);
    var i :| 0 <= i < |s.pulls| && Backs(s.pulls[i], s.owner, pr.head);
    assert s'.pulls[..|s.pulls|] == s.pulls && s'.pulls[i] == s.pulls[i];
    assert Backs(s'.pulls[i], s'.owner, pr.head) && Backs(s'.pulls[|s.pulls|], s'.owner, pr.head);
  }

  lemma BlindCallFinishes(s: Server, pr: PullRequest, faults: Faults, s': Server, result: Option<Result>)
    requires Sound(s) && Unseen(s, pr, faults) && PlainSailing(pr, faults) && Creating(s, pr, faults, s', result)
    ensures |s'.commits| == |s.commits| + 1 && |s'.pulls| == |s.pulls| + 1
  {
    var s1, next :| Preparing(s, pr, faults, s1, next) && Continuing(s1, next, pr, faults, s', result);
    assert pr.head in s.branches && s1 == s && next == Proceed;
    var one := CommitOne(s, pr.head, pr.files[0], FaultsAt([], 0));
    assert one == Committing(Landed(s, pr.head, pr.files[0]), true);
    assert CommitFrom(one.server, pr.head, pr.files, [], 1) == one;
    FinishOpensOne(one.server, pr, faults);
  }

  // ---- ListOpenPRs ---------------------------------------------------------------------------------

  const PAGE := 100
  const MAX_PAGES := 10

  predicate Own(pull: Pull) { HasPrefix(pull.headRef, Gitops.OWN_PREFIX) || OWN_LABEL in pull.labels }

  /** Open pull requests with their numbers, in the server's order. */
  function OpenOf(pulls: seq<Pull>): seq<nat> { Listing(pulls, false, "") }

  function OwnOf(pulls: seq<Pull>, numbers: seq<nat>): seq<Result>
    requires forall i :: 0 <= i < |numbers| ==> numbers[i] < |pulls|
  {
    if numbers == [] then []
    else
      var last := numbers[|numbers| - 1];
      OwnOf(pulls, numbers[..|numbers| - 1]) + if Own(pulls[last]) then [Result(last, pulls[last].headRef)] else []
  }

  lemma OpenOfIsInRange(pulls: seq<Pull>)
    ensures forall i :: 0 <= i < |OpenOf(pulls)| ==> OpenOf(pulls)[i] < |pulls| && pulls[OpenOf(pulls)[i]].open
  {
    forall i | 0 <= i < |OpenOf(pulls)| ensures OpenOf(pulls)[i] < |pulls| && pulls[OpenOf(pulls)[i]].open {
      ListingContents(pulls, false, "", OpenOf(pulls)[i]);
    }
  }

  /** What a complete listing returns: the operator's pull requests among the first thousand. */
  function Snapshot(pulls: seq<Pull>): seq<Result> {
    OpenOfIsInRange(pulls);
    var numbers := OpenOf(pulls);
    OwnOf(pulls, if |numbers| <= PAGE * MAX_PAGES then numbers else numbers[..PAGE * MAX_PAGES])
  }

  /** Adds one page to the results. */
  method FilterPage(pulls: seq<Pull>, numbers: seq<nat>, from: nat, to: nat, before: seq<Result>)
    returns (results: seq<Result>)
    requires forall i :: 0 <= i < |numbers| ==> numbers[i] < |pulls|
    requires from <= to <= |numbers| && before == OwnOf(pulls, numbers[..from])
    ensures results == OwnOf(pulls, numbers[..to])
  {
    results := before;
    for i := from to to
      invariant results == OwnOf(pulls, numbers[..i])
    {
      assert numbers[..i + 1][..i] == numbers[..i];
      var pull := pulls[numbers[i]];
      if HasPrefix(pull.headRef, Gitops.OWN_PREFIX) || OWN_LABEL in pull.labels {
        results := results + [Result(numbers[i], pull.headRef)];
      }
    }
  }

  /** Every page that is asked for works: page k is, when the k pages before it are full. */
  predicate ListingWorks(pulls: seq<Pull>, pages: seq<Fault>) {
    forall k :: 0 <= k < |pages| && k < MAX_PAGES && k * PAGE <= |OpenOf(pulls)| ==> pages[k] == Works
  }

  /** Pages of a hundred until a short one, at most ten; any failing page fails the call. */
  method ListOpenPulls(pulls: seq<Pull>, pages: seq<Fault>) returns (r: Option<seq<Result>>)
    ensures r == if ListingWorks(pulls, pages) then Some(Snapshot(pulls)) else None
  {
    OpenOfIsInRange(pulls);
    var numbers := OpenOf(pulls);
    var results := [];
    for page := 0 to MAX_PAGES
      invariant page * PAGE <= |numbers| && results == OwnOf(pulls, numbers[..page * PAGE])
      invariant forall k :: 0 <= k < page && k < |pages| ==> pages[k] == Works
    {
      if page < |pages| && pages[page] != Works { return None; }
      var to := if |numbers| < (page + 1) * PAGE then |numbers| else (page + 1) * PAGE;
      results := FilterPage(pulls, numbers, page * PAGE, to, results);
      if to - page * PAGE < PAGE {
        assert numbers[..to] == numbers;
        return Some(results);
      }
    }
    assert |numbers| == PAGE * MAX_PAGES ==> numbers[..PAGE * MAX_PAGES] == numbers;
    return Some(results);
  }

  lemma {:induction false} OwnOfContents(pulls: seq<Pull>, numbers: seq<nat>, result: Result)
    requires forall i :: 0 <= i < |numbers| ==> numbers[i] < |pulls|
    ensures result in OwnOf(pulls, numbers) <==>
      result.number in numbers && Own(pulls[result.number]) && result.branch == pulls[result.number].headRef
  {
    if numbers != [] {
      var front, last := numbers[..|numbers| - 1], numbers[|numbers| - 1];
      OwnOfContents(pulls, front, result);
      assert numbers == front + [last];
    }
  }

  /** With at most a thousand open, the listing is exactly the open pull requests whose branch has
      the operator's prefix or that carry its label, each with its number and branch. */
  lemma SnapshotContents(pulls: seq<Pull>, result: Result)
    requires |OpenOf(pulls)| <= 1000
    ensures result in Snapshot(pulls) <==>
      result.number < |pulls| && pulls[result.number].open && result.branch == pulls[result.number].headRef &&
      (HasPrefix(pulls[result.number].headRef, "zelyo-operator/") || "zelyo-operator" in pulls[result.number].labels)
  {
    OpenOfIsInRange(pulls);
    OwnOfContents(pulls, OpenOf(pulls), result);
    ListingContents(pulls, false, "", result.number);
  }
}
