/** internal/remediation/engine.go: from a model's answer to a plan of file changes. The answer
    and its JSON decoding are an oracle; everything after decoding is modelled. */
module FixPlan {
  import opened Text
  import opened Severities
  import opened RepoPath

  datatype FileOp = Create | Update | Delete

  /** One fix as the model wrote it. */
  datatype RawFix = RawFix(filePath: string, description: string, patch: string, operation: string)

  datatype Fix = Fix(description: string, filePath: string, patch: string, operation: FileOp)

  datatype Response = Response(analysis: string, fixes: seq<RawFix>, riskAssessment: string, riskScore: Option<int>)

  /** No client, a failed call, or an answer with what its JSON decodes to, if anything. */
  datatype Answer = NoClient | Failed | Answered(content: string, decoded: Option<Response>)

  datatype Plan = Plan(fixes: seq<Fix>, analysis: string, riskScore: int)

  datatype Extracted = Extracted(fixes: seq<Fix>, analysis: string, riskScore: int)

  const MAX_FIXES: nat := 20
  const MAX_PATH: nat := 512
  const MAX_PATCH: nat := 262144
  const MAX_DESCRIPTION: nat := 4096

  function ParseFixOperation(op: string): (r: Option<FileOp>) {
    if op == "create" then Some(Create) else if op == "update" then Some(Update)
    else if op == "delete" then Some(Delete) else None
  }

  predicate ValidPath(path: string) { Clean(path) && |path| <= MAX_PATH && '\0' !in path }

  method ValidFixFilePath(path: string) returns (ok: bool)
    ensures ok <==> ValidPath(path)
    ensures ok <==> !SpecialSegment(path) && |path| <= 512 && '\0' !in path
  {
    CleanMeansNoSpecialSegment(path);
    if path == "" || |path| > MAX_PATH || HasPrefix(path, "/") || '\0' in path {
      if Clean(path) { CleanIsRelative(path); }
      return false;
    }
    var segments := Split(path, '/');
    for i := 0 to |segments|
      invariant forall j :: 0 <= j < i ==> Ordinary(segments[j])
    {
      if segments[i] == "" || segments[i] == "." || segments[i] == ".." { return false; }
    }
    return true;
  }

  predicate Space(c: char) { c in {' ', '\t', '\n', '\r', 11 as char, 12 as char} }

  predicate Blank(s: string) { forall i :: 0 <= i < |s| ==> Space(s[i]) }

  // ---- extractFixes ---------------------------------------------------------------------

  predicate Acceptable(raw: RawFix) {
    var op := ParseFixOperation(raw.operation);
    op.Some? && ValidPath(raw.filePath) && |raw.patch| <= MAX_PATCH && (op.value == Delete || !Blank(raw.patch))
  }

  /** A create or update whose patch has only blanks (space, tab, line feed, vertical tab, form feed,
      carriage return) is dropped; any other byte in it is enough. */
  lemma BlankPatchesAreDropped(raw: RawFix)
    requires ValidPath(raw.filePath) && |raw.patch| <= 256 * 1024 && raw.operation in {"create", "update"}
    ensures Acceptable(raw) <==>
      exists i :: 0 <= i < |raw.patch| && raw.patch[i] as int !in {32, 9, 10, 11, 12, 13}
  {
    assert forall c: char :: Space(c) <==> c as int in {32, 9, 10, 11, 12, 13};
  }

  function Accepted(raw: RawFix): Fix
    requires Acceptable(raw)
  {
    Fix(if |raw.description| > MAX_DESCRIPTION then raw.description[..MAX_DESCRIPTION] else raw.description,
        raw.filePath, raw.patch, ParseFixOperation(raw.operation).value)
  }

  function AcceptedOf(raws: seq<RawFix>): (fixes: seq<Fix>)
    ensures |fixes| <= |raws|
  {
    if raws == [] then []
    else
      var front := AcceptedOf(raws[..|raws| - 1]);
      if Acceptable(raws[|raws| - 1]) then front + [Accepted(raws[|raws| - 1])] else front
  }

  /** What survives is exactly the acceptable fixes. */
  lemma {:induction false} AcceptedContents(raws: seq<RawFix>, fix: Fix)
    ensures fix in AcceptedOf(raws) <==> exists i :: 0 <= i < |raws| && Acceptable(raws[i]) && fix == Accepted(raws[i])
  {
    if raws != [] {
      var front, last := raws[..|raws| - 1], raws[|raws| - 1];
      AcceptedContents(front, fix);
      assert forall i :: 0 <= i < |front| ==> front[i] == raws[i];
      assert last == raws[|front|];
      forall i | 0 <= i < |raws| && Acceptable(raws[i]) && fix == Accepted(raws[i]) ensures fix in AcceptedOf(raws) {
        assert i < |front| ==> front[i] == raws[i];
      }
    }
  }

  function Limited(raws: seq<RawFix>): seq<RawFix> { if |raws| > MAX_FIXES then raws[..MAX_FIXES] else raws }

  function Extract(content: string, decoded: Option<Response>): Extracted {
    if decoded.None? then Extracted([], content, -1)
    else
      var r := decoded.value;
      var fixes := AcceptedOf(Limited(r.fixes));
      if fixes == [] then Extracted([], r.analysis, -1)
      else
        Extracted(fixes, if r.riskAssessment == "" then r.analysis
                         else r.analysis + "\n\nRisk Assessment: " + r.riskAssessment,
                  if r.riskScore.Some? then r.riskScore.value else -1)
  }

  method ExtractFixes(content: string, decoded: Option<Response>) returns (e: Extracted)
    ensures e == Extract(content, decoded)
  {
    if decoded.None? { return Extracted([], content, -1); }
    var response := decoded.value;
    if response.fixes == [] { return Extracted([], response.analysis, -1); }
    var validated := ValidatedFixes(Limited(response.fixes));
    if validated == [] { return Extracted([], response.analysis, -1); }
    var analysis := response.analysis;
    if response.riskAssessment != "" {
      analysis := analysis + "\n\nRisk Assessment: " + response.riskAssessment;
    }
    return Extracted(validated, analysis, if response.riskScore.Some? then response.riskScore.value else -1);
  }

  method ValidatedFixes(raws: seq<RawFix>) returns (validated: seq<Fix>)
    ensures validated == AcceptedOf(raws)
  {
    validated := [];
    for i := 0 to |raws|
      invariant validated == AcceptedOf(raws[..i])
    {
      assert raws[..i + 1][..i] == raws[..i];
      var raw := raws[i];
      var op := ParseFixOperation(raw.operation);
      var ok := ValidFixFilePath(raw.filePath);
      if op.None? || !ok || |raw.patch| > MAX_PATCH { continue; }
      if op.value != Delete && Blank(raw.patch) { continue; }
      var description := raw.description;
      if |description| > MAX_DESCRIPTION { description := description[..MAX_DESCRIPTION]; }
      validated := validated + [Fix(description, raw.filePath, raw.patch, op.value)];
    }
    assert raws[..|raws|] == raws;
  }

  // ---- filterFixesToAllowedPaths -----------------------------------------------------------

  function TrimPrefix(s: string): string { if HasPrefix(s, "/") then s[1..] else s }

  function TrimSuffix(s: string): string { if s != "" && s[|s| - 1] == '/' then s[..|s| - 1] else s }

  function Trimmed(allowed: string): string { TrimPrefix(TrimSuffix(allowed)) }

  /** The whole repository is allowed. */
  predicate WholeRepo(allowed: seq<string>) {
    allowed == [] || exists i :: 0 <= i < |allowed| && Trimmed(allowed[i]) == ""
  }

  /** The segments of the directory begin the segments of the path. */
  predicate Within(path: string, dir: string) { Split(dir, '/') <= Split(path, '/') }

  /** A slash at either end of an allowed path makes no difference. */
  lemma EndSlashesMakeNoDifference(dir: string)
    requires dir != "" && dir[0] != '/' && dir[|dir| - 1] != '/'
    ensures Trimmed(dir) == Trimmed("/" + dir) == Trimmed(dir + "/") == Trimmed("/" + dir + "/") == dir
  {
    assert (dir + "/")[..|dir|] == dir && ("/" + dir)[1..] == dir;
    assert ("/" + dir + "/")[..|dir| + 1] == "/" + dir;
  }

  /** The whole repository is allowed exactly by an empty list, or by an entry of slashes only. */
  lemma WholeRepoExactlyWhen(allowed: seq<string>)
    ensures WholeRepo(allowed) <==> |allowed| == 0 || "" in allowed || "/" in allowed || "//" in allowed
  {
    forall i | 0 <= i < |allowed|
      ensures Trimmed(allowed[i]) == "" <==> allowed[i] == "" || allowed[i] == "/" || allowed[i] == "//"
    {
      TrimmedToNothing(allowed[i]);
    }
    var roots := ["", "/", "//"];
    forall r | r in roots && r in allowed ensures WholeRepo(allowed) {
      var i :| 0 <= i < |allowed| && allowed[i] == r;
      assert Trimmed(allowed[i]) == "";
    }
    assert roots[0] in roots && roots[1] in roots && roots[2] in roots;
  }

  lemma TrimmedToNothing(s: string)
    ensures Trimmed(s) == "" <==> s == "" || s == "/" || s == "//"
  {
    if Trimmed(s) == "" {
      assert |s| <= 2;
      assert |s| == 1 ==> s == [s[0]];
      assert |s| == 2 ==> s == [s[0], s[1]];
    }
  }

  /** Segment by segment, the path lies at or below one of the allowed paths. */
  predicate Below(path: string, allowed: seq<string>) {
    exists i :: 0 <= i < |allowed| && Within(path, Trimmed(allowed[i]))
  }

  predicate Confined(path: string, allowed: seq<string>) {
    WholeRepo(allowed) || Below(TrimPrefix(path), allowed)
  }

  function ConfinedOf(fixes: seq<Fix>, allowed: seq<string>): (kept: seq<Fix>)
    ensures |kept| <= |fixes|
  {
    if fixes == [] then []
    else
      var front := ConfinedOf(fixes[..|fixes| - 1], allowed);
      if Confined(fixes[|fixes| - 1].filePath, allowed) then front + [fixes[|fixes| - 1]] else front
  }

  lemma {:induction false} ConfinedContents(fixes: seq<Fix>, allowed: seq<string>, fix: Fix)
    ensures fix in ConfinedOf(fixes, allowed) <==> fix in fixes && Confined(fix.filePath, allowed)
  {
    if fixes != [] {
      var front, last := fixes[..|fixes| - 1], fixes[|fixes| - 1];
      ConfinedContents(front, allowed, fix);
      assert fixes == front + [last];
      var keep := Confined(last.filePath, allowed);
      assert ConfinedOf(fixes, allowed) == if keep then
        ConfinedOf(front, allowed) + [last] else ConfinedOf(front, allowed);
      assert fix == last || (fix in fixes <==> fix in front);
    }
  }

  lemma {:induction false} WholeRepoKeepsAll(fixes: seq<Fix>, allowed: seq<string>)
    requires WholeRepo(allowed)
    ensures ConfinedOf(fixes, allowed) == fixes
  {
    if fixes != [] {
      WholeRepoKeepsAll(fixes[..|fixes| - 1], allowed);
    }
  }

  /** The string test of the source decides the segment-wise relation. */
  lemma StringTestIsSegmentwise(path: string, dir: string)
    ensures HasPrefix(path + "/", dir + "/") <==> Within(path, dir)
  {
    assert path + "/" == path + ['/'] && dir + "/" == dir + ['/'];
    if HasPrefix(path + ['/'], dir + ['/']) {
      StringPrefixGivesSegments(path, dir, '/');
    }
    if Split(dir, '/') <= Split(path, '/') {
      SegmentsGiveStringPrefix(path, dir, '/');
    }
  }

  /** The prefixes to compare with, or None when the whole repository is allowed. */
  method AllowedPrefixes(allowed: seq<string>) returns (r: Option<seq<string>>)
    ensures r.None? <==> WholeRepo(allowed)
    ensures r.Some? ==> |r.value| == |allowed| && forall i :: 0 <= i < |allowed| ==>
      r.value[i] == Trimmed(allowed[i]) + "/"
  {
    if allowed == [] { return None; }
    var prefixes := [];
    for i := 0 to |allowed|
      invariant |prefixes| == i
      invariant forall j :: 0 <= j < i ==> Trimmed(allowed[j]) != "" && prefixes[j] == Trimmed(allowed[j]) + "/"
    {
      var p := Trimmed(allowed[i]);
      if p == "" { return None; }
      prefixes := prefixes + [p + "/"];
    }
    return Some(prefixes);
  }

  /** The comparison of the inner loop. */
  method UnderPrefix(path: string, prefix: string, ghost dir: string) returns (under: bool)
    requires prefix == dir + "/"
    ensures under <==> Within(path, dir)
  {
    StringTestIsSegmentwise(path, dir);
    under := HasPrefix(path + "/", prefix) || path == TrimSuffix(prefix);
  }

  method UnderAnyPrefix(path: string, prefixes: seq<string>, ghost allowed: seq<string>) returns (found: bool)
    requires |prefixes| == |allowed| && forall i :: 0 <= i < |allowed| ==> prefixes[i] == Trimmed(allowed[i]) + "/"
    ensures found <==> Below(path, allowed)
  {
    for i := 0 to |prefixes|
      invariant forall j :: 0 <= j < i ==> !Within(path, Trimmed(allowed[j]))
    {
      var under := UnderPrefix(path, prefixes[i], Trimmed(allowed[i]));
      if under { return true; }
    }
    return false;
  }

  method FilterFixesToAllowedPaths(fixes: seq<Fix>, allowed: seq<string>) returns (out: seq<Fix>)
    ensures out == ConfinedOf(fixes, allowed)
  {
    var prefixes := AllowedPrefixes(allowed);
    if prefixes.None? {
      WholeRepoKeepsAll(fixes, allowed);
      return fixes;
    }
    out := [];
    for i := 0 to |fixes|
      invariant out == ConfinedOf(fixes[..i], allowed)
    {
      assert fixes[..i + 1][..i] == fixes[..i];
      var found := UnderAnyPrefix(TrimPrefix(fixes[i].filePath), prefixes.value, allowed);
      if found { out := out + [fixes[i]]; }
    }
    assert fixes[..|fixes|] == fixes;
  }

  // ---- GeneratePlan ---------------------------------------------------------------------------

  function EstimateRisk(severity: Severity, fixes: nat): (risk: int)
    ensures 0 <= risk <= 100
  {
    var base := match severity case Critical => 10 case High => 20 case Medium => 40 case Low => 60 case _ => 30;
    if base + fixes * 5 < 100 then base + fixes * 5 else 100
  }

  function PlanFor(severity: Severity, answer: Answer, allowed: seq<string>): Option<Plan> {
    if !answer.Answered? then None
    else
      var e := Extract(answer.content, answer.decoded);
      var fixes := ConfinedOf(e.fixes, allowed);
      if fixes == [] then None
      else Some(Plan(fixes, e.analysis, if 0 <= e.riskScore <= 100 then
        e.riskScore else EstimateRisk(severity, |fixes|)))
  }

  method GeneratePlan(severity: Severity, answer: Answer, allowed: seq<string>) returns (plan: Option<Plan>)
    ensures plan == PlanFor(severity, answer, allowed)
  {
    if !answer.Answered? { return None; }
    var e := ExtractFixes(answer.content, answer.decoded);
    var fixes := e.fixes;
    if |allowed| > 0 {
      fixes := FilterFixesToAllowedPaths(fixes, allowed);
    } else {
      WholeRepoKeepsAll(fixes, allowed);
    }
    if fixes == [] { return None; }
    var risk := if 0 <= e.riskScore <= 100 then e.riskScore else EstimateRisk(severity, |fixes|);
    return Some(Plan(fixes, e.analysis, risk));
  }

  /** Whether a fix may be committed: an ordinary relative path at or below an allowed one. */
  predicate Safe(fix: Fix, allowed: seq<string>) {
    ValidPath(fix.filePath) && |fix.filePath| <= 512 && |fix.patch| <= 256 * 1024 && |fix.description| <= 4 * 1024 &&
    (fix.operation == Delete || !Blank(fix.patch)) &&
    (WholeRepo(allowed) || Below(fix.filePath, allowed))
  }

  lemma ExtractedAreValid(content: string, decoded: Option<Response>, fix: Fix)
    requires fix in Extract(content, decoded).fixes
    ensures Safe(fix, [])
  {
    AcceptedContents(Limited(decoded.value.fixes), fix);
  }

  /** Every plan has between one and twenty fixes, each of them safe, and a risk within 0..100. */
  lemma PlansAreConfined(severity: Severity, answer: Answer, allowed: seq<string>)
    requires PlanFor(severity, answer, allowed).Some?
    ensures var plan := PlanFor(severity, answer, allowed).value;
      1 <= |plan.fixes| <= 20 && 0 <= plan.riskScore <= 100 &&
      forall fix :: fix in plan.fixes ==> Safe(fix, allowed)
  {
    var plan := PlanFor(severity, answer, allowed).value;
    var e := Extract(answer.content, answer.decoded);
    forall fix | fix in plan.fixes ensures Safe(fix, allowed) {
      ConfinedContents(e.fixes, allowed, fix);
      ExtractedAreValid(answer.content, answer.decoded, fix);
      CleanIsRelative(fix.filePath);
    }
  }

  /** The fix is what the model wrote: its path, its patch and the operation it names; of the
      description at most the first 4 KiB. */
  predicate Comes(raw: RawFix, fix: Fix) {
    fix.filePath == raw.filePath && fix.patch == raw.patch && Names(raw.operation, fix.operation) &&
    fix.description <= raw.description && (|raw.description| <= 4 * 1024 ==> fix.description == raw.description)
  }

  predicate Names(word: string, op: FileOp) {
    (op == Create <==> word == "create") && (op == Update <==> word == "update") && (op == Delete <==> word == "delete")
  }

  /** Every fix of a plan is one of the first twenty in the answer. */
  lemma FixesComeFromTheAnswer(severity: Severity, answer: Answer, allowed: seq<string>, fix: Fix)
    requires PlanFor(severity, answer, allowed).Some? && fix in PlanFor(severity, answer, allowed).value.fixes
    ensures answer.Answered? && answer.decoded.Some?
    ensures exists i :: 0 <= i < |answer.decoded.value.fixes| && i < 20 && Comes(answer.decoded.value.fixes[i], fix)
  {
    var e := Extract(answer.content, answer.decoded);
    ConfinedContents(e.fixes, allowed, fix);
    var raws := Limited(answer.decoded.value.fixes);
    AcceptedContents(raws, fix);
    var i :| 0 <= i < |raws| && Acceptable(raws[i]) && fix == Accepted(raws[i]);
    assert raws[i] == answer.decoded.value.fixes[i] && Comes(raws[i], fix);
  }

  /** The analysis is the model's, with its risk assessment appended if there is one. */
  lemma AnalysisIsTheModels(severity: Severity, content: string, response: Response, allowed: seq<string>)
    requires PlanFor(severity, Answered(content, Some(response)), allowed).Some?
    ensures var plan := PlanFor(severity, Answered(content, Some(response)), allowed).value;
      plan.analysis == if response.riskAssessment == "" then response.analysis
                       else response.analysis + "\n\nRisk Assessment: " + response.riskAssessment
  {
    assert ConfinedOf([], allowed) == [];
  }

  /** A risk score within 0..100 that comes with the answer is kept; otherwise the estimate is. */
  lemma RiskIsTheModelsOrEstimated(severity: Severity, content: string, response: Response, allowed: seq<string>)
    requires PlanFor(severity, Answered(content, Some(response)), allowed).Some?
    ensures var plan := PlanFor(severity, Answered(content, Some(response)), allowed).value;
      var given := response.riskScore;
      plan.riskScore == if given.Some? && 0 <= given.value <= 100 then given.value
                        else EstimateRisk(severity, |plan.fixes|)
  {
    assert ConfinedOf([], allowed) == [];
  }

  /** The estimate: the worse the finding, the less risk in fixing it, with unknown labels between
      high and medium; and five for every file, up to a hundred. */
  lemma EstimatesAreOrdered(n: nat, other: string)
    requires n <= 8
    ensures EstimateRisk(Critical, n) < EstimateRisk(High, n) < EstimateRisk(Other(other), n)
              == EstimateRisk(Severity.Info, n) < EstimateRisk(Medium, n) <= EstimateRisk(Low, n)
    ensures EstimateRisk(Critical, n) == 10 + 5 * n && EstimateRisk(Low, 0) == 60 && EstimateRisk(Low, 8) == 100
    ensures EstimateRisk(High, n + 1) == EstimateRisk(High, n) + 5
  {
  }

  /** And no safe fix among the first twenty is dropped. */
  lemma SafeFixesAreKept(severity: Severity, content: string, response: Response, allowed: seq<string>, i: nat)
    requires i < |response.fixes| && i < 20 && Acceptable(response.fixes[i])
    requires WholeRepo(allowed) || Below(response.fixes[i].filePath, allowed)
    ensures var plan := PlanFor(severity, Answered(content, Some(response)), allowed);
      plan.Some? && Accepted(response.fixes[i]) in plan.value.fixes
  {
    var raws := Limited(response.fixes);
    assert raws[i] == response.fixes[i];
    var fix := Accepted(raws[i]);
    AcceptedContents(raws, fix);
    CleanIsRelative(fix.filePath);
    ConfinedContents(AcceptedOf(raws), allowed, fix);
  }

  /** The request builder refuses a planned path only for a backslash. */
  lemma PlannedPathsAreAccepted(fix: Fix, allowed: seq<string>)
    requires Safe(fix, allowed) && Bytes(fix.filePath) && '\\' !in fix.filePath
    ensures Clean(fix.filePath) && Clean(Escaped(fix.filePath)) && Unescape(Escaped(fix.filePath)) == fix.filePath
  {
    EscapingKeepsSegments(fix.filePath);
    EscapingRoundTrips(fix.filePath);
  }

  lemma SplitSnoc(path: string, c: char)
    requires c != '/'
    ensures var parts := Split(path, '/');
      Split(path + [c], '/') == parts[..|parts| - 1] + [parts[|parts| - 1] + [c]]
  {
    var parts := Split(path, '/');
    var front, last := parts[..|parts| - 1], parts[|parts| - 1];
    assert parts == front + [last];
    JoinSnoc(front, last, c);
    var more := front + [last + [c]];
    forall i | 0 <= i < |more| ensures '/' !in more[i] {
      assert parts[i] in parts;
    }
    SplitJoined(more, '/');
  }

  lemma JoinSnoc(front: seq<string>, last: string, c: char)
    ensures Join(front + [last + [c]], '/') == Join(front + [last], '/') + [c]
  {
    if front != [] {
      JoinAppend(front, [last], '/');
      JoinAppend(front, [last + [c]], '/');
    }
  }

  lemma OrdinarySnoc(segment: string, c: char)
    requires Ordinary(segment)
    ensures Ordinary(segment + [c])
  {
    var more, dots := segment + [c], "..";
    assert more[..|segment|] == segment && dots[..1] == ".";
  }

  /** The comment on validFixFilePath promises no control bytes. Any byte but NUL and the slash
      may follow in any valid path, a newline or an escape as well as a letter. */
  lemma ControlBytesAreAccepted(path: string, c: char)
    requires ValidPath(path) && |path| < MAX_PATH && c != '/' && c != '\0'
    ensures ValidPath(path + [c])
  {
    SplitSnoc(path, c);
    var parts, more := Split(path, '/'), Split(path + [c], '/');
    var last := parts[|parts| - 1];
    assert Ordinary(last);
    OrdinarySnoc(last, c);
    forall i | 0 <= i < |more| ensures Ordinary(more[i]) {
      if i < |more| - 1 { assert more[i] == parts[i]; }
    }
  }
}
