/** internal/gitops/engine.go: the names of remediation branches. */
module Gitops {
  import opened Text

  const OWN_PREFIX := "zelyo-operator/"
  const MAX_BRANCH: nat := 200
  const MAX_TITLE: nat := 40
  const UNTITLED := "untitled"

  predicate BranchChar(c: char) { 'a' <= c <= 'z' || '0' <= c <= '9' || c == '-' }

  /** What one byte of a title becomes. */
  function Folded(c: char): (s: string)
    ensures forall i :: 0 <= i < |s| ==> BranchChar(s[i])
  {
    if BranchChar(c) then [c]
    else if 'A' <= c <= 'Z' then [c + 32 as char]
    else if c == ' ' || c == '_' then "-"
    else ""
  }

  function FoldedAll(title: string): (s: string)
    ensures forall i :: 0 <= i < |s| ==> BranchChar(s[i])
  {
    if title == "" then "" else FoldedAll(title[..|title| - 1]) + Folded(title[|title| - 1])
  }

  function Sanitized(title: string): (s: string)
    ensures 1 <= |s| <= 40 && forall i :: 0 <= i < |s| ==> BranchChar(s[i])
  {
    var folded := FoldedAll(title);
    if folded == "" then UNTITLED else if |folded| > MAX_TITLE then folded[..MAX_TITLE] else folded
  }

  method SanitizeBranchName(title: string) returns (s: string)
    ensures s == Sanitized(title)
  {
    s := "";
    for i := 0 to |title|
      invariant s == FoldedAll(title[..i])
    {
      assert title[..i + 1][..i] == title[..i];
      var c := title[i];
      if 'a' <= c <= 'z' || '0' <= c <= '9' || c == '-' {
        s := s + [c];
      } else if 'A' <= c <= 'Z' {
        s := s + [c + 32 as char];
      } else if c == ' ' || c == '_' {
        s := s + "-";
      }
    }
    assert title[..|title|] == title;
    if |s| > MAX_TITLE { s := s[..MAX_TITLE]; }
    if |s| == 0 { s := UNTITLED; }
  }

  /** A name that is already fit for a branch and not too long is kept. */
  lemma SanitizedIsStable(title: string)
    ensures Sanitized(Sanitized(title)) == Sanitized(title)
  {
    FoldedIsStable(Sanitized(title));
  }

  lemma {:induction false} FoldedIsStable(s: string)
    requires forall i :: 0 <= i < |s| ==> BranchChar(s[i])
    ensures FoldedAll(s) == s
  {
    if s != "" {
      FoldedIsStable(s[..|s| - 1]);
    }
  }

  predicate Kept(c: char) { 'a' <= c <= 'z' || 'A' <= c <= 'Z' || '0' <= c <= '9' || c in {'-', ' ', '_'} }

  lemma {:induction false} FoldedBytes(title: string)
    requires forall i :: 0 <= i < |title| ==> Kept(title[i])
    ensures |FoldedAll(title)| == |title|
    ensures forall i :: 0 <= i < |title| ==>
      FoldedAll(title)[i] == if 'A' <= title[i] <= 'Z' then (title[i] as int + 32) as char
                             else if title[i] == ' ' || title[i] == '_' then '-' else title[i]
  {
    if title != "" {
      FoldedBytes(title[..|title| - 1]);
    }
  }

  lemma {:induction false} FoldedAppend(a: string, b: string)
    ensures FoldedAll(a + b) == FoldedAll(a) + FoldedAll(b)
  {
    if b == "" {
      assert a + b == a;
    } else {
      assert (a + b)[..|a + b| - 1] == a + b[..|b| - 1];
      FoldedAppend(a, b[..|b| - 1]);
    }
  }

  /** Byte by byte: a title of at most forty letters, digits, hyphens, spaces and underscores is
      taken over in lower case with hyphens for the last two. */
  lemma SanitizedBytes(title: string, i: nat)
    requires (forall j :: 0 <= j < |title| ==> Kept(title[j])) && |title| <= 40 && i < |title|
    ensures |Sanitized(title)| == |title|
    ensures Sanitized(title)[i] == if 'A' <= title[i] <= 'Z' then (title[i] as int + 32) as char
                                   else if title[i] == ' ' || title[i] == '_' then '-' else title[i]
  {
    FoldedBytes(title);
  }

  lemma FoldedSingle(c: char)
    ensures FoldedAll([c]) == Folded(c)
  {
    assert [c][..0] == "";
  }

  /** Any other byte is dropped. */
  lemma SanitizedDrops(a: string, c: char, b: string)
    requires !Kept(c)
    ensures Sanitized(a + [c] + b) == Sanitized(a + b)
  {
    FoldedSingle(c);
    FoldedAppend(a, [c]);
    FoldedAppend(a + [c], b);
    FoldedAppend(a, b);
    assert FoldedAll(a) + "" == FoldedAll(a);
  }

  /** What lies behind the fortieth byte is cut, and a title without a usable byte is "untitled". */
  lemma SanitizedCuts(a: string, b: string)
    ensures |FoldedAll(a)| >= 40 ==> Sanitized(a + b) == Sanitized(a)
    ensures (forall i :: 0 <= i < |a| ==> !Kept(a[i])) ==> Sanitized(a) == "untitled"
  {
    FoldedAppend(a, b);
    assert |FoldedAll(a)| >= 40 ==> (FoldedAll(a) + FoldedAll(b))[..40] == FoldedAll(a)[..40];
    if forall i :: 0 <= i < |a| ==> !Kept(a[i]) { UnusableIsEmpty(a); }
  }

  lemma {:induction false} UnusableIsEmpty(a: string)
    requires forall i :: 0 <= i < |a| ==> !Kept(a[i])
    ensures FoldedAll(a) == ""
  {
    if a != "" { UnusableIsEmpty(a[..|a| - 1]); }
  }

  /** What tells findings apart: namespace, resource and sanitized title, joined by hyphens. */
  function Subject(resource: string, namespace: string, title: string): string {
    namespace + "-" + resource + "-" + Sanitized(title)
  }

  const BRANCH_PREFIX := "zelyo-operator/fix/"

  /** Every branch carries the operator's own prefix, whatever the resource is called: the cut
      to 200 bytes falls behind it. */
  function BranchName(resource: string, namespace: string, title: string): (branch: string)
    ensures HasPrefix(branch, "zelyo-operator/") && |branch| <= 200
  {
    var branch := BRANCH_PREFIX + Subject(resource, namespace, title);
    assert OWN_PREFIX + "fix/" == BRANCH_PREFIX;
    if |branch| > MAX_BRANCH then branch[..MAX_BRANCH] else branch
  }

  /** What a branch and its pull request are made for. */
  datatype Purpose = Purpose(resource: string, namespace: string, title: string)

  function BranchFor(purpose: Purpose): (branch: string)
    ensures HasPrefix(branch, OWN_PREFIX)
  {
    BranchName(purpose.resource, purpose.namespace, purpose.title)
  }

  // ---- when two findings share a branch ---------------------------------------------------

  /** The bytes of a subject that fit behind the prefix. */
  const ROOM: nat := MAX_BRANCH - |BRANCH_PREFIX|

  function Fitting(subject: string): string { if |subject| > ROOM then subject[..ROOM] else subject }

  /** The name is the prefix and, of the subject, the first 181 bytes. */
  lemma BranchIsPrefixAndSubject(resource: string, namespace: string, title: string)
    ensures BranchName(resource, namespace, title) == BRANCH_PREFIX + Fitting(Subject(resource, namespace, title))
    ensures var subject := namespace + "-" + resource + "-" + Sanitized(title);
      |subject| <= 181 ==> BranchName(resource, namespace, title) == "zelyo-operator/fix/" + subject
  {
  }

  /** Two findings share a branch if and only if their subjects are equal, or both are cut and
      agree as far as they fit. */
  lemma BranchesCoincideExactlyWhen(r1: string, n1: string, t1: string, r2: string, n2: string, t2: string)
    ensures var a, b := Subject(r1, n1, t1), Subject(r2, n2, t2);
      BranchName(r1, n1, t1) == BranchName(r2, n2, t2) <==>
      a == b || (|a| >= ROOM && |b| >= ROOM && a[..ROOM] == b[..ROOM])
  {
    var a, b := Subject(r1, n1, t1), Subject(r2, n2, t2);
    BranchIsPrefixAndSubject(r1, n1, t1);
    BranchIsPrefixAndSubject(r2, n2, t2);
    SamePrefix(BRANCH_PREFIX, Fitting(a), Fitting(b));
    FittingCoincides(a, b);
  }

  lemma SamePrefix(prefix: string, a: string, b: string)
    ensures prefix + a == prefix + b <==> a == b
  {
    assert (prefix + a)[|prefix|..] == a && (prefix + b)[|prefix|..] == b;
  }

  lemma FittingCoincides(a: string, b: string)
    ensures Fitting(a) == Fitting(b) <==> a == b || (|a| >= ROOM && |b| >= ROOM && a[..ROOM] == b[..ROOM])
  {
    assert |a| == ROOM ==> a[..ROOM] == a;
    assert |b| == ROOM ==> b[..ROOM] == b;
  }

  /** Without hyphens in namespace and resource, and within the room, the name tells which
      namespace, which resource and which sanitized title it was made for. */
  lemma BranchesOfPlainNamesDiffer(r1: string, n1: string, t1: string, r2: string, n2: string, t2: string)
    requires '-' !in n1 && '-' !in n2 && '-' !in r1 && '-' !in r2
    requires |Subject(r1, n1, t1)| <= ROOM && |Subject(r2, n2, t2)| <= ROOM
    requires BranchName(r1, n1, t1) == BranchName(r2, n2, t2)
    ensures n1 == n2 && r1 == r2 && Sanitized(t1) == Sanitized(t2)
  {
    BranchesCoincideExactlyWhen(r1, n1, t1, r2, n2, t2);
    var a, b := Subject(r1, n1, t1), Subject(r2, n2, t2);
    assert |a| == ROOM ==> a[..ROOM] == a;
    assert |b| == ROOM ==> b[..ROOM] == b;
    PlainTextsDiffer(n1, r1, Sanitized(t1), n2, r2, Sanitized(t2));
  }

  lemma PlainTextsDiffer(n1: string, r1: string, x1: string, n2: string, r2: string, x2: string)
    requires '-' !in n1 && '-' !in n2 && '-' !in r1 && '-' !in r2
    requires n1 + "-" + r1 + "-" + x1 == n2 + "-" + r2 + "-" + x2
    ensures n1 == n2 && r1 == r2 && x1 == x2
  {
    var y1, y2 := r1 + ['-'] + x1, r2 + ['-'] + x2;
    assert n1 + ['-'] + y1 == n1 + "-" + r1 + "-" + x1;
    assert n2 + ['-'] + y2 == n2 + "-" + r2 + "-" + x2;
    FirstHyphenSplits(n1, y1, n2, y2);
    FirstHyphenSplits(r1, x1, r2, x2);
  }

  lemma FirstHyphenSplits(a: string, x: string, b: string, y: string)
    requires '-' !in a && '-' !in b && a + ['-'] + x == b + ['-'] + y
    ensures a == b && x == y
  {
    var s := a + ['-'] + x;
    assert s[|a|] == '-' && s[|b|] == '-';
    assert s[..|a|] == a && s[..|b|] == b;
    assert s[|a| + 1..] == x && s[|b| + 1..] == y;
  }

  /** With hyphens the subject can be read in two ways, and the findings share a branch. */
  lemma HyphensMakeBranchesCoincide(namespace: string, resource: string, more: string, title: string)
    ensures BranchName(resource + "-" + more, namespace, title) == BranchName(more, namespace + "-" + resource, title)
  {
    assert Subject(resource + "-" + more, namespace, title) == Subject(more, namespace + "-" + resource, title) by {
      assert namespace + "-" + (resource + "-" + more) == namespace + "-" + resource + "-" + more;
    }
  }

  lemma SameStart(head: string, x: string, y: string)
    requires |head| >= ROOM
    ensures (head + x)[..ROOM] == (head + y)[..ROOM]
  {
    assert (head + x)[..ROOM] == head[..ROOM] && (head + y)[..ROOM] == head[..ROOM];
  }

  /** And where namespace and resource alone fill the room, nothing behind them counts. */
  lemma LongNamesMakeBranchesCoincide(namespace: string, resource: string, more: string, t1: string, t2: string)
    requires |namespace| + |resource| + 1 >= ROOM
    ensures BranchName(resource, namespace, t1) == BranchName(resource + more, namespace, t2)
  {
    var head := namespace + "-" + resource;
    var a, b := Subject(resource, namespace, t1), Subject(resource + more, namespace, t2);
    assert a == head + ("-" + Sanitized(t1)) && b == head + (more + "-" + Sanitized(t2));
    SameStart(head, "-" + Sanitized(t1), more + "-" + Sanitized(t2));
    BranchesCoincideExactlyWhen(resource, namespace, t1, resource + more, namespace, t2);
  }
}
