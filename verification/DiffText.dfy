/** The three diff printers: buildFixPlanDiff (internal/remediation/engine.go), buildPresetDiff
    (internal/dashboard/presets_handler.go) and BuildDiff (internal/dashboard/presets.go), and a
    decoder that shows what their output determines. */
module DiffText {
  import opened Text
  import opened RepoPath
  import FixPlan

  datatype File = File(path: string, content: string)

  const NEWLINE: char := '\n'

  // ---- what is printed ------------------------------------------------------------------

  function Unlines(lines: seq<string>): string {
    if lines == [] then "" else lines[0] + [NEWLINE] + Unlines(lines[1..])
  }

  const FIRST_LINE := "--- /dev/null"

  function PathLine(path: string): string { "+++ b/" + path }

  function HunkLine(count: nat): string { "@@ +0,0 +1," + Decimal(count) + " @@" }

  function Marked(lines: seq<string>): seq<string> {
    seq(|lines|, i requires 0 <= i < |lines| => "+" + lines[i])
  }

  function FileLines(file: File, count: nat): seq<string> {
    [FIRST_LINE, PathLine(file.path), HunkLine(count)] + Marked(Split(file.content, NEWLINE))
  }

  /** lineCount of internal/dashboard/presets.go. */
  function LineCount(s: string): nat { if s == "" then 0 else Occurrences(s, NEWLINE) + 1 }

  function Occurrences(s: string, c: char): nat {
    if s == "" then 0 else (if s[0] == c then 1 else 0) + Occurrences(s[1..], c)
  }

  function Count(file: File, preset: bool): nat {
    if preset then LineCount(file.content) else |Split(file.content, NEWLINE)|
  }

  function AllLines(files: seq<File>, preset: bool): seq<string> {
    if files == [] then [] else FileLines(files[0], Count(files[0], preset)) + AllLines(files[1..], preset)
  }

  /** The whole text; `preset` selects the line count of BuildDiff. */
  function Printed(files: seq<File>, preset: bool): string { Unlines(AllLines(files, preset)) }

  lemma {:induction false} UnlinesAppend(a: seq<string>, b: seq<string>)
    ensures Unlines(a + b) == Unlines(a) + Unlines(b)
  {
    if a == [] {
      assert a + b == b;
    } else {
      assert (a + b)[1..] == a[1..] + b;
      UnlinesAppend(a[1..], b);
    }
  }

  lemma {:induction false} LinesOfFront(files: seq<File>, preset: bool, i: nat)
    requires i < |files|
    ensures AllLines(files[..i + 1], preset) ==
      AllLines(files[..i], preset) + FileLines(files[i], Count(files[i], preset))
  {
    var more, less := files[..i + 1], files[..i];
    if i == 0 {
      assert more == [files[0]] && more[1..] == [] && less == [];
    } else {
      var rest := files[1..];
      assert more[1..] == rest[..i] && less[1..] == rest[..i - 1];
      LinesOfFront(rest, preset, i - 1);
    }
  }

  function Header(file: File, count: nat): string {
    FIRST_LINE + [NEWLINE] + PathLine(file.path) + [NEWLINE] + HunkLine(count) + [NEWLINE]
  }

  lemma UnlinesThree(a: string, b: string, c: string)
    ensures Unlines([a, b, c]) == a + [NEWLINE] + b + [NEWLINE] + c + [NEWLINE]
  {
    assert [c][1..] == [] && [b, c][1..] == [c] && [a, b, c][1..] == [b, c];
    assert Unlines([c]) == c + [NEWLINE];
    assert Unlines([b, c]) == b + [NEWLINE] + Unlines([c]);
  }

  lemma FileText(file: File, count: nat)
    ensures Unlines(FileLines(file, count)) == Header(file, count) + Unlines(Marked(Split(file.content, NEWLINE)))
  {
    UnlinesThree(FIRST_LINE, PathLine(file.path), HunkLine(count));
    UnlinesAppend([FIRST_LINE, PathLine(file.path), HunkLine(count)], Marked(Split(file.content, NEWLINE)));
  }

  lemma UnlinesOfFront(lines: seq<string>, i: nat)
    requires i < |lines|
    ensures Unlines(lines[..i + 1]) == Unlines(lines[..i]) + lines[i] + [NEWLINE]
  {
    assert lines[..i + 1] == lines[..i] + [lines[i]];
    UnlinesAppend(lines[..i], [lines[i]]);
    assert Unlines([lines[i]]) == lines[i] + [NEWLINE];
  }

  // ---- the printers ------------------------------------------------------------------------

  function FilesOf(fixes: seq<FixPlan.Fix>): seq<File> {
    seq(|fixes|, i requires 0 <= i < |fixes| => File(fixes[i].filePath, fixes[i].patch))
  }

  /** Printing one more line of content. */
  lemma NextLine(before: string, lines: seq<string>, j: nat)
    requires j < |lines|
    ensures before + Unlines(Marked(lines)[..j + 1]) ==
      before + Unlines(Marked(lines)[..j]) + "+" + lines[j] + [NEWLINE]
  {
    UnlinesOfFront(Marked(lines), j);
    assert Marked(lines)[j] == "+" + lines[j];
  }

  /** Having printed the header and every line, one more file is printed. */
  lemma NextFile(files: seq<File>, preset: bool, i: nat, lines: seq<string>)
    requires i < |files| && lines == Split(files[i].content, NEWLINE)
    ensures Printed(files[..i], preset) + Header(files[i], Count(files[i], preset)) + Unlines(Marked(lines)[..|lines|])
         == Printed(files[..i + 1], preset)
  {
    var count := Count(files[i], preset);
    assert Marked(lines)[..|lines|] == Marked(lines);
    LinesOfFront(files, preset, i);
    UnlinesAppend(AllLines(files[..i], preset), FileLines(files[i], count));
    FileText(files[i], count);
  }

  method BuildFixPlanDiff(fixes: seq<FixPlan.Fix>) returns (b: string)
    ensures b == Printed(FilesOf(fixes), false)
  {
    ghost var files := FilesOf(fixes);
    b := "";
    for i := 0 to |fixes|
      invariant b == Printed(files[..i], false)
    {
      var lines := Split(fixes[i].patch, NEWLINE);
      ghost var start := b + Header(files[i], |lines|);
      b := b + Header(File(fixes[i].filePath, fixes[i].patch), |lines|);
      for j := 0 to |lines|
        invariant b == start + Unlines(Marked(lines)[..j])
      {
        NextLine(start, lines, j);
        b := b + "+" + lines[j] + [NEWLINE];
      }
      NextFile(files, false, i, lines);
    }
    assert files[..|files|] == files;
  }

  method BuildPresetDiff(files: seq<File>) returns (b: string)
    ensures b == Printed(files, false)
  {
    b := "";
    for i := 0 to |files|
      invariant b == Printed(files[..i], false)
    {
      var lines := Split(files[i].content, NEWLINE);
      b := b + Header(files[i], |lines|);
      ghost var start := b;
      for j := 0 to |lines|
        invariant b == start + Unlines(Marked(lines)[..j])
      {
        NextLine(start, lines, j);
        b := b + "+" + lines[j] + [NEWLINE];
      }
      NextFile(files, false, i, lines);
    }
    assert files[..|files|] == files;
  }

  /** Counts the lines of the header with LineCount. */
  method BuildDiff(files: seq<File>) returns (b: string)
    ensures b == Printed(files, true)
  {
    b := "";
    for i := 0 to |files|
      invariant b == Printed(files[..i], true)
    {
      b := b + Header(files[i], LineCount(files[i].content));
      ghost var start := b;
      var lines := Split(files[i].content, NEWLINE);
      for j := 0 to |lines|
        invariant b == start + Unlines(Marked(lines)[..j])
      {
        NextLine(start, lines, j);
        b := b + "+" + lines[j] + [NEWLINE];
      }
      NextFile(files, true, i, lines);
    }
    assert files[..|files|] == files;
  }

  // ---- the decoder -----------------------------------------------------------------------

  predicate IsContent(line: string) { HasPrefix(line, "+") }

  /** How many of the first lines are content. */
  function ContentLines(lines: seq<string>): (n: nat)
    ensures n <= |lines|
  {
    if lines == [] || !IsContent(lines[0]) then 0 else 1 + ContentLines(lines[1..])
  }

  function Unmarked(lines: seq<string>): seq<string> {
    seq(|lines|, i requires 0 <= i < |lines| => if lines[i] == "" then "" else lines[i][1..])
  }

  function DecodeLines(lines: seq<string>): seq<File> {
    if |lines| < 4 then []
    else
      var body := lines[3..];
      var n := ContentLines(body);
      if n == 0 || |lines[1]| < 6 then []
      else [File(lines[1][6..], Join(Unmarked(body[..n]), NEWLINE))] + DecodeLines(body[n..])
  }

  function Decode(text: string): seq<File> {
    var lines := Split(text, NEWLINE);
    DecodeLines(lines[..|lines| - 1])
  }

  lemma {:induction false} SplitUnlines(lines: seq<string>)
    requires forall i :: 0 <= i < |lines| ==> NEWLINE !in lines[i]
    ensures Split(Unlines(lines), NEWLINE) == lines + [""]
  {
    if lines != [] {
      SplitUnlines(lines[1..]);
      SplitAppend(lines[0], NEWLINE, Unlines(lines[1..]));
      SplitWithout(lines[0], NEWLINE);
      assert lines == [lines[0]] + lines[1..];
    }
  }

  lemma {:induction false} ContentLinesOf(marked: seq<string>, rest: seq<string>)
    requires forall i :: 0 <= i < |marked| ==> IsContent(marked[i])
    requires rest == [] || !IsContent(rest[0])
    ensures ContentLines(marked + rest) == |marked|
  {
    if marked == [] {
      assert marked + rest == rest;
    } else {
      assert (marked + rest)[1..] == marked[1..] + rest;
      ContentLinesOf(marked[1..], rest);
    }
  }

  lemma DecodeFile(file: File, count: nat, rest: seq<string>)
    requires rest == [] || !IsContent(rest[0])
    ensures DecodeLines(FileLines(file, count) + rest) == [file] + DecodeLines(rest)
  {
    var lines := FileLines(file, count) + rest;
    var content := Split(file.content, NEWLINE);
    var marked := Marked(content);
    assert lines[1] == PathLine(file.path) && lines[1][6..] == file.path;
    assert lines[3..] == marked + rest;
    ContentLinesOf(marked, rest);
    assert (marked + rest)[..|marked|] == marked && (marked + rest)[|marked|..] == rest;
    assert Unmarked(marked) == content by {
      assert forall i :: 0 <= i < |marked| ==> marked[i][1..] == content[i];
    }
  }

  lemma {:induction false} DecodeAllLines(files: seq<File>, preset: bool)
    ensures DecodeLines(AllLines(files, preset)) == files
    ensures AllLines(files, preset) == [] || !IsContent(AllLines(files, preset)[0])
  {
    if files != [] {
      DecodeAllLines(files[1..], preset);
      DecodeFile(files[0], Count(files[0], preset), AllLines(files[1..], preset));
      assert files == [files[0]] + files[1..];
      assert FIRST_LINE[0] == '-';
    }
  }

  predicate NoNewlines(lines: seq<string>) { forall i :: 0 <= i < |lines| ==> NEWLINE !in lines[i] }

  lemma FileLinesHaveNoNewline(file: File, count: nat)
    requires NEWLINE !in file.path
    ensures NoNewlines(FileLines(file, count))
  {
    var lines, content := FileLines(file, count), Split(file.content, NEWLINE);
    forall i | 0 <= i < |lines| ensures NEWLINE !in lines[i] {
      if i >= 3 {
        assert lines[i] == "+" + content[i - 3];
        assert content[i - 3] in content;
      }
    }
  }

  lemma {:induction false} LinesHaveNoNewline(files: seq<File>, preset: bool)
    requires forall i :: 0 <= i < |files| ==> NEWLINE !in files[i].path
    ensures NoNewlines(AllLines(files, preset))
  {
    if files != [] {
      LinesHaveNoNewline(files[1..], preset);
      FileLinesHaveNoNewline(files[0], Count(files[0], preset));
    }
  }

  predicate PlainPaths(files: seq<File>) { forall i :: 0 <= i < |files| ==> NEWLINE !in files[i].path }

  lemma {:induction false} DecodedPathsArePlain(lines: seq<string>)
    requires NoNewlines(lines)
    ensures PlainPaths(DecodeLines(lines))
  {
    if |lines| >= 4 {
      var body := lines[3..];
      DecodedPathsArePlain(body[ContentLines(body)..]);
      assert NEWLINE !in lines[1];
    }
  }

  /** Either text determines the exact list of paths and contents, if and only if no path has a
      newline. */
  lemma DiffRoundTrips(files: seq<File>, preset: bool)
    ensures Decode(Printed(files, preset)) == files <==> PlainPaths(files)
  {
    if PlainPaths(files) {
      var lines := AllLines(files, preset);
      LinesHaveNoNewline(files, preset);
      SplitUnlines(lines);
      assert (lines + [""])[..|lines|] == lines;
      DecodeAllLines(files, preset);
    }
    var lines := Split(Printed(files, preset), NEWLINE);
    assert forall i :: 0 <= i < |lines| ==> lines[i] in lines;
    DecodedPathsArePlain(lines[..|lines| - 1]);
  }

  // ---- paths with newlines -------------------------------------------------------------------

  /** The lines between the path line of a one-line file and the hunk of the next file. */
  function Between(x: string, q: string): seq<string> { [HunkLine(1), "+" + x, FIRST_LINE, PathLine(q)] }

  /** A path that spells out one file's hunk and the next file's header. */
  function SpelledOut(p: string, x: string, q: string): string { p + [NEWLINE] + Join(Between(x, q), NEWLINE) }

  lemma {:induction false} UnlinesJoined(lines: seq<string>)
    requires |lines| >= 1
    ensures Unlines([Join(lines, NEWLINE)]) == Unlines(lines)
  {
    var joined := Join(lines, NEWLINE);
    assert [joined][1..] == [];
    if |lines| == 1 {
      assert lines == [joined];
    } else {
      UnlinesJoined(lines[1..]);
      var rest := Join(lines[1..], NEWLINE);
      assert [rest][1..] == [];
      assert Unlines([rest]) == rest + [NEWLINE] + Unlines([]);
    }
  }

  lemma SpelledPathLine(p: string, x: string, q: string)
    ensures Unlines([PathLine(SpelledOut(p, x, q))]) == Unlines([PathLine(p)] + Between(x, q))
  {
    var lines := [PathLine(p)] + Between(x, q);
    assert lines[1..] == Between(x, q);
    assert PathLine(SpelledOut(p, x, q)) == PathLine(p) + [NEWLINE] + Join(Between(x, q), NEWLINE);
    UnlinesJoined(lines);
  }

  /** With newlines in paths no decoder can do better: one file prints exactly like two. */
  lemma NewlinePathsCollide(p: string, x: string, q: string, y: string)
    requires NEWLINE !in x
    ensures Printed([File(SpelledOut(p, x, q), y)], false) == Printed([File(p, x), File(q, y)], false)
  {
    var one, a, b := File(SpelledOut(p, x, q), y), File(p, x), File(q, y);
    var rest := [HunkLine(|Split(y, NEWLINE)|)] + Marked(Split(y, NEWLINE));
    LinesOfTwo(a, b, rest);
    assert [one][1..] == [];
    assert AllLines([one], false) == [FIRST_LINE] + ([PathLine(one.path)] + rest);
    UnlinesThreeParts([FIRST_LINE], [PathLine(one.path)], rest);
    UnlinesThreeParts([FIRST_LINE], [PathLine(p)] + Between(x, q), rest);
    SpelledPathLine(p, x, q);
  }

  lemma LinesOfTwo(a: File, b: File, rest: seq<string>)
    requires NEWLINE !in a.content
    requires rest == [HunkLine(|Split(b.content, NEWLINE)|)] + Marked(Split(b.content, NEWLINE))
    ensures AllLines([a, b], false) == [FIRST_LINE] + (([PathLine(a.path)] + Between(a.content, b.path)) + rest)
  {
    SplitWithout(a.content, NEWLINE);
    assert Marked([a.content]) == ["+" + a.content];
    assert [a, b][1..] == [b] && [b][1..] == [];
    assert AllLines([b], false) == [FIRST_LINE, PathLine(b.path)] + rest;
    assert FileLines(a, 1) == [FIRST_LINE, PathLine(a.path), HunkLine(1), "+" + a.content];
  }

  lemma UnlinesThreeParts(a: seq<string>, b: seq<string>, c: seq<string>)
    ensures Unlines(a + (b + c)) == Unlines(a) + (Unlines(b) + Unlines(c))
  {
    UnlinesAppend(a, b + c);
    UnlinesAppend(b, c);
  }

  /** One segment of a path that validFixFilePath lets through. */
  predicate FineSegment(s: string) { Ordinary(s) && '/' !in s && '\0' !in s }

  lemma FourSegments(a: string, b: string, c: string, d: string)
    requires FineSegment(a) && FineSegment(b) && FineSegment(c) && FineSegment(d)
    requires |a| + |b| + |c| + |d| + 3 <= FixPlan.MAX_PATH
    ensures FixPlan.ValidPath(a + ['/'] + (b + ['/'] + (c + ['/'] + d)))
  {
    SplitAppend(a, '/', b + ['/'] + (c + ['/'] + d));
    SplitAppend(b, '/', c + ['/'] + d);
    SplitAppend(c, '/', d);
    SplitWithout(a, '/');
    SplitWithout(b, '/');
    SplitWithout(c, '/');
    SplitWithout(d, '/');
    assert Split(a + ['/'] + (b + ['/'] + (c + ['/'] + d)), '/') == [a, b, c, d];
  }

  lemma JoinFour(a: string, b: string, c: string, d: string)
    ensures Join([a, b, c, d], NEWLINE) == a + [NEWLINE] + (b + [NEWLINE] + (c + [NEWLINE] + d))
  {
    assert [c, d][1..] == [d] && [b, c, d][1..] == [c, d] && [a, b, c, d][1..] == [b, c, d];
    assert Join([d], NEWLINE) == d;
    assert Join([c, d], NEWLINE) == c + [NEWLINE] + d;
    assert Join([b, c, d], NEWLINE) == b + [NEWLINE] + (c + [NEWLINE] + d);
  }

  function FirstSegment(p: string, x: string): string {
    p + [NEWLINE] + HunkLine(1) + [NEWLINE] + ("+" + x) + [NEWLINE] + "--- "
  }

  const THIRD_SEGMENT := "null" + [NEWLINE] + "+++ b"

  function OtherSegments(q: string): string { "dev" + ['/'] + (THIRD_SEGMENT + ['/'] + q) }

  lemma SpelledSegments(p: string, x: string, q: string)
    ensures SpelledOut(p, x, q) == FirstSegment(p, x) + ['/'] + OtherSegments(q)
  {
    JoinFour(HunkLine(1), "+" + x, FIRST_LINE, PathLine(q));
    TailShape(q);
    HeadShape(p, HunkLine(1), "+" + x, "--- ", ['/'] + OtherSegments(q));
    assert FirstSegment(p, x) + ['/'] + OtherSegments(q) == FirstSegment(p, x) + (['/'] + OtherSegments(q));
  }

  lemma TailShape(q: string)
    ensures FIRST_LINE + [NEWLINE] + PathLine(q) == "--- " + (['/'] + OtherSegments(q))
  {
    var front := "--- /dev/null" + [NEWLINE] + "+++ b/";
    assert FIRST_LINE + [NEWLINE] + PathLine(q) == front + q;
    assert front == "--- " + (['/'] + ("dev" + ['/'] + (THIRD_SEGMENT + ['/'])));
    assert "--- " + (['/'] + OtherSegments(q)) == "--- " + (['/'] + ("dev" + ['/'] + (THIRD_SEGMENT + ['/']))) + q;
  }

  lemma HeadShape(p: string, hunk: string, line: string, dashes: string, tail: string)
    ensures p + [NEWLINE] + (hunk + [NEWLINE] + (line + [NEWLINE] + (dashes + tail)))
         == p + [NEWLINE] + hunk + [NEWLINE] + line + [NEWLINE] + dashes + tail
  {
    assert line + [NEWLINE] + (dashes + tail) == line + [NEWLINE] + dashes + tail;
    assert hunk + [NEWLINE] + (line + [NEWLINE] + dashes + tail) == hunk + [NEWLINE] + line + [NEWLINE] + dashes + tail;
  }

  /** And plans may have such paths: validFixFilePath accepts every one of moderate length. */
  lemma PlansCanCollide(p: string, x: string, q: string)
    requires '/' !in p && '/' !in x && '\0' !in p && '\0' !in x && FineSegment(q) && |p| + |x| + |q| <= 400
    ensures FixPlan.ValidPath(SpelledOut(p, x, q))
  {
    SpelledSegments(p, x, q);
    assert |Decimal(1)| == 1;
    FourSegments(FirstSegment(p, x), "dev", THIRD_SEGMENT, q);
  }

  /** The text itself, for a file of one line. */
  lemma PrintedOneLine(path: string, line: string)
    requires NEWLINE !in line
    ensures Printed([File(path, line)], false) ==
      "--- /dev/null\n+++ b/" + path + "\n@@ +0,0 +1,1 @@\n+" + line + "\n"
  {
    var file := File(path, line);
    SplitWithout(line, NEWLINE);
    assert [file][1..] == [];
    assert AllLines([file], false) == FileLines(file, 1);
    FileText(file, 1);
    assert Marked([line]) == ["+" + line];
    var marked := ["+" + line];
    assert marked[1..] == [] && Unlines(marked) == "+" + line + "\n";
    HeaderOfOne(path, line);
  }

  lemma HeaderOfOne(path: string, line: string)
    ensures Header(File(path, line), 1) == "--- /dev/null\n+++ b/" + path + "\n@@ +0,0 +1,1 @@\n"
  {
    assert Decimal(1) == "1";
    var front, back := FIRST_LINE + [NEWLINE] + "+++ b/", [NEWLINE] + HunkLine(1) + [NEWLINE];
    assert front == "--- /dev/null\n+++ b/";
    assert back == "\n@@ +0,0 +1,1 @@\n";
    Bracket(FIRST_LINE + [NEWLINE], "+++ b/", path, [NEWLINE], HunkLine(1), [NEWLINE]);
  }

  lemma Bracket(a: string, b: string, c: string, d: string, e: string, f: string)
    ensures a + (b + c) + d + e + f == (a + b) + c + (d + e + f)
  {
  }

  // ---- when the printers agree ---------------------------------------------------------------

  lemma {:induction false} SplitCounts(s: string)
    ensures |Split(s, NEWLINE)| == Occurrences(s, NEWLINE) + 1
  {
    if s != "" {
      SplitCounts(s[1..]);
    }
  }

  lemma EmptyContentDiffers(file: File, a: string, b: string)
    requires file.content == ""
    ensures Unlines(FileLines(file, Count(file, true))) + a != Unlines(FileLines(file, Count(file, false))) + b
  {
    FileText(file, 0);
    FileText(file, 1);
    var body := Unlines(Marked(Split(file.content, NEWLINE)));
    CountIsPrinted(file, 0, body + a);
    CountIsPrinted(file, 1, body + b);
    assert Unlines(FileLines(file, 0)) + a == Header(file, 0) + (body + a);
    assert Unlines(FileLines(file, 1)) + b == Header(file, 1) + (body + b);
    assert |Split(file.content, NEWLINE)| == 1;
  }

  lemma CountIsPrinted(file: File, count: nat, rest: string)
    requires count < 10
    ensures var before := FIRST_LINE + [NEWLINE] + PathLine(file.path) + [NEWLINE] + "@@ +0,0 +1,";
      |before| < |Header(file, count) + rest| && (Header(file, count) + rest)[|before|] == Digit(count)
  {
    var before := FIRST_LINE + [NEWLINE] + PathLine(file.path) + [NEWLINE] + "@@ +0,0 +1,";
    assert Header(file, count) == before + (Decimal(count) + " @@" + [NEWLINE]);
  }

  predicate NoEmptyFile(files: seq<File>) { forall i :: 0 <= i < |files| ==> files[i].content != "" }

  /** BuildDiff prints the same text as the other two exactly when no file is empty. */
  lemma {:induction false} PrintersAgreeUnlessEmpty(files: seq<File>)
    ensures Printed(files, true) == Printed(files, false) <==> NoEmptyFile(files)
  {
    if files != [] {
      var file, rest := files[0], files[1..];
      SplitCounts(file.content);
      UnlinesAppend(FileLines(file, Count(file, true)), AllLines(rest, true));
      UnlinesAppend(FileLines(file, Count(file, false)), AllLines(rest, false));
      assert files == [file] + rest;
      if file.content == "" {
        EmptyContentDiffers(file, Printed(rest, true), Printed(rest, false));
      } else {
        PrintersAgreeUnlessEmpty(rest);
        SamePrefix(Unlines(FileLines(file, Count(file, true))), Printed(rest, true), Printed(rest, false));
        assert NoEmptyFile(files) <==> NoEmptyFile(rest);
      }
    }
  }

  lemma SamePrefix(prefix: string, a: string, b: string)
    ensures prefix + a == prefix + b <==> a == b
  {
    assert (prefix + a)[|prefix|..] == a && (prefix + b)[|prefix|..] == b;
  }
}
