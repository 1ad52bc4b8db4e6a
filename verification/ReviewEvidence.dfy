/** The two checks that hold an agent's findings against the lines a change added. */
module ReviewEvidence {
  import opened WorkflowTypes
  import opened DiffEvidence
  import opened DiffFormat

  datatype Finding = Finding(file: string, lineStart: nat, lineEnd: nat)

  /** A lookup that throws answers `Unreadable`. */
  datatype Lookup<T> = Found(value: T) | Unreadable

  type FileCatalog = string -> Lookup<bool>
  type ChangedLines = string -> Lookup<Option<seq<LineRange>>>

  /** Either part may be missing. */
  datatype Supplied = Supplied(fileCatalog: Option<FileCatalog>, changedLineRanges: Option<ChangedLines>)

  datatype Reason = NoEvidence | NotReadable | NoSuchFile | NotInDiff

  datatype Issue = Issue(findingIndex: nat, file: string, reason: Reason)

  datatype Validation = Accepted | MissingEvidence(issues: seq<Issue>)

  predicate InvalidRange(range: LineRange) {
    || range.lineStart > MAX_SAFE_INTEGER || range.lineEnd > MAX_SAFE_INTEGER
    || range.lineStart < 1 || range.lineEnd < range.lineStart
  }

  predicate Encloses(range: LineRange, finding: Finding) {
    range.lineStart <= finding.lineStart && range.lineEnd >= finding.lineEnd
  }

  predicate SomeEncloses(ranges: seq<LineRange>, finding: Finding) {
    exists range :: range in ranges && Encloses(range, finding)
  }

  predicate SomeInvalid(ranges: seq<LineRange>) {
    exists range :: range in ranges && InvalidRange(range)
  }

  /** What is wrong with one finding, if anything. */
  function Objection(finding: Finding, has: FileCatalog, get: ChangedLines): Option<Reason> {
    var present, ranges := has(finding.file), get(finding.file);
    if present.Unreadable? || ranges.Unreadable? then Some(NotReadable)
    else if !present.value then Some(NoSuchFile)
    else if ranges.value == None || ranges.value.value == [] || SomeInvalid(ranges.value.value)
      || !SomeEncloses(ranges.value.value, finding) then
      Some(NotInDiff)
    else
      None
  }

  /** The issues list exactly the findings that have an objection, in order, each with its own. */
  predicate ListsObjections(issues: seq<Issue>, findings: seq<Finding>, has: FileCatalog, get: ChangedLines) {
    && (forall i :: 0 <= i < |issues| ==>
          var issue := issues[i];
          issue.findingIndex < |findings| && issue.file == findings[issue.findingIndex].file
          && Objection(findings[issue.findingIndex], has, get) == Some(issue.reason))
    && (forall i, j :: 0 <= i < j < |issues| ==> issues[i].findingIndex < issues[j].findingIndex)
    && (forall k :: 0 <= k < |findings| && Objection(findings[k], has, get).Some? ==> exists i ::
      0 <= i < |issues| && issues[i].findingIndex == k)
  }

  /** Some one range of whole, ordered and exact line numbers holds the finding, and so are all ranges
      of its file. */
  predicate IsEvidenced(finding: Finding, ranges: seq<LineRange>) {
    && (forall range :: range in ranges ==> 1 <= range.lineStart <= range.lineEnd <= 9007199254740991)
    && exists range ::
         range in ranges && range.lineStart <= finding.lineStart && finding.lineEnd <= range.lineEnd
  }

  /** The verdict on one finding, spelled out. */
  lemma ObjectionInFull(finding: Finding, has: FileCatalog, get: ChangedLines)
    ensures var present, ranges, r := has(finding.file), get(finding.file), Objection(finding, has, get);
      && (r == Some(NotReadable) <==> present == Unreadable || ranges == Unreadable)
      && (r == Some(NoSuchFile) <==> present == Found(false) && ranges != Unreadable)
      && (r == None <==>
            (present == Found(true) && ranges.Found? && ranges.value.Some? && IsEvidenced(finding, ranges.value.value)))
      && r != Some(NoEvidence)
  {
    var ranges := get(finding.file);
    if ranges.Found? && ranges.value.Some? {
      var own := ranges.value.value;
      assert SomeInvalid(own) <==>
        !forall range :: range in own ==> 1 <= range.lineStart <= range.lineEnd <= 9007199254740991;
      assert SomeEncloses(own, finding) <==>
        exists range :: range in own && range.lineStart <= finding.lineStart && finding.lineEnd <= range.lineEnd;
    }
  }

  predicate Usable(evidence: Option<Supplied>) {
    evidence.Some? && evidence.value.fileCatalog.Some? && evidence.value.changedLineRanges.Some?
  }

  /** Without evidence every finding is an issue. */
  method RejectAll(findings: seq<Finding>) returns (issues: seq<Issue>)
    ensures |issues| == |findings|
    ensures forall k :: 0 <= k < |findings| ==> issues[k] == Issue(k, findings[k].file, NoEvidence)
  {
    issues := [];
    for k := 0 to |findings|
      invariant |issues| == k
      invariant forall i :: 0 <= i < k ==> issues[i] == Issue(i, findings[i].file, NoEvidence)
    {
      issues := issues + [Issue(k, findings[k].file, NoEvidence)];
    }
  }

  /** There are no issues iff no finding has an objection. */
  lemma NoIssueIff(issues: seq<Issue>, findings: seq<Finding>, has: FileCatalog, get: ChangedLines)
    requires ListsObjections(issues, findings, has, get)
    ensures issues == [] <==> forall k :: 0 <= k < |findings| ==> Objection(findings[k], has, get) == None
  {
    hide Objection;
    if issues != [] {
      assert Objection(findings[issues[0].findingIndex], has, get).Some?;
    }
  }

  /** Judge one finding after the ones before it. */
  method JudgeFinding(findings: seq<Finding>, k: nat, before: seq<Issue>, has: FileCatalog, get: ChangedLines)
      returns (issues: seq<Issue>)
    requires k < |findings| && ListsObjections(before, findings[..k], has, get)
    ensures ListsObjections(issues, findings[..k + 1], has, get)
  {
    hide ListsObjections;
    issues := before;
    var finding := findings[k];
    var fileExists, ranges := has(finding.file), get(finding.file);
    if fileExists.Unreadable? || ranges.Unreadable? {
      issues := issues + [Issue(k, finding.file, NotReadable)];
    } else if !fileExists.value {
      issues := issues + [Issue(k, finding.file, NoSuchFile)];
    } else if ranges.value == None || ranges.value.value == [] || SomeInvalid(ranges.value.value)
      || !SomeEncloses(ranges.value.value, finding) {
      issues := issues + [Issue(k, finding.file, NotInDiff)];
    }
    ListsOneMore(before, issues, findings, k, has, get);
  }

  method ValidateAgentReportEvidence(findings: seq<Finding>, evidence: Option<Supplied>) returns (r: Validation)
    ensures !Usable(evidence) && findings == [] && evidence == None ==> r == Accepted
    ensures !Usable(evidence) && !(findings == [] && evidence == None) ==>
      && r.MissingEvidence? && |r.issues| == |findings|
      && forall k :: 0 <= k < |findings| ==> r.issues[k] == Issue(k, findings[k].file, NoEvidence)
    ensures Usable(evidence) ==>
      var has, get := evidence.value.fileCatalog.value, evidence.value.changedLineRanges.value;
      && (r == Accepted <==> forall k :: 0 <= k < |findings| ==> Objection(findings[k], has, get) == None)
      && (r.MissingEvidence? ==> ListsObjections(r.issues, findings, has, get))
  {
    if findings == [] && evidence.None? {
      return Accepted;
    }
    var issues: seq<Issue> := [];
    if evidence.None? || evidence.value.fileCatalog.None? || evidence.value.changedLineRanges.None? {
      issues := RejectAll(findings);
      return MissingEvidence(issues);
    }
    var has, get := evidence.value.fileCatalog.value, evidence.value.changedLineRanges.value;
    assert ListsObjections([], findings[..0], has, get);
    hide Objection, ListsObjections;
    for k := 0 to |findings|
      invariant ListsObjections(issues, findings[..k], has, get)
    {
      issues := JudgeFinding(findings, k, issues, has, get);
    }
    assert findings[..|findings|] == findings;
    NoIssueIff(issues, findings, has, get);
    return if issues == [] then Accepted else MissingEvidence(issues);
  }

  lemma ListsOneMore(before: seq<Issue>, after: seq<Issue>, findings: seq<Finding>, k: nat, has: FileCatalog,
      get: ChangedLines)
    requires k < |findings| && ListsObjections(before, findings[..k], has, get)
    requires var objection := Objection(findings[k], has, get);
      after == if objection.Some? then before + [Issue(k, findings[k].file, objection.value)] else before
    ensures ListsObjections(after, findings[..k + 1], has, get)
  {
    hide Objection;
    var more := findings[..k + 1];
    assert forall i :: 0 <= i < k ==> more[i] == findings[..k][i];
    forall j | 0 <= j < |more| && Objection(more[j], has, get).Some?
      ensures exists i :: 0 <= i < |after| && after[i].findingIndex == j
    {
      if j < k {
        var i :| 0 <= i < |before| && before[i].findingIndex == j;
        assert after[i] == before[i];
      } else {
        assert after[|before|].findingIndex == j;
      }
    }
  }

  predicate LocationInDiff(finding: Finding, changedFiles: RangeMap) {
    finding.file in changedFiles && SomeEncloses(changedFiles[finding.file], finding)
  }

  lemma LocationInFull(finding: Finding, changedFiles: RangeMap)
    ensures LocationInDiff(finding, changedFiles) <==>
      finding.file in changedFiles && exists range ::
        range in changedFiles[finding.file] && range.lineStart <= finding.lineStart && finding.lineEnd <= range.lineEnd
  {
    if finding.file in changedFiles {
      assert SomeEncloses(changedFiles[finding.file], finding) <==> exists range ::
        range in changedFiles[finding.file] && range.lineStart <= finding.lineStart && finding.lineEnd <= range.lineEnd;
    }
  }

  /** Accepts the report, or throws with the indices of the findings that are not in the diff. */
  method ValidateAgentReportLocations(findings: seq<Finding>, changedFiles: RangeMap) returns (issues: seq<nat>)
    ensures forall k :: k in issues <==> 0 <= k < |findings| && !LocationInDiff(findings[k], changedFiles)
    ensures forall i, j :: 0 <= i < j < |issues| ==> issues[i] < issues[j]
  {
    issues := [];
    for k := 0 to |findings|
      invariant forall i :: i in issues <==> 0 <= i < k && !LocationInDiff(findings[i], changedFiles)
      invariant forall i, j :: 0 <= i < j < |issues| ==> issues[i] < issues[j]
    {
      if !LocationInDiff(findings[k], changedFiles) {
        assert forall i :: 0 <= i < |issues| ==> issues[i] in issues;
        issues := issues + [k];
      }
    }
  }

  // ---- The checks on the reader's output ----

  /** How the review step hands the reader's output to the evidence check. */
  function CatalogOf(ranges: RangeMap): FileCatalog {
    file => Found(file in ranges)
  }

  function LinesOf(ranges: RangeMap): ChangedLines {
    file => Found(if file in ranges then Some(ranges[file]) else None)
  }

  predicate EvidenceAccepts(findings: seq<Finding>, ranges: RangeMap) {
    forall k :: 0 <= k < |findings| ==> Objection(findings[k], CatalogOf(ranges), LinesOf(ranges)) == None
  }

  predicate LocationsAccept(findings: seq<Finding>, ranges: RangeMap) {
    forall k :: 0 <= k < |findings| ==> LocationInDiff(findings[k], ranges)
  }

  /** Some range of this file ends beyond the exact integers. */
  predicate EndsUnsafely(ranges: RangeMap, file: string) {
    file in ranges && exists range :: range in ranges[file] && range.lineEnd > MAX_SAFE_INTEGER
  }

  /** For every diff text: a finding that the evidence check lets through speaks of added lines only. */
  lemma AcceptedFindingsAreAdded(text: string, findings: seq<Finding>, k: nat, number: nat)
    requires EvidenceAccepts(findings, EvidenceOf(text).ranges)
    requires k < |findings| && findings[k].lineStart <= number <= findings[k].lineEnd
    ensures SeenAsAdded(text, findings[k].file, number)
  {
    hide EvidenceOf, SeenAsAdded;
    var ranges := EvidenceOf(text).ranges;
    assert Objection(findings[k], CatalogOf(ranges), LinesOf(ranges)) == None;
    var range :| range in ranges[findings[k].file] && Encloses(range, findings[k]);
    assert range.Contains(number);
    RangesAreExact(text, findings[k].file, number);
  }

  /** For every diff text, and every report: the evidence check accepts what the location check
      accepts, unless a file it speaks of has a range that ends beyond the exact integers. */
  lemma ChecksAgreeExactly(text: string, findings: seq<Finding>)
    ensures var ranges := EvidenceOf(text).ranges;
      EvidenceAccepts(findings, ranges) <==>
        LocationsAccept(findings, ranges) && forall k :: 0 <= k < |findings| ==> !EndsUnsafely(ranges, findings[k].file)
  {
    hide EvidenceOf;
    var ranges := EvidenceOf(text).ranges;
    RangesAreWellFormed(text);
    forall k | 0 <= k < |findings|
      ensures Objection(findings[k], CatalogOf(ranges), LinesOf(ranges)) == None <==>
        LocationInDiff(findings[k], ranges) && !EndsUnsafely(ranges, findings[k].file)
    {
      FindingAgrees(ranges, findings[k]);
    }
  }

  lemma FindingAgrees(ranges: RangeMap, finding: Finding)
    requires forall file, range :: file in ranges && range in ranges[file] ==> GoodRange(range)
    ensures Objection(finding, CatalogOf(ranges), LinesOf(ranges)) == None <==>
      LocationInDiff(finding, ranges) && !EndsUnsafely(ranges, finding.file)
  {
    if finding.file in ranges {
      var own := ranges[finding.file];
      forall range | range in own
        ensures InvalidRange(range) <==> range.lineEnd > MAX_SAFE_INTEGER
      {
        assert GoodRange(range);
      }
    }
  }

  /** On well-formed diffs the two checks accept exactly the same reports. */
  lemma ChecksAgreeOnPrinted(files: seq<FileDiff>, findings: seq<Finding>)
    requires WellFormed(files)
    ensures EvidenceAccepts(findings, EvidenceOf(Print(files)).ranges) <==>
      LocationsAccept(findings, EvidenceOf(Print(files)).ranges)
  {
    hide EvidenceOf, WellFormed, Print, EvidenceAccepts, LocationsAccept;
    ChecksAgreeExactly(Print(files), findings);
    forall k | 0 <= k < |findings|
      ensures !EndsUnsafely(EvidenceOf(Print(files)).ranges, findings[k].file)
    {
      PrintedEndsSafely(files, findings[k].file);
    }
  }

  lemma PrintedEndsSafely(files: seq<FileDiff>, path: string)
    requires WellFormed(files)
    ensures !EndsUnsafely(EvidenceOf(Print(files)).ranges, path)
  {
    hide EvidenceOf, Print, FileRuns, Named;
    ReaderIsExact(files, path);
    FileRunsEndSafely(files, path);
  }

  lemma {:induction false} FileRunsEndSafely(files: seq<FileDiff>, path: string)
    requires WellFormed(files)
    ensures forall range :: range in FileRuns(files, path) ==> range.lineEnd <= MAX_SAFE_INTEGER
  {
    if files != [] {
      hide HunkRuns, Names;
      assert GoodFile(files[0]);
      HunkRunsEndSafely(files[0].hunks);
      FileRunsEndSafely(files[1..], path);
    }
  }

  lemma {:induction false} HunkRunsEndSafely(hunks: seq<Hunk>)
    requires forall h :: h in hunks ==> GoodHunk(h)
    ensures forall range :: range in HunkRuns(hunks) ==> range.lineEnd <= MAX_SAFE_INTEGER
  {
    if hunks != [] {
      hide Runs;
      assert GoodHunk(hunks[0]);
      RunsIncrease(hunks[0].body, hunks[0].newStart);
      HunkRunsEndSafely(hunks[1..]);
    }
  }

  // ---- Where the checks part ----

  /** A hunk whose second added line is number 2^53. */
  const LAST_HUNK := Hunk(0, None, MAX_SAFE_INTEGER, Some(2), "", [Added("x"), Added("y")])

  const LAST_DIFF := [FileDiff("a b", [], "b/f", [LAST_HUNK])]

  lemma LastHunkReads(r: Reader)
    requires r.currentFile == Some("f") && r.ranges == map["f" := []] && r.pending == None
    ensures var header := StripCR(HunkHeader(LAST_HUNK));
      && ReadLines(r, [header, "+x", "+y", ""]).ranges ==
        map["f" := [LineRange(MAX_SAFE_INTEGER, MAX_SAFE_INTEGER + 1)]]
      && ReadLines(r, [header, "+x", "+y", ""]).pending == None
  {
    hide HunkHeader, StripCR, HunkStart;
    var header := StripCR(HunkHeader(LAST_HUNK));
    ReadHeader(r, LAST_HUNK);
    var r1 := ReadLine(r, header);
    var r2 := ReadLine(r1, "+x");
    var r3 := ReadLine(r2, "+y");
    var r4 := ReadLine(r3, "");
    assert "+x"[0] == '+' && "+y"[0] == '+';
    assert r1 == r.(newLine := Some(MAX_SAFE_INTEGER));
    assert r2.pending == Some(LineRange(MAX_SAFE_INTEGER, MAX_SAFE_INTEGER))
      && r2.newLine == Some(MAX_SAFE_INTEGER + 1);
    assert r3.pending == Some(LineRange(MAX_SAFE_INTEGER, MAX_SAFE_INTEGER + 1));
    assert r3.ranges["f"] + [r3.pending.value] == [r3.pending.value];
    assert r4 == Flush(r3);
    assert r4.ranges == map["f" := [LineRange(MAX_SAFE_INTEGER, MAX_SAFE_INTEGER + 1)]];
    var lines := [header, "+x", "+y", ""];
    assert lines[1..][1..] == lines[2..] && lines[2..][1..] == lines[3..] && lines[3..][1..] == [];
    assert ReadLines(r, lines) == ReadLines(r1, lines[1..]) == ReadLines(r2, lines[2..]) == ReadLines(r3, lines[3..]) ==
      ReadLines(r4, []);
  }

  lemma LastDiffLines()
    ensures var f := LAST_DIFF[0];
      SplitLines(Print(LAST_DIFF)) ==
        Stripped(["diff --git " + f.header] + f.extended)
        + (Stripped(["+++ " + f.target]) + [StripCR(HunkHeader(LAST_HUNK)), "+x", "+y", ""])
  {
    hide HunkHeader, SplitLines, Text, StripCR;
    var f := LAST_DIFF[0];
    var start, target, hunk := ["diff --git " + f.header] + f.extended, ["+++ " + f.target],
      [HunkHeader(LAST_HUNK), "+x", "+y"];
    LastHunkLines();
    assert AllLines(LAST_DIFF) == start + (target + hunk);
    assert "diff --git " + f.header == "diff --git a b" && "+++ " + f.target == "+++ b/f";
    PrintedLast(AllLines(LAST_DIFF));
    SplitText(AllLines(LAST_DIFF));
    StrippedConcat(start, target + hunk);
    StrippedConcat(target, hunk);
    PlainLines(HunkHeader(LAST_HUNK));
  }

  lemma PlainLines(header: string)
    ensures Stripped([header, "+x", "+y"]) == [StripCR(header), "+x", "+y"]
  {
    assert [header, "+x", "+y"][1..] == ["+x", "+y"] && ["+x", "+y"][1..] == ["+y"] && ["+y"][1..] == [];
    assert StripCR("+x") == "+x" && StripCR("+y") == "+y";
    assert Stripped(["+y"]) == ["+y"];
    assert Stripped(["+x", "+y"]) == ["+x", "+y"];
  }

  lemma LastHunkLines()
    ensures HunkLines([LAST_HUNK]) == [HunkHeader(LAST_HUNK), "+x", "+y"]
  {
    hide HunkHeader;
    var body := LAST_HUNK.body;
    assert LineText(body[0]) == "+x" && LineText(body[1]) == "+y";
    assert body[1..] == [Added("y")] && body[1..][1..] == [];
    assert BodyLines(body[1..]) == ["+y"];
    assert BodyLines(body) == ["+x", "+y"];
  }

  lemma PrintedLast(lines: seq<string>)
    requires lines == ["diff --git a b", "+++ b/f", HunkHeader(LAST_HUNK), "+x", "+y"]
    ensures forall line :: line in lines ==> OneLine(line)
  {
    hide HunkHeader;
    HeaderInLine(LAST_HUNK);
  }

  lemma LastDiffReads()
    ensures EvidenceOf(Print(LAST_DIFF)).ranges == map["f" := [LineRange(MAX_SAFE_INTEGER, MAX_SAFE_INTEGER + 1)]]
  {
    hide HunkHeader, StripCR, HunkStart, ReadLine, Print, SplitLines, Stripped, ReadLines;
    var f := LAST_DIFF[0].(hunks := []);
    var start, target := ["diff --git " + f.header] + f.extended, ["+++ " + f.target];
    var tail := [StripCR(HunkHeader(LAST_HUNK)), "+x", "+y", ""];
    LastDiffLines();
    ReadLinesConcat(FRESH, Stripped(start), Stripped(target) + tail);
    ReadGitHeader(FRESH, f);
    ReadLinesConcat(FRESH, Stripped(target), tail);
    ReadTarget(FRESH, f);
    PathF();
    LastHunkReads(OpenFile(FRESH, f.target));
    LastLineFlushed(ReadLines(OpenFile(FRESH, f.target), tail));
  }

  lemma LastLineFlushed(r: Reader)
    requires r.pending == None
    ensures Flush(r).ranges == r.ranges
  {}

  /** The checks do part: a finding on the last range of this diff passes the location check only. */
  lemma ChecksCanDisagree()
    ensures var ranges := EvidenceOf(Print(LAST_DIFF)).ranges;
      var findings := [Finding("f", MAX_SAFE_INTEGER, MAX_SAFE_INTEGER)];
      LocationsAccept(findings, ranges) && !EvidenceAccepts(findings, ranges)
  {
    hide EvidenceOf, Print;
    LastDiffReads();
    var ranges := EvidenceOf(Print(LAST_DIFF)).ranges;
    var range := LineRange(MAX_SAFE_INTEGER, MAX_SAFE_INTEGER + 1);
    var finding := Finding("f", MAX_SAFE_INTEGER, MAX_SAFE_INTEGER);
    assert ranges["f"][0] == range && range in ranges["f"];
    assert Encloses(range, finding) && InvalidRange(range);
    assert SomeInvalid(ranges["f"]);
    assert [finding][0] == finding && Objection([finding][0], CatalogOf(ranges), LinesOf(ranges)) == Some(NotInDiff);
  }
}
