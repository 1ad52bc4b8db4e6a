/** The reader of unified diffs that finds, for each file, the lines that a change adds. */
module DiffEvidence {
  import opened WorkflowTypes

  datatype LineRange = LineRange(lineStart: nat, lineEnd: nat) {
    predicate Contains(line: nat) {
      lineStart <= line <= lineEnd
    }
  }

  type RangeMap = map<string, seq<LineRange>>

  /** The largest integer below which a double counts without gaps. */
  const MAX_SAFE_INTEGER := 0x1F_FFFF_FFFF_FFFF

  /** `n + 1` on a double: from 2^53 on, adding one rounds back. */
  function NextLine(n: nat): nat {
    if n <= MAX_SAFE_INTEGER then n + 1 else n
  }

  // ---- Text ----

  /** `split(/\r?\n/)`. */
  function SplitLines(text: string): (lines: seq<string>)
    ensures |lines| >= 1
  {
    if text == "" then [""]
    else if text[0] == '\n' then [""] + SplitLines(text[1..])
    else if "\r\n" <= text then [""] + SplitLines(text[2..])
    else
      var rest := SplitLines(text[1..]);
      [[text[0]] + rest[0]] + rest[1..]
  }

  function SplitOn(text: string, separator: char): (parts: seq<string>)
    ensures |parts| >= 1
  {
    if text == "" then [""]
    else if text[0] == separator then [""] + SplitOn(text[1..], separator)
    else
      var rest := SplitOn(text[1..], separator);
      [[text[0]] + rest[0]] + rest[1..]
  }

  predicate IsDigit(c: char) {
    '0' <= c <= '9'
  }

  /** The length of the longest prefix of digits. */
  function DigitCount(s: string): (count: nat)
    ensures count <= |s|
    ensures forall i :: 0 <= i < count ==> IsDigit(s[i])
  {
    if s != "" && IsDigit(s[0]) then 1 + DigitCount(s[1..]) else 0
  }

  function DecimalValue(digits: string): nat
    requires forall i :: 0 <= i < |digits| ==> IsDigit(digits[i])
  {
    if digits == "" then 0
    else
      var last := digits[|digits| - 1];
      assert IsDigit(last);
      DecimalValue(digits[..|digits| - 1]) * 10 + (last as int - '0' as int)
  }

  function Skip(s: Option<string>, prefix: string): Option<string> {
    if s.Some? && prefix <= s.value then Some(s.value[|prefix|..]) else None
  }

  function SkipNumber(s: Option<string>): Option<string> {
    if s.Some? && DigitCount(s.value) > 0 then Some(s.value[DigitCount(s.value)..]) else None
  }

  /** `(?:,\d+)?`. */
  function SkipCount(s: Option<string>): Option<string> {
    if SkipNumber(Skip(s, ",")).Some? then SkipNumber(Skip(s, ",")) else s
  }

  /** The new start line of a hunk header, when the line is one. */
  function HunkStart(line: string): Option<nat> {
    var newPart := Skip(SkipCount(SkipNumber(Skip(Some(line), "@@ -"))), " +");
    if Skip(SkipCount(SkipNumber(newPart)), " @@").Some? then
      Some(DecimalValue(newPart.value[..DigitCount(newPart.value)]))
    else
      None
  }

  /** The start line, if it is one that can be counted from. */
  function UsableStart(line: string): Option<nat> {
    match HunkStart(line)
    case Some(start) => if 1 <= start <= MAX_SAFE_INTEGER then Some(start) else None
    case None => None
  }

  /** The file a `+++ ` header names; `None` for deleted files and for paths that are not plain
      relative ones. */
  function TargetPath(raw: string): Option<string> {
    var path := if "b/" <= raw then raw[2..] else "";
    if |path| > 0 && path[0] != '/' && '\\' !in path && ".." !in SplitOn(path, '/') then Some(path) else None
  }

  // ---- The paths of headers, position by position ----

  /** A segment `..` starts here. */
  predicate DotDotAt(p: string, i: nat) {
    && i + 2 <= |p| && p[i] == '.' && p[i + 1] == '.'
    && (i == 0 || p[i - 1] == '/')
    && (i + 2 == |p| || p[i + 2] == '/')
  }

  /** A relative path that stays below the root it is taken from. */
  predicate PlainPath(p: string) {
    && p != "" && p[0] != '/'
    && (forall i :: 0 <= i < |p| ==> p[i] != '\\')
    && (forall i :: 0 <= i < |p| ==> !DotDotAt(p, i))
  }

  lemma {:induction false} FrontSegment(p: string)
    ensures var front := SplitOn(p, '/')[0];
      && front <= p && (|front| == |p| || p[|front|] == '/')
      && forall i :: 0 <= i < |front| ==> front[i] != '/'
  {
    if p != "" && p[0] != '/' {
      FrontSegment(p[1..]);
      var rest := SplitOn(p[1..], '/');
      assert SplitOn(p, '/')[0] == [p[0]] + rest[0];
    }
  }

  lemma FrontIsDotDot(p: string)
    ensures SplitOn(p, '/')[0] == ".." <==> DotDotAt(p, 0)
  {
    FrontSegment(p);
    var front := SplitOn(p, '/')[0];
    assert |front| > 2 ==> front[2] == p[2] != '/';
    assert |front| == 1 && |p| > 1 ==> p[1] == '/';
  }

  lemma {:induction false} LaterDotDots(p: string)
    ensures ".." in SplitOn(p, '/')[1..] <==> exists i :: 1 <= i < |p| && DotDotAt(p, i)
  {
    if p != "" {
      var t := p[1..];
      var parts, rest := SplitOn(p, '/'), SplitOn(t, '/');
      LaterDotDots(t);
      FrontIsDotDot(t);
      assert rest == [rest[0]] + rest[1..];
      assert forall i :: 1 <= i < |t| ==> (DotDotAt(t, i) <==> DotDotAt(p, i + 1));
      if p[0] == '/' {
        assert parts[1..] == rest;
        assert DotDotAt(t, 0) <==> DotDotAt(p, 1);
      } else {
        assert parts[1..] == rest[1..];
        assert !DotDotAt(p, 1);
      }
      if i :| 1 <= i < |p| && DotDotAt(p, i) && i > 1 {
        assert DotDotAt(t, i - 1);
      }
      if i :| 1 <= i < |t| && DotDotAt(t, i) {
        assert DotDotAt(p, i + 1);
      }
    }
  }

  /** A header names a file exactly when it is `b/` and a plain path, and then it names that path. */
  lemma TargetPathInFull(raw: string, path: string)
    ensures TargetPath(raw) == Some(path) <==> raw == "b/" + path && PlainPath(path)
  {
    if "b/" <= raw {
      var p := raw[2..];
      assert raw == "b/" + p;
      assert ("b/" + path)[2..] == path;
      var parts := SplitOn(p, '/');
      assert parts == [parts[0]] + parts[1..];
      FrontIsDotDot(p);
      LaterDotDots(p);
      assert ".." in parts <==> exists i :: 0 <= i < |p| && DotDotAt(p, i);
    } else {
      assert "b/" <= "b/" + path;
    }
  }

  // ---- The reader ----

  datatype Reader = Reader(
    files: seq<string>,
    ranges: RangeMap,
    currentFile: Option<string>,
    newLine: Option<nat>,
    pending: Option<LineRange>)

  const FRESH := Reader([], map[], None, None, None)

  function Flush(r: Reader): Reader {
    if r.currentFile.Some? && r.pending.Some? && r.currentFile.value in r.ranges then
      var file := r.currentFile.value;
      r.(ranges := r.ranges[file := r.ranges[file] + [r.pending.value]], pending := None)
    else
      r.(pending := None)
  }

  function OpenFile(r: Reader, raw: string): Reader {
    match TargetPath(raw)
    case None => r.(currentFile := None, newLine := None)
    case Some(path) =>
      r.(currentFile := Some(path), newLine := None,
         files := if path in r.files then r.files else r.files + [path],
         ranges := if path in r.ranges then r.ranges else r.ranges[path := []])
  }

  function ReadLine(r: Reader, line: string): Reader {
    if "diff --git " <= line then Flush(r).(currentFile := None, newLine := None)
    else if "+++ " <= line then OpenFile(Flush(r), line[4..])
    else if r.currentFile == None then r
    else if "@@" <= line then Flush(r).(newLine := UsableStart(line))
    else if r.newLine == None || "\\" <= line then r
    else if "+" <= line then
      var n := r.newLine.value;
      r.(pending := Some(LineRange(if r.pending.Some? then r.pending.value.lineStart else n, n)),
        newLine := Some(NextLine(n)))
    else if " " <= line then Flush(r).(newLine := Some(NextLine(r.newLine.value)))
    else Flush(r)
  }

  function ReadLines(r: Reader, lines: seq<string>): Reader
    decreases |lines|
  {
    if lines == [] then r else ReadLines(ReadLine(r, lines[0]), lines[1..])
  }

  /** What the whole text yields. */
  function EvidenceOf(text: string): Reader {
    Flush(ReadLines(FRESH, SplitLines(text)))
  }

  lemma {:induction false} ReadLinesConcat(r: Reader, a: seq<string>, b: seq<string>)
    ensures ReadLines(r, a + b) == ReadLines(ReadLines(r, a), b)
    decreases |a|
  {
    if a == [] {
      assert a + b == b;
    } else {
      assert (a + b)[1..] == a[1..] + b;
      ReadLinesConcat(ReadLine(r, a[0]), a[1..], b);
    }
  }

  class UnifiedDiffReader {
    var files: seq<string>
    var ranges: RangeMap
    var currentFile: Option<string>
    var newLine: Option<nat>
    var pendingAddedStart: Option<nat>
    var pendingAddedEnd: Option<nat>

    /** Both ends of the pending range are set and cleared together. */
    ghost predicate Valid()
      reads this
    {
      pendingAddedStart.Some? == pendingAddedEnd.Some?
    }

    ghost function State(): Reader
      reads this
    {
      Reader(files, ranges, currentFile, newLine,
             if pendingAddedStart.Some? && pendingAddedEnd.Some?
             then Some(LineRange(pendingAddedStart.value, pendingAddedEnd.value)) else None)
    }

    constructor ()
      ensures Valid() && State() == FRESH
    {
      files, ranges, currentFile, newLine, pendingAddedStart, pendingAddedEnd := [], map[], None, None, None, None;
    }

    method FlushAddedRange()
      requires Valid()
      modifies this
      ensures Valid() && State() == Flush(old(State()))
    {
      if currentFile.Some? && pendingAddedStart.Some? && pendingAddedEnd.Some? && currentFile.value in ranges {
        var range := LineRange(pendingAddedStart.value, pendingAddedEnd.value);
        ranges := ranges[currentFile.value := ranges[currentFile.value] + [range]];
      }
      pendingAddedStart, pendingAddedEnd := None, None;
    }

    method Open(raw: string)
      requires Valid()
      modifies this
      ensures Valid() && State() == OpenFile(old(State()), raw)
    {
      currentFile := TargetPath(raw);
      if currentFile.Some? {
        if currentFile.value !in files { files := files + [currentFile.value]; }
        if currentFile.value !in ranges { ranges := ranges[currentFile.value := []]; }
      }
      newLine := None;
    }

    method Read(line: string)
      requires Valid()
      modifies this
      ensures Valid() && State() == ReadLine(old(State()), line)
    {
      if "diff --git " <= line {
        FlushAddedRange();
        currentFile, newLine := None, None;
        return;
      }
      if "+++ " <= line {
        FlushAddedRange();
        Open(line[4..]);
        return;
      }
      if currentFile == None {
        return;
      }
      if "@@" <= line {
        FlushAddedRange();
        newLine := UsableStart(line);
        return;
      }
      if newLine == None || "\\" <= line {
        return;
      }
      if "+" <= line {
        if pendingAddedStart == None { pendingAddedStart := newLine; }
        pendingAddedEnd := newLine;
        newLine := Some(NextLine(newLine.value));
        return;
      }
      FlushAddedRange();
      if " " <= line {
        newLine := Some(NextLine(newLine.value));
      }
    }
  }

  method ParseUnifiedDiffEvidence(diff: string) returns (filePaths: seq<string>, changedFiles: RangeMap)
    ensures filePaths == EvidenceOf(diff).files && changedFiles == EvidenceOf(diff).ranges
  {
    var reader := new UnifiedDiffReader();
    var lines := SplitLines(diff);
    for i := 0 to |lines|
      invariant reader.Valid() && fresh(reader)
      invariant reader.State() == ReadLines(FRESH, lines[..i])
    {
      assert lines[..i + 1] == lines[..i] + [lines[i]];
      ReadLinesConcat(FRESH, lines[..i], [lines[i]]);
      assert ReadLines(reader.State(), [lines[i]]) == ReadLine(reader.State(), lines[i]);
      reader.Read(lines[i]);
    }
    assert lines[..|lines|] == lines;
    reader.FlushAddedRange();
    return reader.files, reader.ranges;
  }

  // ---- What the scan sees as added ----

  /** Where the scan is: in which file, at which line of its new version. */
  datatype Cursor = Cursor(file: Option<string>, line: Option<nat>)

  predicate IsFileHeader(line: string) {
    "diff --git " <= line || "+++ " <= line
  }

  function Move(c: Cursor, line: string): Cursor {
    if "diff --git " <= line then Cursor(None, None)
    else if "+++ " <= line then Cursor(TargetPath(line[4..]), None)
    else if c.file == None then c
    else if "@@" <= line then c.(line := UsableStart(line))
    else if c.line.Some? && ("+" <= line || " " <= line) then c.(line := Some(NextLine(c.line.value)))
    else c
  }

  /** This line is read as an added line of a file, with this number. */
  predicate AddsLine(c: Cursor, line: string, file: string, number: nat) {
    !IsFileHeader(line) && "+" <= line && c == Cursor(Some(file), Some(number))
  }

  function CursorAfter(lines: seq<string>): Cursor {
    if lines == [] then Cursor(None, None) else Move(CursorAfter(lines[..|lines| - 1]), lines[|lines| - 1])
  }

  predicate SeenAt(lines: seq<string>, i: int, file: string, number: nat) {
    0 <= i < |lines| && AddsLine(CursorAfter(lines[..i]), lines[i], file, number)
  }

  ghost predicate SeenIn(lines: seq<string>, file: string, number: nat) {
    exists i :: SeenAt(lines, i, file, number)
  }

  /** Some line of the text is read as an added line of this file, with this number. */
  ghost predicate SeenAsAdded(text: string, file: string, number: nat) {
    SeenIn(SplitLines(text), file, number)
  }

  predicate Covered(ranges: RangeMap, file: string, number: nat) {
    file in ranges && exists range :: range in ranges[file] && range.Contains(number)
  }

  predicate GoodRange(range: LineRange) {
    1 <= range.lineStart <= range.lineEnd <= MAX_SAFE_INTEGER + 1
  }

  ghost predicate Sound(r: Reader) {
    && (r.currentFile.Some? ==> r.currentFile.value in r.ranges)
    && (r.newLine.Some? ==> 1 <= r.newLine.value <= MAX_SAFE_INTEGER + 1)
    && (r.pending.Some? ==>
          r.currentFile.Some? && r.newLine.Some? && GoodRange(r.pending.value)
            && r.newLine.value == NextLine(r.pending.value.lineEnd))
    && (forall file, range :: file in r.ranges && range in r.ranges[file] ==> GoodRange(range))
    && (forall file :: file in r.files <==> file in r.ranges)
  }

  function CursorOf(r: Reader): Cursor {
    Cursor(r.currentFile, r.newLine)
  }

  predicate CoveredBy(range: Option<LineRange>, number: nat) {
    range.Some? && range.value.Contains(number)
  }

  /** Covered by a range on record, or by the one that is still growing. */
  predicate CoveredSoFar(r: Reader, file: string, number: nat) {
    Covered(r.ranges, file, number) || (r.currentFile == Some(file) && CoveredBy(r.pending, number))
  }

  lemma FlushKeeps(r: Reader, file: string, number: nat)
    requires Sound(r)
    ensures Sound(Flush(r)) && Flush(r).pending == None && CursorOf(Flush(r)) == CursorOf(r)
    ensures CoveredSoFar(Flush(r), file, number) == CoveredSoFar(r, file, number)
    ensures Covered(Flush(r).ranges, file, number) == CoveredSoFar(r, file, number)
  {
    var f := Flush(r);
    if r.currentFile.Some? && r.pending.Some? {
      var current := r.currentFile.value;
      assert f.ranges[current] == r.ranges[current] + [r.pending.value];
      assert r.pending.value in f.ranges[current];
    }
  }

  lemma OpenKeeps(r: Reader, raw: string, file: string, number: nat)
    requires Sound(r) && r.pending == None
    ensures Sound(OpenFile(r, raw)) && CoveredSoFar(OpenFile(r, raw), file, number) == CoveredSoFar(r, file, number)
    ensures CursorOf(OpenFile(r, raw)) == Cursor(TargetPath(raw), None)
  {
    hide TargetPath;
  }

  lemma AddedLineGrows(r: Reader, line: string, file: string, number: nat)
    requires Sound(r) && r.currentFile.Some? && r.newLine.Some? && "+" <= line && !IsFileHeader(line)
    ensures var after := ReadLine(r, line);
      Sound(after)
        && (CoveredSoFar(after, file, number) <==>
          CoveredSoFar(r, file, number) || AddsLine(CursorOf(r), line, file, number))
  {
    assert !("@@" <= line) && !("\\" <= line) by { assert line[0] == '+'; }
  }

  /** Moving the cursor, with nothing pending, covers nothing. */
  lemma MovingCovers(r: Reader, moved: Reader, file: string, number: nat)
    requires Sound(r) && r.pending == None && moved == r.(currentFile := moved.currentFile, newLine := moved.newLine)
    requires moved.currentFile == r.currentFile || moved.currentFile == None
    requires moved.newLine.Some? ==> 1 <= moved.newLine.value <= MAX_SAFE_INTEGER + 1
    ensures Sound(moved) && CoveredSoFar(moved, file, number) == CoveredSoFar(r, file, number)
  {}

  /** One line adds to what is covered exactly the line it is read as. */
  lemma LineCovers(r: Reader, line: string, file: string, number: nat)
    requires Sound(r)
    ensures var after := ReadLine(r, line);
      && Sound(after)
      && CursorOf(after) == Move(CursorOf(r), line)
      && (CoveredSoFar(after, file, number) <==>
        CoveredSoFar(r, file, number) || AddsLine(CursorOf(r), line, file, number))
  {
    PlusIsPlain(line);
    FlushKeeps(r, file, number);
    NewLineFits(r);
    hide CoveredSoFar, Sound, TargetPath, HunkStart, Flush, OpenFile;
    var flushed, after := Flush(r), ReadLine(r, line);
    if "diff --git " <= line {
      MovingCovers(flushed, after, file, number);
    } else if "+++ " <= line {
      OpenKeeps(flushed, line[4..], file, number);
    } else if r.currentFile == None {
    } else if "@@" <= line {
      MovingCovers(flushed, after, file, number);
    } else if r.newLine == None || "\\" <= line {
    } else if "+" <= line {
      AddedLineGrows(r, line, file, number);
    } else if " " <= line {
      MovingCovers(flushed, after, file, number);
    }
  }

  lemma PlusIsPlain(line: string)
    ensures "+" <= line ==> !("@@" <= line) && !("\\" <= line) && !(" " <= line)
    ensures " " <= line ==> !("\\" <= line)
    ensures "\\" <= line ==> !("+" <= line)
  {
    assert line != "" ==>
      ("+" <= line <==> line[0] == '+') && (" " <= line <==> line[0] == ' ') && ("\\" <= line <==> line[0] == '\\');
    assert "@@" <= line ==> line[0] == '@';
  }

  lemma NewLineFits(r: Reader)
    requires Sound(r)
    ensures r.newLine.Some? ==> 1 <= r.newLine.value <= MAX_SAFE_INTEGER + 1
  {}

  lemma {:induction false} LinesCover(lines: seq<string>, file: string, number: nat)
    ensures var r := ReadLines(FRESH, lines);
      && Sound(r)
      && CursorOf(r) == CursorAfter(lines)
      && (CoveredSoFar(r, file, number) <==> SeenIn(lines, file, number))
    decreases |lines|
  {
    if lines != [] {
      hide ReadLine, CoveredSoFar, Sound, AddsLine, Move, SeenIn;
      var last := |lines| - 1;
      var front := lines[..last];
      LinesCover(front, file, number);
      ReadLast(lines);
      hide ReadLines;
      LineCovers(ReadLines(FRESH, front), lines[last], file, number);
      SeenLast(lines, file, number);
    }
  }

  lemma ReadLast(lines: seq<string>)
    requires lines != []
    ensures ReadLines(FRESH, lines) == ReadLine(ReadLines(FRESH, lines[..|lines| - 1]), lines[|lines| - 1])
  {
    hide ReadLine;
    var front, last := lines[..|lines| - 1], lines[|lines| - 1];
    assert lines == front + [last];
    ReadLinesConcat(FRESH, front, [last]);
    assert [last][1..] == [];
    assert ReadLines(ReadLines(FRESH, front), [last]) == ReadLine(ReadLines(FRESH, front), last);
  }

  /** What a text has been seen to add is what its front adds, and what its last line adds. */
  lemma SeenLast(lines: seq<string>, file: string, number: nat)
    requires lines != []
    ensures var front, last := lines[..|lines| - 1], lines[|lines| - 1];
      SeenIn(lines, file, number) <==> SeenIn(front, file, number) || AddsLine(CursorAfter(front), last, file, number)
  {
    hide AddsLine, CursorAfter;
    var last := |lines| - 1;
    var front := lines[..last];
    forall i | 0 <= i < last
      ensures SeenAt(lines, i, file, number) == SeenAt(front, i, file, number)
    {
      assert lines[..i] == front[..i];
    }
    assert SeenAt(lines, last, file, number) == AddsLine(CursorAfter(front), lines[last], file, number);
    if SeenIn(lines, file, number) {
      var i :| SeenAt(lines, i, file, number);
      assert i < last ==> SeenAt(front, i, file, number);
    }
    if SeenIn(front, file, number) {
      var i :| SeenAt(front, i, file, number);
      assert SeenAt(lines, i, file, number);
    }
  }

  /** For every text whatever: the ranges cover exactly the lines that the scan saw as added. */
  lemma RangesAreExact(text: string, file: string, number: nat)
    ensures Covered(EvidenceOf(text).ranges, file, number) <==> SeenAsAdded(text, file, number)
  {
    var lines := SplitLines(text);
    LinesCover(lines, file, number);
    FlushKeeps(ReadLines(FRESH, lines), file, number);
  }

  /** For every text: ranges are never empty or reversed, and start at line one at the earliest. */
  lemma RangesAreWellFormed(text: string)
    ensures forall file, range :: file in EvidenceOf(text).ranges && range in EvidenceOf(text).ranges[file] ==>
      GoodRange(range)
    ensures forall file :: file in EvidenceOf(text).files <==> file in EvidenceOf(text).ranges
  {
    var lines := SplitLines(text);
    LinesCover(lines, "", 0);
    FlushKeeps(ReadLines(FRESH, lines), "", 0);
  }

  predicate Distinct(files: seq<string>) {
    forall i, j :: 0 <= i < j < |files| ==> files[i] != files[j]
  }

  lemma {:induction false} FilesGrow(r: Reader, lines: seq<string>)
    requires Distinct(r.files)
    ensures Distinct(ReadLines(r, lines).files) && r.files <= ReadLines(r, lines).files
    decreases |lines|
  {
    if lines != [] {
      var next := ReadLine(r, lines[0]);
      assert Distinct(next.files) && r.files <= next.files;
      hide ReadLine, Distinct;
      FilesGrow(next, lines[1..]);
    }
  }

  /** For every text: no file is listed twice, and the files that the first lines open are listed first. */
  lemma FilesAreInOrder(text: string, k: nat)
    requires k <= |SplitLines(text)|
    ensures Distinct(EvidenceOf(text).files)
    ensures ReadLines(FRESH, SplitLines(text)[..k]).files <= EvidenceOf(text).files
  {
    hide ReadLine;
    var lines := SplitLines(text);
    assert lines == lines[..k] + lines[k..];
    ReadLinesConcat(FRESH, lines[..k], lines[k..]);
    FilesGrow(FRESH, lines[..k]);
    FilesGrow(ReadLines(FRESH, lines[..k]), lines[k..]);
  }
}
