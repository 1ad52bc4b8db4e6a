/** Unified diffs as they are printed: files, hunks and lines, and what the reader makes of them. */
module DiffFormat {
  import opened WorkflowTypes
  import opened DiffEvidence

  datatype DiffLine =
    | Context(text: string)
    | Added(text: string)
    | Removed(text: string)
    | Marker(text: string)   // "\ No newline at end of file"

  /** A count of `None` is left out. */
  datatype Hunk = Hunk(oldStart: nat, oldCount: Option<nat>, newStart: nat, newCount: Option<nat>, section: string,
    body: seq<DiffLine>)

  /** `extended` are the lines between the git header and the `+++ ` line; `target` is what follows `+++ `. */
  datatype FileDiff = FileDiff(header: string, extended: seq<string>, target: string, hunks: seq<Hunk>)

  // ---- Printing ----

  function Decimal(n: nat): (digits: string)
    ensures digits != "" && forall i :: 0 <= i < |digits| ==> IsDigit(digits[i])
  {
    (if n < 10 then "" else Decimal(n / 10)) + [(n % 10 + '0' as int) as char]
  }

  function CountText(count: Option<nat>): string {
    if count.Some? then "," + Decimal(count.value) else ""
  }

  function HunkHeader(h: Hunk): string {
    "@@ -" + Decimal(h.oldStart) + CountText(h.oldCount)
    + " +" + Decimal(h.newStart) + CountText(h.newCount) + " @@" + h.section
  }

  function LineText(line: DiffLine): string {
    match line
    case Context(text) => " " + text
    case Added(text) => "+" + text
    case Removed(text) => "-" + text
    case Marker(text) => "\\" + text
  }

  function BodyLines(body: seq<DiffLine>): seq<string> {
    if body == [] then [] else [LineText(body[0])] + BodyLines(body[1..])
  }

  function HunkLines(hunks: seq<Hunk>): seq<string> {
    if hunks == [] then [] else [HunkHeader(hunks[0])] + BodyLines(hunks[0].body) + HunkLines(hunks[1..])
  }

  function FileLines(f: FileDiff): seq<string> {
    ["diff --git " + f.header] + f.extended + ["+++ " + f.target] + HunkLines(f.hunks)
  }

  function AllLines(files: seq<FileDiff>): seq<string> {
    if files == [] then [] else FileLines(files[0]) + AllLines(files[1..])
  }

  function Text(lines: seq<string>): string {
    if lines == [] then "" else lines[0] + "\n" + Text(lines[1..])
  }

  function Print(files: seq<FileDiff>): string {
    Text(AllLines(files))
  }

  // ---- Well-formed diffs ----

  predicate OneLine(text: string) {
    '\n' !in text
  }

  predicate GoodLine(line: DiffLine) {
    OneLine(line.text) && (line.Added? ==> !("++ " <= line.text))
  }

  /** How many lines of the new version the body shows. */
  function NewLines(body: seq<DiffLine>): nat {
    if body == [] then 0 else (if body[0].Context? || body[0].Added? then 1 else 0) + NewLines(body[1..])
  }

  /** A hunk that shows lines of the new version starts at one, and all their numbers are exact. */
  predicate GoodHunk(h: Hunk) {
    && OneLine(h.section)
    && (forall line :: line in h.body ==> GoodLine(line))
    && (NewLines(h.body) > 0 ==> 1 <= h.newStart && h.newStart + NewLines(h.body) <= MAX_SAFE_INTEGER)
  }

  predicate GoodFile(f: FileDiff) {
    && OneLine(f.header)
    && (forall line :: line in f.extended ==> OneLine(line) && !IsFileHeader(line))
    && OneLine(f.target) && (f.target != "" ==> f.target[|f.target| - 1] != '\r')
    && (forall h :: h in f.hunks ==> GoodHunk(h))
  }

  predicate WellFormed(files: seq<FileDiff>) {
    forall f :: f in files ==> GoodFile(f)
  }

  // ---- What the reader should find ----

  /** The length of the block of added lines in front; markers do not count and do not interrupt. */
  function Block(body: seq<DiffLine>): nat {
    if body == [] then 0
    else if body[0].Added? then 1 + Block(body[1..])
    else if body[0].Marker? then Block(body[1..])
    else 0
  }

  function AfterBlock(body: seq<DiffLine>): (rest: seq<DiffLine>)
    ensures |rest| <= |body|
    ensures body != [] && body[0].Added? ==> |rest| < |body|
  {
    if body != [] && (body[0].Added? || body[0].Marker?) then AfterBlock(body[1..]) else body
  }

  /** The ranges of one hunk body whose first new line has this number. */
  function Runs(body: seq<DiffLine>, line: nat): seq<LineRange>
    decreases |body|
  {
    if body == [] then []
    else if body[0].Added? then [LineRange(line, line + Block(body) - 1)] + Runs(AfterBlock(body), line + Block(body))
    else if body[0].Context? then Runs(body[1..], line + 1)
    else Runs(body[1..], line)
  }

  function HunkRuns(hunks: seq<Hunk>): seq<LineRange> {
    if hunks == [] then [] else Runs(hunks[0].body, hunks[0].newStart) + HunkRuns(hunks[1..])
  }

  /** What follows `+++ ` names this file: the prefix of the new version, and a plain path. */
  predicate Names(target: string, path: string) {
    target == "b/" + path && PlainPath(path)
  }

  function FileRuns(files: seq<FileDiff>, path: string): seq<LineRange> {
    if files == [] then []
    else
      (if Names(files[0].target, path) then HunkRuns(files[0].hunks) else [])
      + FileRuns(files[1..], path)
  }

  /** The file is named by some `+++ ` line of the diff. */
  predicate Named(files: seq<FileDiff>, path: string) {
    exists f :: f in files && Names(f.target, path)
  }

  /** The ranges on record, with nothing pending, and with these ranges more for the current file. */
  function Recorded(r: Reader, more: seq<LineRange>): Reader
    requires r.currentFile.Some? && r.currentFile.value in r.ranges
  {
    var file := r.currentFile.value;
    r.(ranges := r.ranges[file := r.ranges[file] + more], pending := None)
  }

  // ---- Line ends ----

  function StripCR(line: string): string {
    if line != "" && line[|line| - 1] == '\r' then line[..|line| - 1] else line
  }

  lemma {:induction false} SplitOneLine(line: string, rest: string)
    requires OneLine(line)
    ensures SplitLines(line + "\n" + rest) == [StripCR(line)] + SplitLines(rest)
  {
    var text := line + "\n" + rest;
    if line == "" {
      assert text[1..] == rest;
    } else if line == "\r" {
      assert text[2..] == rest;
      assert text[0] == '\r' && text[1] == '\n';
      assert text[..2] == "\r\n";
    } else {
      assert text[1..] == line[1..] + "\n" + rest;
      assert text[0] == line[0] && text[1] == (line + "\n")[1];
      SplitOneLine(line[1..], rest);
      assert [line[0]] + StripCR(line[1..]) == StripCR(line);
      assert ([StripCR(line[1..])] + SplitLines(rest))[1..] == SplitLines(rest);
    }
  }

  function Stripped(lines: seq<string>): seq<string> {
    if lines == [] then [] else [StripCR(lines[0])] + Stripped(lines[1..])
  }

  lemma {:induction false} SplitText(lines: seq<string>)
    requires forall line :: line in lines ==> OneLine(line)
    ensures SplitLines(Text(lines)) == Stripped(lines) + [""]
  {
    if lines == [] {
    } else {
      SplitOneLine(lines[0], Text(lines[1..]));
      SplitText(lines[1..]);
    }
  }

  lemma {:induction false} StrippedConcat(a: seq<string>, b: seq<string>)
    ensures Stripped(a + b) == Stripped(a) + Stripped(b)
  {
    if a == [] {
      assert a + b == b;
    } else {
      assert (a + b)[1..] == a[1..] + b;
      StrippedConcat(a[1..], b);
    }
  }

  lemma StripKeepsPrefix(prefix: string, text: string)
    requires prefix != "" && prefix[|prefix| - 1] != '\r'
    ensures StripCR(prefix + text) == prefix + StripCR(text)
  {
    var line := prefix + text;
    if text == "" {
      assert line == prefix;
    } else {
      assert line[|line| - 1] == text[|text| - 1];
    }
  }

  // ---- Hunk headers ----

  lemma {:induction false} DecimalRoundTrip(n: nat)
    ensures DecimalValue(Decimal(n)) == n
  {
    var digits := Decimal(n);
    assert digits[..|digits| - 1] == if n < 10 then "" else Decimal(n / 10);
    if n >= 10 {
      DecimalRoundTrip(n / 10);
    }
  }

  lemma {:induction false} CountsDigits(digits: string, rest: string)
    requires forall i :: 0 <= i < |digits| ==> IsDigit(digits[i])
    requires rest == "" || !IsDigit(rest[0])
    ensures DigitCount(digits + rest) == |digits|
  {
    if digits == "" {
      assert digits + rest == rest;
    } else {
      assert (digits + rest)[1..] == digits[1..] + rest;
      CountsDigits(digits[1..], rest);
    }
  }

  lemma SkipsNumber(n: nat, rest: string)
    requires rest == "" || !IsDigit(rest[0])
    ensures SkipNumber(Some(Decimal(n) + rest)) == Some(rest)
    ensures (Decimal(n) + rest)[..DigitCount(Decimal(n) + rest)] == Decimal(n)
  {
    CountsDigits(Decimal(n), rest);
    var text := Decimal(n) + rest;
    assert text[|Decimal(n)|..] == rest && text[..|Decimal(n)|] == Decimal(n);
  }

  lemma SkipsCount(count: Option<nat>, rest: string)
    requires rest != "" && !IsDigit(rest[0]) && rest[0] != ','
    ensures SkipCount(Some(CountText(count) + rest)) == Some(rest)
    ensures !IsDigit((CountText(count) + rest)[0])
  {
    if count.Some? {
      var text := CountText(count) + rest;
      assert text == "," + (Decimal(count.value) + rest);
      SkipsPrefix(",", Decimal(count.value) + rest);
      SkipsNumber(count.value, rest);
    } else {
      assert CountText(count) + rest == rest;
    }
  }

  lemma SkipsPrefix(prefix: string, rest: string)
    ensures Skip(Some(prefix + rest), prefix) == Some(rest)
  {}

  lemma HeaderRoundTrip(h: Hunk, section: string)
    ensures HunkStart(HunkHeader(h.(section := section))) == Some(h.newStart)
  {
    hide SkipCount, SkipNumber, Skip, Decimal, CountText, DigitCount;
    var e := " @@" + section;
    var d := CountText(h.newCount) + e;
    var c := Decimal(h.newStart) + d;
    var b := " +" + c;
    var a := CountText(h.oldCount) + b;
    var line := HunkHeader(h.(section := section));
    assert line == "@@ -" + (Decimal(h.oldStart) + a);
    SkipsPrefix("@@ -", Decimal(h.oldStart) + a);
    SkipsCount(h.oldCount, b);
    SkipsNumber(h.oldStart, a);
    SkipsPrefix(" +", c);
    SkipsCount(h.newCount, e);
    SkipsNumber(h.newStart, d);
    SkipsPrefix(" @@", section);
    DecimalRoundTrip(h.newStart);
  }

  predicate AreDigits(s: string) {
    s != "" && forall i :: 0 <= i < |s| ==> '0' <= s[i] <= '9'
  }

  /** Nothing, or a comma and digits. */
  predicate IsCount(s: string) {
    s == "" || (s[0] == ',' && AreDigits(s[1..]))
  }

  /** The parts of a hunk header: both starts, both counts, and whatever follows. */
  predicate HasParts(line: string, from: string, count: string, to: string, count': string, rest: string) {
    && line == "@@ -" + (from + (count + (" +" + (to + (count' + (" @@" + rest))))))
    && AreDigits(from) && IsCount(count) && AreDigits(to) && IsCount(count')
  }

  ghost predicate StartsHunkAt(line: string, start: nat) {
    exists from, count, to, count', rest ::
      HasParts(line, from, count, to, count', rest) && DecimalValue(to) == start
  }

  lemma SkippedNumber(s: string)
    ensures var count := DigitCount(s);
      && s == s[..count] + s[count..] && (SkipNumber(Some(s)).Some? <==> AreDigits(s[..count]))
      && (AreDigits(s[..count]) ==> SkipNumber(Some(s)) == Some(s[count..]))
  {}

  lemma SkippedCount(s: string) returns (count: string)
    ensures IsCount(count) && s == count + SkipCount(Some(s)).value
  {
    var rest := SkipCount(Some(s)).value;
    if "," <= s && SkipNumber(Some(s[1..])).Some? {
      SkippedNumber(s[1..]);
      var digits := s[1..][..DigitCount(s[1..])];
      count := "," + digits;
      assert s == "," + s[1..] == "," + (digits + rest) == count + rest;
    } else {
      count := "";
    }
  }

  lemma SkippedPrefix(s: string, prefix: string)
    ensures Skip(Some(s), prefix).Some? ==> s == prefix + Skip(Some(s), prefix).value
  {}

  lemma DigitsSkipped(digits: string, rest: string)
    requires AreDigits(digits) && (rest == "" || !IsDigit(rest[0]))
    ensures SkipNumber(Some(digits + rest)) == Some(rest)
    ensures (digits + rest)[..DigitCount(digits + rest)] == digits
  {
    CountsDigits(digits, rest);
    assert (digits + rest)[|digits|..] == rest && (digits + rest)[..|digits|] == digits;
  }

  lemma CountSkipped(count: string, rest: string)
    requires IsCount(count) && rest != "" && rest[0] == ' '
    ensures SkipCount(Some(count + rest)) == Some(rest)
    ensures (count + rest) != "" && !IsDigit((count + rest)[0])
  {
    if count == "" {
      assert count + rest == rest;
    } else {
      assert count + rest == "," + (count[1..] + rest);
      SkipsPrefix(",", count[1..] + rest);
      DigitsSkipped(count[1..], rest);
    }
  }

  /** A line with the parts of a header is read as one. */
  lemma HeaderIsRead(line: string, from: string, count: string, to: string, count': string, rest: string)
    requires HasParts(line, from, count, to, count', rest)
    ensures HunkStart(line) == Some(DecimalValue(to))
  {
    hide SkipCount, SkipNumber, Skip, DigitCount, DecimalValue, IsCount;
    var e := " @@" + rest;
    var c := to + (count' + e);
    var b := " +" + c;
    SkipsPrefix("@@ -", from + (count + b));
    CountSkipped(count, b);
    DigitsSkipped(from, count + b);
    SkipsPrefix(" +", c);
    CountSkipped(count', e);
    DigitsSkipped(to, count' + e);
    SkipsPrefix(" @@", rest);
  }

  /** A line that is read as a header has its parts. */
  lemma ReadHasParts(line: string)
    requires HunkStart(line).Some?
    ensures StartsHunkAt(line, HunkStart(line).value)
  {
    hide DigitCount, DecimalValue, IsCount, AreDigits;
    var s1 := Skip(Some(line), "@@ -");
    SkippedPrefix(line, "@@ -");
    SkippedNumber(s1.value);
    var s2 := SkipNumber(s1);
    var from := s1.value[..DigitCount(s1.value)];
    var count := SkippedCount(s2.value);
    var s3 := SkipCount(s2);
    SkippedPrefix(s3.value, " +");
    var s4 := Skip(s3, " +");
    SkippedNumber(s4.value);
    var to := s4.value[..DigitCount(s4.value)];
    var s5 := SkipNumber(s4);
    var count' := SkippedCount(s5.value);
    var s6 := SkipCount(s5);
    SkippedPrefix(s6.value, " @@");
    assert HasParts(line, from, count, to, count', Skip(s6, " @@").value);
  }

  /** Which lines start a hunk, and where: the parts of a header one after the other, and a start from
      one to the largest exact integer. */
  lemma HunkStartInFull(line: string, start: nat)
    ensures HunkStart(line) == Some(start) <==> StartsHunkAt(line, start)
    ensures UsableStart(line) == Some(start) <==> StartsHunkAt(line, start) && 1 <= start <= 9007199254740991
  {
    hide HunkStart, DecimalValue;
    if HunkStart(line).Some? {
      ReadHasParts(line);
    }
    if StartsHunkAt(line, start) {
      var from, count, to, count', rest :| HasParts(line, from, count, to, count', rest) && DecimalValue(to) == start;
      HeaderIsRead(line, from, count, to, count', rest);
    }
  }

  // ---- Reading one hunk ----

  function Prefix(line: DiffLine): string {
    match line
    case Context(_) => " "
    case Added(_) => "+"
    case Removed(_) => "-"
    case Marker(_) => "\\"
  }

  lemma LineIsPrefixed(line: DiffLine)
    ensures StripCR(LineText(line)) == Prefix(line) + StripCR(line.text)
  {
    hide StripCR;
    StripKeepsPrefix(Prefix(line), line.text);
  }

  /** Only an added line whose text starts with `++ ` could be taken for a file header. */
  lemma NoHeaderInside(prefix: char, text: string)
    requires prefix in {' ', '+', '-', '\\'} && (prefix == '+' ==> !("++ " <= text))
    ensures var line := [prefix] + StripCR(text); !IsFileHeader(line) && !("@@" <= line)
  {
    var line := [prefix] + StripCR(text);
    assert line[0] == prefix;
    assert |line| >= 4 ==> line[1..4] == text[..3];
    assert |line| >= 4 && line[1] == '+' && line[2] == '+' && line[3] == ' ' ==> text[..3] == "++ ";
  }

  lemma LineReads(line: DiffLine)
    requires GoodLine(line)
    ensures var text := StripCR(LineText(line));
      && !IsFileHeader(text) && !("@@" <= text)
      && ("+" <= text <==> line.Added?) && (" " <= text <==> line.Context?) && ("\\" <= text <==> line.Marker?)
  {
    hide StripCR;
    LineIsPrefixed(line);
    assert Prefix(line) == [Prefix(line)[0]];
    NoHeaderInside(Prefix(line)[0], line.text);
    hide IsFileHeader;
    assert (Prefix(line) + StripCR(line.text))[0] == Prefix(line)[0];
  }

  /** Why added text must not start with `++ `: exactly then the line is taken for a file header, and
      it closes the hunk. */
  lemma AddedReadsAsHeaderIff(r: Reader, text: string)
    ensures IsFileHeader("+" + text) <==> "++ " <= text
    ensures "++ " <= text ==> ReadLine(r, "+" + text) == OpenFile(Flush(r), text[3..])
  {
    var line := "+" + text;
    assert line[0] == '+' && line[1..] == text;
    assert |text| >= 3 ==> line[1..4] == text[..3];
    if "++ " <= text {
      assert line[..4] == "+++ ";
      assert line[4..] == text[3..];
    }
  }

  /** What reading the rest of a body adds to the record, with a range pending or not. */
  function MergedRuns(pending: Option<LineRange>, body: seq<DiffLine>, line: nat): seq<LineRange>
    requires line >= 1
  {
    match pending
    case None => Runs(body, line)
    case Some(p) => [LineRange(p.lineStart, line - 1 + Block(body))] + Runs(AfterBlock(body), line + Block(body))
  }

  predicate InHunk(r: Reader, line: nat) {
    && r.currentFile.Some? && r.currentFile.value in r.ranges
    && r.newLine == Some(line) && line >= 1
    && (r.pending.Some? ==> r.pending.value.lineEnd == line - 1)
  }

  lemma RecordNothing(r: Reader)
    requires r.currentFile.Some? && r.currentFile.value in r.ranges
    ensures Recorded(r, []) == r.(pending := None)
  {
    var file := r.currentFile.value;
    assert r.ranges[file] + [] == r.ranges[file];
    assert r.ranges[file := r.ranges[file]] == r.ranges;
  }

  /** Recording the pending range, then the rest, is recording both. */
  lemma RecordedTwice(r: Reader, body: seq<DiffLine>, line: nat)
    requires InHunk(r, line) && body != [] && (body[0].Context? || body[0].Removed?)
    ensures var after := if body[0].Context? then line + 1 else line;
      Recorded(Flush(r), Runs(body[1..], after)) == Recorded(r, MergedRuns(r.pending, body, line))
  {
    var file := r.currentFile.value;
    var runs := Runs(body, line);
    if r.pending.Some? {
      assert (r.ranges[file] + [r.pending.value]) + runs == r.ranges[file] + ([r.pending.value] + runs);
    }
  }

  function NumberAfter(line: DiffLine, number: nat): nat {
    if line.Context? || line.Added? then number + 1 else number
  }

  /** The reader's state after one line of a hunk. */
  function AfterLine(r: Reader, line: DiffLine, number: nat): Reader
    requires InHunk(r, number)
  {
    match line
    case Added(_) =>
      r.(pending := Some(LineRange(if r.pending.Some? then r.pending.value.lineStart else number, number)),
        newLine := Some(number + 1))
    case Marker(_) => r
    case _ => Flush(r).(newLine := Some(NumberAfter(line, number)))
  }

  lemma ReadOne(r: Reader, line: DiffLine, number: nat)
    requires InHunk(r, number) && GoodLine(line) && number <= MAX_SAFE_INTEGER
    ensures ReadLine(r, StripCR(LineText(line))) == AfterLine(r, line, number)
  {
    hide StripCR, HunkStart, TargetPath;
    LineReads(line);
  }

  /** The reader's state after the rest of a body, with its last range on record. */
  function AfterBody(r: Reader, body: seq<DiffLine>, line: nat): Reader
    requires InHunk(r, line)
  {
    Recorded(r, MergedRuns(r.pending, body, line)).(newLine := Some(line + NewLines(body)))
  }

  lemma MergedStep(r: Reader, body: seq<DiffLine>, line: nat)
    requires InHunk(r, line) && body != []
    ensures var next := AfterLine(r, body[0], line); var after := NumberAfter(body[0], line);
      && InHunk(next, after)
      && AfterBody(next, body[1..], after) == AfterBody(r, body, line)
  {
    if body[0].Context? || body[0].Removed? {
      RecordedTwice(r, body, line);
    }
  }

  lemma ReadNothing(r: Reader, line: nat)
    requires InHunk(r, line)
    ensures Flush(ReadLines(r, Stripped(BodyLines([])))) == AfterBody(r, [], line)
  {
    RecordNothing(r);
    assert MergedRuns(r.pending, [], line) == if r.pending.Some? then [r.pending.value] else [];
  }

  lemma BodyLinesStripped(body: seq<DiffLine>)
    requires body != []
    ensures var lines := Stripped(BodyLines(body));
      lines != [] && lines[0] == StripCR(LineText(body[0])) && lines[1..] == Stripped(BodyLines(body[1..]))
  {
    hide StripCR, LineText;
  }

  lemma {:induction false} ReadBody(r: Reader, body: seq<DiffLine>, line: nat)
    requires InHunk(r, line) && line + NewLines(body) <= MAX_SAFE_INTEGER
    requires forall l :: l in body ==> GoodLine(l)
    ensures Flush(ReadLines(r, Stripped(BodyLines(body)))) == AfterBody(r, body, line)
    decreases |body|
  {
    hide ReadLines, AfterLine, AfterBody, GoodLine, Flush, Stripped, BodyLines, InHunk;
    if body == [] {
      ReadNothing(r, line);
    } else {
      assert GoodLine(body[0]);
      MergedStep(r, body, line);
      ReadBody(AfterLine(r, body[0], line), body[1..], NumberAfter(body[0], line));
      ReadFirst(r, body, line);
    }
  }

  lemma ReadFirst(r: Reader, body: seq<DiffLine>, line: nat)
    requires InHunk(r, line) && body != [] && GoodLine(body[0]) && line <= MAX_SAFE_INTEGER
    ensures ReadLines(r, Stripped(BodyLines(body))) ==
      ReadLines(AfterLine(r, body[0], line), Stripped(BodyLines(body[1..])))
  {
    hide ReadLine, StripCR, AfterLine, LineText, GoodLine;
    ReadOne(r, body[0], line);
    BodyLinesStripped(body);
  }

  // ---- Reading one file ----

  /** What the next header line makes of a state. */
  function Settle(r: Reader): Reader {
    Flush(r).(newLine := None)
  }

  predicate IsHeader(line: string) {
    IsFileHeader(line) || "@@" <= line
  }

  lemma HeaderSettles(r: Reader, line: string)
    requires IsHeader(line)
    ensures ReadLine(r, line) == ReadLine(Settle(r), line)
      || (r.currentFile == None && !IsFileHeader(line) && ReadLine(r, line) == r)
  {
    hide HunkStart, TargetPath;
  }

  /** In a hunk that shows no new line there is nothing to record, counted or not. */
  lemma {:induction false} NothingNew(body: seq<DiffLine>, line: nat)
    requires NewLines(body) == 0
    ensures Runs(body, line) == []
    ensures forall l :: l in body ==> !l.Added? && !l.Context?
  {
    if body != [] {
      NothingNew(body[1..], line);
    }
  }

  /** Outside of hunks the lines of a body are passed over. */
  lemma {:induction false} PassOver(r: Reader, body: seq<DiffLine>)
    requires r.currentFile == None || r.newLine == None
    requires forall l :: l in body ==> GoodLine(l)
    ensures ReadLines(r, Stripped(BodyLines(body))) == r
  {
    if body != [] {
      hide StripCR, HunkStart, TargetPath;
      LineReads(body[0]);
      PassOver(r, body[1..]);
    }
  }

  predicate InFile(r: Reader) {
    r.currentFile.Some? && r.currentFile.value in r.ranges && r.pending == None
  }

  lemma HeaderParts(h: Hunk, section: string)
    ensures var front := HunkHeader(h.(section := ""));
      && HunkHeader(h.(section := section)) == front + section
      && |front| >= 2 && front[0] == '@' && front[1] == '@' && front[|front| - 1] == '@'
      && "@@" <= front + section && !IsFileHeader(front + section)
  {
    hide Decimal, CountText;
    var front := HunkHeader(h.(section := ""));
    var text := front + section;
    assert text[0] == '@' && text[1] == '@';
  }

  lemma ReadHeader(r: Reader, h: Hunk)
    ensures var line := StripCR(HunkHeader(h));
      && "@@" <= line && !IsFileHeader(line)
      && UsableStart(line) == (if 1 <= h.newStart <= MAX_SAFE_INTEGER then Some(h.newStart) else None)
  {
    hide StripCR, HunkStart;
    HeaderParts(h, h.section);
    HeaderParts(h, StripCR(h.section));
    var front := HunkHeader(h.(section := ""));
    StripKeepsPrefix(front, h.section);
    HeaderRoundTrip(h, StripCR(h.section));
    assert h == h.(section := h.section);
  }

  lemma ReadHunk(r: Reader, h: Hunk)
    requires InFile(r) && GoodHunk(h)
    ensures Settle(ReadLines(r, Stripped([HunkHeader(h)] + BodyLines(h.body)))) ==
      Settle(Recorded(r, Runs(h.body, h.newStart)))
  {
    hide StripCR, HunkHeader, UsableStart, TargetPath, BodyLines;
    var line := StripCR(HunkHeader(h));
    ReadHeader(r, h);
    assert Stripped([HunkHeader(h)] + BodyLines(h.body)) == [line] + Stripped(BodyLines(h.body));
    var next := ReadLine(r, line);
    assert next == r.(newLine := UsableStart(line));
    if next.newLine.Some? {
      ReadBody(next, h.body, h.newStart);
    } else {
      PassOver(next, h.body);
      NothingNew(h.body, h.newStart);
      RecordNothing(r);
    }
  }

  /** Lines that start with a header can be read from the settled state. */
  lemma SettledStart(r: Reader, lines: seq<string>)
    requires lines != [] && IsHeader(lines[0]) && (r.currentFile.Some? || IsFileHeader(lines[0]))
    ensures ReadLines(r, lines) == ReadLines(Settle(r), lines)
  {
    hide ReadLine, Settle;
    HeaderSettles(r, lines[0]);
  }

  lemma RecordMore(r: Reader, first: seq<LineRange>, rest: seq<LineRange>)
    requires InFile(r)
    ensures InFile(Settle(Recorded(r, first)))
    ensures Settle(Recorded(Settle(Recorded(r, first)), rest)) == Settle(Recorded(r, first + rest))
  {
    var file := r.currentFile.value;
    assert (r.ranges[file] + first) + rest == r.ranges[file] + (first + rest);
  }

  lemma {:induction false} ReadHunks(r: Reader, hunks: seq<Hunk>)
    requires InFile(r) && forall h :: h in hunks ==> GoodHunk(h)
    ensures Settle(ReadLines(r, Stripped(HunkLines(hunks)))) == Settle(Recorded(r, HunkRuns(hunks)))
    decreases |hunks|
  {
    if hunks == [] {
      RecordNothing(r);
    } else {
      hide Settle, StripCR, HunkHeader, ReadLine, BodyLines, GoodHunk, Recorded, InFile, Runs, IsHeader;
      var h := hunks[0];
      var first := [HunkHeader(h)] + BodyLines(h.body);
      var rest := HunkLines(hunks[1..]);
      StrippedConcat(first, rest);
      ReadLinesConcat(r, Stripped(first), Stripped(rest));
      ReadHunk(r, h);
      var runs := Runs(h.body, h.newStart);
      RecordMore(r, runs, HunkRuns(hunks[1..]));
      var settled := Settle(Recorded(r, runs));
      ReadHunks(settled, hunks[1..]);
      if rest != [] {
        ReadHeader(r, hunks[1]);
        SettledHunks(ReadLines(r, Stripped(first)), r, runs, Stripped(rest));
      }
    }
  }

  lemma SettledHunks(r: Reader, before: Reader, runs: seq<LineRange>, lines: seq<string>)
    requires InFile(before) && Settle(r) == Settle(Recorded(before, runs))
    requires lines != [] && "@@" <= lines[0]
    ensures ReadLines(r, lines) == ReadLines(Settle(r), lines)
  {
    assert Settle(r).currentFile.Some?;
    SettledStart(r, lines);
  }

  lemma {:induction false} PassOverHunks(r: Reader, hunks: seq<Hunk>)
    requires r.currentFile == None && forall h :: h in hunks ==> GoodHunk(h)
    ensures ReadLines(r, Stripped(HunkLines(hunks))) == r
    decreases |hunks|
  {
    if hunks != [] {
      hide StripCR, HunkHeader, BodyLines, ReadLine, GoodHunk;
      var h := hunks[0];
      var header := StripCR(HunkHeader(h));
      var body := Stripped(BodyLines(h.body));
      var rest := Stripped(HunkLines(hunks[1..]));
      HunkLinesStripped(hunks);
      hide Stripped, HunkLines;
      ReadHeader(r, h);
      PassOverLine(r, header);
      hide IsFileHeader, UsableStart;
      ReadLinesConcat(r, [header], body + rest);
      ReadLinesConcat(r, body, rest);
      assert GoodHunk(h);
      PassOverBody(r, h);
      PassOverHunks(r, hunks[1..]);
    }
  }

  lemma HunkLinesStripped(hunks: seq<Hunk>)
    requires hunks != []
    ensures Stripped(HunkLines(hunks)) ==
      [StripCR(HunkHeader(hunks[0]))] + (Stripped(BodyLines(hunks[0].body)) + Stripped(HunkLines(hunks[1..])))
  {
    hide StripCR, HunkHeader, BodyLines;
    var h, rest := hunks[0], HunkLines(hunks[1..]);
    assert HunkLines(hunks) == [HunkHeader(h)] + (BodyLines(h.body) + rest);
    StrippedConcat(BodyLines(h.body), rest);
    StrippedConcat([HunkHeader(h)], BodyLines(h.body) + rest);
    assert [HunkHeader(h)][1..] == [];
    assert Stripped([HunkHeader(h)]) == [StripCR(HunkHeader(h))];
  }

  lemma PassOverBody(r: Reader, h: Hunk)
    requires r.currentFile == None && GoodHunk(h)
    ensures ReadLines(r, Stripped(BodyLines(h.body))) == r
  {
    PassOver(r, h.body);
  }

  lemma PassOverLine(r: Reader, line: string)
    requires r.currentFile == None && !IsFileHeader(line)
    ensures ReadLines(r, [line]) == r
  {
    assert ReadLines(r, [line]) == ReadLine(r, line);
  }

  // ---- Reading a whole diff ----

  function RangesOf(r: Reader, path: string): seq<LineRange> {
    if path in r.ranges then r.ranges[path] else []
  }

  lemma StrippedIsNoHeader(line: string)
    requires !IsFileHeader(line)
    ensures !IsFileHeader(StripCR(line))
  {
    var stripped := StripCR(line);
    assert stripped == line[..|stripped|];
    assert |stripped| >= 4 ==> stripped[..4] == line[..4];
    assert |stripped| >= 11 ==> stripped[..11] == line[..11];
  }

  lemma {:induction false} PassOverExtended(r: Reader, lines: seq<string>)
    requires r.currentFile == None && forall line :: line in lines ==> !IsFileHeader(line)
    ensures ReadLines(r, Stripped(lines)) == r
  {
    if lines != [] {
      hide UsableStart, TargetPath, StripCR;
      StrippedIsNoHeader(lines[0]);
      PassOverExtended(r, lines[1..]);
    }
  }

  lemma ReadGitHeader(r: Reader, f: FileDiff)
    requires r.pending == None && GoodFile(f)
    ensures ReadLines(r, Stripped(["diff --git " + f.header] + f.extended)) == r.(currentFile := None, newLine := None)
  {
    hide StripCR, TargetPath, UsableStart;
    var line := StripCR("diff --git " + f.header);
    StripKeepsPrefix("diff --git ", f.header);
    assert "diff --git " <= line;
    assert Stripped(["diff --git " + f.header] + f.extended) == [line] + Stripped(f.extended);
    PassOverExtended(r.(currentFile := None, newLine := None), f.extended);
  }

  lemma ReadTarget(r: Reader, f: FileDiff)
    requires GoodFile(f) && r.pending == None
    ensures ReadLines(r, Stripped(["+++ " + f.target])) == OpenFile(r, f.target)
  {
    hide Names;
    var line := "+++ " + f.target;
    assert StripCR(line) == line;
    assert line[4..] == f.target;
    assert !("diff --git " <= line) by { assert line[0] == '+'; }
    assert Stripped([line]) == [line];
    assert ReadLines(r, [line]) == ReadLine(r, line);
  }

  /** What one file adds to the record of every path. */
  predicate Extends(before: Reader, after: Reader, path: string, named: bool, runs: seq<LineRange>) {
    && (path in after.ranges <==> path in before.ranges || named)
    && RangesOf(after, path) == RangesOf(before, path) + runs
  }

  lemma NamesIff(target: string, path: string)
    ensures TargetPath(target) == Some(path) <==> Names(target, path)
  {
    hide TargetPath;
    TargetPathInFull(target, path);
  }

  lemma ReadFile(r: Reader, f: FileDiff, path: string)
    requires r.pending == None && GoodFile(f)
    ensures var named := Names(f.target, path);
      Extends(r, Settle(ReadLines(r, Stripped(FileLines(f)))), path, named, if named then HunkRuns(f.hunks) else [])
  {
    hide TargetPath, Names, StripCR, HunkLines, GoodHunk, HunkRuns, ReadLine;
    var start := ["diff --git " + f.header] + f.extended;
    var target := ["+++ " + f.target];
    var rest := HunkLines(f.hunks);
    assert FileLines(f) == start + (target + rest);
    StrippedConcat(start, target + rest);
    StrippedConcat(target, rest);
    ReadLinesConcat(r, Stripped(start), Stripped(target) + Stripped(rest));
    ReadGitHeader(r, f);
    var closed := r.(currentFile := None, newLine := None);
    ReadLinesConcat(closed, Stripped(target), Stripped(rest));
    ReadTarget(closed, f);
    var inside := OpenFile(closed, f.target);
    NamesIff(f.target, path);
    if TargetPath(f.target).Some? {
      ReadHunks(inside, f.hunks);
    } else {
      PassOverHunks(inside, f.hunks);
    }
  }

  lemma {:induction false} ReadFiles(r: Reader, files: seq<FileDiff>, path: string)
    requires r.pending == None && WellFormed(files)
    ensures Extends(r, Settle(ReadLines(r, Stripped(AllLines(files)))), path, Named(files, path), FileRuns(files, path))
    decreases |files|
  {
    if files == [] {
      assert RangesOf(r, path) + [] == RangesOf(r, path);
    } else {
      hide ReadLine, StripCR, TargetPath, Names, FileLines, HunkRuns, GoodFile, Named, Extends, Settle;
      var first := FileLines(files[0]);
      var rest := AllLines(files[1..]);
      StrippedConcat(first, rest);
      ReadLinesConcat(r, Stripped(first), Stripped(rest));
      ReadFile(r, files[0], path);
      var middle := ReadLines(r, Stripped(first));
      SettledHasNothing(middle);
      ReadFiles(Settle(middle), files[1..], path);
      if rest != [] {
        FileStarts(files[1], rest);
        SettledStart(middle, Stripped(rest));
      }
      NamedHere(files, path);
      ExtendsTwice(r, Settle(middle), Settle(ReadLines(r, Stripped(first + rest))), files, path);
    }
  }

  lemma SettledHasNothing(r: Reader)
    ensures Settle(r).pending == None
  {}

  lemma ExtendsCompose(a: Reader, b: Reader, c: Reader, path: string, first: bool, runs: seq<LineRange>, second: bool,
      more: seq<LineRange>)
    requires Extends(a, b, path, first, runs) && Extends(b, c, path, second, more)
    ensures Extends(a, c, path, first || second, runs + more)
  {
    hide RangesOf;
    assert (RangesOf(a, path) + runs) + more == RangesOf(a, path) + (runs + more);
  }

  lemma ExtendsTwice(a: Reader, b: Reader, c: Reader, files: seq<FileDiff>, path: string)
    requires files != []
    requires var named := Names(files[0].target, path);
      Extends(a, b, path, named, if named then HunkRuns(files[0].hunks) else [])
    requires Extends(b, c, path, Named(files[1..], path), FileRuns(files[1..], path))
    ensures Extends(a, c, path, Named(files, path), FileRuns(files, path))
  {
    hide Names, HunkRuns, Named, Extends;
    NamedHere(files, path);
    var named := Names(files[0].target, path);
    var runs, rest := if named then HunkRuns(files[0].hunks) else [], FileRuns(files[1..], path);
    assert FileRuns(files, path) == runs + rest;
    hide FileRuns;
    ExtendsCompose(a, b, c, path, named, runs, Named(files[1..], path), rest);
  }

  lemma NamedHere(files: seq<FileDiff>, path: string)
    requires files != []
    ensures Named(files, path) <==> Names(files[0].target, path) || Named(files[1..], path)
  {
    assert files == [files[0]] + files[1..];
  }

  lemma FileStarts(f: FileDiff, lines: seq<string>)
    requires FileLines(f) <= lines
    ensures lines != [] && Stripped(lines) != [] && IsFileHeader(Stripped(lines)[0])
  {
    assert lines[0] == "diff --git " + f.header;
    StripKeepsPrefix("diff --git ", f.header);
  }

  lemma {:induction false} PrintedInLines(files: seq<FileDiff>)
    requires WellFormed(files)
    ensures forall line :: line in AllLines(files) ==> OneLine(line)
  {
    if files != [] {
      PrintedInLines(files[1..]);
      FileInLines(files[0]);
    }
  }

  lemma FileInLines(f: FileDiff)
    requires GoodFile(f)
    ensures forall line :: line in FileLines(f) ==> OneLine(line)
  {
    HunksInLines(f.hunks);
  }

  lemma {:induction false} HunksInLines(hunks: seq<Hunk>)
    requires forall h :: h in hunks ==> GoodHunk(h)
    ensures forall line :: line in HunkLines(hunks) ==> OneLine(line)
  {
    if hunks != [] {
      assert hunks[0] in hunks;
      BodyInLines(hunks[0].body);
      HeaderInLine(hunks[0]);
      HunksInLines(hunks[1..]);
    }
  }

  lemma HeaderInLine(h: Hunk)
    requires OneLine(h.section)
    ensures OneLine(HunkHeader(h))
  {
    DigitsInLine(Decimal(h.oldStart));
    DigitsInLine(Decimal(h.newStart));
    if h.oldCount.Some? { DigitsInLine(Decimal(h.oldCount.value)); }
    if h.newCount.Some? { DigitsInLine(Decimal(h.newCount.value)); }
    hide Decimal;
  }

  lemma DigitsInLine(digits: string)
    requires forall i :: 0 <= i < |digits| ==> IsDigit(digits[i])
    ensures OneLine(digits)
  {}

  lemma {:induction false} BodyInLines(body: seq<DiffLine>)
    requires forall line :: line in body ==> GoodLine(line)
    ensures forall line :: line in BodyLines(body) ==> OneLine(line)
  {
    if body != [] {
      assert body[0] in body;
      BodyInLines(body[1..]);
    }
  }

  /** The reader is exact on every well-formed diff: the files it lists are those that the diff
      names by a plain relative path, and the ranges of each are the blocks of added lines of all
      of its hunks, in order. */
  lemma ReaderIsExact(files: seq<FileDiff>, path: string)
    requires WellFormed(files)
    ensures var evidence := EvidenceOf(Print(files));
      && (path in evidence.ranges <==> Named(files, path))
      && (path in evidence.files <==> Named(files, path))
      && (Named(files, path) ==> evidence.ranges[path] == FileRuns(files, path))
  {
    hide ReadLine, StripCR, AllLines, GoodFile, Named, FileRuns;
    PrintedInLines(files);
    SplitText(AllLines(files));
    var lines := Stripped(AllLines(files));
    ReadLinesConcat(FRESH, lines, [""]);
    var read := ReadLines(FRESH, lines);
    assert ReadLines(read, [""]) == ReadLine(read, "");
    LastLine(read);
    ReadFiles(FRESH, files, path);
    RangesAreWellFormed(Print(files));
  }

  lemma LastLine(r: Reader)
    ensures Settle(ReadLine(r, "")) == Settle(r)
  {
    assert !("diff --git " <= "") && !("+++ " <= "") && !("@@" <= "") && !("\\" <= "") && !("+" <= "") && !(" " <= "");
  }

  // ---- What the blocks are ----

  /** This line of the body is an added line, with this number in the new version. */
  predicate AddedAt(body: seq<DiffLine>, line: nat, i: nat, number: nat) {
    i < |body| && body[i].Added? && line + NewLines(body[..i]) == number
  }

  /** A number is declared as added by the body of a hunk. */
  ghost predicate DeclaredIn(body: seq<DiffLine>, line: nat, number: nat) {
    exists i :: AddedAt(body, line, i, number)
  }

  ghost predicate Declared(files: seq<FileDiff>, path: string, number: nat) {
    exists f, h ::
      f in files && Names(f.target, path) && h in f.hunks && DeclaredIn(h.body, h.newStart, number)
  }

  ghost predicate InRanges(ranges: seq<LineRange>, number: nat) {
    exists range :: range in ranges && range.Contains(number)
  }

  lemma InRangesConcat(a: seq<LineRange>, b: seq<LineRange>, number: nat)
    ensures InRanges(a + b, number) <==> InRanges(a, number) || InRanges(b, number)
  {}

  function Advance(line: DiffLine): nat {
    if line.Context? || line.Added? then 1 else 0
  }

  lemma InRangesOne(range: LineRange, number: nat)
    ensures InRanges([range], number) <==> range.Contains(number)
  {
    assert [range][0] == range;
  }

  lemma InRangesNone(number: nat)
    ensures !InRanges([], number)
  {}

  /** Declarations of the body are those of its first line and of the rest. */
  lemma DeclaredHere(body: seq<DiffLine>, line: nat, number: nat)
    requires body != []
    ensures DeclaredIn(body, line, number) <==>
      (body[0].Added? && number == line) || DeclaredIn(body[1..], line + Advance(body[0]), number)
  {
    var tail, next := body[1..], line + Advance(body[0]);
    if body[0].Added? && number == line {
      assert body[..0] == [];
      assert AddedAt(body, line, 0, number);
    }
    forall i: nat | i < |tail|
      ensures AddedAt(tail, next, i, number) == AddedAt(body, line, i + 1, number)
    {
      assert body[..i + 1][1..] == tail[..i];
    }
    if DeclaredIn(body, line, number) {
      var i: nat :| AddedAt(body, line, i, number);
      if i == 0 {
        assert body[..0] == [];
      } else {
        assert AddedAt(tail, next, i - 1, number);
      }
    }
  }

  /** A block, and then whatever the rest declares. */
  lemma {:induction false} DeclaredBlock(body: seq<DiffLine>, line: nat, number: nat)
    ensures DeclaredIn(body, line, number) <==>
      line <= number < line + Block(body) || DeclaredIn(AfterBlock(body), line + Block(body), number)
  {
    if body != [] && (body[0].Added? || body[0].Marker?) {
      DeclaredHere(body, line, number);
      DeclaredBlock(body[1..], line + Advance(body[0]), number);
    }
  }

  lemma {:induction false} RunsCover(body: seq<DiffLine>, line: nat, number: nat)
    ensures InRanges(Runs(body, line), number) <==> DeclaredIn(body, line, number)
    decreases |body|
  {
    if body == [] {
    } else if body[0].Added? {
      DeclaredBlock(body, line, number);
      RunsCover(AfterBlock(body), line + Block(body), number);
      var first := LineRange(line, line + Block(body) - 1);
      InRangesConcat([first], Runs(AfterBlock(body), line + Block(body)), number);
      InRangesOne(first, number);
    } else {
      DeclaredHere(body, line, number);
      RunsCover(body[1..], line + Advance(body[0]), number);
    }
  }

  lemma {:induction false} HunkRunsCover(hunks: seq<Hunk>, number: nat)
    ensures InRanges(HunkRuns(hunks), number) <==> exists h :: h in hunks && DeclaredIn(h.body, h.newStart, number)
  {
    if hunks != [] {
      hide Runs, DeclaredIn, InRanges;
      RunsCover(hunks[0].body, hunks[0].newStart, number);
      InRangesConcat(Runs(hunks[0].body, hunks[0].newStart), HunkRuns(hunks[1..]), number);
      HunkRunsCover(hunks[1..], number);
      assert hunks == [hunks[0]] + hunks[1..];
    } else {
      assert !InRanges([], number);
    }
  }

  lemma {:induction false} FileRunsCover(files: seq<FileDiff>, path: string, number: nat)
    ensures InRanges(FileRuns(files, path), number) <==> Declared(files, path, number)
  {
    if files != [] {
      hide DeclaredIn, InRanges, HunkRuns, Names;
      var named := Names(files[0].target, path);
      HunkRunsCover(files[0].hunks, number);
      InRangesConcat(if named then HunkRuns(files[0].hunks) else [], FileRuns(files[1..], path), number);
      InRangesNone(number);
      FileRunsCover(files[1..], path, number);
      assert files == [files[0]] + files[1..];
    } else {
      assert !InRanges([], number);
    }
  }

  /** On every well-formed diff, a line of a file is covered by a range if and only if the diff
      declares it as an added line of that file. */
  lemma CoveredIffDeclared(files: seq<FileDiff>, path: string, number: nat)
    requires WellFormed(files)
    ensures Covered(EvidenceOf(Print(files)).ranges, path, number) <==> Declared(files, path, number)
  {
    hide Print, EvidenceOf, WellFormed, FileRuns, Names;
    ReaderIsExact(files, path);
    FileRunsCover(files, path, number);
    if Declared(files, path, number) {
      var f, h :| f in files && Names(f.target, path) && h in f.hunks
        && DeclaredIn(h.body, h.newStart, number);
      assert Named(files, path);
    }
  }

  // ---- Blocks are maximal ----

  predicate Joins(line: DiffLine) {
    line.Added? || line.Marker?
  }

  /** The added lines from `i` to `j` are consecutive, and no added line joins them on either side. */
  ghost predicate MaximalBlock(body: seq<DiffLine>, i: nat, j: nat) {
    && i <= j < |body| && body[i].Added? && body[j].Added?
    && (forall k :: i <= k <= j ==> Joins(body[k]))
    && (forall k :: 0 <= k < i && body[k].Added? ==> exists m :: k < m < i && !Joins(body[m]))
    && (forall k :: j < k < |body| && body[k].Added? ==> exists m :: j < m < k && !Joins(body[m]))
  }

  function RangeAt(body: seq<DiffLine>, line: nat, i: nat, j: nat): LineRange
    requires i <= j < |body|
  {
    LineRange(line + NewLines(body[..i]), line + NewLines(body[..j]))
  }

  lemma {:induction false} NewLinesConcat(a: seq<DiffLine>, b: seq<DiffLine>)
    ensures NewLines(a + b) == NewLines(a) + NewLines(b)
  {
    if a == [] {
      assert a + b == b;
    } else {
      assert (a + b)[1..] == a[1..] + b;
      NewLinesConcat(a[1..], b);
    }
  }

  /** Nothing before `d` can join what comes from `d` on. */
  predicate CutAt(body: seq<DiffLine>, d: nat) {
    && d <= |body|
    && (d == |body| || !Joins(body[d]) || forall k :: 0 <= k < d ==> !body[k].Added?)
  }

  lemma BlocksAfterCut(body: seq<DiffLine>, line: nat, d: nat, i: nat, j: nat)
    requires CutAt(body, d) && i <= j < |body| - d
    ensures MaximalBlock(body, d + i, d + j) <==> MaximalBlock(body[d..], i, j)
    ensures RangeAt(body, line, d + i, d + j) == RangeAt(body[d..], line + NewLines(body[..d]), i, j)
  {
    var tail := body[d..];
    assert forall k :: 0 <= k < |tail| ==> tail[k] == body[d + k];
    BlocksShift(body, d, i, j);
    assert body[..d + i] == body[..d] + tail[..i];
    assert body[..d + j] == body[..d] + tail[..j];
    NewLinesConcat(body[..d], tail[..i]);
    NewLinesConcat(body[..d], tail[..j]);
  }

  lemma BlocksShift(body: seq<DiffLine>, d: nat, i: nat, j: nat)
    requires CutAt(body, d) && i <= j < |body| - d
    ensures MaximalBlock(body, d + i, d + j) <==> MaximalBlock(body[d..], i, j)
  {
    var tail := body[d..];
    assert forall k :: d <= k < |body| ==> body[k] == tail[k - d];
    if MaximalBlock(tail, i, j) {
      forall k | 0 <= k < d + i && body[k].Added?
        ensures exists m :: k < m < d + i && !Joins(body[m])
      {
        if k >= d {
          var m :| k - d < m < i && !Joins(tail[m]);
          assert !Joins(body[d + m]);
        } else {
          assert !Joins(body[d]);
        }
      }
      forall k | d + j < k < |body| && body[k].Added?
        ensures exists m :: d + j < m < k && !Joins(body[m])
      {
        var m :| j < m < k - d && !Joins(tail[m]);
        assert !Joins(body[d + m]);
      }
    }
    if MaximalBlock(body, d + i, d + j) {
      forall k | 0 <= k < i && tail[k].Added?
        ensures exists m :: k < m < i && !Joins(tail[m])
      {
        var m :| d + k < m < d + i && !Joins(body[m]);
        assert !Joins(tail[m - d]);
      }
      forall k | j < k < |tail| && tail[k].Added?
        ensures exists m :: j < m < k && !Joins(tail[m])
      {
        assert body[d + k].Added?;
        var m :| d + j < m < d + k && !Joins(body[m]);
        assert !Joins(tail[m - d]);
      }
    }
  }

  /** Where the first block ends: its last added line, and the cut behind it. */
  lemma {:induction false} FirstBlock(body: seq<DiffLine>) returns (last: nat, cut: nat)
    requires body != [] && body[0].Added?
    ensures last < cut <= |body| && body[last].Added? && NewLines(body[..last]) == Block(body) - 1
    ensures AfterBlock(body) == body[cut..] && NewLines(body[..cut]) == Block(body)
    ensures forall k :: 0 <= k < cut ==> Joins(body[k])
    ensures forall k :: last < k < cut ==> !body[k].Added?
    ensures cut == |body| || !Joins(body[cut])
    decreases |body|
  {
    cut := |body| - |AfterBlock(body)|;
    CutOf(body);
    last := LastAdded(body, cut);
    BlockUpTo(body, cut);
    hide AfterBlock, Block, Joins;
    SplitCounts(body, last, cut);
  }

  lemma LastAdded(body: seq<DiffLine>, cut: nat) returns (last: nat)
    requires 0 < cut <= |body| && body[0].Added?
    ensures last < cut && body[last].Added? && forall k :: last < k < cut ==> !body[k].Added?
  {
    last := 0;
    for k: nat := 1 to cut
      invariant last < k && body[last].Added? && forall m :: last < m < k ==> !body[m].Added?
    {
      if body[k].Added? { last := k; }
    }
  }

  lemma SplitCounts(body: seq<DiffLine>, last: nat, cut: nat)
    requires last < cut <= |body| && body[last].Added? && forall k :: last < k < cut ==> body[k].Marker?
    ensures NewLines(body[..cut]) == NewLines(body[..last]) + 1
  {
    assert body[..cut] == body[..last] + body[last..cut];
    NewLinesConcat(body[..last], body[last..cut]);
    OnlyFirstCounts(body[last..cut]);
  }

  lemma {:induction false} OnlyFirstCounts(body: seq<DiffLine>)
    requires body != [] && body[0].Added? && forall k :: 0 < k < |body| ==> body[k].Marker?
    ensures NewLines(body) == 1
    decreases |body|
  {
    MarkersCountNothing(body[1..]);
  }

  lemma {:induction false} MarkersCountNothing(body: seq<DiffLine>)
    requires forall k :: 0 <= k < |body| ==> body[k].Marker?
    ensures NewLines(body) == 0
  {
    if body != [] {
      MarkersCountNothing(body[1..]);
    }
  }

  lemma {:induction false} CutOf(body: seq<DiffLine>)
    ensures var cut := |body| - |AfterBlock(body)|;
      && AfterBlock(body) == body[cut..]
      && (forall k :: 0 <= k < cut ==> Joins(body[k]))
      && (cut == |body| || !Joins(body[cut]))
  {
    if body != [] && Joins(body[0]) {
      CutOf(body[1..]);
    }
  }

  lemma BlockUpTo(body: seq<DiffLine>, cut: nat)
    requires cut <= |body| && AfterBlock(body) == body[cut..]
    ensures NewLines(body[..cut]) == Block(body)
  {
    BlockCounts(body);
    assert body == body[..cut] + body[cut..];
    NewLinesConcat(body[..cut], body[cut..]);
  }

  lemma {:induction false} BlockCounts(body: seq<DiffLine>)
    ensures NewLines(body) == Block(body) + NewLines(AfterBlock(body))
  {
    if body != [] && Joins(body[0]) {
      BlockCounts(body[1..]);
    }
  }

  /** The range of a maximal block that starts at this position of the body or later. */
  ghost predicate IsBlockRange(body: seq<DiffLine>, line: nat, from: nat, range: LineRange) {
    exists i: nat, j: nat :: from <= i <= j < |body| && MaximalBlock(body, i, j) && range == RangeAt(body, line, i, j)
  }

  /** The first block is maximal, and no other maximal block starts before the cut. */
  lemma OneFirstBlock(body: seq<DiffLine>, last: nat, cut: nat, i: nat, j: nat)
    requires last < cut <= |body| && body[0].Added? && body[last].Added?
    requires (forall k :: 0 <= k < cut ==> Joins(body[k]))
    requires (forall k :: last < k < cut ==> !body[k].Added?) && (cut == |body| || !Joins(body[cut]))
    ensures MaximalBlock(body, 0, last)
    ensures MaximalBlock(body, i, j) && i < cut ==> i == 0 && j == last
  {
    if cut < |body| {
      assert !Joins(body[cut]);
    }
  }

  lemma BlockRangeInTail(body: seq<DiffLine>, line: nat, cut: nat, range: LineRange)
    requires cut <= |body| && CutAt(body, cut) && IsBlockRange(body[cut..], line + NewLines(body[..cut]), 0, range)
    ensures IsBlockRange(body, line, cut, range)
  {
    hide RangeAt, CutAt, NewLines, MaximalBlock;
    var tail, next := body[cut..], line + NewLines(body[..cut]);
    var i: nat, j: nat :| i <= j < |tail| && MaximalBlock(tail, i, j) && range == RangeAt(tail, next, i, j);
    BlocksAfterCut(body, line, cut, i, j);
    assert MaximalBlock(body, cut + i, cut + j);
  }

  lemma BlockRangeBeyond(body: seq<DiffLine>, line: nat, cut: nat, range: LineRange)
    requires cut <= |body| && CutAt(body, cut) && IsBlockRange(body, line, cut, range)
    ensures IsBlockRange(body[cut..], line + NewLines(body[..cut]), 0, range)
  {
    hide RangeAt, CutAt, NewLines, MaximalBlock;
    var i: nat, j: nat :| cut <= i <= j < |body| && MaximalBlock(body, i, j) && range == RangeAt(body, line, i, j);
    var a, b := i - cut, j - cut;
    assert cut + a == i && cut + b == j;
    BlocksAfterCut(body, line, cut, a, b);
    assert MaximalBlock(body[cut..], a, b);
  }

  lemma FirstBlockRange(body: seq<DiffLine>, line: nat, last: nat, cut: nat, range: LineRange)
    requires last < cut <= |body| && body[0].Added? && body[last].Added?
    requires (forall k :: 0 <= k < cut ==> Joins(body[k]))
    requires (forall k :: last < k < cut ==> !body[k].Added?) && (cut == |body| || !Joins(body[cut]))
    requires NewLines(body[..last]) == Block(body) - 1
    ensures IsBlockRange(body, line, 0, range) <==>
      range == LineRange(line, line + Block(body) - 1) || IsBlockRange(body, line, cut, range)
  {
    hide MaximalBlock;
    OneFirstBlock(body, last, cut, 0, last);
    assert body[..0] == [];
    assert RangeAt(body, line, 0, last) == LineRange(line, line + Block(body) - 1);
    forall i: nat, j: nat | MaximalBlock(body, i, j) && i < cut
      ensures i == 0 && j == last
    {
      OneFirstBlock(body, last, cut, i, j);
    }
  }

  lemma NoBlockBefore(body: seq<DiffLine>, line: nat, range: LineRange)
    requires body != [] && !body[0].Added?
    ensures IsBlockRange(body, line, 0, range) <==> IsBlockRange(body, line, 1, range)
  {}

  /** What the tail behind a cut has, and what the whole body has from there on, are the same. */
  lemma BlockRangesAfterCut(body: seq<DiffLine>, line: nat, cut: nat, range: LineRange)
    requires cut <= |body| && CutAt(body, cut)
    ensures IsBlockRange(body[cut..], line + NewLines(body[..cut]), 0, range) <==> IsBlockRange(body, line, cut, range)
  {
    hide IsBlockRange, CutAt;
    if IsBlockRange(body, line, cut, range) {
      BlockRangeBeyond(body, line, cut, range);
    }
    if IsBlockRange(body[cut..], line + NewLines(body[..cut]), 0, range) {
      BlockRangeInTail(body, line, cut, range);
    }
  }

  /** The ranges of a hunk are exactly its maximal blocks of consecutive added lines. */
  lemma {:induction false} RunsAreMaximalBlocks(body: seq<DiffLine>, line: nat, range: LineRange)
    ensures range in Runs(body, line) <==> IsBlockRange(body, line, 0, range)
    decreases |body|
  {
    hide IsBlockRange;
    if body == [] {
      NoBlockOfNothing(line, range);
    } else if body[0].Added? {
      RunsAreMaximalBlocks(AfterBlock(body), line + Block(body), range);
      FirstIsMaximal(body, line, range);
    } else {
      RunsAreMaximalBlocks(body[1..], line + Advance(body[0]), range);
      FirstIsNoBlock(body, line, range);
    }
  }

  lemma NoBlockOfNothing(line: nat, range: LineRange)
    ensures !IsBlockRange([], line, 0, range)
  {}

  lemma FirstIsMaximal(body: seq<DiffLine>, line: nat, range: LineRange)
    requires body != [] && body[0].Added?
    requires range in Runs(AfterBlock(body), line + Block(body)) <==>
      IsBlockRange(AfterBlock(body), line + Block(body), 0, range)
    ensures range in Runs(body, line) <==> IsBlockRange(body, line, 0, range)
  {
    hide Runs, IsBlockRange, CutAt;
    var last, cut := FirstBlock(body);
    CutBehindBlock(body, cut);
    RunsOfBlock(body, line, range);
    hide AfterBlock, Block, NewLines, Joins;
    BlockRangesAfterCut(body, line, cut, range);
    FirstBlockRange(body, line, last, cut, range);
  }

  lemma FirstIsNoBlock(body: seq<DiffLine>, line: nat, range: LineRange)
    requires body != [] && !body[0].Added?
    requires range in Runs(body[1..], line + Advance(body[0])) <==>
      IsBlockRange(body[1..], line + Advance(body[0]), 0, range)
    ensures range in Runs(body, line) <==> IsBlockRange(body, line, 0, range)
  {
    hide IsBlockRange, CutAt;
    CutBehindFirst(body);
    BlockRangesAfterCut(body, line, 1, range);
    NoBlockBefore(body, line, range);
    hide NewLines;
  }

  lemma RunsOfBlock(body: seq<DiffLine>, line: nat, range: LineRange)
    requires body != [] && body[0].Added?
    ensures range in Runs(body, line) <==>
      range == LineRange(line, line + Block(body) - 1) || range in Runs(AfterBlock(body), line + Block(body))
  {
    hide AfterBlock, Block;
  }

  lemma CutBehindBlock(body: seq<DiffLine>, cut: nat)
    requires cut <= |body| && (cut == |body| || !Joins(body[cut]))
    ensures CutAt(body, cut)
  {}

  lemma CutBehindFirst(body: seq<DiffLine>)
    requires body != [] && !body[0].Added?
    ensures CutAt(body, 1) && NewLines(body[..1]) == Advance(body[0])
  {
    assert body[..1] == [body[0]] && body[..1][1..] == [];
  }

  lemma {:induction false} HunkRunsAreBlocks(hunks: seq<Hunk>, range: LineRange)
    ensures range in HunkRuns(hunks) <==> exists h :: h in hunks && IsBlockRange(h.body, h.newStart, 0, range)
  {
    if hunks != [] {
      hide Runs, IsBlockRange;
      RunsAreMaximalBlocks(hunks[0].body, hunks[0].newStart, range);
      HunkRunsAreBlocks(hunks[1..], range);
      assert hunks == [hunks[0]] + hunks[1..];
    }
  }

  ghost predicate IsBlockOf(files: seq<FileDiff>, path: string, range: LineRange) {
    exists f, h ::
      f in files && Names(f.target, path) && h in f.hunks && IsBlockRange(h.body, h.newStart, 0, range)
  }

  lemma {:induction false} FileRunsAreBlocks(files: seq<FileDiff>, path: string, range: LineRange)
    ensures range in FileRuns(files, path) <==> IsBlockOf(files, path, range)
  {
    if files != [] {
      hide HunkRuns, IsBlockRange, Names;
      HunkRunsAreBlocks(files[0].hunks, range);
      FileRunsAreBlocks(files[1..], path, range);
      assert files == [files[0]] + files[1..];
    }
  }

  /** On every well-formed diff the ranges of a file are exactly the maximal blocks of consecutive
      added lines of its hunks. */
  lemma RangesAreMaximalBlocks(files: seq<FileDiff>, path: string, range: LineRange)
    requires WellFormed(files)
    ensures var ranges := EvidenceOf(Print(files)).ranges;
      path in ranges && range in ranges[path] <==> IsBlockOf(files, path, range)
  {
    hide Print, EvidenceOf, WellFormed, FileRuns, Names, IsBlockRange;
    ReaderIsExact(files, path);
    FileRunsAreBlocks(files, path, range);
    assert IsBlockOf(files, path, range) ==> Named(files, path);
  }

  // ---- Ranges increase ----

  ghost predicate Increasing(ranges: seq<LineRange>, from: nat, to: nat) {
    && (forall i :: 0 <= i < |ranges| ==> from <= ranges[i].lineStart <= ranges[i].lineEnd < to)
    && (forall i, j :: 0 <= i < j < |ranges| ==> ranges[i].lineEnd < ranges[j].lineStart)
  }

  lemma IncreasingConcat(a: seq<LineRange>, b: seq<LineRange>, from: nat, mid: nat, to: nat)
    requires Increasing(a, from, mid) && Increasing(b, mid, to) && from <= mid <= to
    ensures Increasing(a + b, from, to)
  {}

  lemma IncreasingOne(range: LineRange)
    requires range.lineStart <= range.lineEnd
    ensures Increasing([range], range.lineStart, range.lineEnd + 1)
  {}

  lemma IncreasingFrom(ranges: seq<LineRange>, from: nat, later: nat, to: nat)
    requires Increasing(ranges, later, to) && from <= later
    ensures Increasing(ranges, from, to)
  {}

  lemma {:induction false} RunsIncrease(body: seq<DiffLine>, line: nat)
    ensures Increasing(Runs(body, line), line, line + NewLines(body))
    decreases |body|
  {
    if body == [] {
    } else if body[0].Added? {
      hide Increasing;
      BlockCounts(body);
      RunsIncrease(AfterBlock(body), line + Block(body));
      var first := [LineRange(line, line + Block(body) - 1)];
      IncreasingOne(first[0]);
      IncreasingConcat(first, Runs(AfterBlock(body), line + Block(body)), line, line + Block(body),
        line + NewLines(body));
    } else {
      RunsIncrease(body[1..], line + Advance(body[0]));
    }
  }

  /** Hunks come in order and do not overlap in the new version. */
  predicate HunksAscend(hunks: seq<Hunk>) {
    forall i, j :: 0 <= i < j < |hunks| ==> hunks[i].newStart + NewLines(hunks[i].body) <= hunks[j].newStart
  }

  function EndOf(hunks: seq<Hunk>): nat {
    if hunks == [] then 0 else var last := hunks[|hunks| - 1]; last.newStart + NewLines(last.body)
  }

  lemma {:induction false} HunkRunsIncrease(hunks: seq<Hunk>, from: nat)
    requires HunksAscend(hunks) && (hunks != [] ==> from <= hunks[0].newStart)
    ensures Increasing(HunkRuns(hunks), from, if hunks == [] then from else EndOf(hunks))
    ensures hunks != [] ==> EndOf(hunks) >= from
    decreases |hunks|
  {
    if hunks != [] {
      hide Runs, Increasing;
      var h := hunks[0];
      var end := h.newStart + NewLines(h.body);
      RunsIncrease(h.body, h.newStart);
      assert forall i :: 0 <= i < |hunks[1..]| ==> hunks[1..][i] == hunks[i + 1];
      HunkRunsIncrease(hunks[1..], end);
      IncreasingFrom(Runs(h.body, h.newStart), from, h.newStart, end);
      IncreasingConcat(Runs(h.body, h.newStart), HunkRuns(hunks[1..]), from, end, EndOf(hunks));
    }
  }

  /** Only one file of the diff has this path. */
  predicate NamedOnce(files: seq<FileDiff>, k: nat, path: string) {
    && k < |files|
    && forall i :: 0 <= i < |files| ==> (Names(files[i].target, path) <==> i == k)
  }

  lemma {:induction false} RunsOfOneFile(files: seq<FileDiff>, k: nat, path: string)
    requires NamedOnce(files, k, path)
    ensures FileRuns(files, path) == HunkRuns(files[k].hunks)
  {
    hide Names, HunkRuns;
    if k == 0 {
      RunsOfNoFile(files[1..], path);
    } else {
      RunsOfOneFile(files[1..], k - 1, path);
    }
  }

  lemma {:induction false} RunsOfNoFile(files: seq<FileDiff>, path: string)
    requires forall i :: 0 <= i < |files| ==> !Names(files[i].target, path)
    ensures FileRuns(files, path) == []
  {
    if files != [] {
      RunsOfNoFile(files[1..], path);
    }
  }

  /** A path that the diff names once, with hunks in ascending order, gets ranges that are disjoint
      and increase. */
  lemma RangesIncrease(files: seq<FileDiff>, k: nat, path: string)
    requires WellFormed(files) && NamedOnce(files, k, path) && HunksAscend(files[k].hunks)
    ensures path in EvidenceOf(Print(files)).ranges
    ensures Increasing(EvidenceOf(Print(files)).ranges[path], 0, EndOf(files[k].hunks))
  {
    assert files[k].hunks == [] ==> HunkRuns(files[k].hunks) == [];
    hide Print, EvidenceOf, WellFormed, FileRuns, HunkRuns, Names, Increasing;
    assert files[k] in files;
    assert Named(files, path);
    ReaderIsExact(files, path);
    RunsOfOneFile(files, k, path);
    HunkRunsIncrease(files[k].hunks, 0);
  }

  // ---- Where added text reads as a header ----

  /** A diff that adds one line to file `f`. */
  function OneAddedLine(text: string): seq<FileDiff> {
    [FileDiff("a b", [], "b/f", [Hunk(0, None, 1, None, "", [Added(text)])])]
  }

  lemma OneLineReads(r: Reader, text: string)
    requires InFile(r) && "++ " <= text
    ensures var h := Hunk(0, None, 1, None, "", [Added(text)]);
      var file := r.currentFile.value;
      var end := ReadLines(r, [StripCR(HunkHeader(h)), StripCR("+" + text), ""]);
      file in end.ranges && end.ranges[file] == r.ranges[file] && end.pending == None
  {
    hide HunkHeader, HunkStart, TargetPath, StripCR;
    var h := Hunk(0, None, 1, None, "", [Added(text)]);
    ReadHeader(r, h);
    var r1 := ReadLine(r, StripCR(HunkHeader(h)));
    assert r1 == r.(newLine := Some(1));
    StripKeepsPrefix("+", text);
    StripKeepsPlus(text);
    AddedReadsAsHeaderIff(r1, StripCR(text));
    var r2 := ReadLine(r1, StripCR("+" + text));
    var r3 := ReadLine(r2, "");
    var lines := [StripCR(HunkHeader(h)), StripCR("+" + text), ""];
    assert lines[1..][1..] == lines[2..] && lines[2..][1..] == [];
    assert ReadLines(r, lines) == ReadLines(r1, lines[1..]) == ReadLines(r2, lines[2..]) == ReadLines(r3, []);
  }

  lemma StripKeepsPlus(text: string)
    requires "++ " <= text
    ensures "++ " <= StripCR(text)
  {
    assert text[2] == ' ';
    assert StripCR(text)[..3] == text[..3];
  }

  lemma OneAddedLines(text: string)
    requires OneLine(text)
    ensures var f := OneAddedLine(text)[0];
      SplitLines(Print(OneAddedLine(text))) ==
        Stripped(["diff --git " + f.header] + f.extended)
        + (Stripped(["+++ " + f.target]) + [StripCR(HunkHeader(f.hunks[0])), StripCR("+" + text), ""])
  {
    hide HunkHeader, SplitLines, Text, StripCR;
    var f := OneAddedLine(text)[0];
    var start, target, hunk := ["diff --git " + f.header] + f.extended, ["+++ " + f.target],
      [HunkHeader(f.hunks[0]), "+" + text];
    OneBody(text);
    assert AllLines(OneAddedLine(text)) == start + (target + hunk);
    OneDiffInLines(text);
    SplitText(AllLines(OneAddedLine(text)));
    StrippedConcat(start, target + hunk);
    StrippedConcat(target, hunk);
    assert hunk[1..] == ["+" + text] && hunk[1..][1..] == [];
    assert Stripped(hunk[1..]) == [StripCR("+" + text)];
  }

  lemma OneBody(text: string)
    ensures BodyLines([Added(text)]) == ["+" + text]
    ensures HunkLines(OneAddedLine(text)[0].hunks) == [HunkHeader(OneAddedLine(text)[0].hunks[0]), "+" + text]
  {
    hide HunkHeader;
    assert [Added(text)][1..] == [];
  }

  lemma OneDiffInLines(text: string)
    requires OneLine(text)
    ensures forall line :: line in AllLines(OneAddedLine(text)) ==> OneLine(line)
  {
    hide HunkHeader;
    OneBody(text);
    HeaderInLine(OneAddedLine(text)[0].hunks[0]);
  }

  lemma PathF()
    ensures TargetPath("b/f") == Some("f")
  {
    assert "b/f"[2..] == "f";
    assert "f"[1..] == "" && SplitOn("", '/') == [""];
    assert ["f"[0]] + "" == "f" && [""][1..] == [];
    assert SplitOn("f", '/') == ["f"];
    assert ".." != "f";
  }

  /** The printed law fails for every added text that starts with `++ `: line 1 of `f` is declared as
      added, and no range covers it. */
  lemma AddedPlusPlusIsNotCovered(text: string)
    requires OneLine(text) && "++ " <= text
    ensures var files := OneAddedLine(text);
      Declared(files, "f", 1) && !Covered(EvidenceOf(Print(files)).ranges, "f", 1)
  {
    hide HunkHeader, StripCR, HunkStart, ReadLine, Print, SplitLines, Stripped, ReadLines, SplitOn;
    var files := OneAddedLine(text);
    var f := files[0];
    var h := f.hunks[0];
    PathF();
    NamesIff(f.target, "f");
    assert h.body[..0] == [];
    assert AddedAt(h.body, h.newStart, 0, 1);
    assert f in files && h in f.hunks && DeclaredIn(h.body, h.newStart, 1);
    OneAddedLines(text);
    var bare := f.(hunks := []);
    var start, target := ["diff --git " + f.header] + f.extended, ["+++ " + f.target];
    var tail := [StripCR(HunkHeader(h)), StripCR("+" + text), ""];
    ReadLinesConcat(FRESH, Stripped(start), Stripped(target) + tail);
    ReadGitHeader(FRESH, bare);
    ReadLinesConcat(FRESH, Stripped(target), tail);
    ReadTarget(FRESH, bare);
    OneLineReads(OpenFile(FRESH, f.target), text);
  }
}
