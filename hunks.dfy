/** The unified-diff hunk parser run on each changed file of a pull request
    (libraries/github.js, inside checkFiles). It turns a patch into ranges
    `[start, start + length, modified_length, offset, deletions]` that later
    map an inline-comment diff position back to a new-file line. */
module Hunks {
  import opened Wrappers
  import opened Strings

  /** The new-file part `+c,d` of a hunk header `@@ -a,b +c,d @@`. */
  datatype Header = Header(start: nat, length: nat)

  /** One entry of `file.ranges`. */
  datatype Range = Range(start: int, end: int, modifiedLength: int, offset: int, deletions: seq<int>)

  // ---------------------------------------------------------------------
  // Recognising a hunk header: /^@@ -\d+,\d+ \+(\d+),(\d+) @@/
  // ---------------------------------------------------------------------

  /** The rest of `s` after the literal prefix `lit`, if `s` starts with it. */
  function Literal(s: string, lit: string): Option<string> {
    if |lit| <= |s| && s[..|lit|] == lit then Some(s[|lit|..]) else None
  }

  /** `\d+` at the front of `s` (greedy), with its value and what follows. */
  function Number(s: string): Option<(nat, string)> {
    var n := DigitRun(s);
    if n == 0 then None else Some((DigitsValue(s[..n]), s[n..]))
  }

  /** One element of the header pattern: literal text, or `\d+`, captured or not. */
  datatype Token = Text(text: string) | Digits(captured: bool)

  /** `/^@@ -\d+,\d+ \+(\d+),(\d+) @@/`, token by token. */
  const HeaderPattern: seq<Token> := [
    Text("@@ -"), Digits(false), Text(","), Digits(false),
    Text(" +"), Digits(true), Text(","), Digits(true), Text(" @@")
  ]

  /** Number of capturing groups in a pattern. */
  function Captures(p: seq<Token>): nat {
    if p == [] then 0 else (if p[0] == Digits(true) then 1 else 0) + Captures(p[1..])
  }

  /** Matches `p` at the front of `s` (digit runs are greedy), returning the captured numbers. */
  function MatchPrefix(p: seq<Token>, s: string): Option<seq<nat>>
  {
    if p == [] then Some([])
    else
      match p[0]
      case Text(t) =>
        var rest :- Literal(s, t);
        MatchPrefix(p[1..], rest)
      case Digits(captured) =>
        var m :- Number(s);
        var caps :- MatchPrefix(p[1..], m.1);
        Some(if captured then [m.0] + caps else caps)
  }

  /** The captured new-file start and length when `line` matches the header
      pattern, which is anchored at the start of the line. */
  function ParseHeader(line: string): (r: Option<Header>)
    ensures r.Some? ==> |line| >= 4 && line[..4] == "@@ -"
  {
    MatchAnchored(line);
    var caps :- MatchPrefix(HeaderPattern, line);
    MatchCaptures(HeaderPattern, line);
    assert Captures(HeaderPattern) == 2;
    Some(Header(caps[0], caps[1]))
  }

  /** A match starts at the first character of the line. */
  lemma MatchAnchored(line: string)
    ensures MatchPrefix(HeaderPattern, line).Some? ==> |line| >= 4 && line[..4] == "@@ -"
  {
    assert HeaderPattern[0] == Text("@@ -");
  }

  /** A successful match captures one number per capturing group. */
  lemma MatchCaptures(p: seq<Token>, s: string)
    ensures MatchPrefix(p, s).Some? ==> |MatchPrefix(p, s).value| == Captures(p)
  {
    if p != [] {
      match p[0]
      case Text(t) =>
        var rest := Literal(s, t);
        if rest.Some? { MatchCaptures(p[1..], rest.value); }
      case Digits(_) =>
        var m := Number(s);
        if m.Some? { MatchCaptures(p[1..], m.value.1); }
    }
  }

  function HeaderLine(a: nat, b: nat, c: nat, d: nat): string {
    "@@ -" + NatStr(a) + "," + NatStr(b) + " +" + NatStr(c) + "," + NatStr(d) + " @@"
  }

  lemma NumberOf(n: nat, rest: string)
    requires rest == [] || !IsDigit(rest[0])
    ensures Number(NatStr(n) + rest) == Some((n, rest))
  {
    DigitRunOf(NatStr(n), rest);
    NatStrValue(n);
  }

  lemma LiteralOf(lit: string, rest: string)
    ensures Literal(lit + rest, lit) == Some(rest)
  {
    assert (lit + rest)[..|lit|] == lit;
  }

  lemma MatchText(p: seq<Token>, k: nat, t: string, rest: string)
    requires k < |p| && p[k] == Text(t)
    ensures MatchPrefix(p[k..], t + rest) == MatchPrefix(p[k + 1..], rest)
  {
    assert p[k..][0] == p[k] && p[k..][1..] == p[k + 1..];
    LiteralOf(t, rest);
  }

  lemma MatchDigits(p: seq<Token>, k: nat, n: nat, rest: string, caps: seq<nat>)
    requires k < |p| && p[k].Digits?
    requires rest == [] || !IsDigit(rest[0])
    requires MatchPrefix(p[k + 1..], rest) == Some(caps)
    ensures MatchPrefix(p[k..], NatStr(n) + rest) == Some(if p[k].captured then [n] + caps else caps)
  {
    assert p[k..][0] == p[k] && p[k..][1..] == p[k + 1..];
    NumberOf(n, rest);
  }

  lemma MatchDigitsFails(p: seq<Token>, k: nat, n: nat, rest: string)
    requires k < |p| && p[k].Digits?
    requires rest == [] || !IsDigit(rest[0])
    requires MatchPrefix(p[k + 1..], rest) == None
    ensures MatchPrefix(p[k..], NatStr(n) + rest) == None
  {
    assert p[k..][0] == p[k] && p[k..][1..] == p[k + 1..];
    NumberOf(n, rest);
  }

  /** The `,d @@` end of a header matches the last three tokens, capturing `d`. */
  lemma MatchLength(d: nat, tail: string)
    ensures MatchPrefix(HeaderPattern[6..], "," + (NatStr(d) + (" @@" + tail))) == Some([d])
  {
    var p := HeaderPattern;
    assert MatchPrefix(p[9..], tail) == Some([]);
    MatchText(p, 8, " @@", tail);
    assert (" @@" + tail)[0] == ' ';
    MatchDigits(p, 7, d, " @@" + tail, []);
    assert [d] + [] == [d];
    MatchText(p, 6, ",", NatStr(d) + (" @@" + tail));
  }

  /** The ` +c,d @@` part matches from the fifth token on, capturing `c` and `d`. */
  lemma MatchNewRange(c: nat, d: nat, tail: string)
    ensures MatchPrefix(HeaderPattern[4..], " +" + (NatStr(c) + ("," + (NatStr(d) + (" @@" + tail))))) == Some([c, d])
  {
    var p := HeaderPattern;
    var s6 := "," + (NatStr(d) + (" @@" + tail));
    MatchLength(d, tail);
    assert s6[0] == ',';
    MatchDigits(p, 5, c, s6, [d]);
    assert [c] + [d] == [c, d];
    MatchText(p, 4, " +", NatStr(c) + s6);
  }

  /** The `,b +c,d @@` part matches from the third token on. */
  lemma MatchOldLength(b: nat, c: nat, d: nat, tail: string)
    ensures MatchPrefix(HeaderPattern[2..], "," + (NatStr(b) + (" +" + (NatStr(c) + ("," + (NatStr(d) + (" @@" + tail))))))) == Some([c, d])
  {
    var p := HeaderPattern;
    var s4 := " +" + (NatStr(c) + ("," + (NatStr(d) + (" @@" + tail))));
    MatchNewRange(c, d, tail);
    assert s4[0] == ' ';
    MatchDigits(p, 3, b, s4, [c, d]);
    MatchText(p, 2, ",", NatStr(b) + s4);
  }

  lemma HeaderLineAssoc(a: nat, b: nat, c: nat, d: nat, tail: string)
    ensures HeaderLine(a, b, c, d) + tail
         == "@@ -" + (NatStr(a) + ("," + (NatStr(b) + (" +" + (NatStr(c) + ("," + (NatStr(d) + (" @@" + tail))))))))
  {
  }

  /** Every header `@@ -a,b +c,d @@`, whatever follows it on the line, is
      recognised and yields exactly its new-file start `c` and length `d`. */
  lemma ParseHeaderLine(a: nat, b: nat, c: nat, d: nat, tail: string)
    ensures ParseHeader(HeaderLine(a, b, c, d) + tail) == Some(Header(c, d))
  {
    var p := HeaderPattern;
    var s2 := "," + (NatStr(b) + (" +" + (NatStr(c) + ("," + (NatStr(d) + (" @@" + tail))))));
    HeaderLineAssoc(a, b, c, d, tail);
    MatchOldLength(b, c, d, tail);
    assert s2[0] == ',';
    MatchDigits(p, 1, a, s2, [c, d]);
    MatchText(p, 0, "@@ -", NatStr(a) + s2);
    assert p[0..] == p;
    MatchCaptures(p, HeaderLine(a, b, c, d) + tail);
  }

  /** A header whose old range lacks the `,count` part (`@@ -a +c,d @@`,
      `@@ -a +c @@`, ...) is not a header, whatever follows. */
  lemma HeaderNeedsCounts(a: nat, tail: string)
    ensures ParseHeader("@@ -" + (NatStr(a) + (" +" + tail))) == None
  {
    var p := HeaderPattern;
    var s2 := " +" + tail;
    var s1 := NatStr(a) + s2;
    assert s2[0] == ' ';
    assert p[2..][0] == Text(",");
    assert Literal(s2, ",") == None;
    assert MatchPrefix(p[2..], s2) == None;
    NumberOf(a, s2);
    assert p[1..][0] == p[1] && p[1..][1..] == p[2..];
    assert MatchPrefix(p[1..], s1) == None;
    MatchText(p, 0, "@@ -", s1);
    assert p[0..] == p;
  }

  /** Likewise a new range without its `,count` (`@@ -a,b +c @@`): the
      character after `c` must be the comma. */
  lemma NewRangeNeedsCount(a: nat, b: nat, c: nat, tail: string)
    ensures ParseHeader("@@ -" + (NatStr(a) + ("," + (NatStr(b) + (" +" + (NatStr(c) + (" " + tail))))))) == None
  {
    var s2 := "," + (NatStr(b) + (" +" + (NatStr(c) + (" " + tail))));
    NewRangeTailFails(b, c, tail);
    assert s2[0] == ',';
    OldStartThenFails(a, s2);
  }

  /** A line whose match fails after the old range's start is not a header. */
  lemma OldStartThenFails(a: nat, s2: string)
    requires s2 != [] && !IsDigit(s2[0])
    requires MatchPrefix(HeaderPattern[2..], s2) == None
    ensures ParseHeader("@@ -" + (NatStr(a) + s2)) == None
  {
    var p := HeaderPattern;
    MatchDigitsFails(p, 1, a, s2);
    MatchText(p, 0, "@@ -", NatStr(a) + s2);
    assert p[0..] == p;
  }

  /** The part of `NewRangeNeedsCount` from the old range's comma on. */
  lemma NewRangeTailFails(b: nat, c: nat, tail: string)
    ensures MatchPrefix(HeaderPattern[2..], "," + (NatStr(b) + (" +" + (NatStr(c) + (" " + tail))))) == None
  {
    var p := HeaderPattern;
    var s6 := " " + tail;
    var s5 := NatStr(c) + s6;
    var s4 := " +" + s5;
    var s3 := NatStr(b) + s4;
    assert s6[0] == ' ' && s4[0] == ' ';
    assert p[6..][0] == Text(",");
    assert Literal(s6, ",") == None;
    assert MatchPrefix(p[6..], s6) == None;
    MatchDigitsFails(p, 5, c, s6);
    MatchText(p, 4, " +", s5);
    MatchDigitsFails(p, 3, b, s4);
    MatchText(p, 2, ",", s3);
  }

  // ---------------------------------------------------------------------
  // The scan, as a function of the lines seen so far
  // ---------------------------------------------------------------------

  /** The parser's local state: the open hunk (`start`/`length`, null before
      the first header), `deletions`, `line_number`, `offset` and the ranges
      pushed so far. */
  datatype Scan = Scan(hunk: Option<Header>, deletions: seq<int>, lineNumber: int, offset: int, ranges: seq<Range>)

  const Initial := Scan(None, [], 0, 0, [])

  predicate IsDeletion(line: string) {
    |line| > 0 && line[0] == '-'
  }

  /** The range pushed when a hunk is closed; the `1` is the header's own line in the diff. */
  function Close(h: Header, deletions: seq<int>, offset: int): Range {
    Range(h.start, h.start + h.length, 1 + h.length + |deletions|, offset, deletions)
  }

  /** One iteration of the `forEach` over the patch lines. */
  function Step(s: Scan, line: string): Scan {
    match ParseHeader(line)
    case Some(h) =>
      if s.hunk.None? then s.(hunk := Some(h), lineNumber := h.start)
      else
        var r := Close(s.hunk.value, s.deletions, s.offset);
        Scan(Some(h), [], h.start, s.offset + r.modifiedLength, s.ranges + [r])
    case None =>
      if IsDeletion(line) then s.(deletions := s.deletions + [s.lineNumber])
      else s.(lineNumber := s.lineNumber + 1)
  }

  function ScanLines(lines: seq<string>): Scan {
    if lines == [] then Initial else Step(ScanLines(lines[..|lines| - 1]), lines[|lines| - 1])
  }

  /** After the loop: the open hunk, if any, is pushed as the last range. */
  function Finish(s: Scan): seq<Range> {
    if s.hunk.Some? then s.ranges + [Close(s.hunk.value, s.deletions, s.offset)] else s.ranges
  }

  /** `file.ranges` for a file whose patch is `patch` (absent when the patch is too large). */
  function PatchRanges(patch: Option<string>): seq<Range> {
    if Truthy(patch) then Finish(ScanLines(Split(patch.value, '\n'))) else []
  }

  /** The loop of checkFiles over the lines of one patch. */
  method ParsePatch(patch: Option<string>) returns (ranges: seq<Range>)
    ensures ranges == PatchRanges(patch)
  {
    var hunk: Option<Header> := None;
    var deletions: seq<int> := [];
    var offset := 0;
    var lineNumber := 0;
    ranges := [];
    if Truthy(patch) {
      var lines := Split(patch.value, '\n');
      var i := 0;
      while i < |lines|
        invariant 0 <= i <= |lines|
        invariant Scan(hunk, deletions, lineNumber, offset, ranges) == ScanLines(lines[..i])
      {
        ghost var before := Scan(hunk, deletions, lineNumber, offset, ranges);
        var line := lines[i];
        var matches := ParseHeader(line);
        if matches.Some? {
          if hunk.None? {
            hunk := matches;
            lineNumber := matches.value.start;
          } else {
            var modifiedLength := 1 + hunk.value.length + |deletions|;
            ranges := ranges + [Range(hunk.value.start, hunk.value.start + hunk.value.length, modifiedLength, offset, deletions)];
            deletions := [];
            hunk := matches;
            offset := offset + modifiedLength;
            lineNumber := matches.value.start;
          }
        } else if IsDeletion(line) {
          deletions := deletions + [lineNumber];
        } else {
          lineNumber := lineNumber + 1;
        }
        assert Scan(hunk, deletions, lineNumber, offset, ranges) == Step(before, line);
        assert lines[..i + 1][..i] == lines[..i];
        i := i + 1;
      }
      assert lines[..|lines|] == lines;
    }
    assert Scan(hunk, deletions, lineNumber, offset, ranges) == ScanLines(PatchLines(patch));
    if hunk.Some? {
      ranges := ranges + [Range(hunk.value.start, hunk.value.start + hunk.value.length, 1 + hunk.value.length + |deletions|, offset, deletions)];
    }
  }

  // ---------------------------------------------------------------------
  // Properties of the ranges
  // ---------------------------------------------------------------------

  function HeaderOf(line: string): seq<Header> {
    match ParseHeader(line)
    case Some(h) => [h]
    case None => []
  }

  /** The hunk headers of a patch, in patch order. */
  function Headers(lines: seq<string>): seq<Header> {
    if lines == [] then [] else Headers(lines[..|lines| - 1]) + HeaderOf(lines[|lines| - 1])
  }

  /** The lines of a patch, as checkFiles splits it. */
  function PatchLines(patch: Option<string>): seq<string> {
    if Truthy(patch) then Split(patch.value, '\n') else []
  }

  /** Total new-block length of a run of ranges. */
  function SumLengths(rs: seq<Range>): int {
    if rs == [] then 0 else SumLengths(rs[..|rs| - 1]) + rs[|rs| - 1].modifiedLength
  }

  /** Range `k` was built from header `h`, at the offset of all ranges before it. */
  predicate Fits(rs: seq<Range>, k: int, h: Header)
    requires 0 <= k < |rs|
  {
    && rs[k].start == h.start
    && rs[k].end == h.start + h.length
    && rs[k].modifiedLength == 1 + h.length + |rs[k].deletions|
    && rs[k].offset == SumLengths(rs[..k])
  }

  ghost predicate Tracks(s: Scan, hs: seq<Header>) {
    && (s.hunk.None? <==> hs == [])
    && (s.hunk.None? ==> s.ranges == [] && s.offset == 0)
    && (s.hunk.Some? ==> |s.ranges| == |hs| - 1 && s.hunk.value == hs[|hs| - 1] && s.offset == SumLengths(s.ranges))
    && |s.ranges| <= |hs|
    && forall k :: 0 <= k < |s.ranges| ==> Fits(s.ranges, k, hs[k])
  }

  lemma StepTracks(s: Scan, hs: seq<Header>, line: string)
    requires Tracks(s, hs)
    ensures Tracks(Step(s, line), hs + HeaderOf(line))
  {
    var hs' := hs + HeaderOf(line);
    if ParseHeader(line).Some? && s.hunk.Some? {
      var r := Close(s.hunk.value, s.deletions, s.offset);
      var rs' := s.ranges + [r];
      assert rs'[..|s.ranges|] == s.ranges;
      forall k | 0 <= k < |rs'|
        ensures Fits(rs', k, hs'[k])
      {
        if k < |s.ranges| {
          assert rs'[..k] == s.ranges[..k];
          assert Fits(s.ranges, k, hs[k]);
        }
      }
    }
  }

  lemma {:induction false} ScanTracks(lines: seq<string>)
    ensures Tracks(ScanLines(lines), Headers(lines))
  {
    if lines != [] {
      ScanTracks(lines[..|lines| - 1]);
      StepTracks(ScanLines(lines[..|lines| - 1]), Headers(lines[..|lines| - 1]), lines[|lines| - 1]);
    }
  }

  lemma FinishFits(s: Scan, hs: seq<Header>)
    requires Tracks(s, hs)
    ensures |Finish(s)| == |hs|
    ensures forall k :: 0 <= k < |hs| ==> Fits(Finish(s), k, hs[k])
  {
    if s.hunk.Some? {
      var rs := Finish(s);
      assert rs[..|s.ranges|] == s.ranges;
      forall k | 0 <= k < |hs|
        ensures Fits(rs, k, hs[k])
      {
        if k < |s.ranges| {
          assert rs[..k] == s.ranges[..k];
          assert Fits(s.ranges, k, hs[k]);
        }
      }
    }
  }

  /** Exactly one range per hunk header, in patch order, spanning the
      header's new-file lines; an absent or empty patch, or one without a
      header, has no ranges. */
  lemma RangePerHeader(patch: Option<string>)
    ensures var rs, hs := PatchRanges(patch), Headers(PatchLines(patch));
      && |rs| == |hs|
      && forall k :: 0 <= k < |rs| ==>
           && rs[k].start == hs[k].start
           && rs[k].end == hs[k].start + hs[k].length
           && rs[k].modifiedLength == 1 + hs[k].length + |rs[k].deletions|
  {
    if Truthy(patch) {
      var lines := PatchLines(patch);
      ScanTracks(lines);
      FinishFits(ScanLines(lines), Headers(lines));
    }
  }

  /** The first range starts at diff offset 0 and each later one right after
      the previous range's block of `modified_length` diff lines. */
  lemma OffsetsAccumulate(patch: Option<string>)
    ensures var rs := PatchRanges(patch);
      && (|rs| > 0 ==> rs[0].offset == 0)
      && forall k :: 0 <= k < |rs| - 1 ==> rs[k + 1].offset == rs[k].offset + rs[k].modifiedLength
  {
    if Truthy(patch) {
      var lines := PatchLines(patch);
      var hs := Headers(lines);
      ScanTracks(lines);
      FinishFits(ScanLines(lines), hs);
      var rs := PatchRanges(patch);
      if |rs| > 0 {
        assert Fits(rs, 0, hs[0]);
      }
      forall k | 0 <= k < |rs| - 1
        ensures rs[k + 1].offset == rs[k].offset + rs[k].modifiedLength
      {
        assert Fits(rs, k, hs[k]);
        assert Fits(rs, k + 1, hs[k + 1]);
        assert rs[..k + 1][..k] == rs[..k];
      }
    }
  }

  // ---------------------------------------------------------------------
  // Deletions
  // ---------------------------------------------------------------------

  predicate Nondecreasing(ds: seq<int>) {
    forall i, j :: 0 <= i < j < |ds| ==> ds[i] <= ds[j]
  }

  /** The deletions of a range are in diff order and not before its start line. */
  predicate DeletionsInHunk(r: Range) {
    && Nondecreasing(r.deletions)
    && forall i :: 0 <= i < |r.deletions| ==> r.start <= r.deletions[i]
  }

  predicate StartsWithHeader(lines: seq<string>) {
    |lines| > 0 && ParseHeader(lines[0]).Some?
  }

  /** `first`: range 0 is also covered (no line came before the first header). */
  ghost predicate DeletionsOrdered(s: Scan, first: bool) {
    && (forall k :: 0 <= k < |s.ranges| && (0 < k || first) ==> DeletionsInHunk(s.ranges[k]))
    && (s.hunk.Some? && (0 < |s.ranges| || first) ==>
          && Nondecreasing(s.deletions)
          && s.hunk.value.start <= s.lineNumber
          && forall i :: 0 <= i < |s.deletions| ==> s.hunk.value.start <= s.deletions[i] <= s.lineNumber)
  }

  lemma StepOrdered(s: Scan, line: string, first: bool)
    requires DeletionsOrdered(s, first)
    requires s.hunk.None? ==> s.ranges == []
    requires first && s.hunk.None? ==> s.deletions == []
    ensures DeletionsOrdered(Step(s, line), first)
  {
  }

  lemma {:induction false} ScanOrdered(lines: seq<string>, first: bool)
    requires first && |lines| > 0 ==> ParseHeader(lines[0]).Some?
    ensures DeletionsOrdered(ScanLines(lines), first)
    ensures first && |lines| > 0 ==> ScanLines(lines).hunk.Some?
  {
    if lines != [] {
      var prefix := lines[..|lines| - 1];
      if prefix != [] {
        assert prefix[0] == lines[0];
      }
      ScanOrdered(prefix, first);
      ScanTracks(prefix);
      StepOrdered(ScanLines(prefix), lines[|lines| - 1], first);
    }
  }

  /** Every range after the first, and the first one too when the patch
      begins with its header, lists its deleted lines as non-decreasing
      new-file line numbers no smaller than its start: the list restarts at
      each header and the counter only moves forward from the header's start. */
  lemma DeletionsSortedInHunk(patch: Option<string>, k: nat)
    requires k < |PatchRanges(patch)|
    requires 0 < k || StartsWithHeader(PatchLines(patch))
    ensures DeletionsInHunk(PatchRanges(patch)[k])
  {
    var lines := PatchLines(patch);
    var first := StartsWithHeader(lines);
    ScanOrdered(lines, first);
  }

  /** Number of deletion lines in a patch. */
  function CountDeletions(lines: seq<string>): nat {
    if lines == [] then 0
    else CountDeletions(lines[..|lines| - 1]) + (if IsDeletion(lines[|lines| - 1]) then 1 else 0)
  }

  function SumDeletions(rs: seq<Range>): nat {
    if rs == [] then 0 else SumDeletions(rs[..|rs| - 1]) + |rs[|rs| - 1].deletions|
  }

  lemma HeaderIsNotDeletion(line: string)
    requires ParseHeader(line).Some?
    ensures !IsDeletion(line)
  {
    assert line[0] == line[..4][0] == '@';
  }

  lemma {:induction false} ScanCounts(lines: seq<string>)
    ensures SumDeletions(ScanLines(lines).ranges) + |ScanLines(lines).deletions| == CountDeletions(lines)
  {
    if lines != [] {
      var prefix := lines[..|lines| - 1];
      var line := lines[|lines| - 1];
      ScanCounts(prefix);
      var s := ScanLines(prefix);
      if ParseHeader(line).Some? {
        HeaderIsNotDeletion(line);
        if s.hunk.Some? {
          var rs := s.ranges + [Close(s.hunk.value, s.deletions, s.offset)];
          assert rs[..|rs| - 1] == s.ranges;
        }
      }
    }
  }

  /** Once a patch has a header, no deletion line is lost or counted twice:
      the ranges' deletion lists together hold one entry per `-` line. */
  lemma EveryDeletionRecorded(patch: Option<string>)
    requires Headers(PatchLines(patch)) != []
    ensures SumDeletions(PatchRanges(patch)) == CountDeletions(PatchLines(patch))
  {
    var lines := PatchLines(patch);
    ScanCounts(lines);
    ScanTracks(lines);
    var s := ScanLines(lines);
    var rs := Finish(s);
    assert rs[..|rs| - 1] == s.ranges;
  }

  // ---------------------------------------------------------------------
  // Which `-` lines each range holds
  // ---------------------------------------------------------------------

  /** A hunk of a patch: its header line, the header it parses to, and the
      lines after it up to the next header. */
  datatype Hunk = Hunk(headerLine: string, header: Header, body: seq<string>)

  /** A patch cut at its headers: the lines before the first header, then the hunks. */
  datatype Hunked = Hunked(preamble: seq<string>, hunks: seq<Hunk>)

  /** One more line: a header opens a hunk, any other line joins the last
      hunk, or the preamble while there is none. */
  function AddLine(g: Hunked, line: string): Hunked {
    match ParseHeader(line)
    case Some(h) => g.(hunks := g.hunks + [Hunk(line, h, [])])
    case None =>
      if g.hunks == [] then g.(preamble := g.preamble + [line])
      else
        var last := g.hunks[|g.hunks| - 1];
        g.(hunks := g.hunks[..|g.hunks| - 1] + [last.(body := last.body + [line])])
  }

  function GroupLines(lines: seq<string>): Hunked {
    if lines == [] then Hunked([], []) else AddLine(GroupLines(lines[..|lines| - 1]), lines[|lines| - 1])
  }

  /** The lines of some hunks, header lines included. */
  function Unhunk(hs: seq<Hunk>): seq<string> {
    if hs == [] then [] else Unhunk(hs[..|hs| - 1]) + [hs[|hs| - 1].headerLine] + hs[|hs| - 1].body
  }

  /** Headers only at the head of a hunk. */
  predicate NoHeaderIn(lines: seq<string>) {
    forall i :: 0 <= i < |lines| ==> ParseHeader(lines[i]).None?
  }

  ghost predicate WellCut(g: Hunked) {
    && NoHeaderIn(g.preamble)
    && forall k :: 0 <= k < |g.hunks| ==>
         ParseHeader(g.hunks[k].headerLine) == Some(g.hunks[k].header) && NoHeaderIn(g.hunks[k].body)
  }

  lemma CutsOpen(g: Hunked, line: string, h: Header)
    requires WellCut(g) && ParseHeader(line) == Some(h)
    ensures WellCut(AddLine(g, line))
    ensures AddLine(g, line).preamble + Unhunk(AddLine(g, line).hunks) == (g.preamble + Unhunk(g.hunks)) + [line]
  {
    var hs := g.hunks;
    var hs' := hs + [Hunk(line, h, [])];
    assert AddLine(g, line) == g.(hunks := hs');
    assert hs'[..|hs'| - 1] == hs;
    assert Unhunk(hs') == Unhunk(hs) + [line] + [];
  }

  lemma CutsPreamble(g: Hunked, line: string)
    requires WellCut(g) && ParseHeader(line).None? && g.hunks == []
    ensures WellCut(AddLine(g, line))
    ensures AddLine(g, line).preamble + Unhunk(AddLine(g, line).hunks) == (g.preamble + Unhunk(g.hunks)) + [line]
  {
    assert AddLine(g, line) == g.(preamble := g.preamble + [line]);
    assert forall i :: 0 <= i < |g.preamble| ==> (g.preamble + [line])[i] == g.preamble[i];
  }

  lemma CutsBody(g: Hunked, line: string)
    requires WellCut(g) && ParseHeader(line).None? && g.hunks != []
    ensures WellCut(AddLine(g, line))
    ensures AddLine(g, line).preamble + Unhunk(AddLine(g, line).hunks) == (g.preamble + Unhunk(g.hunks)) + [line]
  {
    var hs := g.hunks;
    var n := |hs| - 1;
    var last := hs[n];
    var hs' := hs[..n] + [last.(body := last.body + [line])];
    assert AddLine(g, line) == g.(hunks := hs');
    assert hs == hs[..n] + [last];
    BodyKeepsLines(hs[..n], last, line);
    assert forall k :: 0 <= k < n ==> hs'[k] == hs[k];
    assert NoHeaderIn(last.body);
    assert forall i :: 0 <= i < |last.body| ==> (last.body + [line])[i] == last.body[i];
  }

  /** Appending a line to the last hunk's body appends it to the hunks' lines. */
  lemma BodyKeepsLines(init: seq<Hunk>, last: Hunk, line: string)
    ensures Unhunk(init + [last.(body := last.body + [line])]) == Unhunk(init + [last]) + [line]
  {
    var before := Unhunk(init) + [last.headerLine];
    UnhunkSnoc(init, last);
    UnhunkSnoc(init, last.(body := last.body + [line]));
    assert before + (last.body + [line]) == (before + last.body) + [line];
  }

  lemma UnhunkSnoc(hs: seq<Hunk>, h: Hunk)
    ensures Unhunk(hs + [h]) == Unhunk(hs) + [h.headerLine] + h.body
  {
    assert (hs + [h])[..|hs|] == hs;
  }

  lemma AddLineCuts(g: Hunked, line: string)
    requires WellCut(g)
    ensures WellCut(AddLine(g, line))
    ensures AddLine(g, line).preamble + Unhunk(AddLine(g, line).hunks) == (g.preamble + Unhunk(g.hunks)) + [line]
  {
    match ParseHeader(line)
    case Some(h) => CutsOpen(g, line, h);
    case None =>
      if g.hunks == [] { CutsPreamble(g, line); } else { CutsBody(g, line); }
  }

  /** Grouping cuts a patch exactly at its header lines: the preamble and
      the bodies hold no header, every hunk starts with the header line it
      parses, and preamble and hunks together are the lines, in order. */
  lemma {:induction false} GroupLinesPartitions(lines: seq<string>)
    ensures WellCut(GroupLines(lines))
    ensures GroupLines(lines).preamble + Unhunk(GroupLines(lines).hunks) == lines
  {
    if lines != [] {
      var init := lines[..|lines| - 1];
      GroupLinesPartitions(init);
      AddLineCuts(GroupLines(init), lines[|lines| - 1]);
      assert init + [lines[|lines| - 1]] == lines;
    }
  }

  /** Lines that move the new-file line counter: all but deletions. */
  function Advances(lines: seq<string>): nat {
    if lines == [] then 0
    else Advances(lines[..|lines| - 1]) + (if IsDeletion(lines[|lines| - 1]) then 0 else 1)
  }

  /** For each `-` line of `lines`, in order, the new-file line number it is
      filed under when the counter stands at `start` before the first line:
      `start` plus the number of non-`-` lines before it. */
  function DeletedAt(start: int, lines: seq<string>): seq<int> {
    if lines == [] then []
    else
      var init := lines[..|lines| - 1];
      DeletedAt(start, init) + (if IsDeletion(lines[|lines| - 1]) then [start + Advances(init)] else [])
  }

  /** One entry per `-` line. */
  lemma {:induction false} DeletedAtCounts(start: int, lines: seq<string>)
    ensures |DeletedAt(start, lines)| == CountDeletions(lines)
  {
    if lines != [] {
      DeletedAtCounts(start, lines[..|lines| - 1]);
    }
  }

  /** The deletions hunk `k` owns: its body's `-` lines counted from its
      start, after, for the first hunk, the preamble's counted from 0. */
  function HunkDeletions(g: Hunked, k: nat): seq<int>
    requires k < |g.hunks|
  {
    (if k == 0 then DeletedAt(0, g.preamble) else []) + DeletedAt(g.hunks[k].header.start, g.hunks[k].body)
  }

  /** The scan's state after some lines, against the same lines cut into hunks. */
  ghost predicate Attributed(s: Scan, g: Hunked) {
    && (s.hunk.None? <==> g.hunks == [])
    && (g.hunks == [] ==> s.ranges == [] && s.deletions == DeletedAt(0, g.preamble) && s.lineNumber == Advances(g.preamble))
    && (g.hunks != [] ==>
          && |s.ranges| == |g.hunks| - 1
          && s.hunk.value == g.hunks[|g.hunks| - 1].header
          && s.deletions == HunkDeletions(g, |g.hunks| - 1)
          && s.lineNumber == g.hunks[|g.hunks| - 1].header.start + Advances(g.hunks[|g.hunks| - 1].body))
    && forall k :: 0 <= k < |s.ranges| && k < |g.hunks| ==>
         s.ranges[k] == Close(g.hunks[k].header, HunkDeletions(g, k), s.ranges[k].offset)
  }

  lemma AttributedOpen(s: Scan, g: Hunked, line: string, h: Header)
    requires Attributed(s, g) && ParseHeader(line) == Some(h)
    ensures Attributed(Step(s, line), AddLine(g, line))
  {
    var s', g' := Step(s, line), AddLine(g, line);
    var hs := g.hunks;
    assert g'.hunks == hs + [Hunk(line, h, [])];
    assert forall k :: 0 <= k < |hs| ==> g'.hunks[k] == hs[k];
    assert forall k :: 0 <= k < |hs| ==> HunkDeletions(g', k) == HunkDeletions(g, k);
    if hs == [] {
      assert HunkDeletions(g', 0) == DeletedAt(0, g.preamble) + [];
    } else {
      var n := |hs| - 1;
      assert s'.ranges == s.ranges + [Close(hs[n].header, HunkDeletions(g, n), s.offset)];
      assert HunkDeletions(g', n + 1) == [] + [];
    }
  }

  lemma AttributedPreamble(s: Scan, g: Hunked, line: string)
    requires Attributed(s, g) && ParseHeader(line).None? && g.hunks == []
    ensures Attributed(Step(s, line), AddLine(g, line))
  {
    var pre := g.preamble;
    var pre' := pre + [line];
    assert pre'[..|pre|] == pre && pre'[|pre|] == line;
    assert AddLine(g, line) == Hunked(pre', []);
    assert Advances(pre') == Advances(pre) + (if IsDeletion(line) then 0 else 1);
    assert DeletedAt(0, pre') == DeletedAt(0, pre) + (if IsDeletion(line) then [0 + Advances(pre)] else []);
  }

  lemma AttributedBody(s: Scan, g: Hunked, line: string)
    requires Attributed(s, g) && ParseHeader(line).None? && g.hunks != []
    ensures Attributed(Step(s, line), AddLine(g, line))
  {
    var g' := AddLine(g, line);
    var hs := g.hunks;
    var n := |hs| - 1;
    var last := hs[n];
    var body := last.body + [line];
    assert g'.hunks == hs[..n] + [last.(body := body)];
    assert body[..|body| - 1] == last.body;
    assert forall k :: 0 <= k < n ==> g'.hunks[k] == hs[k];
    assert forall k :: 0 <= k < n ==> HunkDeletions(g', k) == HunkDeletions(g, k);
    var pre := if n == 0 then DeletedAt(0, g.preamble) else [];
    assert HunkDeletions(g', n) == pre + DeletedAt(last.header.start, body);
    if IsDeletion(line) {
      assert HunkDeletions(g', n) == HunkDeletions(g, n) + [s.lineNumber];
    }
  }

  lemma StepAttributed(s: Scan, g: Hunked, line: string)
    requires Attributed(s, g)
    ensures Attributed(Step(s, line), AddLine(g, line))
  {
    match ParseHeader(line)
    case Some(h) => AttributedOpen(s, g, line, h);
    case None =>
      if g.hunks == [] { AttributedPreamble(s, g, line); } else { AttributedBody(s, g, line); }
  }

  lemma {:induction false} ScanAttributed(lines: seq<string>)
    ensures Attributed(ScanLines(lines), GroupLines(lines))
  {
    if lines != [] {
      var init := lines[..|lines| - 1];
      ScanAttributed(init);
      StepAttributed(ScanLines(init), GroupLines(init), lines[|lines| - 1]);
    }
  }

  /** After the last line the open hunk's range joins the others. */
  lemma FinishAttributed(s: Scan, g: Hunked)
    requires Attributed(s, g)
    ensures |Finish(s)| == |g.hunks|
    ensures forall k :: 0 <= k < |g.hunks| ==>
      Finish(s)[k] == Close(g.hunks[k].header, HunkDeletions(g, k), Finish(s)[k].offset)
  {
    if s.hunk.Some? {
      var n := |g.hunks| - 1;
      var rs := Finish(s);
      assert rs == s.ranges + [Close(g.hunks[n].header, HunkDeletions(g, n), s.offset)];
      assert forall k :: 0 <= k < n ==> rs[k] == s.ranges[k];
    }
  }

  /** Range `k` is built from hunk `k` alone: its header gives start, end and
      modified_length, and its deletions are exactly the new-file line
      numbers of that hunk's own `-` lines, in order (the first range also
      takes the `-` lines before the first header, counted from 0). A `-`
      line is never filed under a neighbouring hunk. */
  lemma DeletionsPerHunk(patch: Option<string>)
    ensures var rs, g := PatchRanges(patch), GroupLines(PatchLines(patch));
      && |rs| == |g.hunks|
      && forall k :: 0 <= k < |rs| ==>
           && rs[k].deletions == HunkDeletions(g, k)
           && rs[k].start == g.hunks[k].header.start
           && rs[k].end == g.hunks[k].header.start + g.hunks[k].header.length
           && rs[k].modifiedLength == 1 + g.hunks[k].header.length + |HunkDeletions(g, k)|
  {
    var lines := PatchLines(patch);
    if Truthy(patch) {
      ScanAttributed(lines);
      FinishAttributed(ScanLines(lines), GroupLines(lines));
    }
  }

  /** Hunk `k`'s range counts exactly its own `-` lines: modified_length is
      1 + length + the number of `-` lines in its body (plus, for the first
      range, those before the first header). */
  lemma ModifiedLengthPerHunk(patch: Option<string>, k: nat)
    requires k < |PatchRanges(patch)|
    ensures var g := GroupLines(PatchLines(patch));
      && k < |g.hunks|
      && PatchRanges(patch)[k].modifiedLength
         == 1 + g.hunks[k].header.length + CountDeletions(g.hunks[k].body)
            + (if k == 0 then CountDeletions(g.preamble) else 0)
  {
    DeletionsPerHunk(patch);
    var g := GroupLines(PatchLines(patch));
    DeletedAtCounts(g.hunks[k].header.start, g.hunks[k].body);
    DeletedAtCounts(0, g.preamble);
  }
}
