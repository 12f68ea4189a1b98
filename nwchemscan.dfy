/**
 * The structural part of nwchem.cpp: the two file-local scanning helpers,
 * section classification, the section scan of findSections, the task
 * grouping of findTasks and taskForSection, all over the line list of a
 * LineBuffer.
 */
module NWChemScan {
  import opened Wrappers
  import opened Text
  import opened Patterns

  /** Parser::SectionType. */
  datatype SectionType =
    | Frequency | GeometryOpt | ModuleDFT | ModuleSCF | ModuleInput
    | GradientDFT | GradientSCF | ModuleCPHF | Terminate | Invalid

  /** Parser::SectionInfo: the section's type and the line its banner is on. */
  datatype SectionInfo = SectionInfo(kind: SectionType, start: int)

  /** Parser::TaskInfo: the task's type, its first section and its closing (or one-past-last) section. */
  datatype TaskInfo = TaskInfo(kind: SectionType, section: int, end: int)

  // ---- findLineAfterNewlines ---------------------------------------------------

  /** The scan of findLineAfterNewlines from `idx`, with `blanks` empty lines just seen. */
  function BlankRunEnd(lines: seq<string>, idx: nat, n: int, blanks: int): (r: int)
    requires idx <= |lines|
    ensures idx <= r <= |lines|
    decreases |lines| - idx
  {
    if idx == |lines| then idx
    else if lines[idx] == "" then BlankRunEnd(lines, idx + 1, n, blanks + 1)
    else if blanks >= n then idx
    else BlankRunEnd(lines, idx + 1, n, 0)
  }

  /**
   * findLineAfterNewlines: the first line after at least `n` empty lines, the
   * line count when there is none, and minus the start when it lies past the end.
   */
  function LineAfterNewlines(lines: seq<string>, idx: nat, n: int): (r: int)
    ensures idx <= |lines| ==> idx <= r <= |lines|
    ensures idx > |lines| ==> r == -(idx as int)
    ensures idx < |lines| && n >= 1 ==> idx < r
  {
    if idx > |lines| then -(idx as int) else BlankRunEnd(lines, idx, n, 0)
  }

  /**
   * Line `r` opens a block for a scan that started at `from`: it is not empty
   * and the `n` lines just before it, all at or after `from`, are empty.
   */
  ghost predicate OpensBlock(lines: seq<string>, from: int, r: int, n: nat) {
    0 <= from <= r - n && r < |lines| && lines[r] != "" && forall k :: r - n <= k < r ==> lines[k] == ""
  }

  lemma {:induction false} BlankRunEndIsFirstBlock(lines: seq<string>, from: nat, i: nat, n: nat, b: nat)
    requires from <= i <= |lines| && b <= i - from
    requires forall k :: i - b <= k < i ==> lines[k] == ""
    requires i - b > from ==> lines[i - b - 1] != ""
    ensures var r := BlankRunEnd(lines, i, n, b);
      (r < |lines| ==> OpensBlock(lines, from, r, n)) &&
      forall q :: i <= q < r ==> !OpensBlock(lines, from, q, n)
    decreases |lines| - i
  {
    if i < |lines| {
      if lines[i] == "" {
        BlankRunEndIsFirstBlock(lines, from, i + 1, n, b + 1);
      } else if b < n {
        if i - b > from {
          assert i - n <= i - b - 1 < i;
        }
        BlankRunEndIsFirstBlock(lines, from, i + 1, n, 0);
      }
    }
  }

  /**
   * For a start inside the buffer, findLineAfterNewlines gives the first line
   * at or after `idx` that opens a block of `n` empty lines, or the line count.
   */
  lemma LineAfterNewlinesIsFirstBlock(lines: seq<string>, idx: nat, n: nat)
    requires idx <= |lines|
    ensures var r := LineAfterNewlines(lines, idx, n);
      idx <= r <= |lines| &&
      (r < |lines| ==> OpensBlock(lines, idx, r, n)) &&
      forall q :: idx <= q < r ==> !OpensBlock(lines, idx, q, n)
  {
    BlankRunEndIsFirstBlock(lines, idx, idx, n, 0);
  }

  /** findLineAfterNewlines. */
  method FindLineAfterNewlines(lines: seq<string>, start: nat, numNewlines: int) returns (r: int)
    ensures r == LineAfterNewlines(lines, start, numNewlines)
  {
    var blanks := 0;
    var last: int := start;
    var idx := start;
    while idx < |lines|
      invariant start <= idx && last == start
      invariant idx > |lines| ==> idx == start
      invariant idx <= |lines| ==> LineAfterNewlines(lines, start, numNewlines) == BlankRunEnd(lines, idx, numNewlines, blanks)
    {
      if lines[idx] == "" {
        blanks := blanks + 1;
      } else {
        if blanks >= numNewlines {
          return idx;
        } else {
          blanks := 0;
        }
      }
      idx := idx + 1;
    }
    if idx == |lines| {
      return idx;
    }
    return -last;
  }

  // ---- nextMatch ---------------------------------------------------------------

  /** nextMatch: the first line in [idx, end) that `p` accepts, or where the scan stopped. */
  function FirstMatch(lines: seq<string>, idx: nat, end: int, p: string -> bool): (r: nat)
    requires end <= |lines|
    ensures idx <= r
    ensures r < end ==> p(lines[r])
    ensures r >= end ==> r == if idx < end then end else idx
    decreases end - idx
  {
    if idx >= end then idx
    else if p(lines[idx]) then idx
    else FirstMatch(lines, idx + 1, end, p)
  }

  /** No line that nextMatch skipped is accepted by `p`. */
  lemma {:induction false} FirstMatchSkips(lines: seq<string>, idx: nat, end: int, p: string -> bool)
    requires end <= |lines|
    ensures forall k :: idx <= k < FirstMatch(lines, idx, end, p) && k < end ==> !p(lines[k])
    decreases end - idx
  {
    if idx < end && !p(lines[idx]) {
      FirstMatchSkips(lines, idx + 1, end, p);
    }
  }

  /** nextMatch: advances `idx` to the matching line; `found` is the non-empty match. */
  method NextMatch(lines: seq<string>, idx: nat, end: int, p: string -> bool) returns (next: nat, found: bool)
    requires end <= |lines|
    ensures next == FirstMatch(lines, idx, end, p)
    ensures found <==> next < end
  {
    next := idx;
    while next < end
      invariant idx <= next
      invariant FirstMatch(lines, idx, end, p) == FirstMatch(lines, next, end, p)
      decreases end - next
    {
      if p(lines[next]) {
        return next, true;
      }
      next := next + 1;
    }
    found := false;
  }

  // ---- findSections -------------------------------------------------------------

  /** The module titles findSections queries, letter-spaced in the log. */
  const FrequencyTitle := "NWChem Nuclear Hessian and Frequency Analysis"
  const GeometryOptTitle := "NWChem Geometry Optimization"
  const DftTitle := "NWChem DFT Module"
  const ScfTitle := "NWChem SCF Module"
  const InputTitle := "NWChem Input Module"
  const DftGradientTitle := "NWChem DFT Gradient Module"
  const ScfGradientTitle := "NWChem Gradients Module"
  const CphfTitle := "NWChem CPHF Module"

  /** The query table of findSections: the type of the first query the line matches. */
  function Classify(line: string): Option<SectionType> {
    if SpacedLiteral(line, FrequencyTitle) then Some(Frequency)
    else if SpacedLiteral(line, GeometryOptTitle) then Some(GeometryOpt)
    else if SpacedLiteral(line, DftTitle) then Some(ModuleDFT)
    else if SpacedLiteral(line, ScfTitle) then Some(ModuleSCF)
    else if SpacedLiteral(line, InputTitle) then Some(ModuleInput)
    else if SpacedLiteral(line, DftGradientTitle) then Some(GradientDFT)
    else if SpacedLiteral(line, ScfGradientTitle) then Some(GradientSCF)
    else if SpacedLiteral(line, CphfTitle) then Some(ModuleCPHF)
    else if TaskTimesBanner(line) then Some(Terminate)
    else if AnyModuleBanner(line) then Some(Invalid)
    else None
  }

  /** The section a visited line contributes: one when a query matches, none otherwise. */
  function SectionAt(lines: seq<string>, cur: nat): (r: seq<SectionInfo>)
    requires cur < |lines|
    ensures |r| <= 1 && (r != [] <==> Classify(lines[cur]).Some?)
    ensures r != [] ==> r[0] == SectionInfo(Classify(lines[cur]).value, cur)
  {
    match Classify(lines[cur])
    case Some(t) => [SectionInfo(t, cur)]
    case None => []
  }

  /** The sections findSections records from line `cur` up to line `last`. */
  function ScanFrom(lines: seq<string>, cur: int, last: int): seq<SectionInfo>
    requires last < |lines|
    decreases |lines| - cur
  {
    if cur < 0 || cur > last then []
    else SectionAt(lines, cur) + ScanFrom(lines, LineAfterNewlines(lines, cur, 1), last)
  }

  /** The lines findSections visits: its start line, then every later line up to `last` that follows an empty line. */
  ghost predicate Visited(lines: seq<string>, cur: int, last: int, q: int) {
    0 <= cur <= q <= last && q < |lines| && (q == cur || OpensBlock(lines, cur, q, 1))
  }

  /** Past the next block, opening a block does not depend on where the scan started. */
  lemma OpensBlockFromLater(lines: seq<string>, cur: nat, next: nat, q: int)
    requires cur <= next < q
    ensures OpensBlock(lines, next, q, 1) <==> OpensBlock(lines, cur, q, 1)
  {
  }

  /** The scan from `cur` is the section at `cur` followed by the scan from the next block. */
  lemma ScanFromStep(lines: seq<string>, cur: int, last: int)
    requires last < |lines| && 0 <= cur <= last
    ensures LineAfterNewlines(lines, cur, 1) > cur
    ensures ScanFrom(lines, cur, last) == SectionAt(lines, cur) + ScanFrom(lines, LineAfterNewlines(lines, cur, 1), last)
  {
  }

  /** Every recorded section is a visited line, typed by the first query in table order. */
  lemma {:induction false} ScanFromSound(lines: seq<string>, cur: int, last: int)
    requires last < |lines|
    ensures var r := ScanFrom(lines, cur, last);
      forall k :: 0 <= k < |r| ==> Visited(lines, cur, last, r[k].start) && Classify(lines[r[k].start]) == Some(r[k].kind)
    decreases |lines| - cur
  {
    if 0 <= cur <= last {
      var next := LineAfterNewlines(lines, cur, 1);
      ScanFromStep(lines, cur, last);
      LineAfterNewlinesIsFirstBlock(lines, cur, 1);
      ScanFromSound(lines, next, last);
      var here := SectionAt(lines, cur);
      var rest := ScanFrom(lines, next, last);
      var r: seq<SectionInfo> := here + rest;
      forall k | 0 <= k < |r|
        ensures Visited(lines, cur, last, r[k].start)
        ensures Classify(lines[r[k].start]) == Some(r[k].kind)
      {
        if k >= |here| {
          assert r[k] == rest[k - |here|];
          var q := rest[k - |here|].start;
          assert Visited(lines, next, last, q);
          if q != next {
            OpensBlockFromLater(lines, cur, next, q);
          }
        }
      }
    }
  }

  /** Within one scan the recorded starts increase strictly. */
  lemma {:induction false} ScanFromIncreasing(lines: seq<string>, cur: int, last: int)
    requires last < |lines|
    ensures var r := ScanFrom(lines, cur, last);
      (forall k :: 0 <= k < |r| ==> cur <= r[k].start) && Increasing(r)
    decreases |lines| - cur
  {
    if 0 <= cur <= last {
      var next := LineAfterNewlines(lines, cur, 1);
      ScanFromStep(lines, cur, last);
      ScanFromIncreasing(lines, next, last);
      var here := SectionAt(lines, cur);
      var rest := ScanFrom(lines, next, last);
      var r := here + rest;
      forall k, l | 0 <= k < l < |r|
        ensures r[k].start < r[l].start
      {
        if k >= |here| {
          assert r[k] == rest[k - |here|] && r[l] == rest[l - |here|];
        } else {
          assert r[l] == rest[l - |here|];
        }
      }
    }
  }

  /** Every visited line that a query matches is recorded. */
  lemma {:induction false} ScanFromComplete(lines: seq<string>, cur: int, last: int, q: int)
    requires last < |lines|
    requires Visited(lines, cur, last, q) && Classify(lines[q]).Some?
    ensures exists k :: 0 <= k < |ScanFrom(lines, cur, last)| && ScanFrom(lines, cur, last)[k].start == q
    decreases |lines| - cur
  {
    var next := LineAfterNewlines(lines, cur, 1);
    ScanFromStep(lines, cur, last);
    var here := SectionAt(lines, cur);
    var rest := ScanFrom(lines, next, last);
    var r: seq<SectionInfo> := here + rest;
    if q == cur {
      assert r[0].start == q;
    } else {
      LineAfterNewlinesIsFirstBlock(lines, cur, 1);
      assert next <= q;
      if q != next {
        OpensBlockFromLater(lines, cur, next, q);
      }
      assert Visited(lines, next, last, q);
      ScanFromComplete(lines, next, last, q);
      var k :| 0 <= k < |rest| && rest[k].start == q;
      assert r[|here| + k].start == q;
    }
  }

  // ---- repeated scans (parseIncremental) ----------------------------------------

  /** The start line of the last recorded section, or -1 when none is recorded. */
  function LastStart(sections: seq<SectionInfo>): int {
    if sections == [] then -1 else sections[|sections| - 1].start
  }

  /** The sections of `found`, in order, that start after line `after`. */
  function After(found: seq<SectionInfo>, after: int): seq<SectionInfo> {
    if found == [] then []
    else (if found[0].start > after then [found[0]] else []) + After(found[1..], after)
  }

  /** After keeps exactly the sections that start past `after`. */
  lemma {:induction false} AfterKeeps(found: seq<SectionInfo>, after: int)
    ensures var r := After(found, after);
      (forall k :: 0 <= k < |r| ==> r[k].start > after && r[k] in found) &&
      (forall x :: x in found && x.start > after ==> x in r)
  {
    if found != [] {
      AfterKeeps(found[1..], after);
      assert found == [found[0]] + found[1..];
    }
  }

  /** Recorded starts increase strictly: no line holds two sections. */
  predicate Increasing(sections: seq<SectionInfo>) {
    forall k, l :: 0 <= k < l < |sections| ==> sections[k].start < sections[l].start
  }

  /** The section list after findSections(startLine, endLine) as written: every section the scan visits is appended. */
  function RescanAsWritten(sections: seq<SectionInfo>, lines: seq<string>, startLine: int, endLine: int): seq<SectionInfo>
    requires endLine < |lines|
  {
    sections + ScanFrom(lines, startLine, endLine)
  }

  /** The section list after a scan that skips the lines at or before the last recorded section. */
  function Rescan(sections: seq<SectionInfo>, lines: seq<string>, startLine: int, endLine: int): seq<SectionInfo>
    requires endLine < |lines|
  {
    sections + After(ScanFrom(lines, startLine, endLine), LastStart(sections))
  }

  /** Filtering a concatenation filters each part. */
  lemma {:induction false} AfterAppend(a: seq<SectionInfo>, b: seq<SectionInfo>, after: int)
    ensures After(a + b, after) == After(a, after) + After(b, after)
    decreases |a|
  {
    if a != [] {
      assert (a + b)[0] == a[0];
      assert (a + b)[1..] == a[1..] + b;
      AfterAppend(a[1..], b, after);
      var head := if a[0].start > after then [a[0]] else [];
      assert After(a + b, after) == head + (After(a[1..], after) + After(b, after));
      assert After(a, after) == head + After(a[1..], after);
    } else {
      assert a + b == b;
    }
  }

  lemma {:induction false} AfterMember(found: seq<SectionInfo>, after: int, x: SectionInfo)
    requires x in After(found, after)
    ensures x in found && x.start > after
    decreases |found|
  {
    if x != found[0] || found[0].start <= after {
      AfterMember(found[1..], after, x);
    }
  }

  /** The filter keeps the order of what it keeps. */
  lemma {:induction false} AfterIncreasing(found: seq<SectionInfo>, after: int)
    requires Increasing(found)
    ensures Increasing(After(found, after))
    decreases |found|
  {
    if found != [] {
      AfterIncreasing(found[1..], after);
      var rest := After(found[1..], after);
      forall x | x in rest
        ensures found[0].start < x.start
      {
        AfterMember(found[1..], after, x);
        var i :| 0 <= i < |found[1..]| && found[1..][i] == x;
        assert found[i + 1] == x;
      }
    }
  }

  /** Two increasing lists, the second starting after the first ends, join into an increasing list. */
  lemma IncreasingJoin(a: seq<SectionInfo>, b: seq<SectionInfo>)
    requires Increasing(a) && Increasing(b)
    requires forall k :: 0 <= k < |b| ==> b[k].start > LastStart(a)
    ensures Increasing(a + b)
  {
    var r := a + b;
    forall k, l | 0 <= k < l < |r|
      ensures r[k].start < r[l].start
    {
      if k >= |a| {
        assert r[k] == b[k - |a|] && r[l] == b[l - |a|];
      } else if l >= |a| {
        assert r[l] == b[l - |a|];
        assert r[k].start <= LastStart(a);
      }
    }
  }

  /** Repeated scans that skip the lines already covered keep every start distinct and in order. */
  lemma RescanIncreasing(sections: seq<SectionInfo>, lines: seq<string>, startLine: int, endLine: int)
    requires endLine < |lines| && Increasing(sections)
    ensures Increasing(Rescan(sections, lines, startLine, endLine))
  {
    var found := ScanFrom(lines, startLine, endLine);
    ScanFromIncreasing(lines, startLine, endLine);
    AfterIncreasing(found, LastStart(sections));
    AfterKeeps(found, LastStart(sections));
    IncreasingJoin(sections, After(found, LastStart(sections)));
  }

  /** On a parser with no sections yet the skip changes nothing: a full parse records what findSections records. */
  lemma RescanFirst(lines: seq<string>, startLine: nat, endLine: int)
    requires endLine < |lines|
    ensures Rescan([], lines, startLine, endLine) == RescanAsWritten([], lines, startLine, endLine)
  {
    var found := ScanFrom(lines, startLine, endLine);
    ScanFromIncreasing(lines, startLine, endLine);
    AfterAll(found, -1);
  }

  lemma {:induction false} AfterAll(found: seq<SectionInfo>, after: int)
    requires forall k :: 0 <= k < |found| ==> found[k].start > after
    ensures After(found, after) == found
    decreases |found|
  {
    if found != [] {
      AfterAll(found[1..], after);
    }
  }

  /**
   * A banner on the line parseIncremental rescans is recorded twice as written.
   * The buffer ["", b, ""] (the stream "\n" + b + "\n") is scanned over lines
   * [0, 1]; after the chunk "x" the buffer is ["", b, "x"] and the next scan
   * starts again at line 1 = max(3 - 2, 0).
   */
  lemma RescanDuplicates(b: string, t: SectionType)
    requires b != "" && Classify(b) == Some(t)
    ensures var first := RescanAsWritten([], ["", b, ""], 0, 1);
      first == [SectionInfo(t, 1)] &&
      RescanAsWritten(first, ["", b, "x"], 1, 1) == [SectionInfo(t, 1), SectionInfo(t, 1)] &&
      !Increasing(RescanAsWritten(first, ["", b, "x"], 1, 1)) &&
      Rescan(first, ["", b, "x"], 1, 1) == first
  {
    var one := ["", b, ""];
    var two := ["", b, "x"];
    assert BlankRunEnd(one, 1, 1, 1) == 1;
    assert LineAfterNewlines(one, 0, 1) == 1;
    assert BlankRunEnd(one, 3, 1, 1) == 3;
    assert BlankRunEnd(one, 2, 1, 0) == 3;
    assert LineAfterNewlines(one, 1, 1) == 3;
    assert BlankRunEnd(two, 3, 1, 0) == 3;
    assert BlankRunEnd(two, 2, 1, 0) == 3;
    assert LineAfterNewlines(two, 1, 1) == 3;
    assert Classify("") == None;
    assert SectionAt(one, 0) == [];
    assert ScanFrom(one, 1, 1) == [SectionInfo(t, 1)] + ScanFrom(one, 3, 1);
    assert ScanFrom(one, 0, 1) == [SectionInfo(t, 1)];
    assert ScanFrom(two, 1, 1) == [SectionInfo(t, 1)] + ScanFrom(two, 3, 1);
    var twice := RescanAsWritten([SectionInfo(t, 1)], two, 1, 1);
    assert twice[0].start == twice[1].start;
    assert After([SectionInfo(t, 1)], 1) == [] + After([], 1);
  }

  // ---- findTasks ----------------------------------------------------------------

  /** The first section at or after `i` that is not an input section, or the section count. */
  function FirstNotInput(sections: seq<SectionInfo>, i: nat): (j: nat)
    requires i <= |sections|
    ensures i <= j <= |sections|
    ensures j < |sections| ==> sections[j].kind != ModuleInput
    decreases |sections| - i
  {
    if i == |sections| || sections[i].kind != ModuleInput then i else FirstNotInput(sections, i + 1)
  }

  /** Every section the search passes over is an input section. */
  lemma {:induction false} FirstNotInputSkips(sections: seq<SectionInfo>, i: nat)
    requires i <= |sections|
    ensures forall k :: i <= k < FirstNotInput(sections, i) ==> sections[k].kind == ModuleInput
    decreases |sections| - i
  {
    if i < |sections| && sections[i].kind == ModuleInput {
      FirstNotInputSkips(sections, i + 1);
    }
  }

  /** The first Terminate section at or after `i`, or the section count. */
  function FirstTerminate(sections: seq<SectionInfo>, i: nat): (j: nat)
    requires i <= |sections|
    ensures i <= j <= |sections|
    ensures j < |sections| ==> sections[j].kind == Terminate
    decreases |sections| - i
  {
    if i == |sections| || sections[i].kind == Terminate then i else FirstTerminate(sections, i + 1)
  }

  /** No section the search passes over is a Terminate section. */
  lemma {:induction false} FirstTerminateSkips(sections: seq<SectionInfo>, i: nat)
    requires i <= |sections|
    ensures forall k :: i <= k < FirstTerminate(sections, i) ==> sections[k].kind != Terminate
    decreases |sections| - i
  {
    if i < |sections| && sections[i].kind != Terminate {
      FirstTerminateSkips(sections, i + 1);
    }
  }

  /** The input sections run from `i` exactly up to `j`. */
  lemma {:induction false} FirstNotInputAt(sections: seq<SectionInfo>, i: nat, j: nat)
    requires i <= j <= |sections|
    requires forall m :: i <= m < j ==> sections[m].kind == ModuleInput
    requires j < |sections| ==> sections[j].kind != ModuleInput
    ensures FirstNotInput(sections, i) == j
    decreases j - i
  {
    if i < j {
      FirstNotInputAt(sections, i + 1, j);
    }
  }

  /** No Terminate section lies from `i` up to `k`, which is one or the section count. */
  lemma {:induction false} FirstTerminateAt(sections: seq<SectionInfo>, i: nat, k: nat)
    requires i <= k <= |sections|
    requires forall m :: i <= m < k ==> sections[m].kind != Terminate
    requires k < |sections| ==> sections[k].kind == Terminate
    ensures FirstTerminate(sections, i) == k
    decreases k - i
  {
    if i < k {
      FirstTerminateAt(sections, i + 1, k);
    }
  }

  /** A task's type: that of its first non-input section if it is a task kind, else Invalid. */
  function TaskKind(sections: seq<SectionInfo>, j: nat): SectionType {
    if j < |sections| && sections[j].kind in {Frequency, GeometryOpt, ModuleDFT, ModuleSCF} then sections[j].kind
    else Invalid
  }

  /** The tasks findTasks appends for the sections from `i` on. */
  function GroupTasks(sections: seq<SectionInfo>, i: nat): seq<TaskInfo>
    requires i <= |sections|
    decreases |sections| - i
  {
    if i == |sections| then []
    else
      var j := FirstNotInput(sections, i);
      var k := FirstTerminate(sections, j);
      [TaskInfo(TaskKind(sections, j), i, k)] + GroupTasks(sections, if k < |sections| then k + 1 else k)
  }

  /** The task list from `i` is the task that starts at `i` followed by the tasks after its Terminate. */
  lemma GroupTasksStep(sections: seq<SectionInfo>, i: nat)
    requires i < |sections|
    ensures var k := FirstTerminate(sections, FirstNotInput(sections, i));
      GroupTasks(sections, i) ==
        [TaskInfo(TaskKind(sections, FirstNotInput(sections, i)), i, k)] + GroupTasks(sections, if k < |sections| then k + 1 else k)
  {
  }

  /** The task starting at `i` with its first non-input section at `j` and its Terminate at `k`, then the rest. */
  lemma GroupTasksAt(sections: seq<SectionInfo>, i: nat, j: nat, k: nat)
    requires i < |sections| && FirstNotInput(sections, i) == j && FirstTerminate(sections, j) == k
    ensures GroupTasks(sections, i) == [TaskInfo(TaskKind(sections, j), i, k)] + GroupTasks(sections, if k < |sections| then k + 1 else k)
  {
    GroupTasksStep(sections, i);
  }

  /** The facts TaskFacts states about the task at position `a` of `tasks`. */
  ghost predicate TaskOk(sections: seq<SectionInfo>, i: nat, tasks: seq<TaskInfo>, a: nat)
    requires a < |tasks|
  {
    var t := tasks[a];
    i <= t.section <= t.end <= |sections| &&
    t.kind == TaskKind(sections, FirstNotInput(sections, t.section)) &&
    (forall s :: t.section <= s < t.end ==> sections[s].kind != Terminate) &&
    (a < |tasks| - 1 ==> t.end < |sections| && sections[t.end].kind == Terminate && tasks[a + 1].section == t.end + 1) &&
    (a == |tasks| - 1 ==> t.end == |sections| || (t.end == |sections| - 1 && sections[t.end].kind == Terminate))
  }

  /** The first task of the list from `i`. */
  lemma HeadTask(sections: seq<SectionInfo>, i: nat)
    requires i < |sections|
    ensures |GroupTasks(sections, i)| > 0 && TaskOk(sections, i, GroupTasks(sections, i), 0)
  {
    GroupTasksStep(sections, i);
    var j := FirstNotInput(sections, i);
    var k := FirstTerminate(sections, j);
    var tasks := GroupTasks(sections, i);
    FirstNotInputSkips(sections, i);
    FirstTerminateSkips(sections, j);
    forall s | i <= s < k
      ensures sections[s].kind != Terminate
    {
      if s < j {
        assert sections[s].kind == ModuleInput;
      }
    }
    if k < |sections| && k + 1 < |sections| {
      GroupTasksStep(sections, k + 1);
      assert tasks[1] == GroupTasks(sections, k + 1)[0];
    }
  }

  /** Dropping the head of a task list keeps TaskOk for every later position. */
  lemma ShiftTaskOk(sections: seq<SectionInfo>, i: nat, i2: nat, tasks: seq<TaskInfo>, a: nat)
    requires i <= i2 && 0 < a < |tasks|
    requires TaskOk(sections, i2, tasks[1..], a - 1)
    ensures TaskOk(sections, i, tasks, a)
  {
    assert tasks[a] == tasks[1..][a - 1];
    if a < |tasks| - 1 {
      assert tasks[a + 1] == tasks[1..][a];
    }
  }

  /** A task further down the list from `i` is a task of the list after the first task's end. */
  lemma TailTask(sections: seq<SectionInfo>, i: nat, a: nat)
    requires i < |sections| && 0 < a < |GroupTasks(sections, i)|
    ensures var k := FirstTerminate(sections, FirstNotInput(sections, i));
      k < |sections| && i <= k + 1 && GroupTasks(sections, i)[1..] == GroupTasks(sections, k + 1)
  {
    GroupTasksStep(sections, i);
  }

  /**
   * The task at position `a` of the list from `i`: it lies between `i` and the
   * section count, takes its type by the rule of findTasks, holds no Terminate
   * before its end, and ends on the Terminate just before the next task or,
   * for the last task, on the final section or at the section count.
   */
  lemma {:induction false} TaskFacts(sections: seq<SectionInfo>, i: nat, a: nat)
    requires i <= |sections| && a < |GroupTasks(sections, i)|
    ensures TaskOk(sections, i, GroupTasks(sections, i), a)
    decreases a
  {
    if a == 0 {
      HeadTask(sections, i);
    } else {
      TailTask(sections, i, a);
      var k := FirstTerminate(sections, FirstNotInput(sections, i));
      TaskFacts(sections, k + 1, a - 1);
      ShiftTaskOk(sections, i, k + 1, GroupTasks(sections, i), a);
    }
  }

  /** The tasks cut the sections into consecutive runs, each closed by a Terminate or by the end. */
  ghost predicate Partition(sections: seq<SectionInfo>, tasks: seq<TaskInfo>) {
    (sections != [] <==> tasks != []) &&
    (tasks != [] ==> tasks[0].section == 0) &&
    (forall k :: 0 <= k < |tasks| ==> 0 <= tasks[k].section <= tasks[k].end <= |sections|) &&
    (forall k :: 0 <= k < |tasks| - 1 ==> tasks[k + 1].section == tasks[k].end + 1) &&
    (forall k :: 0 <= k < |tasks| - 1 ==> tasks[k].end < |sections| && sections[tasks[k].end].kind == Terminate) &&
    (tasks != [] ==> var t := tasks[|tasks| - 1];
       t.end == |sections| || (t.end == |sections| - 1 && sections[t.end].kind == Terminate)) &&
    (forall k, s :: 0 <= k < |tasks| && tasks[k].section <= s < tasks[k].end ==> sections[s].kind != Terminate)
  }

  /** findTasks from an empty task list partitions the sections. */
  lemma GroupTasksPartition(sections: seq<SectionInfo>)
    ensures Partition(sections, GroupTasks(sections, 0))
  {
    var tasks := GroupTasks(sections, 0);
    if sections != [] {
      GroupTasksStep(sections, 0);
    }
    forall a | 0 <= a < |tasks|
      ensures 0 <= tasks[a].section <= tasks[a].end <= |sections|
      ensures a < |tasks| - 1 ==> tasks[a + 1].section == tasks[a].end + 1
      ensures a < |tasks| - 1 ==> tasks[a].end < |sections| && sections[tasks[a].end].kind == Terminate
      ensures forall s :: tasks[a].section <= s < tasks[a].end ==> sections[s].kind != Terminate
    {
      TaskFacts(sections, 0, a);
    }
    if tasks != [] {
      TaskFacts(sections, 0, |tasks| - 1);
    }
  }

  /** Each task's type follows the rule of findTasks. */
  lemma GroupTasksKinds(sections: seq<SectionInfo>)
    ensures var tasks := GroupTasks(sections, 0);
      forall k :: 0 <= k < |tasks| ==>
        0 <= tasks[k].section <= |sections| &&
        tasks[k].kind == TaskKind(sections, FirstNotInput(sections, tasks[k].section))
  {
    var tasks := GroupTasks(sections, 0);
    forall a | 0 <= a < |tasks|
      ensures 0 <= tasks[a].section <= |sections|
      ensures tasks[a].kind == TaskKind(sections, FirstNotInput(sections, tasks[a].section))
    {
      TaskFacts(sections, 0, a);
    }
  }

  // ---- taskForSection -------------------------------------------------------------

  /** taskForSection: the first task whose section range holds `idx`, else -1. */
  function TaskFor(tasks: seq<TaskInfo>, idx: int): (r: int)
    ensures -1 <= r < |tasks|
    ensures r >= 0 ==> tasks[r].section <= idx <= tasks[r].end
    ensures r >= 0 ==> forall k :: 0 <= k < r ==> !(tasks[k].section <= idx <= tasks[k].end)
    ensures r == -1 <==> forall k :: 0 <= k < |tasks| ==> !(tasks[k].section <= idx <= tasks[k].end)
  {
    if tasks == [] then -1
    else if tasks[0].section <= idx <= tasks[0].end then 0
    else
      var r := TaskFor(tasks[1..], idx);
      if r < 0 then -1 else r + 1
  }

  /** After findTasks every section belongs to a task. */
  lemma EverySectionHasTask(sections: seq<SectionInfo>, idx: int)
    requires 0 <= idx < |sections|
    ensures TaskFor(GroupTasks(sections, 0), idx) >= 0
  {
    var tasks := GroupTasks(sections, 0);
    GroupTasksPartition(sections);
    CoveredFrom(sections, tasks, idx, 0);
  }

  lemma {:induction false} CoveredFrom(sections: seq<SectionInfo>, tasks: seq<TaskInfo>, idx: int, m: nat)
    requires Partition(sections, tasks) && 0 <= idx < |sections|
    requires m < |tasks| && tasks[m].section <= idx
    ensures exists k :: 0 <= k < |tasks| && tasks[k].section <= idx <= tasks[k].end
    decreases |tasks| - m
  {
    if idx > tasks[m].end {
      assert m < |tasks| - 1;
      CoveredFrom(sections, tasks, idx, m + 1);
    }
  }
}
