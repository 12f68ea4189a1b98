/**
 * NWChem::Parser (nwchem.cpp): the parser object over a LineBuffer, with the
 * section list, the task list, the optimisation steps and the document it
 * fills. Each method runs the loops of the original and is proved to compute
 * the specification functions of NWChemScan and NWChemExtract.
 */
module NWChem {
  import opened Wrappers
  import opened Text
  import opened ParseHelpers
  import opened Patterns
  import opened MolStructs
  import opened MolDocuments
  import opened NWChemScan
  import opened NWChemExtract
  import opened LineBuffers

  // ---- scanning loops shared by the extractors -----------------------------------

  /** A table-row loop: one parsed row per line from `cur` until a stop line or the bound; None when a row does not parse. */
  method ReadRows<T>(lines: seq<string>, cur: nat, bound: int, stop: string -> bool, row: string -> Option<T>) returns (r: Option<seq<T>>)
    requires bound <= |lines|
    ensures r == Rows(lines, cur, bound, stop, row)
  {
    var acc: seq<T> := [];
    var i := cur;
    ThenEmpty(Rows(lines, cur, bound, stop, row));
    while i < bound && !stop(lines[i])
      invariant cur <= i
      invariant Rows(lines, cur, bound, stop, row) == Then(acc, Rows(lines, i, bound, stop, row))
      decreases bound - i
    {
      match row(lines[i])
      case None =>
        return None;
      case Some(x) =>
        RowsStep(lines, i, bound, stop, row, acc);
        acc := acc + [x];
        i := i + 1;
    }
    assert acc + [] == acc;
    return Some(acc);
  }

  lemma ThenEmpty<T>(r: Option<seq<T>>)
    ensures Then([], r) == r
  {
    if r.Some? {
      assert [] + r.value == r.value;
    }
  }

  /** A row that parses moves from the rest of the table to the rows read so far. */
  lemma RowsStep<T>(lines: seq<string>, i: nat, bound: int, stop: string -> bool, row: string -> Option<T>, acc: seq<T>)
    requires i < bound <= |lines| && !stop(lines[i]) && row(lines[i]).Some?
    ensures Then(acc, Rows(lines, i, bound, stop, row)) == Then(acc + [row(lines[i]).value], Rows(lines, i + 1, bound, stop, row))
  {
    var rest := Rows(lines, i + 1, bound, stop, row);
    if rest.Some? {
      assert acc + ([row(lines[i]).value] + rest.value) == acc + [row(lines[i]).value] + rest.value;
    }
  }

  /**
   * A banner table: nextMatch for the banner, nextMatch for the header from the
   * banner on, then the rows `skip` lines below the header.
   */
  method ReadBannerTable<T>(lines: seq<string>, start: nat, end: int, bound: int, banner: string -> bool, header: string -> bool,
                            skip: nat, stop: string -> bool, row: string -> Option<T>, error: string) returns (r: Result<Option<seq<T>>>)
    requires end <= |lines| && bound <= |lines|
    ensures r == BannerTable(lines, start, end, bound, banner, header, skip, stop, row, error)
  {
    var g, foundBanner := NextMatch(lines, start, end, banner);
    if !foundBanner {
      return Success(None);
    }
    var h, foundHeader := NextMatch(lines, g, end, header);
    if !foundHeader {
      return Failure(error);
    }
    var rows := ReadRows(lines, h + skip, bound, stop, row);
    match rows
    case None =>
      return Failure(error);
    case Some(xs) =>
      return Success(Some(xs));
  }

  /** `acc` followed by the entries of `r`, or the error of `r`. */
  function Prepend<T>(acc: seq<T>, r: Result<seq<T>>): Result<seq<T>> {
    match r
    case Failure(e) => Failure(e)
    case Success(xs) => Success(acc + xs)
  }

  /** The entry loop of parseOrbitals: nextMatch to each entry, convert it, and go on from the line after it. */
  method ReadEntries<T>(lines: seq<string>, cur: nat, end: int, matches: string -> bool, entry: string -> Result<T>) returns (r: Result<seq<T>>)
    requires end <= |lines|
    ensures r == Entries(lines, cur, end, matches, entry)
  {
    var acc: seq<T> := [];
    var pos := cur;
    var i, found := NextMatch(lines, pos, end, matches);
    PrependEmpty(Entries(lines, cur, end, matches, entry));
    while found
      invariant i == FirstMatch(lines, pos, end, matches) && (found <==> i < end)
      invariant Entries(lines, cur, end, matches, entry) == Prepend(acc, Entries(lines, pos, end, matches, entry))
      decreases end - pos
    {
      var x := entry(lines[i]);
      EntriesStep(lines, pos, end, matches, entry, acc);
      if x.Failure? {
        return Failure(x.error);
      }
      acc := acc + [x.value];
      pos := i + 1;
      i, found := NextMatch(lines, pos, end, matches);
    }
    assert Entries(lines, pos, end, matches, entry) == Success([]);
    assert acc + [] == acc;
    return Success(acc);
  }

  lemma PrependEmpty<T>(r: Result<seq<T>>)
    ensures Prepend([], r) == r
  {
    if r.Success? {
      assert [] + r.value == r.value;
    }
  }

  /** One entry of the scan from `pos`: its error ends the scan, its value joins those read so far. */
  lemma EntriesStep<T>(lines: seq<string>, pos: nat, end: int, matches: string -> bool, entry: string -> Result<T>, acc: seq<T>)
    requires end <= |lines| && FirstMatch(lines, pos, end, matches) < end
    ensures var e := FirstMatch(lines, pos, end, matches);
      (entry(lines[e]).Failure? ==> Prepend(acc, Entries(lines, pos, end, matches, entry)) == Failure(entry(lines[e]).error)) &&
      (entry(lines[e]).Success? ==>
         Prepend(acc, Entries(lines, pos, end, matches, entry)) == Prepend(acc + [entry(lines[e]).value], Entries(lines, e + 1, end, matches, entry)))
  {
    var e := FirstMatch(lines, pos, end, matches);
    var rest := Entries(lines, e + 1, end, matches, entry);
    if entry(lines[e]).Success? && rest.Success? {
      assert acc + ([entry(lines[e]).value] + rest.value) == acc + [entry(lines[e]).value] + rest.value;
    }
  }

  // ---- the parser ----------------------------------------------------------------

  /** One line of parseGradientSection: a step line joins the steps read so far. */
  lemma StepLinesAdvance(lines: seq<string>, i: nat, end: int, acc: seq<string>)
    requires i < end <= |lines|
    ensures StepLine(lines[i]) ==> acc + StepLines(lines, i, end) == (acc + [lines[i]]) + StepLines(lines, i + 1, end)
    ensures !StepLine(lines[i]) ==> acc + StepLines(lines, i, end) == acc + StepLines(lines, i + 1, end)
  {
    var rest := StepLines(lines, i + 1, end);
    if StepLine(lines[i]) {
      assert acc + ([lines[i]] + rest) == (acc + [lines[i]]) + rest;
    } else {
      assert StepLines(lines, i, end) == [] + rest;
    }
  }

  /** `acc` followed by the entries of `r`, with its channel, or the error of `r`. */
  function Blocks<T>(acc: seq<T>, r: Result<(seq<T>, string)>): Result<(seq<T>, string)> {
    match r
    case Failure(e) => Failure(e)
    case Success(found) => Success((acc + found.0, found.1))
  }

  lemma BlocksEmpty<T>(r: Result<(seq<T>, string)>)
    ensures Blocks([], r) == r
  {
    if r.Success? {
      assert [] + r.value.0 == r.value.0;
    }
  }

  /**
   * One analysis block: an unknown channel or an entry that does not convert
   * fails the whole scan; otherwise the block's entries join those read so far
   * and the scan goes on after the block with the block's channel.
   */
  lemma AnalysisBlocksAdvance<T>(lines: seq<string>, cur: nat, end: int, channel: string, isHeader: string -> bool,
                                 channelOf: string -> string, isEntry: string -> bool, read: string -> string -> Result<T>, acc: seq<T>)
    requires end <= |lines| && FirstMatch(lines, cur, end, isHeader) < end
    ensures var h := FirstMatch(lines, cur, end, isHeader);
      var name := channelOf(lines[h]);
      var blockEnd := LineAfterNewlines(lines, h, 2);
      var before := Blocks(acc, AnalysisBlocks(lines, cur, end, channel, isHeader, channelOf, isEntry, read));
      h < blockEnd <= |lines| &&
      (ChannelSuffix(name).Failure? ==> before.Failure?) &&
      (ChannelSuffix(name).Success? ==>
        var entries := Entries(lines, h, blockEnd, isEntry, read(ChannelSuffix(name).value));
        (entries.Failure? ==> before.Failure?) &&
        (entries.Success? ==> before == Blocks(acc + entries.value, AnalysisBlocks(lines, blockEnd, end, name, isHeader, channelOf, isEntry, read))))
  {
    var h := FirstMatch(lines, cur, end, isHeader);
    var name := channelOf(lines[h]);
    var blockEnd := LineAfterNewlines(lines, h, 2);
    if ChannelSuffix(name).Success? {
      var entries := Entries(lines, h, blockEnd, isEntry, read(ChannelSuffix(name).value));
      var rest := AnalysisBlocks(lines, blockEnd, end, name, isHeader, channelOf, isEntry, read);
      if entries.Success? && rest.Success? {
        assert acc + (entries.value + rest.value.0) == (acc + entries.value) + rest.value.0;
      }
    }
  }

  /**
   * The block loop of parseOrbitals: nextMatch to each header, the suffix of its
   * channel, the entries up to the line after the next two empty lines, then on
   * from there.
   */
  method ReadAnalysisBlocks<T>(lines: seq<string>, start: nat, end: int, isHeader: string -> bool, channelOf: string -> string,
                               isEntry: string -> bool, read: string -> string -> Result<T>) returns (r: Result<(seq<T>, string)>)
    requires end <= |lines|
    ensures r == AnalysisBlocks(lines, start, end, "", isHeader, channelOf, isEntry, read)
  {
    var found: seq<T> := [];
    var alphaBeta := "";
    var cur := start;
    var h, more := NextMatch(lines, cur, end, isHeader);
    BlocksEmpty(AnalysisBlocks(lines, start, end, "", isHeader, channelOf, isEntry, read));
    while more
      invariant h == FirstMatch(lines, cur, end, isHeader) && (more <==> h < end)
      invariant AnalysisBlocks(lines, start, end, "", isHeader, channelOf, isEntry, read) ==
        Blocks(found, AnalysisBlocks(lines, cur, end, alphaBeta, isHeader, channelOf, isEntry, read))
      decreases |lines| - cur
    {
      AnalysisBlocksAdvance(lines, cur, end, alphaBeta, isHeader, channelOf, isEntry, read, found);
      alphaBeta := channelOf(lines[h]);
      var suffix := "";
      if alphaBeta == "Alpha" {
        suffix := "a";
      } else if alphaBeta == "Beta" {
        suffix := "b";
      } else if alphaBeta != "" {
        return Failure(UnknownOrbital + alphaBeta);
      }
      assert ChannelSuffix(alphaBeta) == Success(suffix);
      var blockEnd := FindLineAfterNewlines(lines, h, 2);
      var entries := ReadEntries(lines, h, blockEnd, isEntry, read(suffix));
      if entries.Failure? {
        return Failure(entries.error);
      }
      found := found + entries.value;
      cur := blockEnd;
      h, more := NextMatch(lines, cur, end, isHeader);
    }
    assert found + [] == found;
    return Success((found, alphaBeta));
  }

  /** One line of parseEnergySection: what the line throws ends the loop, otherwise the loop goes on from the next line to read. */
  lemma EnergyLinesAdvance(num: Numbers, lines: seq<string>, i: nat, endLine: int, dft: bool, doc: Doc)
    requires i < endLine <= |lines|
    ensures var step := EnergyStep(num, lines, i, endLine, EnergyItemOf(lines[i], dft), dft, doc);
      (step.1.Failure? ==> EnergyLines(num, lines, i, endLine, dft, doc) == (step.0, Thrown(step.1.error))) &&
      (step.1.Success? ==> EnergyLines(num, lines, i, endLine, dft, doc) == EnergyLines(num, lines, step.1.value, endLine, dft, step.0))
  {
  }

  // ---- the frequency tables ---------------------------------------------------------

  /** The values of an eigenvector row from field `start` on, each pushed in turn; the first that does not convert throws. */
  method ReadRowValues(num: Numbers, v: seq<string>, start: nat) returns (r: Result<seq<real>>)
    ensures r == RowValues(num, v, start)
  {
    var acc: seq<real> := [];
    var i := start;
    PrependEmpty(RowValues(num, v, start));
    while i < |v|
      invariant start <= i
      invariant RowValues(num, v, start) == Prepend(acc, RowValues(num, v, i))
      decreases |v| - i
    {
      var x := DoubleFromList(num, v, i);
      if x.Failure? {
        return Failure(x.error);
      }
      RowValuesStep(num, v, i, acc);
      acc := acc + [x.value];
      i := i + 1;
    }
    assert acc + [] == acc;
    return Success(acc);
  }

  /** A value that converts moves from the rest of the row to the values read so far. */
  lemma RowValuesStep(num: Numbers, v: seq<string>, i: nat, acc: seq<real>)
    requires i < |v| && DoubleFromList(num, v, i).Success?
    ensures Prepend(acc, RowValues(num, v, i)) == Prepend(acc + [DoubleFromList(num, v, i).value], RowValues(num, v, i + 1))
  {
    var rest := RowValues(num, v, i + 1);
    if rest.Success? {
      var x := DoubleFromList(num, v, i).value;
      assert acc + ([x] + rest.value) == acc + [x] + rest.value;
    }
  }

  /**
   * The row loop of one eigenvector block from line `cur`: each row must carry
   * its 1-based number and its values extend the matching component row.
   */
  method ReadEigenRows(num: Numbers, lines: seq<string>, cur: nat, blockEnd: int, eigen: seq<seq<real>>) returns (r: Result<(seq<seq<real>>, int)>)
    requires blockEnd <= |lines|
    ensures r == EigenRows(num, lines, cur, blockEnd, eigen, 0)
  {
    var rows := eigen;
    var line := cur;
    var rowIdx := 0;
    while line < blockEnd && lines[line] != ""
      invariant rowIdx <= |rows| && cur <= line
      invariant EigenRows(num, lines, cur, blockEnd, eigen, 0) == EigenRows(num, lines, line, blockEnd, rows, rowIdx)
      decreases blockEnd - line
    {
      EigenRowsStep(num, lines, line, blockEnd, rows, rowIdx);
      var v := SplitSkipEmpty(lines[line], ' ');
      var n := IntFromList(num, v, 0);
      if n.Failure? {
        return Failure(n.error);
      }
      if n.value != rowIdx + 1 {
        return Failure(BadEigenRow + IntToString(rowIdx));
      }
      var values := ReadRowValues(num, v, 1);
      if values.Failure? {
        return Failure(values.error);
      }
      rows := Extend(rows, rowIdx, values.value);
      rowIdx := rowIdx + 1;
      line := line + 1;
    }
    return Success((rows, line));
  }

  /** One block of the eigenvector section: where the loop stops, fails, or carries on with the rows read. */
  lemma EigenBlocksStep(num: Numbers, lines: seq<string>, cur: nat, blockEnd: int, eigen: seq<seq<real>>, freqLine: string -> bool)
    requires cur < blockEnd <= |lines| && |eigen| % 3 == 0
    ensures var f := FirstMatch(lines, cur + 1, blockEnd, freqLine) + 2;
      && (f >= blockEnd ==> EigenBlocks(num, lines, cur, blockEnd, eigen, freqLine) == Success((eigen, f)))
      && (f < blockEnd && EigenRows(num, lines, f, blockEnd, eigen, 0).Failure? ==>
            EigenBlocks(num, lines, cur, blockEnd, eigen, freqLine) == Failure(EigenRows(num, lines, f, blockEnd, eigen, 0).error))
      && (f < blockEnd && EigenRows(num, lines, f, blockEnd, eigen, 0).Success? && |EigenRows(num, lines, f, blockEnd, eigen, 0).value.0| % 3 != 0 ==>
            EigenBlocks(num, lines, cur, blockEnd, eigen, freqLine) == Failure(ComponentsNotTriples))
      && (f < blockEnd && EigenRows(num, lines, f, blockEnd, eigen, 0).Success? && |EigenRows(num, lines, f, blockEnd, eigen, 0).value.0| % 3 == 0 ==>
            var block := EigenRows(num, lines, f, blockEnd, eigen, 0).value;
            EigenBlocks(num, lines, cur, blockEnd, eigen, freqLine) == EigenBlocks(num, lines, block.1, blockEnd, block.0, freqLine))
  {
  }

  /**
   * The block loop of the eigenvector section from its header line `cur`: skip
   * to the next "P.Frequency" line, read the rows two lines below it, and
   * require a multiple of three component rows after each block.
   */
  method ReadEigenBlocks(num: Numbers, lines: seq<string>, cur: nat, blockEnd: int, freqLine: string -> bool) returns (r: Result<(seq<seq<real>>, int)>)
    requires blockEnd <= |lines|
    ensures r == EigenBlocks(num, lines, cur, blockEnd, [], freqLine)
  {
    var eigen: seq<seq<real>> := [];
    var line := cur;
    while line < blockEnd
      invariant |eigen| % 3 == 0
      invariant EigenBlocks(num, lines, cur, blockEnd, [], freqLine) == EigenBlocks(num, lines, line, blockEnd, eigen, freqLine)
      decreases blockEnd - line
    {
      EigenBlocksStep(num, lines, line, blockEnd, eigen, freqLine);
      var f, _ := NextMatch(lines, line + 1, blockEnd, freqLine);
      f := f + 2;
      if f >= blockEnd {
        return Success((eigen, f));
      }
      var block := ReadEigenRows(num, lines, f, blockEnd, eigen);
      if block.Failure? {
        return Failure(block.error);
      }
      if |block.value.0| % 3 != 0 {
        return Failure(ComponentsNotTriples);
      }
      eigen := block.value.0;
      line := block.value.1;
    }
    return Success((eigen, line + 1));
  }

  /** An IR row that converts moves from the rest of the table to the rows read so far. */
  lemma IrRowsStep(num: Numbers, lines: seq<string>, cur: nat, end: int, acc: seq<(real, real)>)
    requires cur < end <= |lines| && !StartsWith(lines[cur], " ---")
    requires DoubleFromList(num, SplitSkipEmpty(lines[cur], ' '), 1).Success?
    requires DoubleFromList(num, SplitSkipEmpty(lines[cur], ' '), 6).Success?
    ensures var v := SplitSkipEmpty(lines[cur], ' ');
      Prepend(acc, IrRows(num, lines, cur, end)) ==
      Prepend(acc + [(DoubleFromList(num, v, 1).value, DoubleFromList(num, v, 6).value)], IrRows(num, lines, cur + 1, end))
  {
    var v := SplitSkipEmpty(lines[cur], ' ');
    var rest := IrRows(num, lines, cur + 1, end);
    if rest.Success? {
      var x := (DoubleFromList(num, v, 1).value, DoubleFromList(num, v, 6).value);
      assert acc + ([x] + rest.value) == acc + [x] + rest.value;
    }
  }

  /** The IR table loop from line `cur`: wave number and intensity of each row up to a " ---" line. */
  method ReadIrRows(num: Numbers, lines: seq<string>, cur: nat, end: int) returns (r: Result<seq<(real, real)>>)
    requires end <= |lines|
    ensures r == IrRows(num, lines, cur, end)
  {
    var acc: seq<(real, real)> := [];
    var line := cur;
    PrependEmpty(IrRows(num, lines, cur, end));
    while line < end && !StartsWith(lines[line], " ---")
      invariant cur <= line
      invariant IrRows(num, lines, cur, end) == Prepend(acc, IrRows(num, lines, line, end))
      decreases end - line
    {
      var v := SplitSkipEmpty(lines[line], ' ');
      var wavenum := DoubleFromList(num, v, 1);
      if wavenum.Failure? {
        return Failure(wavenum.error);
      }
      var intensity := DoubleFromList(num, v, 6);
      if intensity.Failure? {
        return Failure(intensity.error);
      }
      IrRowsStep(num, lines, line, end, acc);
      acc := acc + [(wavenum.value, intensity.value)];
      line := line + 1;
    }
    assert acc + [] == acc;
    return Success(acc);
  }

  /** Rows j, j + 1, j + 2 either end the column short of `i`, or give its next vector. */
  lemma ModeVectorsStep(eigen: seq<seq<real>>, i: nat, j: nat, acc: seq<Vec3>)
    requires |eigen| % 3 == 0 && j % 3 == 0 && j < |eigen|
    ensures i >= |eigen[j]| || i >= |eigen[j + 1]| || i >= |eigen[j + 2]| ==> ModeVectors(eigen[j..], i) == None
    ensures i < |eigen[j]| && i < |eigen[j + 1]| && i < |eigen[j + 2]| ==>
      Then(acc, ModeVectors(eigen[j..], i)) ==
      Then(acc + [Vec3(eigen[j][i], eigen[j + 1][i], eigen[j + 2][i])], ModeVectors(eigen[j + 3..], i))
  {
    ThreeDivides(|eigen|, j);
    var e := eigen[j..];
    assert e[0] == eigen[j] && e[1] == eigen[j + 1] && e[2] == eigen[j + 2];
    assert e[3..] == eigen[j + 3..];
    if i < |eigen[j]| && i < |eigen[j + 1]| && i < |eigen[j + 2]| {
      var rest := ModeVectors(eigen[j + 3..], i);
      if rest.Some? {
        var v := Vec3(eigen[j][i], eigen[j + 1][i], eigen[j + 2][i]);
        assert acc + ([v] + rest.value) == acc + [v] + rest.value;
      }
    }
  }

  /** Below a multiple of three, a multiple of three leaves at least three more. */
  lemma ThreeDivides(n: int, j: int)
    requires n % 3 == 0 && j % 3 == 0 && j < n
    ensures (n - j) % 3 == 0 && n - j >= 3 && (n - j - 3) % 3 == 0
  {
    var p, q := n / 3, j / 3;
    assert n == 3 * p && j == 3 * q;
    assert n - j == 3 * (p - q);
  }

  /** The inner loop of the mode assembly: column `i` of every three component rows, as one vector per atom. */
  method ColumnVectors(eigen: seq<seq<real>>, i: nat) returns (r: Option<seq<Vec3>>)
    requires |eigen| % 3 == 0
    ensures r == ModeVectors(eigen, i)
  {
    var acc: seq<Vec3> := [];
    var j := 0;
    ThenEmpty(ModeVectors(eigen, i));
    assert eigen[0..] == eigen;
    while j < |eigen|
      invariant j <= |eigen| && j % 3 == 0
      invariant ModeVectors(eigen, i) == Then(acc, ModeVectors(eigen[j..], i))
      decreases |eigen| - j
    {
      ModeVectorsStep(eigen, i, j, acc);
      if i >= |eigen[j]| || i >= |eigen[j + 1]| || i >= |eigen[j + 2]| {
        return None;
      }
      var v := Vec3(eigen[j][i], eigen[j + 1][i], eigen[j + 2][i]);
      acc := acc + [v];
      j := j + 3;
    }
    assert acc + [] == acc;
    return Some(acc);
  }

  /** The outer loop of the mode assembly: each IR mode with its column of eigenvectors. */
  method BuildModes(eigen: seq<seq<real>>, modes: seq<(real, real)>) returns (r: Result<seq<Frequency>>)
    requires |eigen| % 3 == 0
    ensures r == Modes(eigen, modes, 0)
  {
    var acc: seq<Frequency> := [];
    var i := 0;
    PrependEmpty(Modes(eigen, modes, 0));
    while i < |modes|
      invariant i <= |modes|
      invariant Modes(eigen, modes, 0) == Prepend(acc, Modes(eigen, modes, i))
      decreases |modes| - i
    {
      var vs := ColumnVectors(eigen, i);
      if vs.None? {
        return Failure(RaggedEigenvectors);
      }
      var f := MolDocuments.Frequency(modes[i].0, modes[i].1, vs.value);
      var rest := Modes(eigen, modes, i + 1);
      if rest.Success? {
        assert acc + ([f] + rest.value) == acc + [f] + rest.value;
      }
      acc := acc + [f];
      i := i + 1;
    }
    assert acc + [] == acc;
    return Success(acc);
  }

  /** The eigenvector part of parseFrequencySection from line `cur`. */
  method ReadEigenTable(num: Numbers, lines: seq<string>, cur: nat, end: int) returns (r: Result<(seq<seq<real>>, int)>)
    requires end <= |lines|
    ensures r == EigenTable(num, lines, cur, end)
  {
    var e, found := NextMatch(lines, cur, end, EigenvectorHeader);
    if !found {
      return Failure(MissingEigenvectors);
    }
    var blockEnd := FindLineAfterNewlines(lines, e, 2);
    var blocks := ReadEigenBlocks(num, lines, e, blockEnd, EigenvectorFrequencyLine);
    if blocks.Failure? {
      return Failure(blocks.error);
    }
    if blocks.value.0 == [] {
      return Failure(UnreadEigenvectors);
    }
    return blocks;
  }

  /** The IR part of parseFrequencySection from line `cur`, paired with the eigenvector columns. */
  method ReadModeTable(num: Numbers, lines: seq<string>, eigen: seq<seq<real>>, cur: nat, end: int) returns (r: Result<seq<Frequency>>)
    requires end <= |lines| && |eigen| % 3 == 0 && eigen != []
    ensures r == ModeTable(num, lines, eigen, cur, end)
  {
    var ir, found := NextMatch(lines, cur, end, IrHeader);
    if !found {
      return Failure(MissingIr);
    }
    var modes := ReadIrRows(num, lines, ir + 3, end);
    if modes.Failure? {
      return Failure(modes.error);
    }
    if |modes.value| != |eigen[0]| {
      return Failure(ModeCountMismatch);
    }
    r := BuildModes(eigen, modes.value);
  }

  /** The eigenvector and IR part of parseFrequencySection from line `cur`: the new frequency list or what it throws. */
  method ReadFrequencyTables(num: Numbers, lines: seq<string>, cur: nat, end: int) returns (r: Result<seq<Frequency>>)
    requires end <= |lines|
    ensures r == FrequencyTables(num, lines, cur, end)
  {
    var table := ReadEigenTable(num, lines, cur, end);
    if table.Failure? {
      return Failure(table.error);
    }
    r := ReadModeTable(num, lines, table.value.0, table.value.1, end);
  }

  // ---- the thermochemistry stages of parseFrequencySection ---------------------------

  method ReadTemperature(num: Numbers, lines: seq<string>, cur: nat, end: int, props: map<string, string>) returns (r: Stage)
    requires end <= |lines|
    ensures r == TemperatureStage(num, lines, cur, end, props, TemperatureLine)
  {
    var t, found := NextMatch(lines, cur, end, Found(TemperatureLine));
    if !found {
      return Stage(props, Failure(MissingTemperature));
    }
    var s := TemperatureLine(lines[t]).value;
    var stored := props;
    if num.toDouble(s).Some? {
      stored := stored[TemperatureKey := s];
    }
    return Stage(stored, Success(t));
  }

  method ReadEnthalpy(num: Numbers, format: real -> string, lines: seq<string>, cur: nat, end: int, props: map<string, string>) returns (r: Stage)
    requires end <= |lines|
    ensures r == EnthalpyStage(num, format, lines, cur, end, props, EnthalpyLine)
  {
    var t, found := NextMatch(lines, cur, end, Found(EnthalpyLine));
    if !found {
      return Stage(props, Failure(MissingEnthalpy));
    }
    var au := EnthalpyLine(lines[t]).value.1;
    var stored := props;
    if num.toDouble(au).Some? {
      var h := Enthalpy(num, props, num.toDouble(au).value);
      if h.Some? {
        stored := stored[EnthalpyKey := format(h.value)];
      }
    }
    return Stage(stored, Success(t));
  }

  /** The entropy and heat capacity searches. */
  method ReadStored(lines: seq<string>, cur: nat, end: int, props: map<string, string>, pattern: string -> Option<string>, key: string, missing: string) returns (r: Stage)
    requires end <= |lines|
    ensures r == StoreStage(lines, cur, end, props, pattern, key, missing)
  {
    var t, found := NextMatch(lines, cur, end, Found(pattern));
    if !found {
      return Stage(props, Failure(missing));
    }
    return Stage(props[key := pattern(lines[t]).value], Success(t));
  }

  method ComputeGibbs(num: Numbers, format: real -> string, props: map<string, string>) returns (r: Result<map<string, string>>)
    ensures r == GibbsStage(num, format, props)
  {
    if TemperatureKey in props && EnthalpyKey in props && EntropyKey in props {
      var t := ToDoubleOrThrow(num, props[TemperatureKey]);
      if t.Failure? {
        return Failure(t.error);
      }
      var h := ToDoubleOrThrow(num, props[EnthalpyKey]);
      if h.Failure? {
        return Failure(h.error);
      }
      var s := ToDoubleOrThrow(num, props[EntropyKey]);
      if s.Failure? {
        return Failure(s.error);
      }
      return Success(props[GibbsKey := format(GibbsEnergy(t.value, h.value, s.value))]);
    }
    return Success(props);
  }

  /** Task lists that name existing sections stay so when joined. */
  lemma TasksInJoin(sections: seq<SectionInfo>, a: seq<TaskInfo>, b: seq<TaskInfo>)
    requires TasksIn(sections, a) && TasksIn(sections, b)
    ensures TasksIn(sections, a + b)
  {
    forall k | 0 <= k < |a + b|
      ensures 0 <= (a + b)[k].section <= (a + b)[k].end <= |sections|
      ensures (a + b)[k].kind.Frequency? ==> (a + b)[k].section < (a + b)[k].end
    {
      if k >= |a| {
        assert (a + b)[k] == b[k - |a|];
      }
    }
  }

  /**
   * One visited line of findSections: the section `here` found on line `cur`
   * joins those kept when the line lies after the last kept section.
   */
  lemma RescanAdvance(kept: seq<SectionInfo>, here: seq<SectionInfo>, cur: int, rest: seq<SectionInfo>, after: int)
    requires |here| <= 1 && (here != [] ==> here[0].start == cur)
    ensures here != [] && cur > after ==> kept + After(here + rest, after) == (kept + here) + After(rest, after)
    ensures !(here != [] && cur > after) ==> kept + After(here + rest, after) == kept + After(rest, after)
  {
    AfterAppend(here, rest, after);
    if here != [] {
      assert here == [here[0]] + [];
      assert After(here, after) == (if cur > after then here else []) + After([], after);
    }
    if here != [] && cur > after {
      assert kept + (here + After(rest, after)) == (kept + here) + After(rest, after);
    } else {
      assert After(here, after) + After(rest, after) == After(rest, after);
    }
  }

  lemma StartsInGrow(lines: seq<string>, sections: seq<SectionInfo>, s: SectionInfo)
    requires StartsIn(lines, sections) && 0 <= s.start < |lines|
    ensures StartsIn(lines, sections + [s])
  {
  }

  lemma TasksInGrow(sections: seq<SectionInfo>, s: SectionInfo, tasks: seq<TaskInfo>)
    requires TasksIn(sections, tasks)
    ensures TasksIn(sections + [s], tasks)
  {
  }

  /** The sections list after findSections has visited line `cur`: recorded when it is a banner past `after`. */
  function Recorded(lines: seq<string>, sections: seq<SectionInfo>, cur: nat, after: int): seq<SectionInfo>
    requires cur < |lines|
  {
    if SectionAt(lines, cur) != [] && cur > after then sections + SectionAt(lines, cur) else sections
  }

  /** The scanning loop of findSections over lines `startLine`..`last`, extending `sections`. */
  method ScanSections(lines: seq<string>, sections: seq<SectionInfo>, tasks: seq<TaskInfo>, startLine: int, last: int)
    returns (found: seq<SectionInfo>)
    requires last < |lines| && StartsIn(lines, sections) && TasksIn(sections, tasks)
    ensures found == Rescan(sections, lines, startLine, last)
    ensures StartsIn(lines, found) && TasksIn(found, tasks)
  {
    var after := LastStart(sections);
    ghost var target := Rescan(sections, lines, startLine, last);
    found := sections;
    var cur := startLine;
    while 0 <= cur <= last
      invariant StartsIn(lines, found) && TasksIn(found, tasks)
      invariant found + After(ScanFrom(lines, cur, last), after) == target
      decreases |lines| - cur
    {
      var next := FindLineAfterNewlines(lines, cur, 1);
      RecordStep(lines, found, tasks, cur, last, after, target);
      ghost var kept := found;
      var here := SectionAt(lines, cur);
      if here != [] && cur > after {
        found := found + here;
      }
      assert found == Recorded(lines, kept, cur, after);
      cur := next;
    }
    assert ScanFrom(lines, cur, last) == [];
    assert After([], after) == [];
    assert found + [] == found;
  }

  /** One visit of findSections keeps the section list well formed and on course for the rescan's result. */
  lemma RecordStep(text: seq<string>, sections: seq<SectionInfo>, tasks: seq<TaskInfo>,
                   cur: int, last: int, after: int, target: seq<SectionInfo>)
    requires last < |text| && 0 <= cur <= last
    requires StartsIn(text, sections) && TasksIn(sections, tasks)
    requires sections + After(ScanFrom(text, cur, last), after) == target
    ensures LineAfterNewlines(text, cur, 1) > cur
    ensures var next := Recorded(text, sections, cur, after);
      StartsIn(text, next) && TasksIn(next, tasks) &&
      next + After(ScanFrom(text, LineAfterNewlines(text, cur, 1), last), after) == target
  {
    ScanFromStep(text, cur, last);
    var here := SectionAt(text, cur);
    RescanAdvance(sections, here, cur, ScanFrom(text, LineAfterNewlines(text, cur, 1), last), after);
    if here != [] && cur > after {
      assert here == [here[0]];
      StartsInGrow(text, sections, here[0]);
      TasksInGrow(sections, here[0], tasks);
    }
  }

  /**
   * One task of findTasks: the input sections from `i` to `j`, then the
   * sections up to the Terminate at `k`, form the next task.
   */
  lemma GroupAdvance(sections: seq<SectionInfo>, i: nat, j: nat, k: nat, added: seq<TaskInfo>)
    requires i < |sections| && i <= j <= k <= |sections|
    requires (forall m :: i <= m < j ==> sections[m].kind == ModuleInput) && (j < |sections| ==> sections[j].kind != ModuleInput)
    requires (forall m :: j <= m < k ==> sections[m].kind != Terminate) && (k < |sections| ==> sections[k].kind == Terminate)
    ensures added + GroupTasks(sections, i) ==
      (added + [TaskInfo(TaskKind(sections, j), i, k)]) + GroupTasks(sections, if k < |sections| then k + 1 else k)
  {
    var t := TaskInfo(TaskKind(sections, j), i, k);
    var rest := GroupTasks(sections, if k < |sections| then k + 1 else k);
    assert GroupTasks(sections, i) == [t] + rest by {
      FirstNotInputAt(sections, i, j);
      FirstTerminateAt(sections, j, k);
      GroupTasksAt(sections, i, j, k);
    }
    assert added + ([t] + rest) == (added + [t]) + rest;
  }

  /**
   * The inner scans of findTasks for the task starting at section `i`: past the
   * input sections to `j`, whose type is the task's when it is a task kind, then
   * on to the Terminate section `k` or the end.
   */
  method NextTask(secs: seq<SectionInfo>, i: nat) returns (kind: SectionType, j: nat, k: nat)
    requires i < |secs|
    ensures i <= j <= k <= |secs| && kind == TaskKind(secs, j)
    ensures (forall m :: i <= m < j ==> secs[m].kind == ModuleInput) && (j < |secs| ==> secs[j].kind != ModuleInput)
    ensures (forall m :: j <= m < k ==> secs[m].kind != Terminate) && (k < |secs| ==> secs[k].kind == Terminate)
  {
    j := i;
    while j < |secs| && secs[j].kind == ModuleInput
      invariant i <= j <= |secs|
      invariant forall m :: i <= m < j ==> secs[m].kind == ModuleInput
    {
      j := j + 1;
    }
    kind := Invalid;
    if j < |secs| && secs[j].kind in {SectionType.Frequency, GeometryOpt, ModuleDFT, ModuleSCF} {
      kind := secs[j].kind;
    }
    k := j;
    while k < |secs| && secs[k].kind != Terminate
      invariant j <= k <= |secs|
      invariant forall m :: j <= m < k ==> secs[m].kind != Terminate
    {
      k := k + 1;
    }
  }

  /**
   * NWChem::Parser: the buffer it reads, the string-to-number conversions and
   * the number formatting it relies on, and the four lists it fills.
   */
  class Parser {
    const buffer: LineBuffer
    const num: Numbers
    const format: real -> string
    var sections: seq<SectionInfo>
    var tasks: seq<TaskInfo>
    var optimizationSteps: seq<string>
    var document: Doc

    /** Every section banner is a line of the buffer, and every task names recorded sections. */
    ghost predicate Valid()
      reads this, buffer
    {
      buffer.Valid() && StartsIn(buffer.lines, sections) && TasksIn(sections, tasks)
    }

    constructor (b: LineBuffer, num: Numbers, format: real -> string)
      requires b.Valid()
      ensures Valid() && buffer == b && this.num == num && this.format == format
      ensures sections == [] && tasks == [] && optimizationSteps == [] && document == EmptyDoc
    {
      buffer := b;
      this.num := num;
      this.format := format;
      sections := [];
      tasks := [];
      optimizationSteps := [];
      document := EmptyDoc;
    }

    /**
     * findSections(startLine, endLine), with endLine < 0 meaning the last line:
     * visit startLine and every later block start up to endLine and record the
     * type of each visited banner. The source records every visited banner,
     * so a line shared by two incremental scans is recorded twice; this model
     * runs the corrected scan, which does not record a banner on a line at or
     * before the last recorded section (NWChemScan.RescanDuplicates shows the
     * difference).
     */
    method FindSections(startLine: int, endLine: int)
      requires Valid() && endLine < |buffer.lines|
      modifies this
      ensures Valid()
      ensures sections == Rescan(old(sections), buffer.lines, startLine, if endLine < 0 then |buffer.lines| - 1 else endLine)
      ensures tasks == old(tasks) && optimizationSteps == old(optimizationSteps) && document == old(document)
    {
      var lines := buffer.lines;
      var last := if endLine < 0 then |lines| - 1 else endLine;
      sections := ScanSections(lines, sections, tasks, startLine, last);
    }

    /** findTasks: group the sections into tasks, each ended by a Terminate section, and append them. */
    method FindTasks()
      requires Valid()
      modifies this
      ensures Valid()
      ensures tasks == old(tasks) + GroupTasks(sections, 0)
      ensures sections == old(sections) && optimizationSteps == old(optimizationSteps) && document == old(document)
    {
      var secs := sections;
      var i := 0;
      ghost var added: seq<TaskInfo> := [];
      assert [] + GroupTasks(secs, 0) == GroupTasks(secs, 0);
      while i < |secs|
        invariant i <= |secs|
        invariant sections == secs == old(sections) && optimizationSteps == old(optimizationSteps) && document == old(document)
        invariant tasks == old(tasks) + added
        invariant added + GroupTasks(secs, i) == GroupTasks(secs, 0)
        decreases |secs| - i
      {
        var kind, j, k := NextTask(secs, i);
        GroupAdvance(secs, i, j, k, added);
        tasks := tasks + [TaskInfo(kind, i, k)];
        added := added + [TaskInfo(kind, i, k)];
        i := if k < |secs| then k + 1 else k;
      }
      assert added + [] == added;
      GroupTasksIn(secs);
      TasksInJoin(secs, old(tasks), GroupTasks(secs, 0));
    }

    /** parseGradientSection: the optimisation-step lines of the section are appended in order. */
    method ParseGradientSection(idx: nat)
      requires Valid() && idx < |sections|
      modifies this
      ensures sections == old(sections) && tasks == old(tasks) && document == old(document)
      ensures optimizationSteps == old(optimizationSteps) + StepLines(buffer.lines, sections[idx].start, SectionEnd(buffer.lines, sections, idx))
    {
      var lines := buffer.lines;
      var endLine := |lines|;
      if idx + 1 < |sections| {
        endLine := sections[idx + 1].start;
      }
      var i := sections[idx].start;
      ghost var target := old(optimizationSteps) + StepLines(lines, i, endLine);
      while i < endLine
        invariant sections == old(sections) && tasks == old(tasks) && document == old(document)
        invariant optimizationSteps + StepLines(lines, i, endLine) == target
        decreases endLine - i
      {
        StepLinesAdvance(lines, i, endLine, optimizationSteps);
        if StepLine(lines[i]) {
          optimizationSteps := optimizationSteps + [lines[i]];
        }
        i := i + 1;
      }
      assert optimizationSteps + [] == optimizationSteps;
    }

    /**
     * parseGeometry over [start, end) with the rows read below `bound`: false
     * without a geometry banner, true with the atoms replaced by the table's,
     * or the error it throws, the document then unchanged.
     */
    method ParseGeometry(start: nat, end: int, bound: int) returns (r: Result<bool>)
      requires end <= |buffer.lines| && bound <= |buffer.lines|
      modifies this
      ensures sections == old(sections) && tasks == old(tasks) && optimizationSteps == old(optimizationSteps)
      ensures var g := Geometry(num, buffer.lines, start, end, bound);
        match g
        case Failure(e) => r == Failure(e) && document == old(document)
        case Success(None) => r == Success(false) && document == old(document)
        case Success(Some(atoms)) => r == Success(true) && document == old(document).(molecule := old(document).molecule.(atoms := atoms))
    {
      var g := ReadBannerTable(buffer.lines, start, end, bound, GeometryHeader, GeometryTableHeader, 2, EmptyLine, GeometryRowOf(num), GeometryError);
      match g
      case Failure(e) =>
        return Failure(e);
      case Success(None) =>
        return Success(false);
      case Success(Some(atoms)) =>
        document := document.(molecule := document.molecule.(atoms := atoms));
        return Success(true);
    }

    /**
     * parseConnectivity over [start, end) with the rows read below `bound`:
     * false without an "internuclear distances" banner, true with the bond list
     * replaced by the table's, or the error it throws. The source appends the
     * table's bonds to the document's; replacing them is the corrected form
     * (NWChemExtract.AppendBondsTwice shows the difference).
     */
    method ParseConnectivity(start: nat, end: int, bound: int) returns (r: Result<bool>)
      requires end <= |buffer.lines| && bound <= |buffer.lines|
      modifies this
      ensures sections == old(sections) && tasks == old(tasks) && optimizationSteps == old(optimizationSteps)
      ensures var c := Connectivity(num, buffer.lines, start, end, bound);
        match c
        case Failure(e) => r == Failure(e) && document == old(document)
        case Success(None) => r == Success(false) && document == old(document)
        case Success(Some(bonds)) => r == Success(true) && document == old(document).(molecule := ReplaceBonds(old(document).molecule, bonds))
    {
      var c := ReadBannerTable(buffer.lines, start, end, bound, InternuclearHeader, InternuclearHeader, 4, SeparatorLine, BondRowOf(num), ConnectivityError);
      match c
      case Failure(e) =>
        return Failure(e);
      case Success(None) =>
        return Success(false);
      case Success(Some(bonds)) =>
        document := document.(molecule := ReplaceBonds(document.molecule, bonds));
        return Success(true);
    }

    /**
     * parseInputSection: the geometry, then the connectivity of the section; the
     * first throw ends it. Rows are read up to the section end and bonds are
     * replaced, the corrected forms of the source's reading to the buffer end and
     * appending.
     */
    method ParseInputSection(idx: nat) returns (outcome: Outcome)
      requires Valid() && idx < |sections|
      modifies this
      ensures sections == old(sections) && tasks == old(tasks) && optimizationSteps == old(optimizationSteps)
      ensures (document, outcome) == InputSection(num, buffer.lines, sections, idx, old(document))
    {
      var lines := buffer.lines;
      var endLine := |lines|;
      if idx + 1 < |sections| {
        endLine := sections[idx + 1].start;
      }
      var g := ParseGeometry(sections[idx].start, endLine, endLine);
      if g.Failure? {
        return Thrown(g.error);
      }
      var c := ParseConnectivity(sections[idx].start, endLine, endLine);
      if c.Failure? {
        return Thrown(c.error);
      }
      return Done;
    }

    /**
     * parseOrbitals over [curLine, endLine): every analysis block's entries in
     * order, sorted by energy when the last header named a channel, replace the
     * orbital list; false, the document unchanged, when a conversion fails, a
     * channel is unknown or no orbital was read.
     */
    method ParseOrbitals(curLine: nat, endLine: int) returns (ok: bool)
      requires endLine <= |buffer.lines|
      modifies this
      ensures sections == old(sections) && tasks == old(tasks) && optimizationSteps == old(optimizationSteps)
      ensures match Orbitals(num, buffer.lines, curLine, endLine)
        case None => !ok && document == old(document)
        case Some(o) => ok && document == old(document).(orbitals := o)
    {
      var blocks := ReadAnalysisBlocks(buffer.lines, curLine, endLine, IsOrbitalHeader, HeaderChannel, IsOrbitalEntry, OrbitalReader(num));
      if blocks.Failure? {
        return false;
      }
      var orbitals := blocks.value.0;
      if blocks.value.1 != "" {
        orbitals := SortByEnergy(orbitals);
      }
      if orbitals == [] {
        return false;
      }
      document := document.(orbitals := orbitals);
      return true;
    }

    /**
     * The " solvent parameters" block of parseEnergySection from line `j` on:
     * the solvent name and dielectric it stores, and the line where it stopped.
     */
    method ParseSolvent(j: nat, endLine: int) returns (stop: nat)
      requires endLine <= |buffer.lines|
      modifies this
      ensures sections == old(sections) && tasks == old(tasks) && optimizationSteps == old(optimizationSteps)
      ensures (document, stop) == Solvent(num, buffer.lines, j, endLine, old(document))
    {
      var lines := buffer.lines;
      stop := j;
      while stop <= endLine && stop < |lines| && lines[stop] != ""
        invariant j <= stop
        invariant sections == old(sections) && tasks == old(tasks) && optimizationSteps == old(optimizationSteps)
        invariant Solvent(num, lines, j, endLine, old(document)) == Solvent(num, lines, stop, endLine, document)
        decreases |lines| - stop
      {
        var line := lines[stop];
        var name := SolventNameLine(line);
        if name.Some? {
          if name.value != "" {
            document := SetProp(document, SolventKey, name.value);
          }
        } else {
          var dielectric := DielectricLine(line);
          if dielectric.Some? && num.toDouble(dielectric.value).Some? {
            document := SetProp(document, DielectricKey, dielectric.value);
          }
        }
        stop := stop + 1;
      }
    }

    /**
     * One line of parseEnergySection, classified as `item`: the property,
     * geometry, orbitals or solvent data it stores, and the next line to read,
     * or the geometry error it throws.
     */
    method ParseEnergyLine(i: nat, endLine: int, item: EnergyItem, dft: bool) returns (next: Result<int>)
      requires i < endLine <= |buffer.lines|
      modifies this
      ensures sections == old(sections) && tasks == old(tasks) && optimizationSteps == old(optimizationSteps)
      ensures (document, next) == EnergyStep(num, buffer.lines, i, endLine, item, dft, old(document))
    {
      match item {
        case ChargeItem(s) =>
          if num.toInt(s).Some? {
            document := SetProp(document, ChargeKey, s);
          }
          return Success(i + 1);
        case SpinItem(s) =>
          if num.toInt(s).Some? {
            document := SetProp(document, SpinKey, s);
          }
          return Success(i + 1);
        case EnergyValue(s) =>
          if num.toDouble(s).Some? {
            document := SetProp(document, if dft then DftEnergyKey else ScfEnergyKey, s);
          }
          return Success(i + 1);
        case GeometryItem =>
          var g := ParseGeometry(i, endLine, endLine);
          if g.Failure? {
            return Failure(g.error);
          }
          return Success(i + 1);
        case OrbitalsItem =>
          var _ := ParseOrbitals(i, endLine);
          return Success(i + 1);
        case SolventItem =>
          var stop := ParseSolvent(i + 1, endLine);
          return Success(stop + 1);
        case OtherLine =>
          return Success(i + 1);
      }
    }

    /**
     * parseEnergySection: the energy of the other method is removed, then every
     * line of the section is classified and handled in turn; a geometry error
     * ends it.
     */
    method ParseEnergySection(idx: nat) returns (outcome: Outcome)
      requires Valid() && idx < |sections|
      modifies this
      ensures sections == old(sections) && tasks == old(tasks) && optimizationSteps == old(optimizationSteps)
      ensures (document, outcome) == EnergySection(num, buffer.lines, sections, idx, old(document))
    {
      var lines := buffer.lines;
      var endLine := |lines|;
      if idx + 1 < |sections| {
        endLine := sections[idx + 1].start;
      }
      var dft := sections[idx].kind == ModuleDFT;
      if dft {
        document := document.(props := document.props - {ScfEnergyKey});
      } else {
        document := document.(props := document.props - {DftEnergyKey});
      }
      var i := sections[idx].start;
      while i < endLine
        invariant sections == old(sections) && tasks == old(tasks) && optimizationSteps == old(optimizationSteps)
        invariant EnergySection(num, lines, sections, idx, old(document)) == EnergyLines(num, lines, i, endLine, dft, document)
        decreases endLine - i
      {
        EnergyLinesAdvance(num, lines, i, endLine, dft, document);
        var next := ParseEnergyLine(i, endLine, EnergyItemOf(lines[i], dft), dft);
        if next.Failure? {
          return Thrown(next.error);
        }
        i := next.value;
      }
      return Done;
    }

    /**
     * The thermochemistry part of parseFrequencySection: temperature, enthalpy,
     * entropy and heat capacity, each searched from the line of the one before,
     * then the Gibbs free energy; a missing line or a bad stored value throws,
     * and what was stored before the throw stays stored.
     */
    method ParseThermo(cur: nat, endLine: int) returns (next: Result<nat>)
      requires endLine <= |buffer.lines|
      modifies this
      ensures sections == old(sections) && tasks == old(tasks) && optimizationSteps == old(optimizationSteps)
      ensures document == old(document).(props := Thermo(num, format, buffer.lines, cur, endLine, old(document).props).props)
      ensures next == Thermo(num, format, buffer.lines, cur, endLine, old(document).props).next
    {
      var lines := buffer.lines;
      var a := ReadTemperature(num, lines, cur, endLine, document.props);
      document := document.(props := a.props);
      if a.next.Failure? {
        return a.next;
      }
      var b := ReadEnthalpy(num, format, lines, a.next.value, endLine, document.props);
      document := document.(props := b.props);
      if b.next.Failure? {
        return b.next;
      }
      var c := ReadStored(lines, b.next.value, endLine, document.props, EntropyLine, EntropyKey, MissingEntropy);
      document := document.(props := c.props);
      if c.next.Failure? {
        return c.next;
      }
      var d := ReadStored(lines, c.next.value, endLine, document.props, HeatCapacityLine, HeatCapacityKey, MissingHeatCapacity);
      document := document.(props := d.props);
      if d.next.Failure? {
        return d.next;
      }
      var g := ComputeGibbs(num, format, document.props);
      if g.Failure? {
        return Failure(g.error);
      }
      document := document.(props := g.value);
      return d.next;
    }

    /**
     * parseFrequencySection: the thermochemistry properties, then the
     * eigenvector and IR tables; the frequency list is replaced only when
     * every table reads.
     */
    method ParseFrequencySection(idx: nat) returns (outcome: Outcome)
      requires Valid() && idx < |sections|
      modifies this
      ensures sections == old(sections) && tasks == old(tasks) && optimizationSteps == old(optimizationSteps)
      ensures (document, outcome) == FrequencySection(num, format, buffer.lines, sections, idx, old(document))
    {
      var lines := buffer.lines;
      var endLine := SectionEnd(lines, sections, idx);
      var next := ParseThermo(sections[idx].start, endLine);
      if next.Failure? {
        return Thrown(next.error);
      }
      var frequencies := ReadFrequencyTables(num, lines, next.value, endLine);
      if frequencies.Failure? {
        return Thrown(frequencies.error);
      }
      document := document.(frequencies := frequencies.value);
      return Done;
    }

    /**
     * parseGeomEnergyTask(start, end): the sections [start, end) in order, energy
     * and input sections updating the document and gradient sections adding
     * optimisation steps; the first throw ends the task.
     */
    method ParseGeomEnergyTask(start: nat, end: int) returns (outcome: Outcome)
      requires Valid() && end <= |sections|
      modifies this
      ensures Valid() && sections == old(sections) && tasks == old(tasks)
      ensures Run(document, optimizationSteps, outcome) ==
        GeomEnergyTask(num, buffer.lines, sections, start, end, old(document), old(optimizationSteps))
    {
      var i := start;
      while i < end
        invariant Valid() && sections == old(sections) && tasks == old(tasks)
        invariant GeomEnergyTask(num, buffer.lines, sections, start, end, old(document), old(optimizationSteps)) ==
          GeomEnergyTask(num, buffer.lines, sections, i, end, document, optimizationSteps)
        decreases end - i
      {
        var next := i + 1;
        GeomEnergyTaskStep(num, buffer.lines, sections, i, next, end, document, optimizationSteps);
        var o := ParseGeomEnergySection(i);
        if o.Thrown? {
          return o;
        }
        i := next;
      }
      return Done;
    }

    /** One section of the loop in parseGeomEnergyTask, dispatched on its type. */
    method ParseGeomEnergySection(i: nat) returns (outcome: Outcome)
      requires Valid() && i < |sections|
      modifies this
      ensures Valid() && sections == old(sections) && tasks == old(tasks)
      ensures Run(document, optimizationSteps, outcome) ==
        GeomEnergyStep(num, buffer.lines, sections, i, old(document), old(optimizationSteps))
    {
      var kind := sections[i].kind;
      if kind == ModuleDFT || kind == ModuleSCF {
        outcome := ParseEnergySection(i);
      } else if kind == ModuleInput {
        outcome := ParseInputSection(i);
      } else if kind == GradientDFT || kind == GradientSCF {
        ParseGradientSection(i);
        outcome := Done;
      } else {
        outcome := Done;
      }
    }

    /**
     * parseFrequencyTask for the task ending at section `end`: the section before
     * the closing Terminate is read when it can carry a frequency analysis. A
     * task still open (no Terminate yet) is left alone: the corrected rule, where
     * the source reads one past the last section (NWChemExtract.OpenFrequencyTask).
     */
    method ParseFrequencyTask(end: int) returns (outcome: Outcome)
      requires Valid() && 1 <= end <= |sections|
      modifies this
      ensures Valid() && sections == old(sections) && tasks == old(tasks) && optimizationSteps == old(optimizationSteps)
      ensures (document, outcome) == FrequencyTask(num, format, buffer.lines, sections, end, old(document))
    {
      var target := FrequencyTarget(sections, end);
      if target.Some? {
        outcome := ParseFrequencySection(target.value);
      } else {
        outcome := Done;
      }
    }

    /** One task of the loops in parse and parseIncremental, run from section `from`. */
    method ParseTask(t: TaskInfo, from: nat, geomEnd: int) returns (outcome: Outcome)
      requires Valid() && geomEnd <= |sections|
      requires t.kind.Frequency? ==> 1 <= t.end <= |sections|
      modifies this
      ensures Valid() && sections == old(sections) && tasks == old(tasks)
      ensures Run(document, optimizationSteps, outcome) ==
        RunTask(num, format, buffer.lines, sections, t, from, geomEnd, old(document), old(optimizationSteps))
    {
      if IsGeomEnergy(t.kind) {
        outcome := ParseGeomEnergyTask(from, geomEnd);
      } else if t.kind.Frequency? {
        outcome := ParseFrequencyTask(t.end);
      } else {
        outcome := Done;
      }
    }

    /**
     * parse: find the sections of the whole buffer, group them into tasks, then
     * run every task from its first section to its end; the first throw ends it.
     */
    method Parse() returns (outcome: Outcome)
      requires Valid()
      modifies this
      ensures Valid()
      ensures sections == Rescan(old(sections), buffer.lines, 0, |buffer.lines| - 1)
      ensures tasks == old(tasks) + GroupTasks(sections, 0)
      ensures Run(document, optimizationSteps, outcome) ==
        RunTasks(num, format, buffer.lines, sections, tasks, 0, |sections|, old(document), old(optimizationSteps))
    {
      ghost var lines := buffer.lines;
      FindSections(0, -1);
      assert sections == Rescan(old(sections), lines, 0, |lines| - 1);
      FindTasks();
      outcome := RunTasksFrom(0, |sections|);
    }

    /**
     * parseIncremental: append a chunk, scan the lines that are now complete
     * (all but the last, which may still be growing) for new sections, and when
     * some were found regroup the tasks and continue from the task holding the
     * last section known before. Geometry and energy tasks stop before the last
     * section, which may be incomplete. The result says whether anything new was
     * parsed.
     */
    method ParseIncremental(data: string) returns (grown: bool, outcome: Outcome)
      requires Valid()
      modifies this, buffer
      ensures Valid() && buffer.Stream == old(buffer.Stream) + data
      ensures buffer.lines == if old(buffer.lines) == [] then Split(data, '\n') else Glue(old(buffer.lines), Split(data, '\n'))
      ensures sections == Rescan(old(sections), buffer.lines, Max(|old(buffer.lines)| - 2, 0), Max(|buffer.lines| - 2, 0))
      ensures grown <==>
        |sections| != |old(sections)| && |sections| > 1 && TaskFor(GroupTasks(sections, 0), Max(|old(sections)| - 1, 0)) >= 0
      ensures |sections| != |old(sections)| && |sections| > 1 ==>
        tasks == GroupTasks(sections, 0) &&
        Run(document, optimizationSteps, outcome) ==
          IncrementalRun(num, format, buffer.lines, sections, tasks, Max(|old(sections)| - 1, 0), old(document), old(optimizationSteps))
      ensures !(|sections| != |old(sections)| && |sections| > 1) ==>
        tasks == old(tasks) && document == old(document) && optimizationSteps == old(optimizationSteps) && outcome == Done
    {
      var lastSize := AppendAndScan(data);
      if lastSize != |sections| && |sections| > 1 {
        var startSection: nat := Max(lastSize as int - 1, 0);
        assert startSection == Max(|old(sections)| - 1, 0);
        grown, outcome := ContinueIncremental(startSection);
        return;
      }
      return false, Done;
    }

    /**
     * The first half of parseIncremental: append the chunk and scan the lines
     * from the one before the old last line up to the one before the new last
     * line; returns how many sections were known before.
     */
    method AppendAndScan(data: string) returns (lastSize: nat)
      requires Valid()
      modifies this, buffer
      ensures Valid() && buffer.Stream == old(buffer.Stream) + data
      ensures buffer.lines == if old(buffer.lines) == [] then Split(data, '\n') else Glue(old(buffer.lines), Split(data, '\n'))
      ensures lastSize == |old(sections)|
      ensures sections == Rescan(old(sections), buffer.lines, Max(|old(buffer.lines)| - 2, 0), Max(|buffer.lines| - 2, 0))
      ensures tasks == old(tasks) && document == old(document) && optimizationSteps == old(optimizationSteps)
    {
      var startLine := Max(|buffer.lines| - 2, 0);
      var added := buffer.Append(data);
      var endLine := Max(|buffer.lines| - 2, 0);
      lastSize := |sections|;
      assert 0 <= endLine < |buffer.lines|;
      FindSections(startLine, endLine);
    }

    /**
     * The second half of parseIncremental, once new sections were found: regroup
     * the tasks, continue the task holding section `startSection`, then run
     * every later task. Without such a task (which cannot happen, as every section
     * belongs to a task) nothing is parsed and the result is false.
     */
    method ContinueIncremental(startSection: nat) returns (grown: bool, outcome: Outcome)
      requires Valid() && startSection < |sections| - 1
      modifies this
      ensures Valid() && sections == old(sections) && tasks == GroupTasks(sections, 0)
      ensures grown <==> TaskFor(tasks, startSection) >= 0
      ensures Run(document, optimizationSteps, outcome) ==
        IncrementalRun(num, format, buffer.lines, sections, tasks, startSection, old(document), old(optimizationSteps))
    {
      var endSection := |sections| - 1;
      tasks := [];
      FindTasks();
      ghost var grouped := tasks;
      var k := TaskFor(tasks, startSection);
      var next := k + 1;
      IncrementalRunStart(num, format, buffer.lines, sections, tasks, startSection, endSection, k, next, document, optimizationSteps);
      if k < 0 {
        return false, Done;
      }
      var t := tasks[k];
      outcome := ParseTask(t, startSection, Min(t.end, endSection));
      if outcome.Thrown? {
        return true, outcome;
      }
      outcome := RunTasksFrom(next, endSection);
      return true, outcome;
    }

    /**
     * The task loops of parse and parseIncremental: tasks `first`.. in order, each
     * run from its first section to its end; a geometry or energy task stops at
     * section `cap` when that comes first. The first throw ends the loop.
     */
    method RunTasksFrom(first: nat, cap: int) returns (outcome: Outcome)
      requires Valid() && cap <= |sections|
      modifies this
      ensures Valid() && sections == old(sections) && tasks == old(tasks)
      ensures Run(document, optimizationSteps, outcome) ==
        RunTasks(num, format, buffer.lines, sections, tasks, first, cap, old(document), old(optimizationSteps))
    {
      var k := first;
      while k < |tasks|
        invariant Valid() && sections == old(sections) && tasks == old(tasks) && first <= k
        invariant RunTasks(num, format, buffer.lines, sections, tasks, first, cap, old(document), old(optimizationSteps)) ==
          RunTasks(num, format, buffer.lines, sections, tasks, k, cap, document, optimizationSteps)
        decreases |tasks| - k
      {
        var t := tasks[k];
        var after := k + 1;
        RunTasksStep(num, format, buffer.lines, sections, tasks, k, after, cap, document, optimizationSteps);
        var o := ParseTask(t, t.section, Min(t.end, cap));
        if o.Thrown? {
          return o;
        }
        k := after;
      }
      return Done;
    }

    /** taskForSection: the index of the first task whose range holds the section, else -1. */
    method TaskForSection(sectionIdx: int) returns (r: int)
      ensures r == TaskFor(tasks, sectionIdx)
    {
      var k := 0;
      while k < |tasks|
        invariant k <= |tasks|
        invariant forall m :: 0 <= m < k ==> !(tasks[m].section <= sectionIdx <= tasks[m].end)
      {
        if tasks[k].section <= sectionIdx <= tasks[k].end {
          return k;
        }
        k := k + 1;
      }
      return -1;
    }
  }
}
