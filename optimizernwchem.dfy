/**
 * The pure helpers of the NWChem optimizer driver (optimizernwchem.cpp): the
 * progress table built from the optimizer's step lines, the copy of charges and
 * bonds onto a re-read geometry, the progress line of a frequency run, and the
 * dplot block chosen for a requested surface.
 */
module OptimizerNWChem {
  import opened Wrappers
  import opened Text
  import opened ParseHelpers
  import opened MolStructs
  import opened LineBuffers
  import opened NWChemExtract

  // ---------------------------------------------------------------------------
  // formatSteps

  const TableStyle: string :=
    "<style>\ntable, th, td {\n  border: 1px solid;\n  border-collapse: collapse;\n  padding: 3px;\n" +
    "  font-weight: normal;\n  margin-top: 3px;\n}\n</style>\n<table>\n"
  const TableEnd: string := "</table>\n"
  const HeaderOpen: string := "<tr><th>"
  const HeaderSep: string := "</th><th>"
  const DataOpen: string := "<tr><td>"
  const DataSep: string := "</td><td>"
  const DataClose: string := "</td></tr>\n"
  const HeaderClose: string := "</th></tr>\n"

  /** QString::remove(0, 2): the text after its first two characters. */
  function DropTwo(s: string): string {
    if |s| < 2 then "" else s[2..]
  }

  /** The column titles of the first step line: split on two spaces so that "Delta E" stays whole. */
  function HeaderCells(first: string): seq<string> {
    NonEmpty(Split2(DropTwo(first), "  "))
  }

  /** The values of the latest step line, split on single spaces. */
  function DataCells(last: string): seq<string> {
    SplitSkipEmpty(DropTwo(last), ' ')
  }

  /** The table of formatSteps, with the header row closed by `headerClose`. */
  function StepsTable(steps: seq<string>, headerClose: string): string {
    if |steps| < 3 then ""
    else
      TableStyle +
      HeaderOpen + Join(HeaderCells(steps[0]), HeaderSep) + headerClose +
      DataOpen + Join(DataCells(steps[|steps| - 1]), DataSep) + DataClose +
      TableEnd
  }

  /** formatSteps as written: the header row of `<th>` cells is closed with `</td></tr>`. */
  function FormatStepsAsWritten(steps: seq<string>): (r: string)
    ensures r == "" <==> |steps| < 3
  {
    StepsTable(steps, DataClose)
  }

  /** formatSteps with the header row closed by `</th></tr>`. */
  function FormatSteps(steps: seq<string>): (r: string)
    ensures r == "" <==> |steps| < 3
  {
    StepsTable(steps, HeaderClose)
  }

  /** A well-formed table row: every cell opened and closed with `tag`. */
  function Row(cells: seq<string>, tag: string): string {
    "<tr><" + tag + ">" + Join(cells, "</" + tag + "><" + tag + ">") + "</" + tag + "></tr>\n"
  }

  /** The well-formed header and value rows are the ones formatSteps spells out. */
  lemma RowTags(header: seq<string>, values: seq<string>)
    ensures Row(header, "th") == HeaderOpen + Join(header, HeaderSep) + HeaderClose
    ensures Row(values, "td") == DataOpen + Join(values, DataSep) + DataClose
  {
    assert "<tr><" + "th" + ">" == HeaderOpen;
    assert "</" + "th" + "><" + "th" + ">" == HeaderSep;
    assert "</" + "th" + "></tr>\n" == HeaderClose;
    assert "<tr><" + "td" + ">" == DataOpen;
    assert "</" + "td" + "><" + "td" + ">" == DataSep;
    assert "</" + "td" + "></tr>\n" == DataClose;
  }

  /** Regroupings of the eight pieces of the table: by row, and around the header row's closing tag. */
  lemma Regroup(a: string, b: string, c: string, d: string, e: string, f: string, g: string, h: string)
    ensures a + (b + c + d) + (e + f + g) + h == a + b + c + d + e + f + g + h
    ensures a + b + c + d + e + f + g + h == (a + b + c) + d + (e + f + g + h)
  {
  }

  /** Two texts that differ only in one piece of equal length are different. */
  lemma DifferInPiece(p: string, x: string, y: string, q: string, k: nat)
    requires |x| == |y| && k < |x| && x[k] != y[k]
    ensures p + x + q != p + y + q
  {
    assert (p + x + q)[|p| + k] == x[k];
    assert (p + y + q)[|p| + k] == y[k];
  }

  /**
   * With three or more steps, the table holds one well-formed header row of the
   * first step's column titles and one well-formed row of the last step's values.
   */
  lemma FormatStepsRows(steps: seq<string>)
    requires |steps| >= 3
    ensures FormatSteps(steps) ==
      TableStyle + Row(HeaderCells(steps[0]), "th") + Row(DataCells(steps[|steps| - 1]), "td") + TableEnd
  {
    var h := Join(HeaderCells(steps[0]), HeaderSep);
    var d := Join(DataCells(steps[|steps| - 1]), DataSep);
    RowTags(HeaderCells(steps[0]), DataCells(steps[|steps| - 1]));
    Regroup(TableStyle, HeaderOpen, h, HeaderClose, DataOpen, d, DataClose, TableEnd);
  }

  /** As written, the header row is never the well-formed one: its closing tag is `</td>`. */
  lemma HeaderRowMismatch(steps: seq<string>)
    requires |steps| >= 3
    ensures FormatStepsAsWritten(steps) !=
      TableStyle + Row(HeaderCells(steps[0]), "th") + Row(DataCells(steps[|steps| - 1]), "td") + TableEnd
  {
    FormatStepsRows(steps);
    var h := Join(HeaderCells(steps[0]), HeaderSep);
    var d := Join(DataCells(steps[|steps| - 1]), DataSep);
    Regroup(TableStyle, HeaderOpen, h, DataClose, DataOpen, d, DataClose, TableEnd);
    Regroup(TableStyle, HeaderOpen, h, HeaderClose, DataOpen, d, DataClose, TableEnd);
    assert DataClose[3] == 'd' && HeaderClose[3] == 'h';
    DifferInPiece(TableStyle + HeaderOpen + h, DataClose, HeaderClose, DataOpen + d + DataClose + TableEnd, 3);
  }

  /** Only the first and the latest step lines show in the table. */
  lemma FormatStepsUsesEnds(s: seq<string>, t: seq<string>)
    requires |s| >= 3 && |t| >= 3
    requires s[0] == t[0] && s[|s| - 1] == t[|t| - 1]
    ensures FormatSteps(s) == FormatSteps(t)
  {
  }

  /** Splitting the title line on double spaces loses no text but the two-character prefix. */
  lemma HeaderSplitLossless(first: string)
    ensures Join(Split2(DropTwo(first), "  "), "  ") == DropTwo(first)
  {
    Split2Join(DropTwo(first), "  ");
  }

  /** Every value cell is non-empty and holds no space. */
  lemma DataCellsShape(last: string)
    ensures forall k :: 0 <= k < |DataCells(last)| ==> DataCells(last)[k] != "" && ' ' !in DataCells(last)[k]
  {
    var parts := Split(DropTwo(last), ' ');
    NonEmptyKeeps(parts);
  }

  // ---------------------------------------------------------------------------
  // copyChargeAndBonds

  /**
   * copyChargeAndBonds: with equal atom counts, `to`'s atoms keep their positions
   * and elements but take `from`'s charges index by index, and the bonds are
   * `from`'s; with different counts, `to` is returned unchanged.
   */
  method CopyChargeAndBonds(from: Mol, to: Mol) returns (r: Mol)
    ensures |to.atoms| == |from.atoms| ==> r.bonds == from.bonds && |r.atoms| == |to.atoms|
    ensures |to.atoms| == |from.atoms| ==>
      forall i :: 0 <= i < |r.atoms| ==> r.atoms[i] == to.atoms[i].(charge := from.atoms[i].charge)
    ensures |to.atoms| != |from.atoms| ==> r == to
  {
    r := to;
    if |r.atoms| == |from.atoms| {
      r := r.(bonds := from.bonds);
      var i := 0;
      while i < |r.atoms|
        invariant 0 <= i <= |r.atoms| == |to.atoms|
        invariant r.bonds == from.bonds
        invariant forall k :: 0 <= k < i ==> r.atoms[k] == to.atoms[k].(charge := from.atoms[k].charge)
        invariant forall k :: i <= k < |r.atoms| ==> r.atoms[k] == to.atoms[k]
      {
        r := r.(atoms := r.atoms[i := r.atoms[i].(charge := from.atoms[i].charge)]);
        i := i + 1;
      }
    }
  }

  // ---------------------------------------------------------------------------
  // frequencyFeedback

  const AtomPrefix: string := " atom: "
  const DateMark: string := "date:"
  const HessianPrefix: string := " HESSIAN: "

  predicate DateAt(line: string, q: int) {
    0 <= q && q + |DateMark| <= |line| && line[q..q + |DateMark|] == DateMark
  }

  /** The last "date:" starting at or before `q` and after the atom prefix. */
  function LastDate(line: string, q: int): (p: Option<nat>)
    ensures p.Some? ==> |AtomPrefix| <= p.value <= q && DateAt(line, p.value)
    ensures p.Some? ==> forall k :: p.value < k <= q ==> !DateAt(line, k)
    ensures p.None? ==> forall k :: |AtomPrefix| <= k <= q ==> !DateAt(line, k)
    decreases q
  {
    if q < |AtomPrefix| then None
    else if DateAt(line, q) then Some(q)
    else LastDate(line, q - 1)
  }

  /**
   * `( atom: .*)date:.*` matched against the whole line: the captured text runs
   * up to the last "date:" (the greedy `.*`), and `.` matches no line terminator.
   * The result is the capture, trimmed.
   */
  function AtomStepLine(line: string): Option<string> {
    if !StartsWith(line, AtomPrefix) || !NoLineTerm(line) then None
    else
      match LastDate(line, |line| - |DateMark|)
      case None => None
      case Some(p) => Some(Trim(line[..p]))
  }

  /** QString::simplified: the words of the text separated by single spaces. */
  function Simplified(s: string): string {
    Join(Words(s), " ")
  }

  /** ` HESSIAN: .*` matched against the whole line; the result is the line, simplified. */
  function HessianLine(line: string): Option<string> {
    if StartsWith(line, HessianPrefix) && NoLineTerm(line) then Some(Simplified(line)) else None
  }

  /** The progress text one line gives: the atom step pattern first, then the Hessian one. */
  function LineFeedback(line: string): Option<string> {
    if AtomStepLine(line).Some? then AtomStepLine(line) else HessianLine(line)
  }

  /**
   * frequencyFeedback: scanning from the last line down to `start`, the text of
   * the first line that gives one, so the latest progress line at or after
   * `start`; "" when no such line exists.
   */
  method FrequencyFeedback(buffer: LineBuffer, start: int) returns (r: string)
    requires 0 <= start
    ensures (forall i :: start <= i < |buffer.lines| ==> LineFeedback(buffer.lines[i]).None?) ==> r == ""
    ensures forall i ::
      (start <= i < |buffer.lines| && LineFeedback(buffer.lines[i]).Some? &&
       forall j :: i < j < |buffer.lines| ==> LineFeedback(buffer.lines[j]).None?) ==>
      r == LineFeedback(buffer.lines[i]).value
  {
    var i := |buffer.lines| - 1;
    while i >= start
      invariant i < |buffer.lines|
      invariant i >= start - 1 || i == |buffer.lines| - 1
      invariant forall j :: i < j < |buffer.lines| ==> LineFeedback(buffer.lines[j]).None?
    {
      var line := buffer.lines[i];
      var atom := AtomStepLine(line);
      if atom.Some? {
        return atom.value;
      }
      var hessian := HessianLine(line);
      if hessian.Some? {
        return hessian.value;
      }
      i := i - 1;
    }
    r := "";
  }

  // ---------------------------------------------------------------------------
  // The dplot orbital block of a requested surface (inside run)

  const SpinTotalBlock: string := "  spin total;\n"
  const SpinDensityBlock: string := "  spin spindens;\n"
  const InvalidOrbitalId: string := "Invailid orbital id for dplot"

  /** The dplot lines selecting orbital `id` of the given spin channel. */
  function OrbitalLines(id: int, spin: string): string {
    "  orbitals; 1; " + IntToString(id) + "\n  spin " + spin + "\n"
  }

  /** A trailing 'a' or 'b' selects the alpha or beta channel; any other name is of the total density. */
  function SpinOfName(name: string): string {
    if EndsWith(name, "a") then "alpha" else if EndsWith(name, "b") then "beta" else "total"
  }

  /** The orbital number part of a name: without the channel letter, if any. */
  function OrbitalIdText(name: string): string {
    if EndsWith(name, "a") || EndsWith(name, "b") then name[..|name| - 1] else name
  }

  /**
   * The orbitals block for a requested surface: "total" and "spindensity" are
   * the two density surfaces; any other name is an orbital id, which must read
   * as an integer once its channel letter is dropped, or `run` stops with an error.
   */
  function DplotOrbitals(num: Numbers, name: string): (r: Result<string>)
    ensures r.Failure? <==> name != "total" && name != "spindensity" && num.toInt(OrbitalIdText(name)).None?
    ensures r.Failure? ==> r.error == InvalidOrbitalId
    ensures name == "total" ==> r == Success(SpinTotalBlock)
    ensures name == "spindensity" ==> r == Success(SpinDensityBlock)
  {
    if name == "total" then Success(SpinTotalBlock)
    else if name == "spindensity" then Success(SpinDensityBlock)
    else
      var spin := SpinOfName(name);
      var idText := OrbitalIdText(name);
      match num.toInt(idText)
      case None => Failure(InvalidOrbitalId)
      case Some(id) => Success(OrbitalLines(id, spin))
  }

  /** The spin keyword of dplot for an orbital channel of the output. */
  function ChannelSpin(channel: string): string {
    if channel == "Alpha" then "alpha" else if channel == "Beta" then "beta" else "total"
  }

  /** Decimal text ends in a digit. */
  lemma EndsInDigit(n: int)
    ensures |IntToString(n)| >= 1 && IsDigit(IntToString(n)[|IntToString(n)| - 1])
  {
    var m := if n < 0 then -n else n;
    assert IntToString(n)[|IntToString(n)| - 1] == NatToString(m)[|NatToString(m)| - 1];
  }

  /** A name ending in a digit or a channel letter is neither of the two density surfaces. */
  lemma NotDensityName(name: string)
    requires |name| >= 1 && (IsDigit(name[|name| - 1]) || name[|name| - 1] == 'a' || name[|name| - 1] == 'b')
    ensures name != "total" && name != "spindensity"
  {
  }

  /**
   * Every orbital id the output parser produces (the vector number followed by
   * the channel suffix) selects that very orbital and channel in dplot.
   */
  lemma DplotOfOrbitalId(n: int, channel: string, suffix: string)
    requires IntMin <= n <= IntMax
    requires ChannelSuffix(channel) == Success(suffix)
    ensures DplotOrbitals(Qt, IntToString(n) + suffix) == Success(OrbitalLines(n, ChannelSpin(channel)))
  {
    var digits := IntToString(n);
    EndsInDigit(n);
    ToIntOfIntToString(n);
    NamedOrbitalParts(digits, suffix, channel);
    assert Qt.toInt(OrbitalIdText(digits + suffix)) == Some(n);
  }

  /** A digit string followed by a channel suffix: its id text, its spin, and not a density name. */
  lemma NamedOrbitalParts(digits: string, suffix: string, channel: string)
    requires |digits| >= 1 && IsDigit(digits[|digits| - 1])
    requires ChannelSuffix(channel) == Success(suffix)
    ensures OrbitalIdText(digits + suffix) == digits
    ensures SpinOfName(digits + suffix) == ChannelSpin(channel)
    ensures digits + suffix != "total" && digits + suffix != "spindensity"
  {
    var name := digits + suffix;
    if channel == "Alpha" {
      assert name[|name| - 1..] == "a";
      assert name[..|name| - 1] == digits;
    } else if channel == "Beta" {
      assert name[|name| - 1..] == "b";
      assert name[..|name| - 1] == digits;
    } else {
      assert name == digits;
      assert name[|name| - 1..] == [digits[|digits| - 1]];
    }
    NotDensityName(name);
  }
}
