/**
 * The payload extractors of NWChem::Parser (nwchem.cpp) as functions of the
 * line list: what each one reads, what it throws, and how it changes the
 * document. The Parser class in nwchem.dfy runs the same scans as loops and is
 * proved to compute these functions.
 */
module NWChemExtract {
  import opened Wrappers
  import opened Text
  import opened ParseHelpers
  import opened Patterns
  import opened MolStructs
  import opened MolDocuments
  import opened NWChemScan

  /** KCAL_PER_HARTREE. */
  const KcalPerHartree: real := 627.5093314

  const GeometryError := "NWChem read error, invalid Geometry section"
  const ConnectivityError := "NWChem read error, invalid internuclear distances section data"
  /** The eigenvector table's error when a block's rows are not whole x, y, z triples (spelling as in the source). */
  const ComponentsNotTriples := "Frequency: Number of eigenvector componenets is not divisible by 3!"
  /** The other error messages of the frequency and molecular orbital readers. */
  const MissingEigenvectors := "Frequency: Missing eigenvector section"
  const UnreadEigenvectors := "Frequency: Failed to parse eigenvector section"
  const MissingIr := "Frequency: Missing IR section"
  const ModeCountMismatch := "Number of eigenvectors does not match number of IR frequencies"
  const MissingTemperature := "Frequency: Missing temperature"
  const MissingEnthalpy := "Frequency: Missing enthalpy"
  const MissingEntropy := "Frequency: Missing entropy"
  const MissingHeatCapacity := "Frequency: Missing heat capacity"
  const BadEigenRow := "Bad eigenvector row: "
  const UnknownOrbital := "Unknown orbital type: "

  const ChargeKey := "Charge"
  const SpinKey := "Spin"
  const ScfEnergyKey := "Total SCF Energy"
  const DftEnergyKey := "Total DFT Energy"
  const SolventKey := "Solvent"
  const DielectricKey := "Solvent dielectric"
  const TemperatureKey := "Temperature (K)"
  const EnthalpyKey := "Enthalpy (kcal/mol)"
  const EntropyKey := "Total Entropy (cal/mol-K)"
  const HeatCapacityKey := "Cv heat capacity (cal/mol-K)"
  const GibbsKey := "Gibbs Free Energy (kcal/mol)"

  /** Every section banner is a line of the buffer. */
  predicate StartsIn(lines: seq<string>, sections: seq<SectionInfo>) {
    forall s :: 0 <= s < |sections| ==> 0 <= sections[s].start < |lines|
  }

  /** The line after the last line of section `idx`: the next banner, or the line count. */
  function SectionEnd(lines: seq<string>, sections: seq<SectionInfo>, idx: nat): (r: int)
    requires StartsIn(lines, sections)
    ensures 0 <= r <= |lines|
  {
    if idx + 1 < |sections| then sections[idx + 1].start else |lines|
  }

  // ---- table rows --------------------------------------------------------------

  /**
   * The rows of a table from line `cur`: one entry per line until `stop` accepts a
   * line or the scan reaches `bound`; None as soon as one row does not parse.
   */
  function Rows<T>(lines: seq<string>, cur: nat, bound: int, stop: string -> bool, row: string -> Option<T>): Option<seq<T>>
    requires bound <= |lines|
    decreases bound - cur
  {
    if cur >= bound || stop(lines[cur]) then Some([])
    else
      match row(lines[cur])
      case None => None
      case Some(x) =>
        match Rows(lines, cur + 1, bound, stop, row)
        case None => None
        case Some(rest) => Some([x] + rest)
  }

  /** `acc` followed by the rows of `r`, or None when `r` failed. */
  function Then<T>(acc: seq<T>, r: Option<seq<T>>): Option<seq<T>> {
    match r
    case None => None
    case Some(rest) => Some(acc + rest)
  }

  // ---- parseGeometry -----------------------------------------------------------

  predicate EmptyLine(line: string) {
    line == ""
  }

  /**
   * One row of the geometry table: the element is the second field trimmed and
   * the coordinates are the fourth to sixth fields; a fresh atom is neutral.
   * A row of fewer than two fields is None here, where the source's
   * `lineData.at(1)` is an out-of-range read, which is undefined.
   */
  function GeometryRow(num: Numbers, line: string): (r: Option<Atom>)
    ensures var d := SplitSkipEmpty(line, ' ');
      r.Some? <==> |d| >= 6 && num.toDouble(d[3]).Some? && num.toDouble(d[4]).Some? && num.toDouble(d[5]).Some?
    ensures var d := SplitSkipEmpty(line, ' ');
      r.Some? ==> r.value == Atom(num.toDouble(d[3]).value, num.toDouble(d[4]).value, num.toDouble(d[5]).value, Trim(d[1]), 0)
  {
    var d := SplitSkipEmpty(line, ' ');
    if |d| < 2 then None
    else
      match (DoubleFromList(num, d, 3), DoubleFromList(num, d, 4), DoubleFromList(num, d, 5))
      case (Success(x), Success(y), Success(z)) => Some(Atom(x, y, z, Trim(d[1]), 0))
      case _ => None
  }

  function GeometryRowOf(num: Numbers): string -> Option<Atom> {
    line => GeometryRow(num, line)
  }

  /**
   * A table introduced by a banner line of [start, end): Success(None) when no
   * line there matches `banner`. Otherwise the first line from the banner on
   * that matches `header` (the banner itself when `header` accepts it) must lie
   * before `end`; the rows start `skip` lines below it and are read below
   * `bound`. A missing header or a row that does not parse fails with `error`.
   */
  function BannerTable<T>(lines: seq<string>, start: nat, end: int, bound: int, banner: string -> bool, header: string -> bool,
                          skip: nat, stop: string -> bool, row: string -> Option<T>, error: string): (r: Result<Option<seq<T>>>)
    requires end <= |lines| && bound <= |lines|
    ensures r == Success(None) <==> forall k :: start <= k < end ==> !banner(lines[k])
    ensures r.Failure? ==> r.error == error
  {
    var g := FirstMatch(lines, start, end, banner);
    FirstMatchSkips(lines, start, end, banner);
    if g >= end then Success(None)
    else
      var h := FirstMatch(lines, g, end, header);
      if h >= end then Failure(error)
      else
        match Rows(lines, h + skip, bound, stop, row)
        case None => Failure(error)
        case Some(xs) => Success(Some(xs))
  }

  /**
   * parseGeometry over [start, end) with the table rows read below `bound`:
   * Success(None) when there is no geometry banner (the source returns false),
   * Success(Some(atoms)) with the new atom list, Failure when the column header
   * is missing or a row does not parse. The rows start two lines below the
   * column header and end at the first empty line.
   */
  function Geometry(num: Numbers, lines: seq<string>, start: nat, end: int, bound: int): (r: Result<Option<seq<Atom>>>)
    requires end <= |lines| && bound <= |lines|
    ensures r == Success(None) <==> forall k :: start <= k < end ==> !GeometryHeader(lines[k])
    ensures r.Failure? ==> r.error == GeometryError
  {
    BannerTable(lines, start, end, bound, GeometryHeader, GeometryTableHeader, 2, EmptyLine, GeometryRowOf(num), GeometryError)
  }

  // ---- parseConnectivity -------------------------------------------------------

  /** One row of the internuclear distances table: an order-1 bond between the 1-based atom numbers of the first two cells. */
  function BondRow(num: Numbers, line: string): (r: Option<Bond>)
    ensures var c := Split(line, '|');
      r.Some? <==> |c| >= 2 && IntFromList(num, SplitSkipEmpty(c[0], ' '), 0).Success? && IntFromList(num, SplitSkipEmpty(c[1], ' '), 0).Success?
    ensures var c := Split(line, '|');
      r.Some? ==> r.value == Bond(IntFromList(num, SplitSkipEmpty(c[0], ' '), 0).value - 1, IntFromList(num, SplitSkipEmpty(c[1], ' '), 0).value - 1, 1)
  {
    var c := Split(line, '|');
    if |c| < 2 then None
    else
      match (IntFromList(num, SplitSkipEmpty(c[0], ' '), 0), IntFromList(num, SplitSkipEmpty(c[1], ' '), 0))
      case (Success(f), Success(t)) => Some(Bond(f - 1, t - 1, 1))
      case _ => None
  }

  function BondRowOf(num: Numbers): string -> Option<Bond> {
    line => BondRow(num, line)
  }

  /**
   * parseConnectivity over [start, end) with the rows read below `bound`:
   * Success(None) without an "internuclear distances" banner, otherwise the
   * bonds of the table, which starts four lines below the banner and ends at a
   * separator line. The banner is its own header line here.
   */
  function Connectivity(num: Numbers, lines: seq<string>, start: nat, end: int, bound: int): (r: Result<Option<seq<Bond>>>)
    requires end <= |lines| && bound <= |lines|
    ensures r == Success(None) <==> forall k :: start <= k < end ==> !InternuclearHeader(lines[k])
    ensures r.Failure? ==> r.error == ConnectivityError
  {
    BannerTable(lines, start, end, bound, InternuclearHeader, InternuclearHeader, 4, SeparatorLine, BondRowOf(num), ConnectivityError)
  }

  /** The molecule after parseConnectivity as written: the new bonds follow the existing ones. */
  function AppendBonds(mol: Mol, bonds: seq<Bond>): Mol {
    mol.(bonds := mol.bonds + bonds)
  }

  /** The molecule after a connectivity table when the table replaces the bond list. */
  function ReplaceBonds(mol: Mol, bonds: seq<Bond>): Mol {
    mol.(bonds := bonds)
  }

  // ---- parseOrbitals -----------------------------------------------------------

  predicate IsOrbitalHeader(line: string) {
    OrbitalAnalysisHeader(line).Some?
  }

  predicate IsOrbitalEntry(line: string) {
    OrbitalEntry(line).Some?
  }

  /** The id suffix of an orbital channel: "a" for Alpha, "b" for Beta, none without a channel. */
  function ChannelSuffix(channel: string): (r: Result<string>)
    ensures r.Failure? <==> channel !in {"", "Alpha", "Beta"}
    ensures r.Failure? ==> r.error == UnknownOrbital + channel
  {
    if channel == "Alpha" then Success("a")
    else if channel == "Beta" then Success("b")
    else if channel != "" then Failure(UnknownOrbital + channel)
    else Success("")
  }

  /** A Fortran exponent ('D' or 'E') written as 'e'. */
  function Exponent(s: string): (r: string)
    ensures |r| == |s| && 'D' !in r && 'E' !in r
  {
    ReplaceChar(ReplaceChar(s, 'D', 'e'), 'E', 'e')
  }

  /** One orbital entry: the id is the vector number followed by the channel suffix. */
  function OrbitalFromEntry(num: Numbers, e: EntryGroups, suffix: string): (r: Result<Orbital>)
    ensures r.Success? <==> num.toInt(e.vector).Some? && num.toDouble(Exponent(e.occupancy)).Some? && num.toDouble(Exponent(e.energy)).Some?
    ensures r.Success? ==> r.value == Orbital(IntToString(num.toInt(e.vector).value) + suffix,
      num.toDouble(Exponent(e.occupancy)).value, num.toDouble(Exponent(e.energy)).value, e.symmetry)
  {
    var v :- ToIntOrThrow(num, e.vector);
    var occupancy :- ToDoubleOrThrow(num, Exponent(e.occupancy));
    var energy :- ToDoubleOrThrow(num, Exponent(e.energy));
    Success(Orbital(IntToString(v) + suffix, occupancy, energy, e.symmetry))
  }

  /** The entries matching `matches` in [cur, end), in order, each converted by `entry`; the first conversion error ends the scan. */
  function Entries<T>(lines: seq<string>, cur: nat, end: int, matches: string -> bool, entry: string -> Result<T>): Result<seq<T>>
    requires end <= |lines|
    decreases end - cur
  {
    var e := FirstMatch(lines, cur, end, matches);
    if e >= end then Success([])
    else
      var x :- entry(lines[e]);
      var rest :- Entries(lines, e + 1, end, matches, entry);
      Success([x] + rest)
  }

  /** The orbital of an entry line, its id suffixed by the channel suffix. */
  function OrbitalFromLine(num: Numbers, suffix: string, line: string): Result<Orbital> {
    match OrbitalEntry(line)
    case None => Failure("not an orbital entry")
    case Some(e) => OrbitalFromEntry(num, e, suffix)
  }

  function OrbitalFromLineOf(num: Numbers, suffix: string): string -> Result<Orbital> {
    line => OrbitalFromLine(num, suffix, line)
  }

  /** The orbital entries in [cur, blockEnd), each found by nextMatch from just after the previous one. */
  function OrbitalEntries(num: Numbers, lines: seq<string>, cur: nat, blockEnd: int, suffix: string): Result<seq<Orbital>>
    requires blockEnd <= |lines|
  {
    Entries(lines, cur, blockEnd, IsOrbitalEntry, OrbitalFromLineOf(num, suffix))
  }

  /** The channel an analysis header names, "" when the line is not one. */
  function HeaderChannel(line: string): string {
    match OrbitalAnalysisHeader(line)
    case Some(name) => name
    case None => ""
  }

  /** The orbital of an entry line under a channel suffix. */
  function OrbitalReader(num: Numbers): string -> string -> Result<Orbital> {
    suffix => OrbitalFromLineOf(num, suffix)
  }

  /**
   * The analysis blocks from `cur` on, for a header test, the channel a header
   * names, an entry test and the reading of an entry under a channel suffix:
   * the entries of every block in order and the channel of the last header
   * (`channel` when there is none). A block runs from its header to the line
   * after the next two empty lines; an unknown channel or an entry that does
   * not convert fails the whole scan.
   */
  function AnalysisBlocks<T>(lines: seq<string>, cur: nat, end: int, channel: string, isHeader: string -> bool,
                             channelOf: string -> string, isEntry: string -> bool, read: string -> string -> Result<T>): Result<(seq<T>, string)>
    requires end <= |lines|
    decreases |lines| - cur
  {
    var h := FirstMatch(lines, cur, end, isHeader);
    if h >= end then Success(([], channel))
    else
      var name := channelOf(lines[h]);
      var suffix :- ChannelSuffix(name);
      var blockEnd := LineAfterNewlines(lines, h, 2);
      var entries :- Entries(lines, h, blockEnd, isEntry, read(suffix));
      var rest :- AnalysisBlocks(lines, blockEnd, end, name, isHeader, channelOf, isEntry, read);
      Success((entries + rest.0, rest.1))
  }

  /** The orbital analysis blocks from `cur` on: their orbitals in order and the channel of the last header. */
  function OrbitalBlocks(num: Numbers, lines: seq<string>, cur: nat, end: int, channel: string): Result<(seq<Orbital>, string)>
    requires end <= |lines|
  {
    AnalysisBlocks(lines, cur, end, channel, IsOrbitalHeader, HeaderChannel, IsOrbitalEntry, OrbitalReader(num))
  }

  /** Orbitals in ascending energy order. */
  predicate ByEnergy(s: seq<Orbital>) {
    forall i, j :: 0 <= i < j < |s| ==> s[i].energy <= s[j].energy
  }

  /** `o` placed before the first orbital whose energy is not below its own. */
  function InsertByEnergy(o: Orbital, s: seq<Orbital>): seq<Orbital> {
    if s == [] || o.energy <= s[0].energy then [o] + s
    else [s[0]] + InsertByEnergy(o, s[1..])
  }

  /** The std::sort by energy, as an insertion sort that keeps equal energies in input order. */
  function SortByEnergy(s: seq<Orbital>): seq<Orbital> {
    if s == [] then [] else InsertByEnergy(s[0], SortByEnergy(s[1..]))
  }

  /**
   * parseOrbitals over [start, end): the new orbital list, sorted by energy when
   * the last header named a channel, or None (the source returns false) when a
   * conversion fails, a channel is unknown or no orbital was read.
   */
  function Orbitals(num: Numbers, lines: seq<string>, start: nat, end: int): Option<seq<Orbital>>
    requires end <= |lines|
  {
    match OrbitalBlocks(num, lines, start, end, "")
    case Failure(_) => None
    case Success(found) =>
      var sorted := if found.1 != "" then SortByEnergy(found.0) else found.0;
      if sorted == [] then None else Some(sorted)
  }

  // ---- parseEnergySection --------------------------------------------------------

  function SetProp(doc: Doc, key: string, value: string): Doc {
    doc.(props := doc.props[key := value])
  }

  /**
   * The lines of a " solvent parameters" block from `j` on: the solvent name and
   * dielectric it stores, and the line where the block stopped (the first empty
   * line or the line after the section's end). In the last section that line is
   * one past the buffer, which the source reads out of range (undefined); the
   * model stops at the end of the buffer instead.
   */
  function Solvent(num: Numbers, lines: seq<string>, j: nat, endLine: int, doc: Doc): (r: (Doc, nat))
    requires endLine <= |lines|
    ensures j <= r.1
    ensures r.0.molecule == doc.molecule && r.0.orbitals == doc.orbitals && r.0.frequencies == doc.frequencies
    decreases |lines| - j
  {
    if j > endLine || j >= |lines| || lines[j] == "" then (doc, j)
    else
      var line := lines[j];
      var doc' :=
        if SolventNameLine(line).Some? then
          var s := SolventNameLine(line).value;
          if s == "" then doc else SetProp(doc, SolventKey, s)
        else if DielectricLine(line).Some? then
          var s := DielectricLine(line).value;
          if num.toDouble(s).Some? then SetProp(doc, DielectricKey, s) else doc
        else doc;
      Solvent(num, lines, j + 1, endLine, doc')
  }

  /** What one line of an energy section is, tested in the order parseEnergySection tests it. */
  datatype EnergyItem =
    | ChargeItem(text: string)
    | SpinItem(text: string)
    | EnergyValue(text: string)
    | GeometryItem
    | OrbitalsItem
    | SolventItem
    | OtherLine

  function EnergyItemOf(line: string, dft: bool): EnergyItem {
    if ChargeLine(line).Some? then ChargeItem(ChargeLine(line).value)
    else if SpinLine(line).Some? then SpinItem(SpinLine(line).value)
    else if EnergyLine(line, dft).Some? then EnergyValue(EnergyLine(line, dft).value)
    else if GeometryHeader(line) then GeometryItem
    else if AlphaOrbitalHeader(line) then OrbitalsItem
    else if StartsWith(line, " solvent parameters") then SolventItem
    else OtherLine
  }

  /**
   * One line of the loop of parseEnergySection, classified as `item`: the
   * document after it and the next line to read, or the message it throws.
   * Geometry rows end at the section end, the corrected bound; the source reads
   * them up to the buffer end (GeometryReadsPastSection).
   */
  function EnergyStep(num: Numbers, lines: seq<string>, i: nat, endLine: int, item: EnergyItem, dft: bool, doc: Doc): (r: (Doc, Result<int>))
    requires i < endLine <= |lines|
    ensures r.1.Success? ==> i < r.1.value
    ensures r.1.Failure? ==> r.0 == doc && r.1.error == GeometryError
    ensures r.0.frequencies == doc.frequencies
  {
    match item
    case ChargeItem(s) => (if num.toInt(s).Some? then SetProp(doc, ChargeKey, s) else doc, Success(i + 1))
    case SpinItem(s) => (if num.toInt(s).Some? then SetProp(doc, SpinKey, s) else doc, Success(i + 1))
    case EnergyValue(s) =>
      var key := if dft then DftEnergyKey else ScfEnergyKey;
      (if num.toDouble(s).Some? then SetProp(doc, key, s) else doc, Success(i + 1))
    case GeometryItem =>
      (match Geometry(num, lines, i, endLine, endLine)
       case Failure(e) => (doc, Failure(e))
       case Success(g) => (if g.Some? then doc.(molecule := doc.molecule.(atoms := g.value)) else doc, Success(i + 1)))
    case OrbitalsItem =>
      var o := Orbitals(num, lines, i, endLine);
      (if o.Some? then doc.(orbitals := o.value) else doc, Success(i + 1))
    case SolventItem =>
      var r := Solvent(num, lines, i + 1, endLine, doc);
      (r.0, Success(r.1 + 1))
    case OtherLine => (doc, Success(i + 1))
  }

  /** The loop of parseEnergySection from line `i`: the properties, geometry and orbitals it stores, or what it throws. */
  function EnergyLines(num: Numbers, lines: seq<string>, i: nat, endLine: int, dft: bool, doc: Doc): (Doc, Outcome)
    requires endLine <= |lines|
    decreases |lines| - i
  {
    if i >= endLine then (doc, Done)
    else
      var step := EnergyStep(num, lines, i, endLine, EnergyItemOf(lines[i], dft), dft, doc);
      match step.1
      case Failure(e) => (step.0, Thrown(e))
      case Success(next) => if next < 0 then (step.0, Done) else EnergyLines(num, lines, next, endLine, dft, step.0)
  }

  /** parseEnergySection: the energy key of the other method is removed, then the section's lines are read. */
  function EnergySection(num: Numbers, lines: seq<string>, sections: seq<SectionInfo>, idx: nat, doc: Doc): (Doc, Outcome)
    requires StartsIn(lines, sections) && idx < |sections|
  {
    var dft := sections[idx].kind == ModuleDFT;
    var cleared := doc.(props := doc.props - {if dft then ScfEnergyKey else DftEnergyKey});
    EnergyLines(num, lines, sections[idx].start, SectionEnd(lines, sections, idx), dft, cleared)
  }

  // ---- parseInputSection -------------------------------------------------------

  /**
   * parseInputSection: the geometry, then the connectivity of the section, in
   * the corrected forms: rows end at the section end and bonds are replaced,
   * where the source reads to the buffer end and appends.
   */
  function InputSection(num: Numbers, lines: seq<string>, sections: seq<SectionInfo>, idx: nat, doc: Doc): (r: (Doc, Outcome))
    requires StartsIn(lines, sections) && idx < |sections|
    ensures r.0.props == doc.props && r.0.orbitals == doc.orbitals && r.0.frequencies == doc.frequencies
    ensures r.1.Thrown? ==> r.0.molecule.bonds == doc.molecule.bonds
    ensures r.1.Thrown? ==> r.1.message in {GeometryError, ConnectivityError}
  {
    var start := sections[idx].start;
    var endLine := SectionEnd(lines, sections, idx);
    match Geometry(num, lines, start, endLine, endLine)
    case Failure(e) => (doc, Thrown(e))
    case Success(g) =>
      var doc' := if g.Some? then doc.(molecule := doc.molecule.(atoms := g.value)) else doc;
      match Connectivity(num, lines, start, endLine, endLine)
      case Failure(e) => (doc', Thrown(e))
      case Success(b) => (if b.Some? then doc'.(molecule := ReplaceBonds(doc'.molecule, b.value)) else doc', Done)
  }

  // ---- parseGradientSection ----------------------------------------------------

  predicate StepLine(line: string) {
    StartsWith(line, "@")
  }

  /** The optimisation-step lines ("@" first) in [i, end), in order. */
  function StepLines(lines: seq<string>, i: nat, end: int): (r: seq<string>)
    requires end <= |lines|
    ensures forall k :: 0 <= k < |r| ==> StepLine(r[k])
    decreases end - i
  {
    if i >= end then []
    else (if StepLine(lines[i]) then [lines[i]] else []) + StepLines(lines, i + 1, end)
  }

  // ---- parseFrequencySection ---------------------------------------------------

  /** The properties after a step of the thermochemistry scan, and the line it matched or what it throws. */
  datatype Stage = Stage(props: map<string, string>, next: Result<nat>)

  /** The lines a pattern matches. */
  function Found<T>(pattern: string -> Option<T>): string -> bool {
    line => pattern(line).Some?
  }

  /** QMap::value: the stored text, or "" for a missing key. */
  function PropOr(props: map<string, string>, key: string): string {
    if key in props then props[key] else ""
  }

  /** The temperature search: its text is stored only when it converts to a double. */
  function TemperatureStage(num: Numbers, lines: seq<string>, cur: nat, end: int, props: map<string, string>, pattern: string -> Option<string>): (r: Stage)
    requires end <= |lines|
    ensures Extends(props, r.props)
  {
    var t := FirstMatch(lines, cur, end, Found(pattern));
    if t >= end then Stage(props, Failure(MissingTemperature))
    else
      var s := pattern(lines[t]).value;
      Stage(if num.toDouble(s).Some? then props[TemperatureKey := s] else props, Success(t))
  }

  /** (total energy + thermal correction) in kcal/mol, from the SCF energy or else the DFT energy. */
  function Enthalpy(num: Numbers, props: map<string, string>, correction: real): Option<real> {
    var scf := PropOr(props, ScfEnergyKey);
    var total := if scf == "" then PropOr(props, DftEnergyKey) else scf;
    if total == "" || num.toDouble(total).None? then None
    else Some((num.toDouble(total).value + correction) * KcalPerHartree)
  }

  /** The enthalpy search: the correction in au (second capture) is added to the stored total energy, when both convert. */
  function EnthalpyStage(num: Numbers, format: real -> string, lines: seq<string>, cur: nat, end: int, props: map<string, string>,
                         pattern: string -> Option<(string, string)>): (r: Stage)
    requires end <= |lines|
    ensures Extends(props, r.props)
  {
    var t := FirstMatch(lines, cur, end, Found(pattern));
    if t >= end then Stage(props, Failure(MissingEnthalpy))
    else
      var au := pattern(lines[t]).value.1;
      var h := if num.toDouble(au).Some? then Enthalpy(num, props, num.toDouble(au).value) else None;
      Stage(if h.Some? then props[EnthalpyKey := format(h.value)] else props, Success(t))
  }

  /** The entropy and heat capacity searches: the captured text is stored under `key` as it stands. */
  function StoreStage(lines: seq<string>, cur: nat, end: int, props: map<string, string>, pattern: string -> Option<string>,
                      key: string, missing: string): (r: Stage)
    requires end <= |lines|
    ensures IsThermoKey(key) ==> Extends(props, r.props)
  {
    var t := FirstMatch(lines, cur, end, Found(pattern));
    if t >= end then Stage(props, Failure(missing))
    else Stage(props[key := pattern(lines[t]).value], Success(t))
  }

  /** G = H - T*S, with H in kcal/mol, S in cal/mol-K and T in K. */
  function GibbsEnergy(temperature: real, enthalpy: real, entropy: real): real {
    enthalpy - temperature * entropy / 1000.0
  }

  /** H - T*S/1000 from the stored texts when all three are present; a text that does not convert throws. */
  function GibbsStage(num: Numbers, format: real -> string, props: map<string, string>): Result<map<string, string>> {
    if TemperatureKey in props && EnthalpyKey in props && EntropyKey in props then
      var t :- ToDoubleOrThrow(num, props[TemperatureKey]);
      var h :- ToDoubleOrThrow(num, props[EnthalpyKey]);
      var s :- ToDoubleOrThrow(num, props[EntropyKey]);
      Success(props[GibbsKey := format(GibbsEnergy(t, h, s))])
    else Success(props)
  }

  /** The four searches of the thermochemistry part, over any line patterns. */
  function ThermoWith(num: Numbers, format: real -> string, lines: seq<string>, cur: nat, end: int, props: map<string, string>,
                      temperature: string -> Option<string>, enthalpy: string -> Option<(string, string)>,
                      entropy: string -> Option<string>, heatCapacity: string -> Option<string>): Stage
    requires end <= |lines|
  {
    var a := TemperatureStage(num, lines, cur, end, props, temperature);
    if a.next.Failure? then a
    else
      var b := EnthalpyStage(num, format, lines, a.next.value, end, a.props, enthalpy);
      if b.next.Failure? then b
      else
        var c := StoreStage(lines, b.next.value, end, b.props, entropy, EntropyKey, MissingEntropy);
        if c.next.Failure? then c
        else
          var d := StoreStage(lines, c.next.value, end, c.props, heatCapacity, HeatCapacityKey, MissingHeatCapacity);
          if d.next.Failure? then d
          else
            match GibbsStage(num, format, d.props)
            case Failure(e) => Stage(d.props, Failure(e))
            case Success(p) => Stage(p, d.next)
  }

  /** The thermochemistry part of parseFrequencySection, each search starting on the line the previous one matched. */
  function Thermo(num: Numbers, format: real -> string, lines: seq<string>, cur: nat, end: int, props: map<string, string>): Stage
    requires end <= |lines|
  {
    ThermoWith(num, format, lines, cur, end, props, TemperatureLine, EnthalpyLine, EntropyLine, HeatCapacityLine)
  }

  /** The temperature search fails exactly when no line from `cur` matches; otherwise it stops at the first match. */
  lemma TemperatureStageFinds(num: Numbers, lines: seq<string>, cur: nat, end: int, props: map<string, string>, pattern: string -> Option<string>)
    requires end <= |lines|
    ensures var r := TemperatureStage(num, lines, cur, end, props, pattern);
      (r.next.Failure? <==> forall k :: cur <= k < end ==> pattern(lines[k]).None?) &&
      (r.next.Failure? ==> r.props == props && r.next.error == MissingTemperature) &&
      (r.next.Success? ==>
        cur <= r.next.value < end && pattern(lines[r.next.value]).Some? &&
        forall k :: cur <= k < r.next.value ==> pattern(lines[k]).None?)
  {
    var t := FirstMatch(lines, cur, end, Found(pattern));
    FirstMatchSkips(lines, cur, end, Found(pattern));
    if t < end {
      assert Found(pattern)(lines[t]);
    }
    forall k | cur <= k < t && k < end
      ensures pattern(lines[k]).None?
    {
      assert !Found(pattern)(lines[k]);
    }
  }

  /** The enthalpy search fails exactly when no line from `cur` matches; otherwise it stops at the first match. */
  lemma EnthalpyStageFinds(num: Numbers, format: real -> string, lines: seq<string>, cur: nat, end: int, props: map<string, string>,
                           pattern: string -> Option<(string, string)>)
    requires end <= |lines|
    ensures var r := EnthalpyStage(num, format, lines, cur, end, props, pattern);
      (r.next.Failure? <==> forall k :: cur <= k < end ==> pattern(lines[k]).None?) &&
      (r.next.Failure? ==> r.props == props && r.next.error == MissingEnthalpy) &&
      (r.next.Success? ==>
        cur <= r.next.value < end && pattern(lines[r.next.value]).Some? &&
        forall k :: cur <= k < r.next.value ==> pattern(lines[k]).None?)
  {
    var t := FirstMatch(lines, cur, end, Found(pattern));
    FirstMatchSkips(lines, cur, end, Found(pattern));
    if t < end {
      assert Found(pattern)(lines[t]);
    }
    forall k | cur <= k < t && k < end
      ensures pattern(lines[k]).None?
    {
      assert !Found(pattern)(lines[k]);
    }
  }

  /**
   * The entropy and heat capacity searches fail with their own message exactly
   * when no line from `cur` matches; otherwise they store the first match's text.
   */
  lemma StoreStageFinds(lines: seq<string>, cur: nat, end: int, props: map<string, string>, pattern: string -> Option<string>,
                        key: string, missing: string)
    requires end <= |lines|
    ensures var r := StoreStage(lines, cur, end, props, pattern, key, missing);
      (r.next.Failure? <==> forall k :: cur <= k < end ==> pattern(lines[k]).None?) &&
      (r.next.Failure? ==> r.props == props && r.next.error == missing) &&
      (r.next.Success? ==>
        cur <= r.next.value < end && pattern(lines[r.next.value]).Some? &&
        r.props == props[key := pattern(lines[r.next.value]).value] &&
        forall k :: cur <= k < r.next.value ==> pattern(lines[k]).None?)
  {
    var t := FirstMatch(lines, cur, end, Found(pattern));
    FirstMatchSkips(lines, cur, end, Found(pattern));
    if t < end {
      assert Found(pattern)(lines[t]);
    }
    forall k | cur <= k < t && k < end
      ensures pattern(lines[k]).None?
    {
      assert !Found(pattern)(lines[k]);
    }
  }

  /** The five properties the thermochemistry part may write. */
  predicate IsThermoKey(key: string) {
    key == TemperatureKey || key == EnthalpyKey || key == EntropyKey || key == HeatCapacityKey || key == GibbsKey
  }

  /** `next` keeps every key of `prev`, and its value unless it is a thermochemistry key. */
  predicate Extends(prev: map<string, string>, next: map<string, string>) {
    prev.Keys <= next.Keys && forall key :: key in prev && !IsThermoKey(key) ==> next[key] == prev[key]
  }

  /** The thermochemistry part writes only its own five properties and removes none. */
  lemma ThermoKeeps(num: Numbers, format: real -> string, lines: seq<string>, cur: nat, end: int, props: map<string, string>,
                    temperature: string -> Option<string>, enthalpy: string -> Option<(string, string)>,
                    entropy: string -> Option<string>, heatCapacity: string -> Option<string>)
    requires end <= |lines|
    ensures Extends(props, ThermoWith(num, format, lines, cur, end, props, temperature, enthalpy, entropy, heatCapacity).props)
  {
    var a := TemperatureStage(num, lines, cur, end, props, temperature);
    if a.next.Success? {
      var b := EnthalpyStage(num, format, lines, a.next.value, end, a.props, enthalpy);
      if b.next.Success? {
        var c := StoreStage(lines, b.next.value, end, b.props, entropy, EntropyKey, MissingEntropy);
        if c.next.Success? {
          var d := StoreStage(lines, c.next.value, end, c.props, heatCapacity, HeatCapacityKey, MissingHeatCapacity);
          assert Extends(props, d.props) by {
            assert IsThermoKey(EntropyKey) && IsThermoKey(HeatCapacityKey);
            ExtendsTrans(props, a.props, b.props);
            ExtendsTrans(props, b.props, c.props);
            ExtendsTrans(props, c.props, d.props);
          }
          if d.next.Success? {
            GibbsExtends(num, format, d.props);
            ExtendsTrans(props, d.props, ThermoWith(num, format, lines, cur, end, props, temperature, enthalpy, entropy, heatCapacity).props);
          }
        } else {
          assert IsThermoKey(EntropyKey);
          ExtendsTrans(props, a.props, b.props);
          ExtendsTrans(props, b.props, c.props);
        }
      } else {
        ExtendsTrans(props, a.props, b.props);
      }
    }
  }

  lemma ExtendsTrans(a: map<string, string>, b: map<string, string>, c: map<string, string>)
    requires Extends(a, b) && Extends(b, c)
    ensures Extends(a, c)
  {
  }

  lemma GibbsExtends(num: Numbers, format: real -> string, props: map<string, string>)
    ensures GibbsStage(num, format, props).Success? ==> Extends(props, GibbsStage(num, format, props).value)
  {
  }

  /** The doubles of fields `i` onwards of an eigenvector row; the first that does not convert throws. */
  function RowValues(num: Numbers, v: seq<string>, i: nat): Result<seq<real>>
    decreases |v| - i
  {
    if i >= |v| then Success([])
    else
      var x :- DoubleFromList(num, v, i);
      var rest :- RowValues(num, v, i + 1);
      Success([x] + rest)
  }

  /**
   * The rows of one eigenvector block from line `cur`: row `rowIdx` must be
   * numbered rowIdx + 1 and its values extend component row `rowIdx`. Returns the
   * component rows and the line that ended the block.
   */
  function EigenRows(num: Numbers, lines: seq<string>, cur: nat, blockEnd: int, eigen: seq<seq<real>>, rowIdx: nat): (r: Result<(seq<seq<real>>, int)>)
    requires blockEnd <= |lines| && rowIdx <= |eigen|
    ensures r.Success? ==> cur <= r.value.1 && |eigen| <= |r.value.0|
    ensures r.Success? ==> r.value.1 == cur || r.value.1 <= blockEnd
    decreases blockEnd - cur
  {
    if cur >= blockEnd || lines[cur] == "" then Success((eigen, cur))
    else
      var v := SplitSkipEmpty(lines[cur], ' ');
      var n :- IntFromList(num, v, 0);
      if n != rowIdx + 1 then Failure(BadEigenRow + IntToString(rowIdx))
      else
        var values :- RowValues(num, v, 1);
        EigenRows(num, lines, cur + 1, blockEnd, Extend(eigen, rowIdx, values), rowIdx + 1)
  }

  /** Component row `rowIdx` (appended when it is new) followed by `values`. */
  function Extend(eigen: seq<seq<real>>, rowIdx: nat, values: seq<real>): (r: seq<seq<real>>)
    requires rowIdx <= |eigen|
    ensures |r| == if rowIdx < |eigen| then |eigen| else |eigen| + 1
  {
    var grown := if rowIdx >= |eigen| then eigen + [[]] else eigen;
    grown[rowIdx := grown[rowIdx] + values]
  }

  /**
   * The block loop of the eigenvector section from line `cur` (the header, then
   * each block's last row): skip to the next "P.Frequency" line, read the block
   * two lines below it, and require a multiple of three component rows.
   * Returns the component rows and the line where the scan stopped.
   */
  function EigenBlocks(num: Numbers, lines: seq<string>, cur: nat, blockEnd: int, eigen: seq<seq<real>>, freqLine: string -> bool): (r: Result<(seq<seq<real>>, int)>)
    requires blockEnd <= |lines| && |eigen| % 3 == 0
    ensures r.Success? ==> |r.value.0| % 3 == 0 && cur <= r.value.1
    decreases blockEnd - cur
  {
    if cur >= blockEnd then Success((eigen, cur + 1))
    else
      var f := FirstMatch(lines, cur + 1, blockEnd, freqLine) + 2;
      if f >= blockEnd then Success((eigen, f))
      else
        var block :- EigenRows(num, lines, f, blockEnd, eigen, 0);
        if |block.0| % 3 != 0 then Failure(ComponentsNotTriples)
        else EigenBlocks(num, lines, block.1, blockEnd, block.0, freqLine)
  }

  /** The IR table rows from `cur`: wave number from field 1 and intensity from field 6, up to a " ---" line. */
  function IrRows(num: Numbers, lines: seq<string>, cur: nat, end: int): Result<seq<(real, real)>>
    requires end <= |lines|
    decreases end - cur
  {
    if cur >= end || StartsWith(lines[cur], " ---") then Success([])
    else
      var v := SplitSkipEmpty(lines[cur], ' ');
      var wavenum :- DoubleFromList(num, v, 1);
      var intensity :- DoubleFromList(num, v, 6);
      var rest :- IrRows(num, lines, cur + 1, end);
      Success([(wavenum, intensity)] + rest)
  }

  /** Column `i` of the component rows, three rows (x, y, z of one atom) per vector. */
  function ModeVectors(eigen: seq<seq<real>>, i: nat): Option<seq<Vec3>>
    requires |eigen| % 3 == 0
    decreases |eigen|
  {
    if |eigen| == 0 then Some([])
    else if i >= |eigen[0]| || i >= |eigen[1]| || i >= |eigen[2]| then None
    else
      match ModeVectors(eigen[3..], i)
      case None => None
      case Some(rest) => Some([Vec3(eigen[0][i], eigen[1][i], eigen[2][i])] + rest)
  }

  /** Column `i` exists exactly when every component row reaches it. */
  lemma {:induction false} ModeVectorsExist(eigen: seq<seq<real>>, i: nat)
    requires |eigen| % 3 == 0
    ensures ModeVectors(eigen, i).None? <==> exists row :: 0 <= row < |eigen| && i >= |eigen[row]|
    decreases |eigen|
  {
    if |eigen| > 0 && !(i >= |eigen[0]| || i >= |eigen[1]| || i >= |eigen[2]|) {
      var rest := eigen[3..];
      ModeVectorsExist(rest, i);
      if ModeVectors(eigen, i).None? {
        var row :| 0 <= row < |rest| && i >= |rest[row]|;
        assert i >= |eigen[row + 3]|;
      } else {
        forall row | 0 <= row < |eigen|
          ensures i < |eigen[row]|
        {
          if row >= 3 {
            assert eigen[row] == rest[row - 3];
          }
        }
      }
    }
  }

  /** The vector of atom k in column `i` is (x, y, z) from component rows 3k, 3k + 1 and 3k + 2. */
  lemma {:induction false} ModeVectorsColumn(eigen: seq<seq<real>>, i: nat)
    requires |eigen| % 3 == 0 && ModeVectors(eigen, i).Some?
    ensures var r := ModeVectors(eigen, i).value;
      3 * |r| == |eigen| && (forall row :: 0 <= row < |eigen| ==> i < |eigen[row]|) &&
      forall k :: 0 <= k < |r| ==> r[k] == Vec3(eigen[3 * k][i], eigen[3 * k + 1][i], eigen[3 * k + 2][i])
    decreases |eigen|
  {
    ModeVectorsExist(eigen, i);
    if |eigen| > 0 {
      var rest := eigen[3..];
      ModeVectorsColumn(rest, i);
      var r := ModeVectors(eigen, i).value;
      forall k | 0 <= k < |r|
        ensures r[k] == Vec3(eigen[3 * k][i], eigen[3 * k + 1][i], eigen[3 * k + 2][i])
      {
        if k > 0 {
          assert r[k] == ModeVectors(rest, i).value[k - 1];
          assert rest[3 * (k - 1)] == eigen[3 * k];
          assert rest[3 * (k - 1) + 1] == eigen[3 * k + 1];
          assert rest[3 * (k - 1) + 2] == eigen[3 * k + 2];
        }
      }
    }
  }

  /**
   * The failure the model gives where a component row is too short for a mode's
   * column. The source indexes `eigenByAtom[j][i]` unchecked there, which is
   * undefined; this message is not the program's.
   */
  const RaggedEigenvectors := "Frequency: eigenvector rows of unequal length"

  /** The frequencies from mode `i` on, each with its column of eigenvectors. */
  function Modes(eigen: seq<seq<real>>, modes: seq<(real, real)>, i: nat): (r: Result<seq<Frequency>>)
    requires |eigen| % 3 == 0 && i <= |modes|
    ensures r.Success? ==> |r.value| == |modes| - i
    ensures r.Success? ==> forall k :: 0 <= k < |r.value| ==>
      r.value[k].wavenum == modes[i + k].0 && r.value[k].intensity == modes[i + k].1 &&
      Some(r.value[k].eigenvector) == ModeVectors(eigen, i + k)
    decreases |modes| - i
  {
    if i >= |modes| then Success([])
    else
      match ModeVectors(eigen, i)
      case None => Failure(RaggedEigenvectors)
      case Some(vs) =>
        var rest :- Modes(eigen, modes, i + 1);
        Success([MolDocuments.Frequency(modes[i].0, modes[i].1, vs)] + rest)
  }

  /** The eigenvector table of parseFrequencySection from line `cur`: its component rows (never none) and the line after it. */
  function EigenTable(num: Numbers, lines: seq<string>, cur: nat, end: int): (r: Result<(seq<seq<real>>, int)>)
    requires end <= |lines|
    ensures r.Success? ==> |r.value.0| % 3 == 0 && r.value.0 != [] && r.value.1 >= 0
  {
    var e := FirstMatch(lines, cur, end, EigenvectorHeader);
    if e >= end then Failure(MissingEigenvectors)
    else
      var blockEnd := LineAfterNewlines(lines, e, 2);
      var blocks :- EigenBlocks(num, lines, e, blockEnd, [], EigenvectorFrequencyLine);
      if blocks.0 == [] then Failure(UnreadEigenvectors)
      else Success(blocks)
  }

  /** The IR table after the eigenvectors, from line `cur`: one frequency per IR row, as many as eigenvector columns. */
  function ModeTable(num: Numbers, lines: seq<string>, eigen: seq<seq<real>>, cur: nat, end: int): Result<seq<Frequency>>
    requires end <= |lines| && |eigen| % 3 == 0 && eigen != []
  {
    var ir := FirstMatch(lines, cur, end, IrHeader);
    if ir >= end then Failure(MissingIr)
    else
      var modes :- IrRows(num, lines, ir + 3, end);
      if |modes| != |eigen[0]| then Failure(ModeCountMismatch)
      else Modes(eigen, modes, 0)
  }

  /** The eigenvector and IR tables of parseFrequencySection from line `cur`: the new frequency list or what it throws. */
  function FrequencyTables(num: Numbers, lines: seq<string>, cur: nat, end: int): Result<seq<Frequency>>
    requires end <= |lines|
  {
    var table :- EigenTable(num, lines, cur, end);
    ModeTable(num, lines, table.0, table.1, end)
  }

  /** parseFrequencySection: properties written before a throw stay written; the frequencies are replaced only on success. */
  function FrequencySection(num: Numbers, format: real -> string, lines: seq<string>, sections: seq<SectionInfo>, idx: nat, doc: Doc): (r: (Doc, Outcome))
    requires StartsIn(lines, sections) && idx < |sections|
    ensures r.0.molecule == doc.molecule && r.0.orbitals == doc.orbitals
    ensures r.1.Thrown? ==> r.0.frequencies == doc.frequencies
  {
    var endLine := SectionEnd(lines, sections, idx);
    var th := Thermo(num, format, lines, sections[idx].start, endLine, doc.props);
    var doc' := doc.(props := th.props);
    match th.next
    case Failure(e) => (doc', Thrown(e))
    case Success(cur) =>
      match FrequencyTables(num, lines, cur, endLine)
      case Failure(e) => (doc', Thrown(e))
      case Success(fs) => (doc'.(frequencies := fs), Done)
  }

  // ---- tasks -------------------------------------------------------------------

  /** The document, the optimisation steps and how the run ended. */
  datatype Run = Run(doc: Doc, steps: seq<string>, outcome: Outcome)

  /** The task types parseGeomEnergyTask handles. */
  predicate IsGeomEnergy(kind: SectionType) {
    kind == ModuleSCF || kind == ModuleDFT || kind == GeometryOpt
  }

  /** Every task names sections that exist; a Frequency task holds at least one section before its end. */
  predicate TasksIn(sections: seq<SectionInfo>, tasks: seq<TaskInfo>) {
    forall a :: 0 <= a < |tasks| ==>
      0 <= tasks[a].section <= tasks[a].end <= |sections| &&
      (tasks[a].kind.Frequency? ==> tasks[a].section < tasks[a].end)
  }

  /** One section of parseGeomEnergyTask: energy and input sections update the document, gradient sections add steps. */
  function GeomEnergyStep(num: Numbers, lines: seq<string>, sections: seq<SectionInfo>, i: nat, doc: Doc, steps: seq<string>): (r: Run)
    requires StartsIn(lines, sections) && i < |sections|
    ensures steps <= r.steps && r.doc.frequencies == doc.frequencies
  {
    var kind := sections[i].kind;
    if kind == ModuleDFT || kind == ModuleSCF then
      EnergySectionFacts(num, lines, sections, i, doc);
      var r := EnergySection(num, lines, sections, i, doc);
      Run(r.0, steps, r.1)
    else if kind == ModuleInput then
      var r := InputSection(num, lines, sections, i, doc);
      Run(r.0, steps, r.1)
    else if kind == GradientDFT || kind == GradientSCF then
      Run(doc, steps + StepLines(lines, sections[i].start, SectionEnd(lines, sections, i)), Done)
    else
      Run(doc, steps, Done)
  }

  /** parseGeomEnergyTask from section `i`: energy, input and gradient sections in order, stopping at the first throw. */
  function GeomEnergyTask(num: Numbers, lines: seq<string>, sections: seq<SectionInfo>, i: nat, end: int, doc: Doc, steps: seq<string>): (r: Run)
    requires StartsIn(lines, sections) && end <= |sections|
    ensures steps <= r.steps && r.doc.frequencies == doc.frequencies
    decreases end - i
  {
    if i >= end then Run(doc, steps, Done)
    else
      var r := GeomEnergyStep(num, lines, sections, i, doc, steps);
      if r.outcome.Thrown? then r else GeomEnergyTask(num, lines, sections, i + 1, end, r.doc, r.steps)
  }

  /** One turn of the loop in parseGeomEnergyTask, as the loop's invariant needs it. */
  lemma GeomEnergyTaskStep(num: Numbers, lines: seq<string>, sections: seq<SectionInfo>, i: nat, next: nat, end: int, doc: Doc, steps: seq<string>)
    requires StartsIn(lines, sections) && i < end <= |sections| && next == i + 1
    ensures var r := GeomEnergyStep(num, lines, sections, i, doc, steps);
      GeomEnergyTask(num, lines, sections, i, end, doc, steps) ==
        if r.outcome.Thrown? then r else GeomEnergyTask(num, lines, sections, next, end, r.doc, r.steps)
  {
  }

  /** The section types that carry a frequency analysis. */
  predicate CarriesFrequencies(kind: SectionType) {
    kind == ModuleCPHF || kind == ModuleDFT || kind == ModuleSCF
  }

  /**
   * parseFrequencyTask as written: the section it reads, if any. It indexes
   * sections[end] unchecked, so it needs end < |sections|.
   */
  function FrequencyTargetAsWritten(sections: seq<SectionInfo>, end: int): (r: Option<int>)
    requires 1 <= end < |sections|
    ensures r.Some? <==> sections[end].kind == Terminate && CarriesFrequencies(sections[end - 1].kind)
    ensures r.Some? ==> r.value == end - 1
  {
    if sections[end].kind != Terminate then None
    else if CarriesFrequencies(sections[end - 1].kind) then Some(end - 1)
    else None
  }

  /** parseFrequencyTask with a task that is still open (end == |sections|) left alone. */
  function FrequencyTarget(sections: seq<SectionInfo>, end: int): (r: Option<int>)
    requires 1 <= end <= |sections|
    ensures r.Some? <==> end < |sections| && sections[end].kind == Terminate && CarriesFrequencies(sections[end - 1].kind)
    ensures r.Some? ==> r.value == end - 1
  {
    if end == |sections| then None else FrequencyTargetAsWritten(sections, end)
  }

  /** parseFrequencyTask: only the section just before the closing Terminate is read. */
  function FrequencyTask(num: Numbers, format: real -> string, lines: seq<string>, sections: seq<SectionInfo>, end: int, doc: Doc): (Doc, Outcome)
    requires StartsIn(lines, sections) && 1 <= end <= |sections|
  {
    match FrequencyTarget(sections, end)
    case Some(idx) => FrequencySection(num, format, lines, sections, idx, doc)
    case None => (doc, Done)
  }

  /** One task of the loop in parse / parseIncremental: geometry and energy tasks read sections [from, geomEnd). */
  function RunTask(num: Numbers, format: real -> string, lines: seq<string>, sections: seq<SectionInfo>, t: TaskInfo,
                   from: nat, geomEnd: int, doc: Doc, steps: seq<string>): Run
    requires StartsIn(lines, sections) && geomEnd <= |sections|
    requires t.kind.Frequency? ==> 1 <= t.end <= |sections|
  {
    if IsGeomEnergy(t.kind) then GeomEnergyTask(num, lines, sections, from, geomEnd, doc, steps)
    else if t.kind.Frequency? then
      var r := FrequencyTask(num, format, lines, sections, t.end, doc);
      Run(r.0, steps, r.1)
    else Run(doc, steps, Done)
  }

  /** The tasks from `k` on, each from its own first section, cut at section `cap`; the first throw ends the run. */
  function RunTasks(num: Numbers, format: real -> string, lines: seq<string>, sections: seq<SectionInfo>, tasks: seq<TaskInfo>,
                    k: nat, cap: int, doc: Doc, steps: seq<string>): Run
    requires StartsIn(lines, sections) && TasksIn(sections, tasks)
    decreases |tasks| - k
  {
    if k >= |tasks| then Run(doc, steps, Done)
    else
      var t := tasks[k];
      var r := RunTask(num, format, lines, sections, t, t.section, Min(t.end, cap), doc, steps);
      if r.outcome.Thrown? then r else RunTasks(num, format, lines, sections, tasks, k + 1, cap, r.doc, r.steps)
  }

  /** One turn of the task loops in parse and parseIncremental, as their invariants need it. */
  lemma RunTasksStep(num: Numbers, format: real -> string, lines: seq<string>, sections: seq<SectionInfo>, tasks: seq<TaskInfo>,
                     k: nat, next: nat, cap: int, doc: Doc, steps: seq<string>)
    requires StartsIn(lines, sections) && TasksIn(sections, tasks) && k < |tasks| && next == k + 1
    ensures var t := tasks[k];
      var r := RunTask(num, format, lines, sections, t, t.section, Min(t.end, cap), doc, steps);
      RunTasks(num, format, lines, sections, tasks, k, cap, doc, steps) ==
        if r.outcome.Thrown? then r else RunTasks(num, format, lines, sections, tasks, next, cap, r.doc, r.steps)
  {
  }

  /**
   * The task loop of parseIncremental: the task that holds section `startSection`
   * is continued from that section, then every later task runs from its own
   * first section; geometry and energy tasks stop before the last section,
   * which may still be incomplete. Without such a task nothing is parsed.
   */
  function IncrementalRun(num: Numbers, format: real -> string, lines: seq<string>, sections: seq<SectionInfo>, tasks: seq<TaskInfo>,
                          startSection: nat, doc: Doc, steps: seq<string>): Run
    requires StartsIn(lines, sections) && TasksIn(sections, tasks) && 1 <= |sections|
  {
    var k := TaskFor(tasks, startSection);
    if k < 0 then Run(doc, steps, Done)
    else
      var t := tasks[k];
      var endSection := |sections| - 1;
      var first := RunTask(num, format, lines, sections, t, startSection, Min(t.end, endSection), doc, steps);
      if first.outcome.Thrown? then first
      else RunTasks(num, format, lines, sections, tasks, k + 1, endSection, first.doc, first.steps)
  }
  /** IncrementalRun with its section bounds and task index named, as parseIncremental computes them. */
  lemma IncrementalRunStart(num: Numbers, format: real -> string, lines: seq<string>, sections: seq<SectionInfo>, tasks: seq<TaskInfo>,
                            startSection: nat, endSection: int, k: int, next: nat, doc: Doc, steps: seq<string>)
    requires StartsIn(lines, sections) && TasksIn(sections, tasks) && 1 <= |sections|
    requires endSection == |sections| - 1 && k == TaskFor(tasks, startSection) && next == k + 1
    ensures k < 0 ==> IncrementalRun(num, format, lines, sections, tasks, startSection, doc, steps) == Run(doc, steps, Done)
    ensures k >= 0 ==>
      var t := tasks[k];
      var first := RunTask(num, format, lines, sections, t, startSection, Min(t.end, endSection), doc, steps);
      IncrementalRun(num, format, lines, sections, tasks, startSection, doc, steps) ==
        if first.outcome.Thrown? then first else RunTasks(num, format, lines, sections, tasks, next, endSection, first.doc, first.steps)
  {
  }


  // ---- lemmas: table rows --------------------------------------------------------

  /** Row k of a parsed table is line cur + k: below the bound, not a stop line, and parsed by `row`. */
  lemma {:induction false} RowsAt<T>(lines: seq<string>, cur: nat, bound: int, stop: string -> bool, row: string -> Option<T>, k: nat)
    requires bound <= |lines| && Rows(lines, cur, bound, stop, row).Some?
    requires k < |Rows(lines, cur, bound, stop, row).value|
    ensures cur + k < bound && !stop(lines[cur + k]) && row(lines[cur + k]) == Some(Rows(lines, cur, bound, stop, row).value[k])
    decreases k
  {
    if k > 0 {
      RowsAt(lines, cur + 1, bound, stop, row, k - 1);
    }
  }

  /** A parsed table ends at a stop line or at the bound. */
  lemma {:induction false} RowsEnd<T>(lines: seq<string>, cur: nat, bound: int, stop: string -> bool, row: string -> Option<T>)
    requires bound <= |lines| && Rows(lines, cur, bound, stop, row).Some?
    ensures var n := cur + |Rows(lines, cur, bound, stop, row).value|; n >= bound || stop(lines[n])
    decreases bound - cur
  {
    if cur < bound && !stop(lines[cur]) {
      RowsEnd(lines, cur + 1, bound, stop, row);
    }
  }

  /** A table read below `bound` depends on the lines before `bound` only. */
  lemma {:induction false} RowsWithinBound<T>(lines: seq<string>, cur: nat, bound: int, stop: string -> bool, row: string -> Option<T>)
    requires 0 <= bound <= |lines|
    ensures Rows(lines, cur, bound, stop, row) == Rows(lines[..bound], cur, bound, stop, row)
    decreases bound - cur
  {
    if cur < bound {
      RowsWithinBound(lines, cur + 1, bound, stop, row);
    }
  }

  /** A search below `end` depends on the lines before `end` only. */
  lemma {:induction false} FirstMatchWithin(lines: seq<string>, idx: nat, end: int, p: string -> bool)
    requires 0 <= end <= |lines|
    ensures FirstMatch(lines, idx, end, p) == FirstMatch(lines[..end], idx, end, p)
    decreases end - idx
  {
    if idx < end {
      FirstMatchWithin(lines, idx + 1, end, p);
    }
  }

  /** A search that starts on a matching line stops there. */
  lemma FirstMatchHere(lines: seq<string>, idx: nat, end: int, p: string -> bool)
    requires idx < end <= |lines| && p(lines[idx])
    ensures FirstMatch(lines, idx, end, p) == idx
  {
  }

  /** With the rows bounded by `end`, a banner table depends on the lines before `end` only. */
  lemma BannerTableWithin<T>(lines: seq<string>, start: nat, end: int, banner: string -> bool, header: string -> bool,
                             skip: nat, stop: string -> bool, row: string -> Option<T>, error: string)
    requires 0 <= end <= |lines|
    ensures BannerTable(lines, start, end, end, banner, header, skip, stop, row, error) ==
            BannerTable(lines[..end], start, end, end, banner, header, skip, stop, row, error)
  {
    var g := FirstMatch(lines, start, end, banner);
    FirstMatchWithin(lines, start, end, banner);
    if g < end {
      FirstMatchWithin(lines, g, end, header);
      var h := FirstMatch(lines, g, end, header);
      if h < end {
        RowsWithinBound(lines, h + skip, end, stop, row);
      }
    }
  }

  /** Entry k of a banner table is parsed from the row `skip + k` lines below its header line. */
  lemma BannerTableRow<T>(lines: seq<string>, start: nat, end: int, bound: int, banner: string -> bool, header: string -> bool,
                          skip: nat, stop: string -> bool, row: string -> Option<T>, error: string, k: nat) returns (at: nat)
    requires end <= |lines| && bound <= |lines|
    requires BannerTable(lines, start, end, bound, banner, header, skip, stop, row, error).Success?
    requires BannerTable(lines, start, end, bound, banner, header, skip, stop, row, error).value.Some?
    requires k < |BannerTable(lines, start, end, bound, banner, header, skip, stop, row, error).value.value|
    ensures at == FirstMatch(lines, FirstMatch(lines, start, end, banner), end, header) + skip + k
    ensures at < bound && !stop(lines[at])
    ensures row(lines[at]) == Some(BannerTable(lines, start, end, bound, banner, header, skip, stop, row, error).value.value[k])
  {
    var h := FirstMatch(lines, FirstMatch(lines, start, end, banner), end, header);
    RowsAt(lines, h + skip, bound, stop, row, k);
    at := h + skip + k;
  }

  /** With the rows bounded by the section end, parseGeometry depends on the section's lines only. */
  lemma GeometryWithinSection(num: Numbers, lines: seq<string>, start: nat, end: int)
    requires 0 <= end <= |lines|
    ensures Geometry(num, lines, start, end, end) == Geometry(num, lines[..end], start, end, end)
  {
    BannerTableWithin(lines, start, end, GeometryHeader, GeometryTableHeader, 2, EmptyLine, GeometryRowOf(num), GeometryError);
  }

  /** With the rows bounded by the section end, parseConnectivity depends on the section's lines only. */
  lemma ConnectivityWithinSection(num: Numbers, lines: seq<string>, start: nat, end: int)
    requires 0 <= end <= |lines|
    ensures Connectivity(num, lines, start, end, end) == Connectivity(num, lines[..end], start, end, end)
  {
    BannerTableWithin(lines, start, end, InternuclearHeader, InternuclearHeader, 4, SeparatorLine, BondRowOf(num), ConnectivityError);
  }

  /** Atom k of a parsed geometry table is row k of the table, two lines below the column header. */
  lemma GeometryAtoms(num: Numbers, lines: seq<string>, start: nat, end: int, bound: int, k: nat) returns (row: nat)
    requires end <= |lines| && bound <= |lines|
    requires Geometry(num, lines, start, end, bound).Success? && Geometry(num, lines, start, end, bound).value.Some?
    requires k < |Geometry(num, lines, start, end, bound).value.value|
    ensures row == FirstMatch(lines, FirstMatch(lines, start, end, GeometryHeader), end, GeometryTableHeader) + 2 + k
    ensures row < bound && lines[row] != ""
    ensures GeometryRow(num, lines[row]) == Some(Geometry(num, lines, start, end, bound).value.value[k])
  {
    row := BannerTableRow(lines, start, end, bound, GeometryHeader, GeometryTableHeader, 2, EmptyLine, GeometryRowOf(num), GeometryError, k);
    assert GeometryRowOf(num)(lines[row]) == GeometryRow(num, lines[row]);
  }

  /** Bond k of a parsed connectivity table is row k, four lines below the banner, with 1-based atom numbers made 0-based. */
  lemma ConnectivityBonds(num: Numbers, lines: seq<string>, start: nat, end: int, bound: int, k: nat) returns (row: nat)
    requires end <= |lines| && bound <= |lines|
    requires Connectivity(num, lines, start, end, bound).Success? && Connectivity(num, lines, start, end, bound).value.Some?
    requires k < |Connectivity(num, lines, start, end, bound).value.value|
    ensures row == FirstMatch(lines, start, end, InternuclearHeader) + 4 + k
    ensures row < bound && !SeparatorLine(lines[row])
    ensures BondRow(num, lines[row]) == Some(Connectivity(num, lines, start, end, bound).value.value[k])
  {
    var c := FirstMatch(lines, start, end, InternuclearHeader);
    FirstMatchHere(lines, c, end, InternuclearHeader);
    row := BannerTableRow(lines, start, end, bound, InternuclearHeader, InternuclearHeader, 4, SeparatorLine, BondRowOf(num), ConnectivityError, k);
    assert BondRowOf(num)(lines[row]) == BondRow(num, lines[row]);
  }

  // ---- lemmas: orbitals ------------------------------------------------------------

  /** Inserting keeps every orbital and adds `o` once. */
  lemma {:induction false} InsertByEnergyPerm(o: Orbital, s: seq<Orbital>)
    ensures multiset(InsertByEnergy(o, s)) == multiset(s) + multiset{o}
    decreases |s|
  {
    if s != [] && o.energy > s[0].energy {
      InsertByEnergyPerm(o, s[1..]);
      assert s == [s[0]] + s[1..];
    }
  }

  /** Inserting into an energy-ordered list keeps it ordered; the new head is `o` or the old head. */
  lemma {:induction false} InsertByEnergySorted(o: Orbital, s: seq<Orbital>)
    requires ByEnergy(s)
    ensures ByEnergy(InsertByEnergy(o, s)) && |InsertByEnergy(o, s)| == |s| + 1
    ensures InsertByEnergy(o, s)[0] == o || InsertByEnergy(o, s)[0] == s[0]
    decreases |s|
  {
    if s != [] && o.energy > s[0].energy {
      var t := InsertByEnergy(o, s[1..]);
      InsertByEnergySorted(o, s[1..]);
      assert s[0].energy <= t[0].energy;
      var r := [s[0]] + t;
      forall i, j | 0 <= i < j < |r|
        ensures r[i].energy <= r[j].energy
      {
        assert r[j] == t[j - 1];
        if i > 0 {
          assert r[i] == t[i - 1];
        } else {
          assert t[0].energy <= t[j - 1].energy;
        }
      }
    }
  }

  /** The energy sort orders the orbitals by energy and keeps every one of them. */
  lemma {:induction false} SortByEnergyFacts(s: seq<Orbital>)
    ensures ByEnergy(SortByEnergy(s)) && multiset(SortByEnergy(s)) == multiset(s)
    decreases |s|
  {
    if s != [] {
      SortByEnergyFacts(s[1..]);
      InsertByEnergyPerm(s[0], SortByEnergy(s[1..]));
      InsertByEnergySorted(s[0], SortByEnergy(s[1..]));
      assert s == [s[0]] + s[1..];
    }
  }

  /** Entry k of a scan is converted from a matching line in the scanned range. */
  lemma {:induction false} EntriesAt<T>(lines: seq<string>, cur: nat, end: int, matches: string -> bool, entry: string -> Result<T>, k: nat) returns (e: nat)
    requires end <= |lines| && Entries(lines, cur, end, matches, entry).Success?
    requires k < |Entries(lines, cur, end, matches, entry).value|
    ensures cur <= e < end && matches(lines[e])
    ensures entry(lines[e]) == Success(Entries(lines, cur, end, matches, entry).value[k])
    decreases end - cur
  {
    var first := FirstMatch(lines, cur, end, matches);
    if k == 0 {
      e := first;
    } else {
      e := EntriesAt(lines, first + 1, end, matches, entry, k - 1);
    }
  }

  /** Orbital k of a block comes from an orbital entry line of the block. */
  lemma OrbitalEntriesFrom(num: Numbers, lines: seq<string>, cur: nat, blockEnd: int, suffix: string, k: nat) returns (e: nat)
    requires blockEnd <= |lines| && OrbitalEntries(num, lines, cur, blockEnd, suffix).Success?
    requires k < |OrbitalEntries(num, lines, cur, blockEnd, suffix).value|
    ensures cur <= e < blockEnd && OrbitalEntry(lines[e]).Some?
    ensures OrbitalFromEntry(num, OrbitalEntry(lines[e]).value, suffix) == Success(OrbitalEntries(num, lines, cur, blockEnd, suffix).value[k])
  {
    e := EntriesAt(lines, cur, blockEnd, IsOrbitalEntry, OrbitalFromLineOf(num, suffix), k);
    assert OrbitalFromLineOf(num, suffix)(lines[e]) == OrbitalFromLine(num, suffix, lines[e]);
  }


  /**
   * The orbital list parseOrbitals stores is non-empty and holds exactly the
   * orbitals read; it is in energy order when the last header named a channel
   * and in reading order otherwise.
   */
  lemma OrbitalsResult(num: Numbers, lines: seq<string>, start: nat, end: int)
    requires end <= |lines| && Orbitals(num, lines, start, end).Some?
    ensures OrbitalBlocks(num, lines, start, end, "").Success?
    ensures var found := OrbitalBlocks(num, lines, start, end, "").value; var r := Orbitals(num, lines, start, end).value;
      |r| > 0 && multiset(r) == multiset(found.0) &&
      (found.1 != "" ==> ByEnergy(r)) && (found.1 == "" ==> r == found.0)
  {
    SortByEnergyFacts(OrbitalBlocks(num, lines, start, end, "").value.0);
  }

  /** A header naming a channel other than Alpha or Beta makes parseOrbitals fail. */
  lemma UnknownChannelFails(num: Numbers, lines: seq<string>, start: nat, end: int)
    requires end <= |lines|
    requires var h := FirstMatch(lines, start, end, IsOrbitalHeader);
      h < end && OrbitalAnalysisHeader(lines[h]).value !in {"", "Alpha", "Beta"}
    ensures Orbitals(num, lines, start, end) == None
  {
  }

  // ---- lemmas: energy sections -----------------------------------------------------

  /** The properties the lines of an energy section may write. */
  function EnergyKeys(dft: bool): set<string> {
    {ChargeKey, SpinKey, if dft then DftEnergyKey else ScfEnergyKey, SolventKey, DielectricKey}
  }

  /** A solvent block writes the solvent name and dielectric and nothing else. */
  lemma {:induction false} SolventKeeps(num: Numbers, lines: seq<string>, j: nat, endLine: int, doc: Doc, key: string)
    requires endLine <= |lines| && key != SolventKey && key != DielectricKey
    ensures var r := Solvent(num, lines, j, endLine, doc).0;
      r.molecule == doc.molecule && r.orbitals == doc.orbitals && r.frequencies == doc.frequencies &&
      (key in r.props <==> key in doc.props) && (key in doc.props ==> r.props[key] == doc.props[key])
    decreases |lines| - j
  {
    if !(j > endLine || j >= |lines| || lines[j] == "") {
      var line := lines[j];
      var doc' :=
        if SolventNameLine(line).Some? then
          var s := SolventNameLine(line).value;
          if s == "" then doc else SetProp(doc, SolventKey, s)
        else if DielectricLine(line).Some? then
          var s := DielectricLine(line).value;
          if num.toDouble(s).Some? then SetProp(doc, DielectricKey, s) else doc
        else doc;
      SolventKeeps(num, lines, j + 1, endLine, doc', key);
    }
  }

  /** One line of an energy section leaves every property outside EnergyKeys as it was. */
  lemma EnergyStepKeeps(num: Numbers, lines: seq<string>, i: nat, endLine: int, item: EnergyItem, dft: bool, doc: Doc, key: string)
    requires i < endLine <= |lines| && key !in EnergyKeys(dft)
    ensures var r := EnergyStep(num, lines, i, endLine, item, dft, doc).0;
      (key in r.props <==> key in doc.props) && (key in doc.props ==> r.props[key] == doc.props[key])
  {
    if item.SolventItem? {
      SolventKeeps(num, lines, i + 1, endLine, doc, key);
    }
  }

  /**
   * The lines of an energy section leave the frequencies and every property
   * outside EnergyKeys as they were.
   */
  lemma {:induction false} EnergyLinesKeep(num: Numbers, lines: seq<string>, i: nat, endLine: int, dft: bool, doc: Doc, key: string)
    requires endLine <= |lines| && key !in EnergyKeys(dft)
    ensures var r := EnergyLines(num, lines, i, endLine, dft, doc).0;
      r.frequencies == doc.frequencies &&
      (key in r.props <==> key in doc.props) && (key in doc.props ==> r.props[key] == doc.props[key])
    decreases |lines| - i
  {
    if i < endLine {
      var item := EnergyItemOf(lines[i], dft);
      var step := EnergyStep(num, lines, i, endLine, item, dft, doc);
      EnergyStepKeeps(num, lines, i, endLine, item, dft, doc, key);
      if step.1.Success? {
        EnergyLinesKeep(num, lines, step.1.value, endLine, dft, step.0, key);
      }
    }
  }

  /** The stored Charge and Spin texts convert to integers. */
  predicate ChargeAndSpinConvert(num: Numbers, props: map<string, string>) {
    (ChargeKey in props ==> num.toInt(props[ChargeKey]).Some?) &&
    (SpinKey in props ==> num.toInt(props[SpinKey]).Some?)
  }

  /** One line of an energy section stores Charge or Spin only when the text converts to an integer. */
  lemma EnergyStepConverts(num: Numbers, lines: seq<string>, i: nat, endLine: int, item: EnergyItem, dft: bool, doc: Doc)
    requires i < endLine <= |lines| && ChargeAndSpinConvert(num, doc.props)
    ensures ChargeAndSpinConvert(num, EnergyStep(num, lines, i, endLine, item, dft, doc).0.props)
  {
    if item.SolventItem? {
      SolventKeeps(num, lines, i + 1, endLine, doc, ChargeKey);
      SolventKeeps(num, lines, i + 1, endLine, doc, SpinKey);
    }
  }

  /** Charge and Spin are stored only when the captured text converts to an integer. */
  lemma {:induction false} EnergyLinesConvert(num: Numbers, lines: seq<string>, i: nat, endLine: int, dft: bool, doc: Doc)
    requires endLine <= |lines| && ChargeAndSpinConvert(num, doc.props)
    ensures ChargeAndSpinConvert(num, EnergyLines(num, lines, i, endLine, dft, doc).0.props)
    decreases |lines| - i
  {
    if i < endLine {
      var item := EnergyItemOf(lines[i], dft);
      var step := EnergyStep(num, lines, i, endLine, item, dft, doc);
      EnergyStepConverts(num, lines, i, endLine, item, dft, doc);
      if step.1.Success? {
        EnergyLinesConvert(num, lines, step.1.value, endLine, dft, step.0);
      }
    }
  }

  /**
   * After parseEnergySection the energy of the other method is gone, the
   * frequencies are untouched, and a stored Charge or Spin converts to an integer.
   */
  lemma EnergySectionFacts(num: Numbers, lines: seq<string>, sections: seq<SectionInfo>, idx: nat, doc: Doc)
    requires StartsIn(lines, sections) && idx < |sections|
    ensures var r := EnergySection(num, lines, sections, idx, doc).0;
      (if sections[idx].kind == ModuleDFT then ScfEnergyKey else DftEnergyKey) !in r.props &&
      r.frequencies == doc.frequencies &&
      (ChargeAndSpinConvert(num, doc.props) ==> ChargeAndSpinConvert(num, r.props))
  {
    var dft := sections[idx].kind == ModuleDFT;
    var other := if dft then ScfEnergyKey else DftEnergyKey;
    var cleared := doc.(props := doc.props - {other});
    EnergyLinesKeep(num, lines, sections[idx].start, SectionEnd(lines, sections, idx), dft, cleared, other);
    if ChargeAndSpinConvert(num, doc.props) {
      EnergyLinesConvert(num, lines, sections[idx].start, SectionEnd(lines, sections, idx), dft, cleared);
    }
  }

  // ---- lemmas: gradients and frequencies -------------------------------------------

  /** Every "@" line of the range is an optimisation step. */
  lemma {:induction false} StepLinesComplete(lines: seq<string>, i: nat, end: int, k: nat)
    requires end <= |lines| && i <= k < end && StepLine(lines[k])
    ensures lines[k] in StepLines(lines, i, end)
    decreases k - i
  {
    if i < k {
      StepLinesComplete(lines, i + 1, end, k);
    }
  }

  /** One row of an eigenvector block: what it throws, or the rows it extends. */
  lemma EigenRowsStep(num: Numbers, lines: seq<string>, cur: nat, blockEnd: int, eigen: seq<seq<real>>, rowIdx: nat)
    requires cur < blockEnd <= |lines| && lines[cur] != "" && rowIdx <= |eigen|
    ensures var n := IntFromList(num, SplitSkipEmpty(lines[cur], ' '), 0);
      n.Failure? ==> EigenRows(num, lines, cur, blockEnd, eigen, rowIdx) == Failure(n.error)
    ensures var n := IntFromList(num, SplitSkipEmpty(lines[cur], ' '), 0);
      n.Success? && n.value != rowIdx + 1 ==>
        EigenRows(num, lines, cur, blockEnd, eigen, rowIdx) == Failure(BadEigenRow + IntToString(rowIdx))
    ensures var v := SplitSkipEmpty(lines[cur], ' ');
      IntFromList(num, v, 0) == Success(rowIdx + 1) && RowValues(num, v, 1).Failure? ==>
        EigenRows(num, lines, cur, blockEnd, eigen, rowIdx) == Failure(RowValues(num, v, 1).error)
    ensures var v := SplitSkipEmpty(lines[cur], ' ');
      IntFromList(num, v, 0) == Success(rowIdx + 1) && RowValues(num, v, 1).Success? ==>
        EigenRows(num, lines, cur, blockEnd, eigen, rowIdx) ==
        EigenRows(num, lines, cur + 1, blockEnd, Extend(eigen, rowIdx, RowValues(num, v, 1).value), rowIdx + 1)
  {
  }

  /** Row k of an eigenvector block is numbered rowIdx + k + 1. */
  lemma {:induction false} EigenRowsNumbered(num: Numbers, lines: seq<string>, cur: nat, blockEnd: int, eigen: seq<seq<real>>, rowIdx: nat, k: nat)
    requires blockEnd <= |lines| && rowIdx <= |eigen|
    requires EigenRows(num, lines, cur, blockEnd, eigen, rowIdx).Success?
    requires cur <= k < EigenRows(num, lines, cur, blockEnd, eigen, rowIdx).value.1
    ensures lines[k] != "" && IntFromList(num, SplitSkipEmpty(lines[k], ' '), 0) == Success(rowIdx + (k - cur) + 1)
    decreases k - cur
  {
    EigenRowsHead(num, lines, cur, blockEnd, eigen, rowIdx);
    if k > cur {
      var values := RowValues(num, SplitSkipEmpty(lines[cur], ' '), 1).value;
      EigenRowsNumbered(num, lines, cur + 1, blockEnd, Extend(eigen, rowIdx, values), rowIdx + 1, k);
    }
  }

  /** A block that reads past line `cur` read that line as row rowIdx + 1 and went on from the next. */
  lemma EigenRowsHead(num: Numbers, lines: seq<string>, cur: nat, blockEnd: int, eigen: seq<seq<real>>, rowIdx: nat)
    requires blockEnd <= |lines| && rowIdx <= |eigen|
    requires EigenRows(num, lines, cur, blockEnd, eigen, rowIdx).Success?
    requires cur < EigenRows(num, lines, cur, blockEnd, eigen, rowIdx).value.1
    ensures cur < blockEnd && lines[cur] != ""
    ensures var v := SplitSkipEmpty(lines[cur], ' ');
      IntFromList(num, v, 0) == Success(rowIdx + 1) && RowValues(num, v, 1).Success? &&
      EigenRows(num, lines, cur, blockEnd, eigen, rowIdx) ==
      EigenRows(num, lines, cur + 1, blockEnd, Extend(eigen, rowIdx, RowValues(num, v, 1).value), rowIdx + 1)
  {
    EigenRowsStep(num, lines, cur, blockEnd, eigen, rowIdx);
  }

  // ---- lemmas: tasks ------------------------------------------------------------

  /** The tasks findTasks builds name existing sections, and a Frequency task ends after its Frequency section. */
  lemma GroupTasksIn(sections: seq<SectionInfo>)
    ensures TasksIn(sections, GroupTasks(sections, 0))
  {
    var tasks := GroupTasks(sections, 0);
    forall a | 0 <= a < |tasks|
      ensures 0 <= tasks[a].section <= tasks[a].end <= |sections|
      ensures tasks[a].kind.Frequency? ==> tasks[a].section < tasks[a].end
    {
      TaskFacts(sections, 0, a);
    }
  }

  /**
   * An output whose last task is a frequency analysis still running: the task is
   * open, so its end is the section count and parseFrequencyTask as written
   * would read sections[end] past the end.
   */
  lemma OpenFrequencyTask()
    ensures var sections := [SectionInfo(ModuleInput, 20), SectionInfo(SectionType.Frequency, 300)];
      GroupTasks(sections, 0) == [TaskInfo(SectionType.Frequency, 0, 2)] && 2 == |sections|
  {
    var sections := [SectionInfo(ModuleInput, 20), SectionInfo(SectionType.Frequency, 300)];
    GroupTasksStep(sections, 0);
    assert FirstNotInput(sections, 0) == 1;
    assert FirstTerminate(sections, 1) == 2;
  }

  // ---- lemmas: findings -----------------------------------------------------------

  /**
   * parseGeometry as written bounds its rows by lines.size() instead of the
   * section end. Take a section [0, 3) made of a geometry banner, the column
   * header and the dashed rule, so that its table is empty, followed by a
   * non-empty line that is not an atom row (the next module's banner, say):
   * the rows bounded by lines.size() read that line as an atom and throw,
   * while the rows bounded by the section end give an empty geometry.
   */
  lemma GeometryReadsPastSection(num: Numbers, banner: string, header: string, rule: string, next: string)
    requires GeometryHeader(banner) && !GeometryTableHeader(banner) && GeometryTableHeader(header)
    requires next != "" && GeometryRow(num, next).None?
    ensures var lines := [banner, header, rule, next];
      Geometry(num, lines, 0, 3, |lines|) == Failure(GeometryError) &&
      Geometry(num, lines, 0, 3, 3) == Success(Some([]))
  {
    var lines := [banner, header, rule, next];
    assert FirstMatch(lines, 0, 3, GeometryHeader) == 0;
    assert FirstMatch(lines, 0, 3, GeometryTableHeader) == 1;
    assert GeometryRowOf(num)(lines[3]) == GeometryRow(num, lines[3]);
  }

  /** parseConnectivity as written appends: reading the same table twice lists every bond twice. */
  lemma AppendBondsTwice(mol: Mol, bonds: seq<Bond>)
    ensures AppendBonds(AppendBonds(mol, bonds), bonds).bonds == mol.bonds + bonds + bonds
    ensures bonds != [] ==> AppendBonds(AppendBonds(mol, bonds), bonds) != AppendBonds(mol, bonds)
  {
    if bonds != [] {
      assert |AppendBonds(AppendBonds(mol, bonds), bonds).bonds| > |AppendBonds(mol, bonds).bonds|;
    }
  }

  /** A table that replaces the bond list can be read again without changing the molecule. */
  lemma ReplaceBondsIdempotent(mol: Mol, bonds: seq<Bond>)
    ensures ReplaceBonds(ReplaceBonds(mol, bonds), bonds) == ReplaceBonds(mol, bonds)
    ensures ReplaceBonds(mol, bonds).bonds == bonds && ReplaceBonds(mol, bonds).atoms == mol.atoms
  {
  }
}
