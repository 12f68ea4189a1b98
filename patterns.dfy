/**
 * The regular expressions of nwchem.cpp as matchers on one line. Each is a
 * full match (std::regex_match) with ECMAScript semantics: `\s` is IsWs, `.`
 * is any character but '\n' and '\r', `\w` is IsWordChar. Where a literal that
 * cannot start with whitespace follows a whitespace run, the run is maximal,
 * which is why the matchers can scan greedily; the one pattern whose optional
 * parts need backtracking (the orbital entry) tries the alternatives in the
 * engine's order.
 */
module Patterns {
  import opened Wrappers
  import opened Text

  /** Index of the first character at or after `i` that is not a space. */
  function SkipSpaces(s: string, i: nat): (j: nat)
    requires i <= |s|
    ensures i <= j <= |s|
    ensures forall k :: i <= k < j ==> s[k] == ' '
    ensures j < |s| ==> s[j] != ' '
    decreases |s| - i
  {
    if i == |s| || s[i] != ' ' then i else SkipSpaces(s, i + 1)
  }

  predicate AllSpaces(s: string) {
    forall k :: 0 <= k < |s| ==> s[k] == ' '
  }

  /** `" +LIT *"` for a literal that does not start with a space: spaces, the literal, then only spaces. */
  predicate SpacedLiteral(line: string, lit: string) {
    var i := SkipSpaces(line, 0);
    i >= 1 && StartsWith(line[i..], lit) && AllSpaces(line[i + |lit|..])
  }

  /** Length of `s` without its trailing spaces. */
  function TrimSpacesEnd(s: string): (n: nat)
    ensures n <= |s| && AllSpaces(s[n..])
    ensures n > 0 ==> s[n - 1] != ' '
  {
    if |s| == 0 || s[|s| - 1] != ' ' then |s|
    else
      var n := TrimSpacesEnd(s[..|s| - 1]);
      assert s[n..] == s[..|s| - 1][n..] + [s[|s| - 1]];
      n
  }

  /** `" +NWChem .* Module *"`: any module banner. */
  predicate AnyModuleBanner(line: string) {
    var i := SkipSpaces(line, 0);
    var t := line[i..];
    var core := t[..TrimSpacesEnd(t)];
    i >= 1 && |core| >= 14 && StartsWith(core, "NWChem ") && EndsWith(core, " Module") && NoLineTerm(core)
  }

  /** `" Task  times .*"`: the banner that ends a task. */
  predicate TaskTimesBanner(line: string) {
    StartsWith(line, " Task  times ") && NoLineTerm(line[13..])
  }

  /** `\s*Geometry ".*" -> ".*"\s*`. */
  predicate GeometryHeader(line: string) {
    var i := SkipWs(line, 0);
    var t := line[i..][..TrimEnd(line[i..])];
    |t| >= 11 && StartsWith(t, "Geometry \"") && t[|t| - 1] == '"'
    && Contains(t[10..|t| - 1], "\" -> \"") && NoLineTerm(t)
  }

  /** `\s+No\.\s+Tag\s+Charge\s+X\s+Y\s+Z\s*`. */
  predicate GeometryTableHeader(line: string) {
    |line| > 0 && IsWs(line[0]) && Words(line) == ["No.", "Tag", "Charge", "X", "Y", "Z"]
  }

  /** `\s*internuclear distances\s*`. */
  predicate InternuclearHeader(line: string) {
    Trim(line) == "internuclear distances"
  }

  /** `\s*[\s-]+\s*`: a non-empty line of whitespace and dashes. */
  predicate SeparatorLine(line: string) {
    |line| > 0 && forall k :: 0 <= k < |line| ==> IsWs(line[k]) || line[k] == '-'
  }

  /** `\s+LIT\s*`, for a literal without whitespace at either end. */
  predicate IndentedLiteral(line: string, lit: string) {
    |line| > 0 && IsWs(line[0]) && Trim(line) == lit
  }

  /** Index of the first character at or after `i` that is not a word character. */
  function WordCharsEnd(s: string, i: nat): (j: nat)
    requires i <= |s|
    ensures i <= j <= |s|
    ensures forall k :: i <= k < j ==> IsWordChar(s[k])
    ensures j < |s| ==> !IsWordChar(s[j])
    decreases |s| - i
  {
    if i == |s| || !IsWordChar(s[i]) then i else WordCharsEnd(s, i + 1)
  }

  /** Position just after `\s*(\w+) Final `, if the line starts that way. */
  function AfterFinal(line: string): Option<nat> {
    var i := SkipWs(line, 0);
    var j := WordCharsEnd(line, i);
    if j > i && StartsWith(line[j..], " Final ") then Some(j + 7) else None
  }

  /** `LIT\s*` at position `p`. */
  predicate LiteralThenWs(line: string, p: nat, lit: string)
    requires p <= |line|
  {
    StartsWith(line[p..], lit) && AllWs(line[p + |lit|..])
  }

  /**
   * `\s*(\w+) Final (\w+ )?Molecular Orbital Analysis\s*`: the channel name
   * (the second group without its space), "" when the group did not take part.
   */
  function OrbitalAnalysisHeader(line: string): (r: Option<string>)
    ensures r.Some? ==> AllWordChars(r.value)
  {
    match AfterFinal(line)
    case None => None
    case Some(p) =>
      if p > |line| then None
      else
        var k := WordCharsEnd(line, p);
        if k > p && k < |line| && line[k] == ' ' && LiteralThenWs(line, k + 1, "Molecular Orbital Analysis")
        then Some(line[p..k])
        else if LiteralThenWs(line, p, "Molecular Orbital Analysis") then Some("")
        else None
  }

  /** `\s*(\w+) Final (Alpha )?Molecular Orbital Analysis\s*`, the energy section's trigger. */
  predicate AlphaOrbitalHeader(line: string) {
    match AfterFinal(line)
    case None => false
    case Some(p) =>
      p <= |line| &&
      (LiteralThenWs(line, p, "Alpha Molecular Orbital Analysis") || LiteralThenWs(line, p, "Molecular Orbital Analysis"))
  }

  /** The four groups of an orbital entry; an unmatched group reads as "". */
  datatype EntryGroups = EntryGroups(vector: string, occupancy: string, energy: string, symmetry: string)

  /** `\s*(?:\s+Symmetry=(.*))?` up to the end of the line: the symmetry group. */
  function SymmetryTail(r: string): Option<string> {
    var w := SkipWs(r, 0);
    if w == |r| then Some("")
    else if w >= 1 && StartsWith(r[w..], "Symmetry=") && NoLineTerm(r[w + 9..]) then Some(r[w + 9..])
    else None
  }

  /** `(\s?[^\s]*)` followed by the symmetry tail; the optional whitespace is tried taken first. */
  function EnergyTail(u: string): Option<(string, string)> {
    var taken := if |u| > 0 && IsWs(u[0]) then EnergyTailAt(u, WordEnd(u, 1)) else None;
    if taken.Some? then taken else EnergyTailAt(u, WordEnd(u, 0))
  }

  function EnergyTailAt(u: string, e: nat): Option<(string, string)>
    requires e <= |u|
  {
    match SymmetryTail(u[e..])
    case None => None
    case Some(sym) => Some((u[..e], sym))
  }

  /** `(\s?[^\s]*)\s+E=` followed by the energy tail, in the engine's order of alternatives. */
  function OccupancyTail(t: string): Option<(string, string, string)> {
    var taken := if |t| > 0 && IsWs(t[0]) then OccupancyTailAt(t, WordEnd(t, 1)) else None;
    if taken.Some? then taken else OccupancyTailAt(t, WordEnd(t, 0))
  }

  function OccupancyTailAt(t: string, e: nat): Option<(string, string, string)>
    requires e <= |t|
  {
    var n := SkipWs(t, e);
    if n == e || !StartsWith(t[n..], "E=") then None
    else
      match EnergyTail(t[n + 2..])
      case None => None
      case Some((energy, sym)) => Some((t[..e], energy, sym))
  }

  /** `\s*Vector\s+(\d+)\s+Occ=(\s?[^\s]*)\s+E=(\s?[^\s]*)\s*(?:\s+Symmetry=(.*))?`. */
  function OrbitalEntry(line: string): (r: Option<EntryGroups>)
    ensures r.Some? ==> |r.value.vector| > 0 && AllDigits(r.value.vector)
  {
    var i := SkipWs(line, 0);
    if !StartsWith(line[i..], "Vector") then None
    else
      var j := SkipWs(line, i + 6);
      var k := DigitsEnd(line, j);
      var m := SkipWs(line, k);
      if j == i + 6 || k == j || m == k || !StartsWith(line[m..], "Occ=") then None
      else
        match OccupancyTail(line[m + 4..])
        case None => None
        case Some((occ, energy, sym)) => Some(EntryGroups(line[j..k], occ, energy, sym))
  }

  /** The text after `\s+KEY\s*SEP\s*`, for a key that starts and ends with a non-whitespace character. */
  function AfterKey(line: string, key: string, sep: char): Option<string> {
    var i := SkipWs(line, 0);
    if i == 0 || !StartsWith(line[i..], key) then None
    else
      var j := SkipWs(line, i + |key|);
      if j < |line| && line[j] == sep then Some(line[SkipWs(line, j + 1)..]) else None
  }

  /** `-?\d+` */
  predicate SignedDigits(v: string) {
    var d := if |v| > 0 && v[0] == '-' then v[1..] else v;
    |d| > 0 && AllDigits(d)
  }

  /** Index of the first character at or after `i` that is not '.'. */
  function DotsEnd(s: string, i: nat): (j: nat)
    requires i <= |s|
    ensures i <= j <= |s|
    ensures j < |s| ==> s[j] != '.'
    decreases |s| - i
  {
    if i == |s| || s[i] != '.' then i else DotsEnd(s, i + 1)
  }

  /** `\d+\.*\d*`: digits, any number of dots, digits. */
  predicate DottedDigits(v: string) {
    var k := DigitsEnd(v, 0);
    k > 0 && DigitsEnd(v, DotsEnd(v, k)) == |v|
  }

  /** `-?\d+\.*\d*` */
  predicate SignedDottedDigits(v: string) {
    DottedDigits(if |v| > 0 && v[0] == '-' then v[1..] else v)
  }

  /** `-?\d+\.\d*`: one dot exactly. */
  predicate SignedDecimal(v: string) {
    var d := if |v| > 0 && v[0] == '-' then v[1..] else v;
    var k := DigitsEnd(d, 0);
    k > 0 && k < |d| && d[k] == '.' && DigitsEnd(d, k + 1) == |d|
  }

  /** `-?\d+.\d+`, where the middle `.` is any character but a line terminator. */
  predicate SignedDigitsAnyDigits(v: string) {
    var d := if |v| > 0 && v[0] == '-' then v[1..] else v;
    var k := DigitsEnd(d, 0);
    if k == |d| then |d| >= 3
    else k > 0 && !IsLineTerm(d[k]) && k + 1 < |d| && DigitsEnd(d, k + 1) == |d|
  }

  /** A captured value followed only by whitespace: `(VALUE)\s*`. */
  function ValueThenWs(rest: string, shape: string -> bool): Option<string> {
    var v := TrimRight(rest);
    if shape(v) then Some(v) else None
  }

  /** A captured value followed by a unit literal and whitespace: `(VALUE)UNIT\s*`. */
  function ValueThenUnit(rest: string, unit: string, shape: string -> bool): Option<string> {
    var v := TrimRight(rest);
    if EndsWith(v, unit) && shape(v[..|v| - |unit|]) then Some(v[..|v| - |unit|]) else None
  }

  function CaptureValue(line: string, key: string, sep: char, shape: string -> bool): Option<string> {
    match AfterKey(line, key, sep)
    case None => None
    case Some(rest) => ValueThenWs(rest, shape)
  }

  function CaptureValueUnit(line: string, key: string, sep: char, unit: string, shape: string -> bool): Option<string> {
    match AfterKey(line, key, sep)
    case None => None
    case Some(rest) => ValueThenUnit(rest, unit, shape)
  }

  /** `\s+Charge\s*:\s*(-?\d+)\s*` */
  function ChargeLine(line: string): Option<string> {
    CaptureValue(line, "Charge", ':', SignedDigits)
  }

  /** `\s+Spin multiplicity\s*:\s*(-?\d+)\s*` */
  function SpinLine(line: string): Option<string> {
    CaptureValue(line, "Spin multiplicity", ':', SignedDigits)
  }

  /** `\s+Total SCF energy\s*=\s*(-?\d+\.*\d*)\s*` and its DFT twin. */
  function EnergyLine(line: string, dft: bool): Option<string> {
    CaptureValue(line, if dft then "Total DFT energy" else "Total SCF energy", '=', SignedDottedDigits)
  }

  predicate NonWsWord(v: string) {
    |v| > 0 && forall k :: 0 <= k < |v| ==> !IsWs(v[k])
  }

  /** `\s+solvname_long\s*:\s*(\S+)\s*` */
  function SolventNameLine(line: string): Option<string> {
    CaptureValue(line, "solvname_long", ':', NonWsWord)
  }

  /** `\s+dielec\s*:\s*(-?\d+.\d+)\s*` */
  function DielectricLine(line: string): Option<string> {
    CaptureValue(line, "dielec", ':', SignedDigitsAnyDigits)
  }

  /** `\s+Temperature\s*=\s*(\d+\.*\d*)K\s*` */
  function TemperatureLine(line: string): Option<string> {
    CaptureValueUnit(line, "Temperature", '=', "K", DottedDigits)
  }

  /** `\s+Total Entropy\s*=\s*(-?\d+\.*\d*) cal/mol-K\s*` */
  function EntropyLine(line: string): Option<string> {
    CaptureValueUnit(line, "Total Entropy", '=', " cal/mol-K", SignedDottedDigits)
  }

  /** `\s+Cv \(constant volume heat capacity\)\s*=\s*(-?\d+\.*\d*) cal\/mol-K\s*` */
  function HeatCapacityLine(line: string): Option<string> {
    CaptureValueUnit(line, "Cv (constant volume heat capacity)", '=', " cal/mol-K", SignedDottedDigits)
  }

  /**
   * `\s+Thermal correction to Enthalpy\s*=\s*(-?\d+\.*\d*) kcal\/mol\s+\(\s*(-?\d+\.\d*) au\)\s*`:
   * the kcal/mol and au groups.
   */
  function EnthalpyLine(line: string): Option<(string, string)> {
    match AfterKey(line, "Thermal correction to Enthalpy", '=')
    case None => None
    case Some(r) =>
      var k := WordEnd(r, 0);
      var j := if k + 9 <= |r| then SkipWs(r, k + 9) else k;
      var m := if j < |r| then SkipWs(r, j + 1) else j;
      var t := TrimRight(r);
      if SignedDottedDigits(r[..k]) && StartsWith(r[k..], " kcal/mol") && j > k + 9 && j < |r| && r[j] == '('
         && m <= |t| && EndsWith(t[m..], " au)") && SignedDecimal(t[m..|t| - 4])
      then Some((r[..k], t[m..|t| - 4]))
      else None
  }

  /** `\s+P\.Frequency .*` */
  predicate EigenvectorFrequencyLine(line: string) {
    var i := SkipWs(line, 0);
    i >= 1 && StartsWith(line[i..], "P.Frequency ") && NoLineTerm(line[i + 12..])
  }

  /** `\s+Normal Eigenvalue\s+\|\|\s+Projected Infra Red Intensities\s*` */
  predicate IrHeader(line: string) {
    var i := SkipWs(line, 0);
    i >= 1 && StartsWith(line[i..], "Normal Eigenvalue") &&
    var j := SkipWs(line, i + 17);
    j > i + 17 && StartsWith(line[j..], "||") &&
    var k := SkipWs(line, j + 2);
    k > j + 2 && LiteralThenWs(line, k, "Projected Infra Red Intensities")
  }

  /** `\s+NORMAL MODE EIGENVECTORS IN CARTESIAN COORDINATES\s*` */
  predicate EigenvectorHeader(line: string) {
    IndentedLiteral(line, "NORMAL MODE EIGENVECTORS IN CARTESIAN COORDINATES")
  }
}
