# ChemView core in Dafny

This project models the non-graphical core of ChemView, a Qt molecule editor
that drives the NWChem quantum-chemistry package. The core is the following:

- **Incremental NWChem output parser.** It is made of two parts.
  - `LineBuffer` turns an arbitrarily chunked byte stream into an append-only
    list of lines.
  - `NWChem::Parser` reads that list. It classifies blank-line-delimited
    blocks into section types by their banner line, and groups the sections
    into tasks, each closed by a `Task  times` line. It then runs the payload
    extractors that fill a `MolDocument`:
    - geometry and connectivity tables;
    - charge, spin, energy and solvent fields;
    - molecular-orbital tables;
    - `@` optimisation steps;
    - thermochemistry, with the normal-mode eigenvector and IR tables.
- **Molecule bookkeeping.**
  - `MolStruct`: bond lookup, leaf tests and atom deletion with index
    shifting, joining two hydrogens into a bond, fragment append, element
    replacement.
  - V2000 molfile charge codes and `M  CHG` lines.
- **Bond graph.** `MolStructGraph` provides breadth-first path search and
  depth-first branch selection.
- **Charge and spin.** The charge and spin-multiplicity rules of
  `calc_util`, which rest on the element, symbol and periodic-group tables.
- **Field helpers.** The helpers of `parsehelpers.cpp`.
- **NWChem input deck.** The deck generator of `NWChemConfiguration`.
- **Optimizer helpers.** The pure helpers of `OptimizerNWChem`: the step
  table, the progress feedback line, the charge and bond copy, and the
  surface-name to dplot mapping.
- **File types.** The file-type table and dialog filters of `FileHandlers`.

## Layout

There is one module per source file, plus three shared modules:

- `Wrappers`: Option, Result and the Outcome of a parser step (`Thrown`
  carries the text of a `throw QString(...)`).
- `Text`: character classes, and the Qt string operations the core uses
  (split, join, trim, lower-case, number to text), on ASCII text.
- `Patterns`: each `std::regex` of the parser, written as a predicate or
  capture function on one line.

The parser is split over three modules:

- `NWChemScan`: the section scan and task grouping, as functions and lemmas.
- `NWChemExtract`: the payload extractors, as functions and lemmas.
- `NWChem`: the `Parser` class, whose methods carry the loops of `nwchem.cpp`.
  Each method is proved equal to its specification function.

Pure source code is modelled as functions. Code that updates state is
modelled as classes and methods:

- `LineBuffer`, `Parser`, `MolStruct`, `MolStructGraph` and `Handlers` are
  classes.
- Their loops are proved against specification functions.

### Conversions and numbers

- String-to-number conversion is the parameter `num: Numbers`, a pair of
  partial functions.
  - `ParseHelpers.Qt` is the concrete instance. It models `QString::toInt`
    (base 10, 32-bit range) and `QString::toDouble` (decimal text, read
    exactly as a `real`).
- Floating-point values are `real`.
- Formatting a derived value with `QString::number` is the parameter
  `format: real -> string`.

## Model

| member | source | states |
|---|---|---|
| LineBuffers.LineBuffer.constructor | linebuffer.cpp:4-6 | a new buffer holds no lines and has seen an empty stream |
| LineBuffers.LineBuffer.Append | linebuffer.cpp:8-25 | the lines become the old lines glued to the chunk split on '\n' (its first fragment extends the old last line); every line but the last is unchanged; the count grows by exactly the returned value, the split count less one when the buffer was non-empty; the stream seen grows by the chunk |
| LineBuffers.SplitConcat | linebuffer.cpp:10-22 | splitting a concatenation on '\n' is gluing the two splits: the first part of the second continues the last line of the first, so chunking does not change the lines |
| LineBuffers.GlueLine | linebuffer.cpp:18-22 | gluing commutes with prepending a whole line |
| LineBuffers.JoinSnoc | linebuffer.cpp:54-59 | joining one more line appends '\n' and that line |
| LineBuffers.LineBuffer.JoinRange | linebuffer.cpp:38-63 | empty when start ≥ size; otherwise lines[start .. min(start+count, size)) joined by '\n' with no trailing newline, and lines[start] alone when count ≤ 0 |
| LineBuffers.LineBuffer.Joined | linebuffer.cpp:27-30 | the whole stream appended so far, however it was chunked |
| LineBuffers.LineBuffer.JoinLast | linebuffer.cpp:32-36 | the last min(count, size) lines joined by '\n' |
| ParseHelpers.ToInt | parsehelpers.cpp:38-44 | QString::toInt: the value of trimmed text made of an optional sign and at least one digit, None for anything else or for a value outside the 32-bit range |
| ParseHelpers.ToIntOfIntToString | parsehelpers.cpp:38-44 | QString::number followed by toInt gives back every 32-bit integer |
| ParseHelpers.IntToStringTrimmed | parsehelpers.cpp:38-44 | decimal text of a number has no surrounding whitespace |
| ParseHelpers.ToDoubleOfSignedDigits | parsehelpers.cpp:46-52 | trimmed text of an optional '-' and digits reads as that signed whole number |
| ParseHelpers.ToDoubleOfIntToString | parsehelpers.cpp:46-52 | integer text read as a double gives the same number |
| ParseHelpers.AtOrThrow | parsehelpers.cpp:31-36 | the element at `index` when 0 ≤ index < size, else the failure "Index out of range" |
| ParseHelpers.ToIntOrThrow | parsehelpers.cpp:38-44 | the converted value, or the failure naming the text, exactly when the conversion fails |
| ParseHelpers.ToDoubleOrThrow | parsehelpers.cpp:46-52 | the converted value, or the failure naming the text, exactly when the conversion fails |
| ParseHelpers.IntFromList | parsehelpers.cpp:54-57 | fails exactly when the index is out of range or the field does not convert; otherwise the field's value |
| ParseHelpers.DoubleFromList | parsehelpers.cpp:59-62 | fails exactly when the index is out of range or the field does not convert; otherwise the field's value |
| ParseHelpers.FirstOccurrence | parsehelpers.cpp:23-29 | QByteArray::indexOf: the first position at or after `from` where the target occurs, with no occurrence before it, or -1 when there is none |
| ParseHelpers.IndexOrThrow | parsehelpers.cpp:23-29 | the first occurrence at or after `from`, or the failure "QByteArray: Target not found" exactly when there is none |
| ParseHelpers.Mid | parsehelpers.cpp:70 | QString::mid(pos, n): the characters from pos, at most n of them, empty past the end |
| ParseHelpers.PrefixThenMid | parsehelpers.cpp:68-72 | the prefix up to `last` followed by the next field is the prefix up to last + n |
| ParseHelpers.SplitFixedWidth | parsehelpers.cpp:64-74 | exactly one field per width; field k is s.mid(Σ sizes[..k], sizes[k]); the fields concatenated are the prefix of s of length min(Σ sizes, \|s\|) |
| Text.JoinSplit | linebuffer.cpp:10 | splitting on a character loses no text: joining the parts with that character gives the input back |
| Text.Split2Join | optimizernwchem.cpp:33 | splitting on a two-character separator loses no text: joining the parts with it gives the input back |
| Text.Split2OfJoin | filehandlers.cpp:113 | parts free of the separator's first character come back from splitting their join |
| Text.NonEmpty | optimizernwchem.cpp:33 | Qt::SkipEmptyParts: the parts that are not empty, in order |
| Text.NonEmptyKeeps | optimizernwchem.cpp:33 | every kept part is one of the parts, and every non-empty part is kept |
| Text.ToLower | element.cpp:310 | QString::toLower on ASCII: same length, and each letter lower-cased |
| Text.ToLowerIdempotent | element.cpp:310 | lower-casing twice is lower-casing once |
| Text.ReplaceChar | nwchem.cpp:452-457 | QString::replace(a, b): every `a` becomes `b`, and every other character stays |
| Text.LessThanAsymmetric | element.cpp:319 | the QString `<` used to order the bond key is asymmetric |
| Text.LessThanTotal | element.cpp:319-322 | two distinct strings are ordered one way or the other |
| NWChemScan.LineAfterNewlines | nwchem.cpp:15-37 | for a start inside the buffer, a line between the start and the line count, strictly past the start when n ≥ 1; minus the start when the start lies past the end |
| NWChemScan.LineAfterNewlinesIsFirstBlock | nwchem.cpp:15-37 | for a start inside the buffer: the first line at or after the start that ends a run of n empty lines, else the line count |
| NWChemScan.FindLineAfterNewlines | nwchem.cpp:15-37 | the loop returns LineAfterNewlines |
| NWChemScan.FirstMatch | nwchem.cpp:39-51 | nextMatch: a result below `end` is a line the pattern accepts; otherwise it is `end` (the start when that is already past `end`) |
| NWChemScan.FirstMatchSkips | nwchem.cpp:39-51 | no line that nextMatch skipped is accepted by the pattern |
| NWChemScan.NextMatch | nwchem.cpp:39-51 | the loop advances idx to FirstMatch, and the match is non-empty exactly when a line was accepted |
| NWChemScan.SectionAt | nwchem.cpp:217-232 | a visited line gives one section, typed by the first query in table order that matches it, or none |
| NWChemScan.ScanFromStep | nwchem.cpp:213-233 | the scan from a line is its section followed by the scan from the next block start |
| NWChemScan.ScanFromSound | nwchem.cpp:213-233 | every recorded section is a visited line, typed by the first query in table order |
| NWChemScan.ScanFromIncreasing | nwchem.cpp:213-233 | within one scan the recorded starts increase strictly |
| NWChemScan.ScanFromComplete | nwchem.cpp:213-233 | every visited line that a query matches is recorded |
| NWChemScan.AfterKeeps | nwchem.cpp:151-157 | the rescan filter keeps exactly the sections that start past the last recorded one |
| NWChemScan.RescanIncreasing | nwchem.cpp:148-157 | repeated scans that skip lines already covered keep every start distinct and in order |
| NWChemScan.RescanFirst | nwchem.cpp:121-123 | on a parser with no sections yet, the skipping scan records what findSections records |
| NWChemScan.RescanDuplicates | nwchem.cpp:151-157 | as written, a banner on the line that two incremental scans share is recorded twice, and the starts stop increasing |
| NWChemScan.FirstNotInputSkips | nwchem.cpp:244 | every section the first search passes over is an input section |
| NWChemScan.FirstTerminateSkips | nwchem.cpp:257 | no section the second search passes over is a Terminate |
| NWChemScan.GroupTasksStep | nwchem.cpp:240-268 | the task list from i is the task starting at i followed by the tasks after its Terminate |
| NWChemScan.TaskFacts | nwchem.cpp:238-268 | the task at position a lies inside the sections, takes its type by the rule of findTasks, holds no Terminate before its end, and ends on a Terminate or at the section count |
| NWChemScan.GroupTasksPartition | nwchem.cpp:238-273 | findTasks from an empty task list partitions the sections: task 0 starts at 0, task k+1 starts at end_k + 1, every task but the last ends on a Terminate, the last ends on one or at the section count |
| NWChemScan.GroupTasksKinds | nwchem.cpp:242-255 | each task's type is its first non-input section's type when that is Frequency, GeometryOpt, ModuleDFT or ModuleSCF, else Invalid |
| NWChemScan.TaskFor | nwchem.cpp:275-284 | the first task whose range holds the index, else -1 |
| NWChemScan.EverySectionHasTask | nwchem.cpp:238-284 | after findTasks, taskForSection is non-negative for every section |
| NWChemExtract.GeometryRow | nwchem.cpp:355-366 | one geometry row: the element is the second field trimmed and x, y, z the fourth to sixth; None when a field is missing or does not convert |
| NWChemExtract.BannerTable | nwchem.cpp:334-367 | Success(None) exactly when no line of [start, end) is the banner; any failure carries the table's own error text |
| NWChemExtract.Geometry | nwchem.cpp:319-380 | parseGeometry: Success(None) exactly when no line of [start, end) is a `Geometry "…" -> "…"` banner; any failure is "NWChem read error, invalid Geometry section" |
| NWChemExtract.BondRow | nwchem.cpp:404-411 | one row of the internuclear-distances table: an order-1 bond between the first fields of the first two '\|' cells, made 0-based |
| NWChemExtract.Connectivity | nwchem.cpp:382-420 | parseConnectivity: Success(None) exactly when no line of [start, end) is the internuclear-distances banner; any failure is "NWChem read error, invalid internuclear distances section data" |
| NWChemExtract.GeometryAtoms | nwchem.cpp:351-366 | atom k of a parsed geometry is read from row k, two lines below the column header |
| NWChemExtract.ConnectivityBonds | nwchem.cpp:393-411 | bond k is read from row k, four lines below the banner, with 1-based atom numbers made 0-based |
| NWChemExtract.GeometryWithinSection | nwchem.cpp:319-380 | with rows bounded by the section end, parseGeometry reads only the section's lines |
| NWChemExtract.ConnectivityWithinSection | nwchem.cpp:382-420 | with rows bounded by the section end, parseConnectivity reads only the section's lines |
| NWChemExtract.ChannelSuffix | nwchem.cpp:435-442 | fails exactly for a channel other than none, Alpha and Beta, with "Unknown orbital type: " followed by the name |
| NWChemExtract.Exponent | nwchem.cpp:452-457 | the same length, with no 'D' or 'E' left |
| NWChemExtract.OrbitalFromEntry | nwchem.cpp:449-459 | the id is the vector number's text followed by the channel suffix; occupancy and energy convert after the exponent rewrite, or the conversion error |
| NWChemExtract.OrbitalsResult | nwchem.cpp:470-488 | the orbitals stored are non-empty and exactly those read; they are in energy order when the last header named a channel |
| NWChemExtract.UnknownChannelFails | nwchem.cpp:441-442 | a header naming a channel other than Alpha or Beta makes parseOrbitals fail |
| NWChemExtract.InsertByEnergyPerm | nwchem.cpp:473-475 | one insertion of the energy sort keeps every orbital and adds the new one once |
| NWChemExtract.SortByEnergyFacts | nwchem.cpp:473-475 | the energy sort orders by energy and is a permutation |
| NWChemExtract.OrbitalEntriesFrom | nwchem.cpp:446-465 | orbital k of a block comes from an entry line of that block |
| NWChemExtract.SolventKeeps | nwchem.cpp:574-603 | a solvent block writes the solvent name and dielectric and nothing else |
| NWChemExtract.EnergyStep | nwchem.cpp:532-604 | one line of the energy section moves reading forward, with geometry rows ending at the section end (the corrected bound); it fails only with the geometry error and then leaves the document as it was; the frequencies never change |
| NWChemExtract.EnergyLinesKeep | nwchem.cpp:532-604 | the lines of an energy section leave the frequencies and every property outside the energy keys as they were |
| NWChemExtract.EnergyLinesConvert | nwchem.cpp:536-555 | Charge and Spin are stored only when the captured text converts to an integer |
| NWChemExtract.EnergySectionFacts | nwchem.cpp:501-605 | after parseEnergySection the other method's energy is gone, the frequencies are untouched, and a stored Charge or Spin converts |
| NWChemExtract.InputSection | nwchem.cpp:492-499 | only the molecule changes: atoms from the geometry, then the bond list replaced by the connectivity (the corrected forms: rows end at the section end, bonds replaced rather than appended); a throw leaves the bonds and names one of the two errors |
| NWChemExtract.StepLinesComplete | nwchem.cpp:614-619 | every "@" line of the section is among the optimisation steps |
| NWChemExtract.TemperatureStageFinds | nwchem.cpp:645-657 | "Frequency: Missing temperature" exactly when no line matches; otherwise the search stops at the first match |
| NWChemExtract.EnthalpyStageFinds | nwchem.cpp:659-688 | "Frequency: Missing enthalpy" exactly when no line matches; otherwise the search stops at the first match |
| NWChemExtract.EnthalpyStage | nwchem.cpp:664-687 | the au correction is added to the stored SCF (else DFT) total energy when both convert |
| NWChemExtract.StoreStageFinds | nwchem.cpp:690-706 | the entropy and Cv searches fail with their own message exactly when no line matches; otherwise they store the first match's capture |
| NWChemExtract.ThermoKeeps | nwchem.cpp:643-717 | the thermochemistry part writes only its five properties and removes none |
| NWChemExtract.EigenRowsNumbered | nwchem.cpp:753-754 | row k of an eigenvector block is numbered rowIdx + k + 1 |
| NWChemExtract.EigenBlocks | nwchem.cpp:740-764 | on success the number of component rows stays divisible by 3 |
| NWChemExtract.EigenTable | nwchem.cpp:734-768 | on success the component rows are non-empty and their number is divisible by 3 |
| NWChemExtract.ModeVectorsExist | nwchem.cpp:808-813 | column i exists exactly when every component row reaches it |
| NWChemExtract.ModeVectorsColumn | nwchem.cpp:808-813 | the vector of atom k in column i is (x, y, z) from component rows 3k, 3k+1 and 3k+2 |
| NWChemExtract.Modes | nwchem.cpp:808-813 | on success one frequency per IR mode, carrying that mode's wave number and intensity and the eigenvector column of the mode |
| NWChemExtract.FrequencySection | nwchem.cpp:623-817 | parseFrequencySection never changes the molecule or the orbitals, and leaves the frequencies unchanged when it throws |
| NWChemExtract.GeomEnergyStep | nwchem.cpp:288-300 | one section of the task only adds optimisation steps (the old steps are a prefix) and never changes the frequencies |
| NWChemExtract.GeomEnergyTaskStep | nwchem.cpp:286-301 | the task from section i is section i's step followed by the task from i+1, stopping at the first throw |
| NWChemExtract.FrequencyTargetAsWritten | nwchem.cpp:303-317 | as written: the section end-1 is read exactly when sections[end] is Terminate and sections[end-1] is CPHF, DFT or SCF; needs end < \|sections\| |
| NWChemExtract.FrequencyTarget | nwchem.cpp:303-317 | the same rule, with an open task (end == \|sections\|) left alone |
| NWChemExtract.OpenFrequencyTask | nwchem.cpp:257-262 | a frequency task still running gets end == \|sections\|, so the as-written rule would index past the end |
| NWChemExtract.GeometryReadsPastSection | nwchem.cpp:353 | as written, rows bounded by the line count read the next section's banner as an atom and throw, while rows bounded by the section end give an empty table |
| NWChemExtract.AppendBondsTwice | nwchem.cpp:396-417 | as written, connectivity appends: reading the same table twice lists every bond twice |
| NWChemExtract.ReplaceBondsIdempotent | nwchem.cpp:396-417 | a table that replaces the bond list can be read again without changing the molecule |
| NWChem.ReadRows | nwchem.cpp:353-367 | the row loop returns Rows: one parsed row per line until a stop line or the bound, or the first failure |
| NWChem.ReadBannerTable | nwchem.cpp:334-351 | nextMatch for the banner and the header, then the rows: returns BannerTable |
| NWChem.ReadEntries | nwchem.cpp:446-465 | the entry loop of parseOrbitals returns the entries of the block, in order, or the first conversion error |
| NWChem.ReadAnalysisBlocks | nwchem.cpp:432-468 | the block loop of parseOrbitals returns the entries of every analysis block and the last channel, or the first error |
| NWChem.ReadEigenRows | nwchem.cpp:748-760 | the row loop of one eigenvector block returns EigenRows |
| NWChem.ReadEigenBlocks | nwchem.cpp:740-764 | the block loop returns EigenBlocks |
| NWChem.ReadIrRows | nwchem.cpp:788-803 | the IR loop returns the wave number and intensity of each row up to a " ---" line |
| NWChem.ColumnVectors | nwchem.cpp:809-813 | the inner mode loop returns column i of every three component rows |
| NWChem.BuildModes | nwchem.cpp:805-813 | the outer mode loop returns Modes, or the mismatch error when the IR count differs from the column count |
| NWChem.ReadFrequencyTables | nwchem.cpp:734-816 | returns the new frequency list of FrequencyTables or what it throws |
| NWChem.NextTask | nwchem.cpp:243-263 | the inner scans of findTasks for the task starting at i: its type, first section and end |
| NWChem.Parser.constructor | nwchem.cpp:111-118 | a parser on a buffer starts with no sections, no tasks, no steps and an empty document |
| NWChem.Parser.FindSections | nwchem.cpp:194-236 | the section list becomes the corrected rescan of the lines from startLine to endLine (the last line when negative), which skips banners at or before the last recorded start where the source records them again; nothing else changes |
| NWChem.ScanSections | nwchem.cpp:213-233 | the scanning loop returns the corrected rescan of lines startLine..last appended to the known sections, every start inside the buffer |
| NWChem.Parser.FindTasks | nwchem.cpp:238-273 | the tasks become the old tasks followed by GroupTasks of the sections |
| NWChem.Parser.TaskForSection | nwchem.cpp:275-284 | the first task whose range holds the section, else -1 |
| NWChem.Parser.ParseGradientSection | nwchem.cpp:607-621 | the section's "@" lines are appended to the steps in order; nothing else changes |
| NWChem.Parser.ParseGeometry | nwchem.cpp:319-380 | false and no change without a banner; true with only the atoms replaced (bonds kept); or the geometry error |
| NWChem.Parser.ParseConnectivity | nwchem.cpp:382-420 | false without the banner; true with the bond list replaced by the table (the corrected form of the source's append) and the atoms kept; or the connectivity error |
| NWChem.Parser.ParseInputSection | nwchem.cpp:492-499 | the document becomes InputSection's (corrected: rows end at the section end, bonds are replaced); the first throw ends it |
| NWChem.Parser.ParseOrbitals | nwchem.cpp:422-490 | true with the orbitals replaced by Orbitals' result; false with the document unchanged on any failure |
| NWChem.Parser.ParseSolvent | nwchem.cpp:574-603 | the properties become Solvent's, and the line where it stopped |
| NWChem.Parser.ParseEnergyLine | nwchem.cpp:534-603 | one classified line: the document and next line of EnergyStep (geometry rows end at the section end, the corrected bound), or what it throws |
| NWChem.Parser.ParseEnergySection | nwchem.cpp:501-605 | the document becomes EnergySection's, with EnergyStep's corrected row bound; the first throw ends it |
| NWChem.Parser.ParseThermo | nwchem.cpp:643-717 | the properties become Thermo's, each search starting at the line of the one before |
| NWChem.Parser.ParseFrequencySection | nwchem.cpp:623-817 | the document becomes FrequencySection's; the frequencies change only on success |
| NWChem.Parser.ParseGeomEnergyTask | nwchem.cpp:286-301 | the document and steps become GeomEnergyTask's over [start, end), with the corrected row bound and bond replacement |
| NWChem.Parser.ParseFrequencyTask | nwchem.cpp:303-317 | the section the corrected rule FrequencyTarget names is parsed; an open task (the source reads past the last section) and a task without one are left alone |
| NWChem.Parser.Parse | nwchem.cpp:121-146 | sections = the corrected scan of the whole buffer, tasks = their grouping, and the document and steps = RunTasks over them with the corrected extractors |
| NWChem.Parser.ParseIncremental | nwchem.cpp:148-192 | the buffer is appended; only lines [max(n0−2,0), max(n1−2,0)] are scanned by the corrected rescan; true exactly when sections grew, there are more than one and a task covers section lastSize−1 |
| NWChem.Parser.AppendAndScan | nwchem.cpp:150-157 | the chunk is appended and the corrected rescan (no banner recorded twice) covers the lines from max(n0−2,0) to max(n1−2,0) |
| NWChem.Parser.ContinueIncremental | nwchem.cpp:158-191 | tasks regrouped from scratch; the task holding startSection continued from it, later tasks run with the corrected extractors, geometry/energy tasks capped at the last section |
| NWChem.Parser.RunTasksFrom | nwchem.cpp:181-188 | the document, steps and outcome are RunTasks from task `first` with geometry/energy tasks capped at `cap`; sections and tasks unchanged |
| MolStructs.BondsWithoutAtomLength | molstruct.cpp:694-713 | deleting an atom drops exactly the bonds that touch it |
| MolStructs.BondsWithoutAtomInRange | molstruct.cpp:694-713 | after a deletion every surviving bond points at an existing atom |
| MolStructs.PairBond | molstruct.cpp:234-245 | the lowest index of a bond joining the two atoms either way, else -1 |
| MolStructs.MolStruct.constructor | molstruct.cpp:55-58 | a molecule holding the given atoms and bonds |
| MolStructs.MolStruct.FindBondForPair | molstruct.cpp:234-245 | the loop returns the lowest index of a bond joining the two atoms in either direction, else -1 |
| MolStructs.MolStruct.FindBondsForAtom | molstruct.cpp:247-258 | exactly the indices of bonds touching the atom, ascending |
| MolStructs.MolStruct.IsLeafAtom | molstruct.cpp:260-271 | true exactly when at most one bond touches the atom |
| MolStructs.MolStruct.IsLeafGroup | molstruct.cpp:273-286 | true exactly when at most one bond leads to a non-hydrogen or to a hydrogen that is not a leaf |
| MolStructs.MolStruct.DeleteAtom | molstruct.cpp:694-713 | removes the atom and exactly the bonds touching it, keeps the survivors in order, and moves every endpoint past it down by one |
| MolStructs.MolStruct.DeleteBond | molstruct.cpp:715-719 | the bond is removed and nothing else changes |
| MolStructs.MolStruct.HydrogensToBond | molstruct.cpp:770-800 | false and no change unless both atoms are distinct leaf hydrogens on distinct partners whose bond is below order 3; else that bond is raised (or an order-1 bond added) and both hydrogens deleted |
| MolStructs.JoinHydrogensInRange | molstruct.cpp:787-798 | joining two hydrogens removes exactly those two atoms and keeps every bond in range |
| MolStructs.MolStruct.ReplaceElement | molstruct.cpp:596-608 | the ascending indices of atoms that were `from`; those now read `to` and every other atom is unchanged |
| MolStructs.MolStruct.AddFragment | molstruct.cpp:503-520 | the fragment's atoms follow the old ones; its bonds follow the old bonds with endpoints offset by the old atom count |
| MolStructs.OffsetBondsInRange | molstruct.cpp:512-519 | a well-formed fragment stays well-formed once appended |
| MolStructs.TouchCountMonotone | molstruct.cpp:260-271 | the bond count of an atom only grows along a prefix of the bonds, which justifies the early return |
| MolStructs.ParseMolfileCharge | molstruct.cpp:15-34 | a charge in −3..3, or the failure "SDF read error, unsupported charge value" |
| MolStructs.WriteMolfileCharge | molstruct.cpp:35-52 | a code in 0..7 other than 4 |
| MolStructs.ChargeCodeRoundTrip | molstruct.cpp:15-52 | parse(write(c)) == c for −3 ≤ c ≤ 3 |
| MolStructs.ChargeCodeInverse | molstruct.cpp:15-52 | write(parse(v)) == v for v in {1,2,3,5,6,7}; other codes but 4 read as 0 |
| MolStructs.AtomFieldsFromWidths | molstruct.cpp:94 | the atom-line widths {11,10,10,4,2,3} cut at offsets 0, 11, 21, 31, 35 and 37 |
| MolStructs.BondFieldsFromWidths | molstruct.cpp:110 | the bond-line widths {3,3,3} cut at offsets 0, 3 and 6 |
| MolStructs.CountsFieldsFromWidths | molstruct.cpp:85 | the counts-line widths {3,3} cut at offsets 0 and 3 |
| MolStructs.AtomBlock | molstruct.cpp:89-104 | on success the lines held at least n atom lines and exactly n atoms were appended |
| MolStructs.BondBlock | molstruct.cpp:105-123 | on success the lines held at least n bond lines and every bond kept names existing atoms |
| MolStructs.ApplyChargePairs | molstruct.cpp:137-145 | on success only the atoms' charges change |
| MolStructs.ChargeLines | molstruct.cpp:124-147 | on success the property block changes only the atoms' charges |
| MolStructs.SdfDataWellFormed | molstruct.cpp:60-150 | a molecule read from a molfile has as many atoms as its counts line says and no dangling bond |
| MolStructs.OddChargeLineRefused | molstruct.cpp:134-136 | an `M  CHG` line with an odd number of tokens is refused before any pair is read |
| MolStructs.ChargeAtomOutOfRangeRefused | molstruct.cpp:140-143 | a pair naming an atom outside 1..\|atoms\| is refused |
| MolStructs.ReadAtomBlock | molstruct.cpp:89-104 | the atom loop returns AtomBlock |
| MolStructs.ReadBondBlock | molstruct.cpp:105-123 | the bond loop returns BondBlock |
| MolStructs.ReadChargePairs | molstruct.cpp:137-145 | the pair loop returns ApplyChargePairs |
| MolStructs.ReadChargeLines | molstruct.cpp:124-147 | the property loop returns ChargeLines |
| MolStructs.ReadBlocks | molstruct.cpp:85-147 | the blocks after the header return MolBlocks |
| MolStructs.ReadBondAndCharge | molstruct.cpp:105-147 | the bond block and the `M  CHG` lines from line `start` return MolBondBlocks |
| MolStructs.FromSdfData | molstruct.cpp:60-150 | fromSDFData: the loops return SdfData of the text |
| MolStructs.ChunksBounded | molstruct.cpp:659-679 | every `M  CHG` line carries one to eight entries, and together they are all the charged atoms, in order |
| MolStructs.ChargeBlock | molstruct.cpp:659-679 | the loop writes ChargeBlockText: the charged atoms' entries, eight per full line |
| MolStructs.PadSmall | molstruct.cpp:678 | a one-digit count is written as two spaces and the digit |
| Elements.TableRows | element.cpp:18-139 | entry k of the element table has atomic number k, for 0..118 |
| Elements.SymbolMap | element.cpp:150-270 | entry j of the symbol map sends the lower-cased symbol of element j+1 to j+1 |
| Elements.GroupTable | element.cpp:141-148 | the group table has 118 entries, the group of element i+1 at index i |
| Elements.SymbolKeysDistinct | element.cpp:150-270 | the symbol map's keys are distinct |
| Elements.BondLengthsPositive | element.cpp:273-294 | every tabulated average bond length is positive |
| Elements.TableWellFormed | element.cpp:18-294 | the source's tables are well formed |
| Elements.Value | element.cpp:310 | QMap::value(key, fallback): the value of the first entry with that key, else the fallback |
| Elements.ValueOfDistinct | element.cpp:310 | with distinct keys, the value of a key is its entry's value |
| Elements.DataRefAsWritten | element.cpp:296-300 | as written: entry num for 0..118, entry 0 below 0 or above 119, and None, marking the out-of-range `elements.at(119)` read, exactly for 119 |
| Elements.DataRef | element.cpp:296-300 | entry num for 0..118 and entry 0 otherwise; it agrees with the as-written lookup wherever that returns |
| Elements.ElementOf | element.cpp:303-306 | Element(int), built on the corrected DataRef: number num for 1..118 and 0 otherwise (119 included, where the source reads out of range); valid exactly for 1..118; the invalid element has no symbol |
| Elements.LookupSymbol | element.cpp:308-311 | the symbol map gives the number of the element whose lower-cased symbol the key is, and 0 otherwise |
| Elements.FromAbbr | element.cpp:308-311 | fromAbbr/Element(QString): valid exactly when the lower-cased text is a symbol, and then a number in 1..118 whose symbol matches ignoring case |
| Elements.FromAbbrOfElement | element.cpp:342-347 | the tables agree: the symbol of element k looks up element k, for 1..118 |
| Elements.FromAbbrIgnoresCase | element.cpp:310 | symbols are looked up without regard to case |
| Elements.Group | element.cpp:354-357 | −1000 exactly outside 1..118; otherwise −14..18 but not 0, negative exactly for the f-block 57..70 and 89..102 |
| Elements.CovalentRadius | element.cpp:369-372 | non-negative, and 0 outside 1..118 |
| Elements.BondKeySymmetric | element.cpp:315-322 | the bond key does not depend on the order of the two symbols |
| Elements.EstimateBondLength | element.cpp:313-329 | the tabulated average under the ordered lower-cased key when present, else the sum of the covalent radii |
| Elements.EstimateBondLengthSymmetric | element.cpp:313-329 | the estimate is symmetric in the two elements |
| CalculationUtil.ChargeSumAppend | calculation_util.cpp:6-12 | the charge of two joined atom lists is the sum of their charges |
| CalculationUtil.OverallCharge | calculation_util.cpp:6-12 | the loop returns the sum of the atoms' charges |
| CalculationUtil.BondCounts | calculation_util.cpp:16-23 | each bond adds its order at both ends: entry i is the summed order of the bonds touching atom i |
| CalculationUtil.BondOrderUntouched | calculation_util.cpp:16-23 | an atom no bond touches has bond order 0 |
| CalculationUtil.BondOrderAppend | calculation_util.cpp:16-23 | the bond count of an atom over two joined bond lists is the sum of its counts over each |
| CalculationUtil.OffsetBondsMissOld | molstruct.cpp:503-520 | a fragment bond moved by addFragment never touches an old atom other than 0, and touches atom 0 only through an endpoint outside the fragment |
| CalculationUtil.AddFragmentTotals | molstruct.cpp:503-520 | after addFragment the overall charge is the old charge plus the fragment's, and every old atom keeps its bond count (atom 0 too when the fragment's bonds stay inside it) |
| CalculationUtil.GroupSpin | calculation_util.cpp:51-84 | every group −14..18 but 0 gives 0..7 unpaired electrons; group 0 and groups below −14 give none; the guess is certain exactly for groups 1, 2 and 13 and above |
| CalculationUtil.Classify | calculation_util.cpp:30-49 | never an unknown group; an unpaired count lies in 0..7 and is certain exactly when the effective group (of number + bondOrder − charge) is neither 3..12 nor negative; H⁺ only at effective number 0 |
| CalculationUtil.UnpairedOfGroup | calculation_util.cpp:51-89 | the branch table as written returns GroupSpin |
| CalculationUtil.ClassifyAtom | calculation_util.cpp:28-49 | the per-atom step returns Classify |
| CalculationUtil.OverallSpin | calculation_util.cpp:14-97 | the loop returns SpinOf the atom classes: 0 when an atom fails, otherwise ±(1 + Σ unpaired), negative when a guess is uncertain |
| CalculationUtil.AtomSpins | calculation_util.cpp:100-180 | one entry per atom, entry i being SpinEntry of atom i's class: 0 when over-bonded or failing, 1 for H⁺, unpaired + 1 otherwise |
| CalculationUtil.AtomSpinsBounded | calculation_util.cpp:117-176 | every atomSpins entry lies in 0..8 |
| CalculationUtil.SpinMatchesAtomSpins | calculation_util.cpp:51-89 | a non-zero overallSpin has magnitude ≥ 1, and its magnitude less one is Σ(atomSpins[i] − 1) |
| CalculationUtil.SpinSign | calculation_util.cpp:52-95 | a non-zero spin is negative exactly when some atom's unpaired guess is uncertain (by Classify: its effective group is 3..12 or an f-block group) |
| MolStructGraphs.AdjacencyEntries | molstructgraph.cpp:3-12 | (i, p) is listed at atom a exactly when bond i joins a and p |
| MolStructGraphs.AdjacencySymmetric | molstructgraph.cpp:8-10 | bonds are listed at both ends, so adjacency is symmetric |
| MolStructGraphs.MolStructGraph.constructor | molstructgraph.cpp:3-12 | the lists are Adjacency of the molecule's bonds |
| MolStructGraphs.ShortestBound | molstructgraph.cpp:27-55 | once every atom below level d is expanded without meeting `to`, no path to it is shorter than d + 2 atoms |
| MolStructGraphs.Exhausted | molstructgraph.cpp:27-58 | once the search has nothing left to expand, no path leads to `to` |
| MolStructGraphs.Backtrack | molstructgraph.cpp:37-44 | a path of d + 2 atoms from `from` to `to` whose consecutive atoms are bonded |
| MolStructGraphs.VisitNeighbours | molstructgraph.cpp:32-53 | either a path of d + 2 atoms to `to`, or every new neighbour is given parent a at level d + 1 and queued, keeping the search invariant |
| MolStructGraphs.VisitBond | molstructgraph.cpp:33-50 | one bond of a: the target gives a path of d + 2 atoms; an unreached partner is given parent a, level d + 1 and queued, and leaves the unreached set; a reached partner changes nothing; the search invariant is kept |
| MolStructGraphs.ExpandLevel | molstructgraph.cpp:29-54 | either a path of d + 2 atoms, or the next queue is level d + 1 and no path shorter than d + 2 atoms exists; the unseen atoms shrink while the queue is non-empty |
| MolStructGraphs.VisitAtom | molstructgraph.cpp:76-82 | the result grows by id and then only by atoms reachable from the start without passing the avoided atom, with no duplicates, and no visited flag is cleared |
| MolStructGraphs.MolStructGraph.FindPathAsWritten | molstructgraph.cpp:14-59 | as written: a limit of 0 gives nothing; otherwise a shortest path, or nothing when no path exists, whatever the limit |
| MolStructGraphs.MolStructGraph.FindPath | molstructgraph.cpp:14-59 | with depth counted: a shortest path with at most `limit` intermediate atoms (atoms + 1 for a negative limit), or nothing exactly when every path is longer |
| MolStructGraphs.ChainPaths | molstructgraph.cpp:14-59 | on the chain 0-1-2-3 every path from 0 to 3 has two intermediate atoms, and one exists |
| MolStructGraphs.LimitIgnored | molstructgraph.cpp:26-27 | with a limit of one, findPath as written returns the path 0-1-2-3 and the corrected search returns nothing |
| MolStructGraphs.MolStructGraph.SelectBranch | molstructgraph.cpp:61-87 | empty exactly when `to` is not bonded to `from`; else starts with `to`, has no duplicates, never contains `from`, and holds exactly the atoms reachable from `to` without passing `from` |
| NWChemConfigurations.CollectScfParams | nwchemconfiguration.cpp:56-68 | the scf lines: maxiter when set, then sym off, adapt off and, for SCF, nopen spin−1 when a spin is set |
| NWChemConfigurations.CollectDftParams | nwchemconfiguration.cpp:75-82 | the dft lines: dft, xc functional, mult spin when set, end |
| NWChemConfigurations.GenerateConfig | nwchemconfiguration.cpp:50-110 | the appending steps return ConfigText: basis, scf block, dft block, driver block, memory line and task lines, in that order |
| NWChemConfigurations.ConfigFrame | nwchemconfiguration.cpp:50-115 | the deck opens with `basis\n  * library <basis>\nend\n` and always sets `memory total 4 gb` |
| NWChemConfigurations.ScfBlockPresent | nwchemconfiguration.cpp:56-71 | an scf block is written exactly when an iteration limit or a spin is set |
| NWChemConfigurations.NopenLine | nwchemconfiguration.cpp:66-67 | an scf line gives nopen exactly for SCF with a spin, and then it is the last line and gives spin − 1 |
| NWChemConfigurations.DftBlockPresent | nwchemconfiguration.cpp:73-85 | a dft block is written exactly for DFT, and it opens with the functional |
| NWChemConfigurations.MultLine | nwchemconfiguration.cpp:79-80 | a dft line gives mult exactly when a spin is set, and it gives the spin |
| NWChemConfigurations.DriverBlockPresent | nwchemconfiguration.cpp:87-88 | a driver block is written exactly when optimising with an iteration limit |
| NWChemConfigurations.TaskChoice | nwchemconfiguration.cpp:93-107 | the first task optimises exactly when taskOpt and a freq task follows exactly when taskFreq, both on scf or dft by the method |
| NWChemConfigurations.LoadRejects | nwchemconfiguration.cpp:15-17 | loading rejects exactly the method codes other than SCF and DFT |
| NWChemConfigurations.LoadStore | nwchemconfiguration.cpp:15-25 | with the spin stored into the optional, settings survive a store and load |
| NWChemConfigurations.SpinLostOnLoad | nwchemconfiguration.cpp:24-25 | as written (taking the usual effect of the undefined write: the optional stays empty), a stored spin does not come back: the reloaded settings have no spin and differ from the saved ones |
| OptimizerNWChem.FormatStepsAsWritten | optimizernwchem.cpp:14-42 | as written: "" exactly when there are fewer than three steps |
| OptimizerNWChem.FormatSteps | optimizernwchem.cpp:14-42 | with the header row closed by `</th></tr>`: "" exactly when there are fewer than three steps |
| OptimizerNWChem.FormatStepsRows | optimizernwchem.cpp:17-39 | with three or more steps the table is the style, one well-formed header row of the first step's titles, one value row of the last step's values, and the table end |
| OptimizerNWChem.HeaderRowMismatch | optimizernwchem.cpp:37 | as written the header row is never the well-formed one: it closes `<th>` cells with `</td>` |
| OptimizerNWChem.FormatStepsUsesEnds | optimizernwchem.cpp:30-36 | only the first and the last step lines show in the table |
| OptimizerNWChem.HeaderSplitLossless | optimizernwchem.cpp:30-33 | splitting the title line on double spaces loses no text but the two-character prefix |
| OptimizerNWChem.DataCellsShape | optimizernwchem.cpp:34-36 | every value cell is non-empty and holds no space |
| OptimizerNWChem.CopyChargeAndBonds | optimizernwchem.cpp:75-93 | equal atom counts: `to`'s atoms with `from`'s charge at each index and `from`'s bonds; otherwise `to` unchanged |
| OptimizerNWChem.LastDate | optimizernwchem.cpp:46 | the last "date:" at or before a position and after the atom prefix, which the greedy group ends at |
| OptimizerNWChem.FrequencyFeedback | optimizernwchem.cpp:44-64 | scanning from the last line down to start: "" when no line gives feedback, else the text of the last line that does (the trimmed ` atom: …` group or the simplified ` HESSIAN:` line) |
| OptimizerNWChem.DplotOrbitals | optimizernwchem.cpp:411-446 | fails with "Invailid orbital id for dplot" exactly when the name is neither density surface and its id text does not convert; "total" and "spindensity" give their spin lines |
| OptimizerNWChem.NotDensityName | optimizernwchem.cpp:411-418 | a name ending in a digit or a channel letter is neither density surface |
| OptimizerNWChem.DplotOfOrbitalId | optimizernwchem.cpp:419-446 | every orbital id the output parser writes selects that orbital with its channel's spin |
| FileHandlers.SuffixOf | filehandlers.cpp:71 | a path ending in '.' and an extension has that extension as its suffix |
| FileHandlers.OpenableSuffixes | filehandlers.cpp:27-80 | a type the table opens lists the suffix exactly when it is cvproj, cube, mol, sdf, out, nwout, log or xyz |
| FileHandlers.SavableSuffixes | filehandlers.cpp:27-93 | a type the table saves lists the suffix exactly when it is cvproj, mol, sdf, nw or xyz |
| FileHandlers.Globs | filehandlers.cpp:106-108 | "*." before each extension, in order |
| FileHandlers.OpenEntries | filehandlers.cpp:95-116 | the open entries are the five openable types in table order |
| FileHandlers.SaveEntries | filehandlers.cpp:118-139 | the save entries are the four savable types in table order |
| FileHandlers.EntriesClean | filehandlers.cpp:109 | the entries of the table hold no ';', so ";;" separates them unambiguously |
| FileHandlers.OpenFiltersSplit | filehandlers.cpp:95-116 | splitting the open filters on ";;" gives "All files (*.*)" and then each openable type's entry |
| FileHandlers.SaveFiltersSplit | filehandlers.cpp:118-139 | splitting the save filters on ";;" gives each savable type's entry, and no "All files" entry |
| FileHandlers.Handlers.constructor | filehandlers.cpp:23 | the three statics start empty |
| FileHandlers.Handlers.GetFileTypes | filehandlers.cpp:21-67 | the table, built on the first call and returned unchanged afterwards |
| FileHandlers.Handlers.FindType | filehandlers.cpp:73-79 | the loop holds exactly when a type of that kind lists the suffix |
| FileHandlers.Handlers.CanOpenPath | filehandlers.cpp:69-80 | true exactly when the path's suffix is one ChemView opens |
| FileHandlers.Handlers.CanSavePath | filehandlers.cpp:82-93 | true exactly when the path's suffix is one ChemView saves |
| FileHandlers.Handlers.GlobList | filehandlers.cpp:106-108 | the inner loop returns Globs of the extensions |
| FileHandlers.Handlers.EntryList | filehandlers.cpp:102-111 | the outer loop returns the first entries followed by Entries of the table |
| FileHandlers.Handlers.GetOpenFilters | filehandlers.cpp:95-116 | the cached open filters, built from the table on the first call |
| FileHandlers.Handlers.GetSaveFilters | filehandlers.cpp:118-139 | the cached save filters, built from the table while the cache is empty |

## Left out

- GUI, 3D rendering, process control and file I/O are not modelled. This covers `run`, `kill`, `readAndLogOutput`, the project-file code, `readFile` and `molFromOutputPath`. Inside `run` only the surface-name to dplot mapping is modelled.
- Text.ToLower: lower-cases only the ASCII letters A-Z. QString::toLower follows Unicode case mapping, so non-ASCII letters keep their case in the model. Text.Trim and the other trims strip only ASCII whitespace, where QString::trimmed (for example on the element symbols at nwchem.cpp:361 and optimizernwchem.cpp:55) also strips Unicode spaces. Input text is taken as characters already: the QString::fromUtf8 decoding at nwchem.cpp:355, 404, 752 and 794 is not modelled.
- Elements.FromAbbr: follows Text.ToLower, so a symbol written with non-ASCII letters is not found. For example, the Kelvin sign U+212A lower-cases to 'k' in QString::toLower, so Element("\u212A") is potassium (19) at element.cpp:310 and 344, while the model gives the invalid element. The same holds where element symbols are looked up, as at molstruct.cpp:626-627.
- `generateTaskHeader` (optimizernwchem.cpp:66-73) is HTML formatting of the configuration and is not part of this model.
- `std::regex` is not modelled as an engine. Each pattern is a hand-written predicate or capture function on one line, read greedily as the source's patterns are.
- `QString::toInt` and `toDouble` are the parameter `num`. The concrete instance reads decimal text only: no locale and no hexadecimal.
- `QString::simplified` is modelled as whitespace-separated words joined by single spaces.
- Floating-point numbers are exact `real`s, so rounding is not modelled. The enthalpy and Gibbs arithmetic (nwchem.cpp:683, 715) are `real` formulas. `QString::number(x, 'f', -1)` is the parameter `format`.
- `qWarning` and `qDebug` are omitted: they have no effect on state. The same goes for the `#if 0` debug block of `parse`.
- Coordinates, `fromXYZData`, `toXYZFile`, `bounds`, `recenter`, `recenterOn`, `addHydrogenToAtom`, `eraseGroup`, `replaceLeafWithRGroup` and `percieveBonds` are floating-point geometry and are not modelled. The coordinate text of `toMolFile` is not modelled either; only its `M  CHG` block is.
- Element names, masses and empirical radii are not modelled. `name()`, `averageMass()` and `empiricalRadius()` are plain table reads.
- `std::sort` in parseOrbitals is modelled as an insertion sort by energy. The order of orbitals with equal energies is therefore not modelled.
- `NWChemConfiguration`'s JSON parsing and `serialize` are not modelled, since they wrap QJson. Loading works on the stored field values (`Stored`); only the method check and the spin assignment are modelled.
- The table operations of `calc_util` and `Element` take the element table as a parameter `t` with `requires WellFormed(t)`. `TableWellFormed` proves that for the source's table.
- `parseIncremental` returns false after `qWarning` when no task holds the start section. The model proves that this cannot happen once the tasks are regrouped.
- LineBuffers.LineBuffer.JoinRange: requires start ≥ 0. Its callers `joined` and `joinLast` never pass a negative start, and a negative start below the size would index `lines[start]` out of range.
- OptimizerNWChem.FrequencyFeedback: requires start ≥ 0. A negative start would read `lines.at(-1)` out of range once every line had been passed.
- NWChem.Parser.ParseFrequencyTask: requires end ≥ 1. `findTasks` gives a frequency task at least its Frequency section, so `sections[end-1]` exists. It uses the corrected FrequencyTarget: an open task (end == number of sections) is left alone, where nwchem.cpp:308 reads `sections[end]` out of range.
- NWChem.Parser.FindSections: runs the corrected scan, which does not record a banner at or before the last recorded start. nwchem.cpp:213-233 records every visited banner, so the line two incremental scans share is recorded twice (NWChemScan.RescanDuplicates); the model does not reproduce that duplicate.
- NWChem.Parser.AppendAndScan: rescans with the corrected FindSections, so it does not record the shared line a second time as nwchem.cpp:150-157 does.
- NWChem.Parser.ParseIncremental: built on the corrected rescan and extractors. On input where the source records a duplicate section (NWChemScan.RescanDuplicates), the source's section list grows and it returns true and parses again; the model returns false there.
- NWChem.Parser.ContinueIncremental: re-reading the continued input section replaces the bonds (the source appends them again, NWChemExtract.AppendBondsTwice), and an open frequency task is left alone.
- NWChem.Parser.ParseConnectivity: replaces the bond list with the table, the corrected form; nwchem.cpp:396-417 appends the table to the document's bonds. Its row loop is bounded by the `bound` parameter, which the parser sets to the section end where nwchem.cpp:399 reads to `lines.size()`.
- NWChem.Parser.ParseInputSection: passes the section end as the row bound and replaces the bonds, the corrected forms of nwchem.cpp:353, 399 and 396-417.
- NWChem.Parser.ParseEnergyLine: geometry rows end at the section end, where nwchem.cpp:353 reads to `lines.size()` (NWChemExtract.GeometryReadsPastSection).
- NWChem.Parser.ParseEnergySection: inherits the corrected section-end row bound of NWChemExtract.EnergyStep.
- NWChem.Parser.ParseGeomEnergyTask: runs the corrected energy and input sections (section-end row bound, bonds replaced).
- NWChem.Parser.Parse: runs the corrected scan and extractors, not the source's duplicate recording, bond appending and buffer-end row bound; each of those is shown separately under "## Findings".
- NWChemExtract.EnergyStep: geometry rows end at the section end (`Geometry(num, lines, i, endLine, endLine)`), where nwchem.cpp:353 reads to `lines.size()`.
- NWChemExtract.InputSection: rows end at the section end and the bond list is replaced, where nwchem.cpp:353, 399 read to `lines.size()` and nwchem.cpp:396-417 appends.
- Elements.ElementOf: Element(119) gives the invalid element through the corrected DataRef. In the source `Element(119)` reaches `elements.at(119)`, an out-of-range read (undefined in release builds); calculation_util.cpp:43 and 131 can produce 119, so CalculationUtil.Classify, OverallSpin and AtomSpins inherit the corrected value.
- NWChemExtract.Modes: a component row too short for a mode's column gives the failure RaggedEigenvectors. nwchem.cpp:808-813 indexes `eigenByAtom[j+1][i]` unchecked, which is undefined; the message is the model's, not the program's. NWChem.BuildModes does the same.
- MolStructs.ReadBlocks: a counts line promising more atom or bond lines than remain gives the failure ReadPastEnd. molstruct.cpp:94 and 110 dereference past the last line, which is undefined; the message is the model's. MolStructs.FromSdfData, AtomBlock and BondBlock do the same.
- NWChemExtract.Solvent: the block loop reads `lines.at(endLine)` after the section's last line (nwchem.cpp:576-578). In the last section endLine is the line count, so a solvent block with no empty line after it reads out of range, which is undefined; the model stops at the end of the buffer. NWChem.Parser.ParseSolvent does the same.
- CalculationUtil.BondCounts: requires every bond to name existing atoms, because calculation_util.cpp:20-21 indexes `bondCounts[b.from]` and `bondCounts[b.to]` unchecked. NWChem connectivity bonds (nwchem.cpp:404-411) are not range-checked, so a dangling bond there is undefined in the source and excluded here.
- CalculationUtil.OverallSpin: requires every bond to name existing atoms, for the same unchecked `bondCounts` indexing (calculation_util.cpp:20-21).
- CalculationUtil.AtomSpins: requires every bond to name existing atoms, because calculation_util.cpp:108-109 indexes `bondCounts` unchecked.
- MolStructGraphs.MolStructGraph.constructor: requires every bond to name existing atoms, because molstructgraph.cpp:9-10 indexes `atoms[b.from]` and `atoms[b.to]` unchecked.
- MolStructs.MolStruct.IsLeafGroup: requires every bond to name existing atoms, because molstruct.cpp:278-280 reads `atoms[bond.from]` and `atoms[bond.to]` unchecked.
- NWChemExtract.GeometryRow: a row of fewer than two fields gives None, and so the geometry error. nwchem.cpp:361 reads `lineData.at(1)` out of range there, which is undefined.
- MolStructGraphs.MolStructGraph.SelectBranch: when `from == to` and the atom is bonded to itself, the contract states only the first entry and the absence of duplicates.
- MolStructGraphs.MolStructGraph.FindPath: requires `0 <= from < |atoms|`, because the source writes `visited[from]` unchecked.
- OptimizerNWChem.DplotOfOrbitalId: stated for vector numbers in the 32-bit range, the range `toIntOrThrow` can produce.

## Findings

| source | as written | input that shows it | evidently intended | confidence | as-written member | corrected member |
|---|---|---|---|---|---|---|
| nwchem.cpp:257-262, 308 | an open last task gets end == sections.size(), and parseFrequencyTask reads sections[end] | sections [ModuleInput, Frequency] of a frequency run still in progress: the task is (Frequency, 0, 2) | leave an open task alone until its Terminate arrives | high, not executed | NWChemExtract.OpenFrequencyTask | NWChemExtract.FrequencyTarget |
| nwchem.cpp:151-157, 213-220 | successive incremental scans share line max(n−2,0), and findSections always records its start line | stream "\n" + b + "\n" for a banner b, then the chunk "x": the section on line 1 is recorded twice | record each line's section once, keeping starts increasing | high, not executed | NWChemScan.RescanDuplicates | NWChemScan.RescanIncreasing |
| nwchem.cpp:396-417 | parseConnectivity appends the table's bonds to the molecule's, so reading a table again duplicates them | any non-empty connectivity table parsed twice | the table replaces the bond list | medium, not executed | NWChemExtract.AppendBondsTwice | NWChemExtract.ReplaceBondsIdempotent |
| nwchem.cpp:353 | the geometry row loop is bounded by lines.size(), not by the section end | lines [banner, header, rule, next module banner] with the section ending at line 3 | stop at the section end | medium, not executed | NWChemExtract.GeometryReadsPastSection | NWChemExtract.GeometryWithinSection |
| molstructgraph.cpp:26-27 | depth is never incremented, so a positive limit does not bound the search | chain 0-1-2-3, findPath(0, 3, 1) | at most `limit` intermediate atoms | high, not executed | MolStructGraphs.LimitIgnored | MolStructGraphs.MolStructGraph.FindPath |
| element.cpp:297 | the guard `num > elements.size()` lets 119 through to elements.at(119) | Element(119) | `num >= elements.size()` gives entry 0 | high, not executed | Elements.DataRefAsWritten | Elements.DataRef |
| nwchemconfiguration.cpp:24-25 | `*spin = …` assigns through an empty std::optional, which is undefined; in practice the optional stays empty and a stored spin is not loaded | settings with spin 2, serialised and read back | `spin = …` sets the optional | high, not executed | NWChemConfigurations.SpinLostOnLoad | NWChemConfigurations.LoadStore |
| optimizernwchem.cpp:37 | the header row of `<th>` cells is closed with `</td></tr>` | any three steps | close it with `</th></tr>` | high, not executed | OptimizerNWChem.HeaderRowMismatch | OptimizerNWChem.FormatStepsRows |
