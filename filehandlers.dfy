/**
 * The file types ChemView knows (filehandlers.cpp): which path suffixes it can
 * open or save, and the filter strings of its open and save dialogs. The table
 * and the two filter strings are function-local statics in the source, filled on
 * first use; here they are the fields of `Handlers`, empty until filled.
 */
module FileHandlers {
  import opened Text

  datatype FileTypeInfo = FileTypeInfo(name: string, extensions: seq<string>, canOpen: bool, canSave: bool)

  const CvProj := FileTypeInfo("ChemView Project", ["cvproj"], true, true)
  const GaussianCube := FileTypeInfo("Gaussian Cube", ["cube"], true, false)
  const MolFile := FileTypeInfo("MOL/SDF", ["mol", "sdf"], true, true)
  const NWChemOutput := FileTypeInfo("NWChem Output", ["out", "nwout", "log"], true, false)
  const NWChemInput := FileTypeInfo("NWChem Input", ["nw"], false, true)
  const XyzFile := FileTypeInfo("XYZ (Cartesian)", ["xyz"], true, true)

  /** The table getFileTypes builds, in order. */
  const FileTable: seq<FileTypeInfo> := [CvProj, GaussianCube, MolFile, NWChemOutput, NWChemInput, XyzFile]

  const AllFiles: string := "All files (*.*)"
  const FilterSep: string := ";;"

  // ---------------------------------------------------------------------------
  // Path suffixes

  /** Index of the last `c` in `s`, or -1. */
  function LastIndexOf(s: string, c: char): (r: int)
    ensures -1 <= r < |s|
    ensures r >= 0 ==> s[r] == c
    ensures forall k :: r < k < |s| ==> s[k] != c
  {
    if s == [] then -1
    else if s[|s| - 1] == c then |s| - 1
    else LastIndexOf(s[..|s| - 1], c)
  }

  /**
   * QFileInfo::suffix: the text after the last '.' of the file name (the part
   * after the last '/'), "" when the file name has no '.'.
   */
  function Suffix(path: string): (r: string)
    ensures forall k :: 0 <= k < |r| ==> r[k] != '.' && r[k] != '/'
  {
    var slash := LastIndexOf(path, '/');
    var dot := LastIndexOf(path, '.');
    if dot <= slash then "" else path[dot + 1..]
  }

  /** The last `c` is at `i` when `s[i]` is one and none follows it. */
  lemma LastIndexAt(s: string, c: char, i: nat)
    requires i < |s| && s[i] == c
    requires forall k :: i < k < |s| ==> s[k] != c
    ensures LastIndexOf(s, c) == i
  {
  }

  /** In a path ending in "." and an extension free of '.' and '/', the dot is the last '.' and no '/' follows it. */
  lemma DotIsLast(stem: string, ext: string)
    requires '.' !in ext && '/' !in ext
    ensures forall k :: |stem| < k < |stem + "." + ext| ==> (stem + "." + ext)[k] != '.' && (stem + "." + ext)[k] != '/'
    ensures (stem + "." + ext)[|stem|] == '.'
  {
    var path := stem + "." + ext;
    forall k | |stem| < k < |path|
      ensures path[k] != '.' && path[k] != '/'
    {
      assert path[k] == ext[k - |stem| - 1];
    }
  }

  /** The suffix is what follows a '.' after which no '.' or '/' comes. */
  lemma SuffixAfterDot(path: string, dot: nat)
    requires dot < |path| && path[dot] == '.'
    requires forall k :: dot < k < |path| ==> path[k] != '.' && path[k] != '/'
    ensures Suffix(path) == path[dot + 1..]
  {
    LastIndexAt(path, '.', dot);
  }

  /** A path ending in "." followed by an extension has that extension as its suffix. */
  lemma SuffixOf(stem: string, ext: string)
    requires '.' !in ext && '/' !in ext
    ensures Suffix(stem + "." + ext) == ext
  {
    DotIsLast(stem, ext);
    SuffixAfterDot(stem + "." + ext, |stem|);
    assert (stem + "." + ext)[|stem| + 1..] == ext;
  }

  // ---------------------------------------------------------------------------
  // What the table offers

  /** Some type the dialog of that kind offers lists the suffix. */
  predicate Offered(types: seq<FileTypeInfo>, suffix: string, save: bool) {
    exists k :: 0 <= k < |types| && (if save then types[k].canSave else types[k].canOpen) && suffix in types[k].extensions
  }

  /** The suffixes ChemView opens. */
  lemma OpenableSuffixes(suffix: string)
    ensures Offered(FileTable, suffix, false) <==> suffix in ["cvproj", "cube", "mol", "sdf", "out", "nwout", "log", "xyz"]
  {
    if suffix in ["cvproj", "cube", "mol", "sdf", "out", "nwout", "log", "xyz"] {
      if suffix == "cvproj" { assert FileTable[0] == CvProj; }
      else if suffix == "cube" { assert FileTable[1] == GaussianCube; }
      else if suffix == "mol" || suffix == "sdf" { assert FileTable[2] == MolFile; }
      else if suffix == "xyz" { assert FileTable[5] == XyzFile; }
      else { assert FileTable[3] == NWChemOutput; }
    }
  }

  /** The suffixes ChemView saves. */
  lemma SavableSuffixes(suffix: string)
    ensures Offered(FileTable, suffix, true) <==> suffix in ["cvproj", "mol", "sdf", "nw", "xyz"]
  {
    if suffix in ["cvproj", "mol", "sdf", "nw", "xyz"] {
      if suffix == "cvproj" { assert FileTable[0] == CvProj; }
      else if suffix == "nw" { assert FileTable[4] == NWChemInput; }
      else if suffix == "xyz" { assert FileTable[5] == XyzFile; }
      else { assert FileTable[2] == MolFile; }
    }
  }

  // ---------------------------------------------------------------------------
  // Dialog filters

  /** "*.ext" for each extension, in order. */
  function Globs(extensions: seq<string>): (r: seq<string>)
    ensures |r| == |extensions|
    ensures forall k :: 0 <= k < |r| ==> r[k] == "*." + extensions[k]
  {
    if extensions == [] then [] else Globs(extensions[..|extensions| - 1]) + ["*." + extensions[|extensions| - 1]]
  }

  /** One dialog entry: "Name (*.a *.b)". */
  function FilterEntry(t: FileTypeInfo): string {
    t.name + " (" + Join(Globs(t.extensions), " ") + ")"
  }

  /** The entries of the types the dialog offers, in table order. */
  function Entries(types: seq<FileTypeInfo>, save: bool): (r: seq<string>)
    ensures |r| <= |types|
  {
    if types == [] then []
    else
      var t := types[|types| - 1];
      Entries(types[..|types| - 1], save) + (if (if save then t.canSave else t.canOpen) then [FilterEntry(t)] else [])
  }

  /** getOpenFilters: "All files (*.*)" and one entry per openable type, joined by ";;". */
  function OpenFilters(types: seq<FileTypeInfo>): string {
    Join([AllFiles] + Entries(types, false), FilterSep)
  }

  /** getSaveFilters: one entry per savable type, joined by ";;", with no all-files entry. */
  function SaveFilters(types: seq<FileTypeInfo>): string {
    Join(Entries(types, true), FilterSep)
  }

  /** The entry a type contributes to the dialog of that kind: its own, or none. */
  function Offer(t: FileTypeInfo, save: bool): seq<string> {
    if (if save then t.canSave else t.canOpen) then [FilterEntry(t)] else []
  }

  /** Entries of a table of six types, type by type. */
  lemma EntriesOfSix(types: seq<FileTypeInfo>, save: bool)
    requires |types| == 6
    ensures Entries(types, save) ==
      Offer(types[0], save) + Offer(types[1], save) + Offer(types[2], save) +
      Offer(types[3], save) + Offer(types[4], save) + Offer(types[5], save)
  {
    EntriesStep(types, 0, save);
    assert types[..0] == [];
    assert Entries(types[..1], save) == Offer(types[0], save);
    EntriesStep(types, 1, save);
    EntriesStep(types, 2, save);
    EntriesStep(types, 3, save);
    EntriesStep(types, 4, save);
    EntriesStep(types, 5, save);
    assert types[..6] == types;
  }

  /** One more type of the table adds its offer to the entries. */
  lemma EntriesStep(types: seq<FileTypeInfo>, k: nat, save: bool)
    requires k < |types|
    ensures Entries(types[..k + 1], save) == Entries(types[..k], save) + Offer(types[k], save)
  {
    assert types[..k + 1][..k] == types[..k];
  }

  /** The open dialog lists, after "All files", the five openable types in table order. */
  lemma OpenEntries(types: seq<FileTypeInfo>)
    requires types == FileTable
    ensures Entries(types, false) ==
      [FilterEntry(CvProj), FilterEntry(GaussianCube), FilterEntry(MolFile), FilterEntry(NWChemOutput), FilterEntry(XyzFile)]
  {
    EntriesOfSix(types, false);
    assert types[0] == CvProj && types[1] == GaussianCube && types[2] == MolFile;
    assert types[3] == NWChemOutput && types[4] == NWChemInput && types[5] == XyzFile;
  }

  /** The save dialog lists the four savable types in table order. */
  lemma SaveEntries(types: seq<FileTypeInfo>)
    requires types == FileTable
    ensures Entries(types, true) == [FilterEntry(CvProj), FilterEntry(MolFile), FilterEntry(NWChemInput), FilterEntry(XyzFile)]
  {
    EntriesOfSix(types, true);
    assert types[0] == CvProj && types[1] == GaussianCube && types[2] == MolFile;
    assert types[3] == NWChemOutput && types[4] == NWChemInput && types[5] == XyzFile;
  }

  /** No ';' in a type's name or extensions. */
  predicate Clean(t: FileTypeInfo) {
    ';' !in t.name && forall k :: 0 <= k < |t.extensions| ==> ';' !in t.extensions[k]
  }

  lemma TableClean()
    ensures Clean(CvProj) && Clean(GaussianCube) && Clean(MolFile)
    ensures Clean(NWChemOutput) && Clean(NWChemInput) && Clean(XyzFile)
  {
    CleanCvProj();
    CleanGaussianCube();
    CleanMolFile();
    CleanNWChemOutput();
    CleanNWChemInput();
    CleanXyzFile();
  }
  lemma CleanCvProj() ensures Clean(CvProj) {}
  lemma CleanGaussianCube() ensures Clean(GaussianCube) {}
  lemma CleanMolFile() ensures Clean(MolFile) {}
  lemma CleanNWChemOutput() ensures Clean(NWChemOutput) {}
  lemma CleanNWChemInput() ensures Clean(NWChemInput) {}
  lemma CleanXyzFile() ensures Clean(XyzFile) {}

  /** An entry of a clean type holds no ';'. */
  lemma EntryHasNoSemicolon(t: FileTypeInfo)
    requires Clean(t)
    ensures ';' !in FilterEntry(t)
  {
    var globs := Globs(t.extensions);
    forall k | 0 <= k < |globs|
      ensures ';' !in globs[k]
    {
      assert globs[k] == "*." + t.extensions[k];
    }
    JoinAvoids(globs, " ", ';');
  }

  /** Entries free of ';' come back whole when the joined filters are split on ";;". */
  lemma SplitFilters(parts: seq<string>)
    requires |parts| >= 1
    requires forall k :: 0 <= k < |parts| ==> ';' !in parts[k]
    ensures Split2(Join(parts, FilterSep), FilterSep) == parts
  {
    assert |FilterSep| == 2 && FilterSep[0] == ';';
    Split2OfJoin(parts, FilterSep);
  }

  /** The entries of clean types hold no ';'. */
  lemma {:induction false} EntriesClean(types: seq<FileTypeInfo>, save: bool)
    requires forall k :: 0 <= k < |types| ==> Clean(types[k])
    ensures forall k :: 0 <= k < |Entries(types, save)| ==> ';' !in Entries(types, save)[k]
  {
    if types != [] {
      EntriesClean(types[..|types| - 1], save);
      EntryHasNoSemicolon(types[|types| - 1]);
    }
  }

  /** Every type of the table is clean. */
  lemma TableAllClean(types: seq<FileTypeInfo>)
    requires types == FileTable
    ensures forall k :: 0 <= k < |types| ==> Clean(types[k])
  {
    TableClean();
  }

  /** Splitting the open filters on ";;" gives "All files" and then the entry of each openable type. */
  lemma OpenFiltersSplit(types: seq<FileTypeInfo>)
    requires types == FileTable
    ensures Split2(OpenFilters(types), FilterSep) == [AllFiles] + Entries(types, false)
  {
    TableAllClean(types);
    EntriesClean(types, false);
    var parts := [AllFiles] + Entries(types, false);
    assert ';' !in AllFiles;
    assert forall k :: 0 <= k < |parts| ==> ';' !in parts[k] by {
      forall k | 0 <= k < |parts|
        ensures ';' !in parts[k]
      {
        if k > 0 {
          assert parts[k] == Entries(types, false)[k - 1];
        }
      }
    }
    SplitFilters(parts);
  }

  /** Splitting the save filters on ";;" gives the entry of each savable type, and no "All files" entry. */
  lemma SaveFiltersSplit(types: seq<FileTypeInfo>)
    requires types == FileTable
    ensures Split2(SaveFilters(types), FilterSep) == Entries(types, true)
    ensures AllFiles !in Split2(SaveFilters(types), FilterSep)
  {
    TableAllClean(types);
    EntriesClean(types, true);
    var parts := Entries(types, true);
    SaveEntries(types);
    SplitFilters(parts);
    forall k | 0 <= k < |parts|
      ensures parts[k] != AllFiles
    {
      assert parts[k][0] != AllFiles[0];
    }
  }

  // ---------------------------------------------------------------------------
  // The statics

  class Handlers {
    /** The static table of getFileTypes. */
    var fileTypes: seq<FileTypeInfo>
    /** The static strings of getOpenFilters and getSaveFilters. */
    var openFilters: string
    var saveFilters: string

    /** Each static is empty or holds its one value; the filters are only built after the table. */
    ghost predicate Valid()
      reads this
    {
      (fileTypes == [] || fileTypes == FileTable) &&
      (openFilters == "" || openFilters == OpenFilters(FileTable)) &&
      (saveFilters == "" || saveFilters == SaveFilters(FileTable)) &&
      (openFilters != "" || saveFilters != "" ==> fileTypes == FileTable)
    }

    constructor ()
      ensures Valid() && fileTypes == [] && openFilters == "" && saveFilters == ""
    {
      fileTypes := [];
      openFilters := "";
      saveFilters := "";
    }

    /** getFileTypes: the table, built on the first call and returned unchanged afterwards. */
    method GetFileTypes() returns (types: seq<FileTypeInfo>)
      requires Valid()
      modifies this
      ensures Valid() && types == FileTable && fileTypes == FileTable
      ensures openFilters == old(openFilters) && saveFilters == old(saveFilters)
    {
      if fileTypes != [] {
        return fileTypes;
      }
      fileTypes := fileTypes + [CvProj];
      fileTypes := fileTypes + [GaussianCube];
      fileTypes := fileTypes + [MolFile];
      fileTypes := fileTypes + [NWChemOutput];
      fileTypes := fileTypes + [NWChemInput];
      fileTypes := fileTypes + [XyzFile];
      types := fileTypes;
    }

    /** The loop shared by canOpenPath and canSavePath: whether a type of that kind lists the suffix. */
    method FindType(suffix: string, save: bool) returns (r: bool)
      requires Valid()
      modifies this
      ensures Valid() && fileTypes == FileTable
      ensures openFilters == old(openFilters) && saveFilters == old(saveFilters)
      ensures r <==> Offered(FileTable, suffix, save)
    {
      var types := GetFileTypes();
      var i := 0;
      while i < |types|
        invariant 0 <= i <= |types|
        invariant forall k :: 0 <= k < i ==> !((if save then types[k].canSave else types[k].canOpen) && suffix in types[k].extensions)
      {
        if (if save then types[i].canSave else types[i].canOpen) && suffix in types[i].extensions {
          return true;
        }
        i := i + 1;
      }
      return false;
    }

    /** canOpenPath: the path's suffix is one ChemView opens. */
    method CanOpenPath(path: string) returns (r: bool)
      requires Valid()
      modifies this
      ensures Valid() && fileTypes == FileTable
      ensures openFilters == old(openFilters) && saveFilters == old(saveFilters)
      ensures r <==> Suffix(path) in ["cvproj", "cube", "mol", "sdf", "out", "nwout", "log", "xyz"]
    {
      r := FindType(Suffix(path), false);
      OpenableSuffixes(Suffix(path));
    }

    /** canSavePath: the path's suffix is one ChemView saves. */
    method CanSavePath(path: string) returns (r: bool)
      requires Valid()
      modifies this
      ensures Valid() && fileTypes == FileTable
      ensures openFilters == old(openFilters) && saveFilters == old(saveFilters)
      ensures r <==> Suffix(path) in ["cvproj", "mol", "sdf", "nw", "xyz"]
    {
      r := FindType(Suffix(path), true);
      SavableSuffixes(Suffix(path));
    }

    /** The inner loop of both filter builders: "*." before each extension. */
    method GlobList(extensions: seq<string>) returns (list: seq<string>)
      ensures list == Globs(extensions)
    {
      list := [];
      var j := 0;
      while j < |extensions|
        invariant 0 <= j <= |extensions|
        invariant list == Globs(extensions[..j])
      {
        assert extensions[..j + 1][..j] == extensions[..j];
        list := list + ["*." + extensions[j]];
        j := j + 1;
      }
      assert extensions[..j] == extensions;
    }

    /** The outer loop of both filter builders: an entry for each type of that kind, after `first`. */
    method EntryList(types: seq<FileTypeInfo>, first: seq<string>, save: bool) returns (filterList: seq<string>)
      ensures filterList == first + Entries(types, save)
    {
      filterList := first;
      var i := 0;
      while i < |types|
        invariant 0 <= i <= |types|
        invariant filterList == first + Entries(types[..i], save)
      {
        assert types[..i + 1][..i] == types[..i];
        if (if save then types[i].canSave else types[i].canOpen) {
          var extensionList := GlobList(types[i].extensions);
          filterList := filterList + [types[i].name + " (" + Join(extensionList, " ") + ")"];
        }
        i := i + 1;
      }
      assert types[..i] == types;
    }

    /** getOpenFilters: built from the table on the first call, the cached string afterwards. */
    method GetOpenFilters() returns (r: string)
      requires Valid()
      modifies this
      ensures Valid() && fileTypes == FileTable && saveFilters == old(saveFilters)
      ensures r == openFilters == OpenFilters(FileTable)
    {
      if openFilters == "" {
        var types := GetFileTypes();
        var filterList := EntryList(types, [AllFiles], false);
        openFilters := Join(filterList, FilterSep);
      }
      r := openFilters;
    }

    /** getSaveFilters: built from the table when the cached string is empty. */
    method GetSaveFilters() returns (r: string)
      requires Valid()
      modifies this
      ensures Valid() && fileTypes == FileTable && openFilters == old(openFilters)
      ensures r == saveFilters == SaveFilters(FileTable)
    {
      if saveFilters == "" {
        var types := GetFileTypes();
        var filterList := EntryList(types, [], true);
        assert filterList == Entries(FileTable, true);
        saveFilters := Join(filterList, FilterSep);
      }
      r := saveFilters;
    }
  }
}
