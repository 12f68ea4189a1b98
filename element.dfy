/**
 * Element (element.cpp, element.h): chemical elements by atomic number and the
 * constant tables behind them: the element table (number, symbol, covalent
 * radius), the lower-case symbol map, the periodic groups and the average bond
 * lengths. Each long table is written in consecutive parts, joined in order, so
 * that the verifier can look entries up part by part; the joined constant is
 * the table of the source.
 */
module Elements {
  import opened Wrappers
  import opened Text

  /** One row of the element table; names, masses and empirical radii are left out. */
  datatype ElementData = ElementData(number: int, abbr: string, covalentRadius: real)

  /** Entry 0 of the element table: the invalid element, with no symbol. */
  const NoElement := ElementData(0, "", 0.0)

  /** Element table, atomic numbers 1..15. */
  const ElementsA: seq<ElementData> := [
    ElementData(1, "H", 0.32), ElementData(2, "He", 0.46), ElementData(3, "Li", 1.33),
    ElementData(4, "Be", 1.02), ElementData(5, "B", 0.85), ElementData(6, "C", 0.75),
    ElementData(7, "N", 0.71), ElementData(8, "O", 0.63), ElementData(9, "F", 0.64),
    ElementData(10, "Ne", 0.67), ElementData(11, "Na", 1.55), ElementData(12, "Mg", 1.39),
    ElementData(13, "Al", 1.26), ElementData(14, "Si", 1.16), ElementData(15, "P", 1.11)
  ]

  /** Element table, atomic numbers 16..30. */
  const ElementsB: seq<ElementData> := [
    ElementData(16, "S", 1.03), ElementData(17, "Cl", 0.99), ElementData(18, "Ar", 0.96),
    ElementData(19, "K", 1.96), ElementData(20, "Ca", 1.71), ElementData(21, "Sc", 1.48),
    ElementData(22, "Ti", 1.36), ElementData(23, "V", 1.34), ElementData(24, "Cr", 1.22),
    ElementData(25, "Mn", 1.19), ElementData(26, "Fe", 1.16), ElementData(27, "Co", 1.11),
    ElementData(28, "Ni", 1.10), ElementData(29, "Cu", 1.12), ElementData(30, "Zn", 1.18)
  ]

  /** Element table, atomic numbers 31..45. */
  const ElementsC: seq<ElementData> := [
    ElementData(31, "Ga", 1.24), ElementData(32, "Ge", 1.21), ElementData(33, "As", 1.21),
    ElementData(34, "Se", 1.16), ElementData(35, "Br", 1.14), ElementData(36, "Kr", 1.17),
    ElementData(37, "Rb", 2.10), ElementData(38, "Sr", 1.85), ElementData(39, "Y", 1.63),
    ElementData(40, "Zr", 1.54), ElementData(41, "Nb", 1.47), ElementData(42, "Mo", 1.38),
    ElementData(43, "Tc", 1.28), ElementData(44, "Ru", 1.25), ElementData(45, "Rh", 1.25)
  ]

  /** Element table, atomic numbers 46..60. */
  const ElementsD: seq<ElementData> := [
    ElementData(46, "Pd", 1.20), ElementData(47, "Ag", 1.28), ElementData(48, "Cd", 1.36),
    ElementData(49, "In", 1.42), ElementData(50, "Sn", 1.40), ElementData(51, "Sb", 1.40),
    ElementData(52, "Te", 1.36), ElementData(53, "I", 1.33), ElementData(54, "Xe", 1.31),
    ElementData(55, "Cs", 2.32), ElementData(56, "Ba", 1.96), ElementData(57, "La", 1.80),
    ElementData(58, "Ce", 1.63), ElementData(59, "Pr", 1.76), ElementData(60, "Nd", 1.74)
  ]

  /** Element table, atomic numbers 61..75. */
  const ElementsE: seq<ElementData> := [
    ElementData(61, "Pm", 1.73), ElementData(62, "Sm", 1.72), ElementData(63, "Eu", 1.68),
    ElementData(64, "Gd", 1.69), ElementData(65, "Tb", 1.68), ElementData(66, "Dy", 1.67),
    ElementData(67, "Ho", 1.66), ElementData(68, "Er", 1.65), ElementData(69, "Tm", 1.64),
    ElementData(70, "Yb", 1.70), ElementData(71, "Lu", 1.62), ElementData(72, "Hf", 1.52),
    ElementData(73, "Ta", 1.46), ElementData(74, "W", 1.37), ElementData(75, "Re", 1.31)
  ]

  /** Element table, atomic numbers 76..90. */
  const ElementsF: seq<ElementData> := [
    ElementData(76, "Os", 1.29), ElementData(77, "Ir", 1.22), ElementData(78, "Pt", 1.23),
    ElementData(79, "Au", 1.24), ElementData(80, "Hg", 1.33), ElementData(81, "Tl", 1.44),
    ElementData(82, "Pb", 1.44), ElementData(83, "Bi", 1.51), ElementData(84, "Po", 1.45),
    ElementData(85, "At", 1.47), ElementData(86, "Rn", 1.42), ElementData(87, "Fr", 0.0),
    ElementData(88, "Ra", 2.01), ElementData(89, "Ac", 1.86), ElementData(90, "Th", 1.75)
  ]

  /** Element table, atomic numbers 91..105. */
  const ElementsG: seq<ElementData> := [
    ElementData(91, "Pa", 1.69), ElementData(92, "U", 1.70), ElementData(93, "Np", 1.71),
    ElementData(94, "Pu", 1.72), ElementData(95, "Am", 1.66), ElementData(96, "Cm", 1.66),
    ElementData(97, "Bk", 0.0), ElementData(98, "Cf", 0.0), ElementData(99, "Es", 0.0),
    ElementData(100, "Fm", 0.0), ElementData(101, "Md", 0.0), ElementData(102, "No", 0.0),
    ElementData(103, "Lr", 0.0), ElementData(104, "Rf", 0.0), ElementData(105, "Db", 0.0)
  ]

  /** Element table, atomic numbers 106..118. */
  const ElementsH: seq<ElementData> := [
    ElementData(106, "Sg", 0.0), ElementData(107, "Bh", 0.0), ElementData(108, "Hs", 0.0),
    ElementData(109, "Mt", 0.0), ElementData(110, "Ds", 0.0), ElementData(111, "Rg", 0.0),
    ElementData(112, "Cn", 0.0), ElementData(113, "Nh", 0.0), ElementData(114, "Fl", 0.0),
    ElementData(115, "Mc", 0.0), ElementData(116, "Lv", 0.0), ElementData(117, "Ts", 0.0),
    ElementData(118, "Og", 0.0)
  ]

  /** The element table: entry 0 is the invalid element, entry k the element with atomic number k. */
  const ElementTable: seq<ElementData> :=
    [NoElement] + ElementsA + ElementsB + ElementsC + ElementsD + ElementsE + ElementsF + ElementsG + ElementsH

  /** Symbol map entries for atomic numbers 1..15, in the order of the source. */
  const AbbreviationsA: seq<(string, int)> := [
    ("h", 1), ("he", 2), ("li", 3), ("be", 4), ("b", 5), ("c", 6), ("n", 7), ("o", 8),
    ("f", 9), ("ne", 10), ("na", 11), ("mg", 12), ("al", 13), ("si", 14), ("p", 15)
  ]

  /** Symbol map entries for atomic numbers 16..30, in the order of the source. */
  const AbbreviationsB: seq<(string, int)> := [
    ("s", 16), ("cl", 17), ("ar", 18), ("k", 19), ("ca", 20), ("sc", 21), ("ti", 22), ("v", 23),
    ("cr", 24), ("mn", 25), ("fe", 26), ("co", 27), ("ni", 28), ("cu", 29), ("zn", 30)
  ]

  /** Symbol map entries for atomic numbers 31..45, in the order of the source. */
  const AbbreviationsC: seq<(string, int)> := [
    ("ga", 31), ("ge", 32), ("as", 33), ("se", 34), ("br", 35), ("kr", 36), ("rb", 37), ("sr", 38),
    ("y", 39), ("zr", 40), ("nb", 41), ("mo", 42), ("tc", 43), ("ru", 44), ("rh", 45)
  ]

  /** Symbol map entries for atomic numbers 46..60, in the order of the source. */
  const AbbreviationsD: seq<(string, int)> := [
    ("pd", 46), ("ag", 47), ("cd", 48), ("in", 49), ("sn", 50), ("sb", 51), ("te", 52), ("i", 53),
    ("xe", 54), ("cs", 55), ("ba", 56), ("la", 57), ("ce", 58), ("pr", 59), ("nd", 60)
  ]

  /** Symbol map entries for atomic numbers 61..75, in the order of the source. */
  const AbbreviationsE: seq<(string, int)> := [
    ("pm", 61), ("sm", 62), ("eu", 63), ("gd", 64), ("tb", 65), ("dy", 66), ("ho", 67), ("er", 68),
    ("tm", 69), ("yb", 70), ("lu", 71), ("hf", 72), ("ta", 73), ("w", 74), ("re", 75)
  ]

  /** Symbol map entries for atomic numbers 76..90, in the order of the source. */
  const AbbreviationsF: seq<(string, int)> := [
    ("os", 76), ("ir", 77), ("pt", 78), ("au", 79), ("hg", 80), ("tl", 81), ("pb", 82), ("bi", 83),
    ("po", 84), ("at", 85), ("rn", 86), ("fr", 87), ("ra", 88), ("ac", 89), ("th", 90)
  ]

  /** Symbol map entries for atomic numbers 91..105, in the order of the source. */
  const AbbreviationsG: seq<(string, int)> := [
    ("pa", 91), ("u", 92), ("np", 93), ("pu", 94), ("am", 95), ("cm", 96), ("bk", 97), ("cf", 98),
    ("es", 99), ("fm", 100), ("md", 101), ("no", 102), ("lr", 103), ("rf", 104), ("db", 105)
  ]

  /** Symbol map entries for atomic numbers 106..118, in the order of the source. */
  const AbbreviationsH: seq<(string, int)> := [
    ("sg", 106), ("bh", 107), ("hs", 108), ("mt", 109), ("ds", 110), ("rg", 111), ("cn", 112), ("nh", 113),
    ("fl", 114), ("mc", 115), ("lv", 116), ("ts", 117), ("og", 118)
  ]

  /** The lower-case symbol map, as its (key, value) entries in the order of the source. */
  const Abbreviations: seq<(string, int)> :=
    AbbreviationsA + AbbreviationsB + AbbreviationsC + AbbreviationsD +
    AbbreviationsE + AbbreviationsF + AbbreviationsG + AbbreviationsH

  /** Periodic groups of elements 1..30. */
  const GroupsA: seq<int> := [
    1, 18, 1, 2, 13, 14, 15, 16, 17, 18, 1, 2, 13, 14, 15,
    16, 17, 18, 1, 2, 3, 4, 5, 6, 7, 8, 9, 10, 11, 12
  ]

  /** Periodic groups of elements 31..60. */
  const GroupsB: seq<int> := [
    13, 14, 15, 16, 17, 18, 1, 2, 3, 4, 5, 6, 7, 8, 9,
    10, 11, 12, 13, 14, 15, 16, 17, 18, 1, 2, -1, -2, -3, -4
  ]

  /** Periodic groups of elements 61..90. */
  const GroupsC: seq<int> := [
    -5, -6, -7, -8, -9, -10, -11, -12, -13, -14, 3, 4, 5, 6, 7,
    8, 9, 10, 11, 12, 13, 14, 15, 16, 17, 18, 1, 2, -1, -2
  ]

  /** Periodic groups of elements 91..118. */
  const GroupsD: seq<int> := [
    -3, -4, -5, -6, -7, -8, -9, -10, -11, -12, -13, -14, 3, 4, 5,
    6, 7, 8, 9, 10, 11, 12, 13, 14, 15, 16, 17, 18
  ]

  /** Periodic group of elements 1..118 at index number - 1; lanthanides and actinides get -1..-14. */
  const PeriodicGroups: seq<int> := GroupsA + GroupsB + GroupsC + GroupsD

  /** Average bond lengths, keyed by the two lower-case symbols in order, joined by '-'. */
  const AverageBondLengths: map<string, real> := map[
    "h-h" := 0.74, "c-h" := 1.1, "h-n" := 1.0, "h-o" := 0.97, "h-s" := 1.32,
    "f-h" := 0.92, "cl-h" := 1.27, "br-h" := 1.41, "h-i" := 1.61, "c-c" := 1.54,
    "c-n" := 1.47, "c-o" := 1.43, "c-cl" := 1.78, "n-n" := 1.45, "n-o" := 1.36,
    "o-o" := 1.45, "f-f" := 1.43, "cl-cl" := 1.99, "br-br" := 2.28, "i-i" := 2.66
  ]

  /** Row facts of the element table: entry k has number k and a non-negative covalent radius. */
  predicate RowOk(e: ElementData, k: int) {
    e.number == k && e.covalentRadius >= 0.0
  }

  /**
   * Numbers the symbol map's keys by their first and second letters (a blank for
   * one-letter keys); a proof device that shows the keys distinct, since it sends
   * each key back to its own entry.
   */
  function NumberOfLetters(first: char, second: char): int {
    match first
      case 'a' => match second { case 'l' => 13 case 'r' => 18 case 's' => 33 case 'g' => 47 case 'u' => 79 case 't' => 85 case 'c' => 89 case 'm' => 95 case _ => 0 }
      case 'b' => match second { case 'e' => 4 case ' ' => 5 case 'r' => 35 case 'a' => 56 case 'i' => 83 case 'k' => 97 case 'h' => 107 case _ => 0 }
      case 'c' => match second { case ' ' => 6 case 'l' => 17 case 'a' => 20 case 'r' => 24 case 'o' => 27 case 'u' => 29 case 'd' => 48 case 's' => 55 case 'e' => 58 case 'm' => 96 case 'f' => 98 case 'n' => 112 case _ => 0 }
      case 'd' => match second { case 'y' => 66 case 'b' => 105 case 's' => 110 case _ => 0 }
      case 'e' => match second { case 'u' => 63 case 'r' => 68 case 's' => 99 case _ => 0 }
      case 'f' => match second { case ' ' => 9 case 'e' => 26 case 'r' => 87 case 'm' => 100 case 'l' => 114 case _ => 0 }
      case 'g' => match second { case 'a' => 31 case 'e' => 32 case 'd' => 64 case _ => 0 }
      case 'h' => match second { case ' ' => 1 case 'e' => 2 case 'o' => 67 case 'f' => 72 case 'g' => 80 case 's' => 108 case _ => 0 }
      case 'i' => match second { case 'n' => 49 case ' ' => 53 case 'r' => 77 case _ => 0 }
      case 'k' => match second { case ' ' => 19 case 'r' => 36 case _ => 0 }
      case 'l' => match second { case 'i' => 3 case 'a' => 57 case 'u' => 71 case 'r' => 103 case 'v' => 116 case _ => 0 }
      case 'm' => match second { case 'g' => 12 case 'n' => 25 case 'o' => 42 case 'd' => 101 case 't' => 109 case 'c' => 115 case _ => 0 }
      case 'n' => match second { case ' ' => 7 case 'e' => 10 case 'a' => 11 case 'i' => 28 case 'b' => 41 case 'd' => 60 case 'p' => 93 case 'o' => 102 case 'h' => 113 case _ => 0 }
      case 'o' => match second { case ' ' => 8 case 's' => 76 case 'g' => 118 case _ => 0 }
      case 'p' => match second { case ' ' => 15 case 'd' => 46 case 'r' => 59 case 'm' => 61 case 't' => 78 case 'b' => 82 case 'o' => 84 case 'a' => 91 case 'u' => 94 case _ => 0 }
      case 'r' => match second { case 'b' => 37 case 'u' => 44 case 'h' => 45 case 'e' => 75 case 'n' => 86 case 'a' => 88 case 'f' => 104 case 'g' => 111 case _ => 0 }
      case 's' => match second { case 'i' => 14 case ' ' => 16 case 'c' => 21 case 'e' => 34 case 'r' => 38 case 'n' => 50 case 'b' => 51 case 'm' => 62 case 'g' => 106 case _ => 0 }
      case 't' => match second { case 'i' => 22 case 'c' => 43 case 'e' => 52 case 'b' => 65 case 'm' => 69 case 'a' => 73 case 'l' => 81 case 'h' => 90 case 's' => 117 case _ => 0 }
      case 'u' => match second { case ' ' => 92 case _ => 0 }
      case 'v' => match second { case ' ' => 23 case _ => 0 }
      case 'w' => match second { case ' ' => 74 case _ => 0 }
      case 'x' => match second { case 'e' => 54 case _ => 0 }
      case 'y' => match second { case ' ' => 39 case 'b' => 70 case _ => 0 }
      case 'z' => match second { case 'n' => 30 case 'r' => 40 case _ => 0 }
      case _ => 0
  }

  /** NumberOfLetters of a one- or two-letter key. */
  function NumberOfKey(s: string): int {
    if |s| == 1 then NumberOfLetters(s[0], ' ')
    else if |s| == 2 then NumberOfLetters(s[0], s[1])
    else 0
  }

  /** A symbol-map entry sends the lower-cased symbol of the element row to its number. */
  predicate KeyOk(key: (string, int), e: ElementData) {
    key.1 == e.number && key.0 == ToLower(e.abbr) && NumberOfKey(key.0) == e.number
  }

  /** Entry j of `keys` agrees with entry j + offset of `rows`. */
  predicate KeysAgree(keys: seq<(string, int)>, rows: seq<ElementData>, offset: nat) {
    |keys| + offset <= |rows| &&
    forall j :: 0 <= j < |keys| ==> KeyOk(keys[j], rows[j + offset])
  }

  /** Agreement of consecutive parts carries over to the joined tables. */
  lemma KeysAgreeAppend(keys1: seq<(string, int)>, rows1: seq<ElementData>, keys2: seq<(string, int)>, rows2: seq<ElementData>, offset: nat)
    requires KeysAgree(keys1, rows1, offset) && KeysAgree(keys2, rows2, 0)
    requires |rows1| == |keys1| + offset
    ensures KeysAgree(keys1 + keys2, rows1 + rows2, offset)
  {
    forall j | 0 <= j < |keys1 + keys2| ensures KeyOk((keys1 + keys2)[j], (rows1 + rows2)[j + offset]) {
      if j >= |keys1| {
        assert (keys1 + keys2)[j] == keys2[j - |keys1|];
        assert (rows1 + rows2)[j + offset] == rows2[j - |keys1|];
      }
    }
  }

  /** Group facts: a group is -14..-1 or 1..18, negative exactly for the lanthanides and actinides. */
  predicate GroupOk(g: int, n: int) {
    -14 <= g <= 18 && g != 0 && (g < 0 <==> 57 <= n <= 70 || 89 <= n <= 102)
  }

  lemma RowsA()
    ensures |ElementsA| == 15 && forall k :: 0 <= k < 15 ==> RowOk(ElementsA[k], k + 1)
  {
  }

  lemma RowsB()
    ensures |ElementsB| == 15 && forall k :: 0 <= k < 15 ==> RowOk(ElementsB[k], k + 16)
  {
  }

  lemma RowsC()
    ensures |ElementsC| == 15 && forall k :: 0 <= k < 15 ==> RowOk(ElementsC[k], k + 31)
  {
  }

  lemma RowsD()
    ensures |ElementsD| == 15 && forall k :: 0 <= k < 15 ==> RowOk(ElementsD[k], k + 46)
  {
  }

  lemma RowsE()
    ensures |ElementsE| == 15 && forall k :: 0 <= k < 15 ==> RowOk(ElementsE[k], k + 61)
  {
  }

  lemma RowsF()
    ensures |ElementsF| == 15 && forall k :: 0 <= k < 15 ==> RowOk(ElementsF[k], k + 76)
  {
  }

  lemma RowsG()
    ensures |ElementsG| == 15 && forall k :: 0 <= k < 15 ==> RowOk(ElementsG[k], k + 91)
  {
  }

  lemma RowsH()
    ensures |ElementsH| == 13 && forall k :: 0 <= k < 13 ==> RowOk(ElementsH[k], k + 106)
  {
  }

  lemma KeysA()
    ensures |AbbreviationsA| == 15 && KeysAgree(AbbreviationsA, ElementsA, 0)
  {
    assert forall j :: 0 <= j < 15 ==> KeyOk(AbbreviationsA[j], ElementsA[j]);
  }

  lemma KeysB()
    ensures |AbbreviationsB| == 15 && KeysAgree(AbbreviationsB, ElementsB, 0)
  {
    assert forall j :: 0 <= j < 15 ==> KeyOk(AbbreviationsB[j], ElementsB[j]);
  }

  lemma KeysC()
    ensures |AbbreviationsC| == 15 && KeysAgree(AbbreviationsC, ElementsC, 0)
  {
    assert forall j :: 0 <= j < 15 ==> KeyOk(AbbreviationsC[j], ElementsC[j]);
  }

  lemma KeysD()
    ensures |AbbreviationsD| == 15 && KeysAgree(AbbreviationsD, ElementsD, 0)
  {
    assert forall j :: 0 <= j < 15 ==> KeyOk(AbbreviationsD[j], ElementsD[j]);
  }

  lemma KeysE()
    ensures |AbbreviationsE| == 15 && KeysAgree(AbbreviationsE, ElementsE, 0)
  {
    assert forall j :: 0 <= j < 15 ==> KeyOk(AbbreviationsE[j], ElementsE[j]);
  }

  lemma KeysF()
    ensures |AbbreviationsF| == 15 && KeysAgree(AbbreviationsF, ElementsF, 0)
  {
    assert forall j :: 0 <= j < 15 ==> KeyOk(AbbreviationsF[j], ElementsF[j]);
  }

  lemma KeysG()
    ensures |AbbreviationsG| == 15 && KeysAgree(AbbreviationsG, ElementsG, 0)
  {
    assert forall j :: 0 <= j < 15 ==> KeyOk(AbbreviationsG[j], ElementsG[j]);
  }

  lemma KeysH()
    ensures |AbbreviationsH| == 13 && KeysAgree(AbbreviationsH, ElementsH, 0)
  {
    assert forall j :: 0 <= j < 13 ==> KeyOk(AbbreviationsH[j], ElementsH[j]);
  }

  lemma GroupsOkA()
    ensures |GroupsA| == 30 && forall i :: 0 <= i < 30 ==> GroupOk(GroupsA[i], i + 1)
  {
  }

  lemma GroupsOkB()
    ensures |GroupsB| == 30 && forall i :: 0 <= i < 30 ==> GroupOk(GroupsB[i], i + 31)
  {
  }

  lemma GroupsOkC()
    ensures |GroupsC| == 30 && forall i :: 0 <= i < 30 ==> GroupOk(GroupsC[i], i + 61)
  {
  }

  lemma GroupsOkD()
    ensures |GroupsD| == 28 && forall i :: 0 <= i < 28 ==> GroupOk(GroupsD[i], i + 91)
  {
  }

  /** The element table's entry k is the element with atomic number k, for k in 0..118. */
  lemma TableRows()
    ensures |ElementTable| == 119
    ensures forall k :: 0 <= k < |ElementTable| ==> RowOk(ElementTable[k], k)
  {
    RowsA(); RowsB(); RowsC(); RowsD(); RowsE(); RowsF(); RowsG(); RowsH();
  }

  /** Entry j of the symbol map sends the lower-cased symbol of element j + 1 to j + 1. */
  lemma SymbolMap()
    ensures |Abbreviations| == 118 && |ElementTable| == 119
    ensures KeysAgree(Abbreviations, ElementTable, 1)
  {
    KeysA(); KeysB(); KeysC(); KeysD(); KeysE(); KeysF(); KeysG(); KeysH();
    KeysAgreeAppend([], [NoElement], AbbreviationsA, ElementsA, 1);
    assert [] + AbbreviationsA == AbbreviationsA;
    var k, r := AbbreviationsA, [NoElement] + ElementsA;
    KeysAgreeAppend(k, r, AbbreviationsB, ElementsB, 1);
    k, r := k + AbbreviationsB, r + ElementsB;
    KeysAgreeAppend(k, r, AbbreviationsC, ElementsC, 1);
    k, r := k + AbbreviationsC, r + ElementsC;
    KeysAgreeAppend(k, r, AbbreviationsD, ElementsD, 1);
    k, r := k + AbbreviationsD, r + ElementsD;
    KeysAgreeAppend(k, r, AbbreviationsE, ElementsE, 1);
    k, r := k + AbbreviationsE, r + ElementsE;
    KeysAgreeAppend(k, r, AbbreviationsF, ElementsF, 1);
    k, r := k + AbbreviationsF, r + ElementsF;
    KeysAgreeAppend(k, r, AbbreviationsG, ElementsG, 1);
    k, r := k + AbbreviationsG, r + ElementsG;
    KeysAgreeAppend(k, r, AbbreviationsH, ElementsH, 1);
    assert k + AbbreviationsH == Abbreviations && r + ElementsH == ElementTable;
  }

  /** The group table holds the group of element i + 1 at index i, for the 118 elements. */
  lemma GroupTable()
    ensures |PeriodicGroups| == 118
    ensures forall i :: 0 <= i < 118 ==> GroupOk(PeriodicGroups[i], i + 1)
  {
    GroupsOkA(); GroupsOkB(); GroupsOkC(); GroupsOkD();
  }

  /** No two entries share a key, as in a QMap. */
  predicate DistinctKeys<K(==), V>(entries: seq<(K, V)>) {
    forall i, j :: 0 <= i < |entries| && 0 <= j < |entries| && entries[i].0 == entries[j].0 ==> i == j
  }

  /** The symbol map's keys are distinct: NumberOfKey sends each key back to its own entry. */
  lemma SymbolKeysDistinct()
    ensures DistinctKeys(Abbreviations)
  {
    SymbolMap();
    TableRows();
    forall i, j | 0 <= i < |Abbreviations| && 0 <= j < |Abbreviations| && Abbreviations[i].0 == Abbreviations[j].0
      ensures i == j
    {
      assert KeyOk(Abbreviations[i], ElementTable[i + 1]) && KeyOk(Abbreviations[j], ElementTable[j + 1]);
    }
  }

  /** Every average bond length is positive. */
  lemma BondLengthsPositive()
    ensures forall key :: key in AverageBondLengths ==> AverageBondLengths[key] > 0.0
  {
  }

  /**
   * The constant tables of element.cpp as one value. The operations below take
   * it as a parameter, so that what they promise rests on WellFormed alone.
   */
  datatype PeriodicTable = PeriodicTable(
    elements: seq<ElementData>,
    abbreviations: seq<(string, int)>,
    groups: seq<int>,
    bondLengths: map<string, real>)

  /** The tables of the source. */
  const Table := PeriodicTable(ElementTable, Abbreviations, PeriodicGroups, AverageBondLengths)

  /**
   * What the tables guarantee: entry k of the element table is element k, entry 0
   * the invalid element with no symbol and radius 0; the
   * symbol map sends the lower-cased symbol of element j + 1 to j + 1 and has
   * distinct keys; the group of element i + 1 is at index i; bond lengths are positive.
   */
  predicate WellFormed(t: PeriodicTable) {
    |t.elements| == 119 && |t.abbreviations| == 118 && |t.groups| == 118 && t.elements[0] == NoElement &&
    (forall k :: 0 <= k < 119 ==> RowOk(t.elements[k], k)) &&
    (forall j :: 0 <= j < 118 ==> t.abbreviations[j].1 == j + 1 && t.abbreviations[j].0 == ToLower(t.elements[j + 1].abbr)) &&
    DistinctKeys(t.abbreviations) &&
    (forall i :: 0 <= i < 118 ==> GroupOk(t.groups[i], i + 1)) &&
    (forall key :: key in t.bondLengths ==> t.bondLengths[key] > 0.0)
  }

  /** The source's tables are well formed. */
  lemma TableWellFormed()
    ensures WellFormed(Table)
  {
    TableRows();
    SymbolMap();
    SymbolKeysDistinct();
    GroupTable();
    BondLengthsPositive();
    forall j | 0 <= j < 118
      ensures Abbreviations[j].1 == j + 1 && Abbreviations[j].0 == ToLower(ElementTable[j + 1].abbr)
    {
      assert KeyOk(Abbreviations[j], ElementTable[j + 1]) && RowOk(ElementTable[j + 1], j + 1);
    }
  }

  /** QMap::value(key, fallback) over a map given by its entries: the value of the first entry with that key. */
  function Value<K(==), V>(entries: seq<(K, V)>, key: K, fallback: V): (v: V)
    ensures (forall j :: 0 <= j < |entries| ==> entries[j].0 != key) ==> v == fallback
    ensures forall j :: 0 <= j < |entries| && entries[j].0 == key && (forall i :: 0 <= i < j ==> entries[i].0 != key) ==>
      v == entries[j].1
  {
    if |entries| == 0 then fallback
    else if entries[0].0 == key then entries[0].1
    else
      var rest := entries[1..];
      assert forall j :: 1 <= j < |entries| ==> entries[j] == rest[j - 1];
      Value(rest, key, fallback)
  }

  /** With distinct keys, the value of a key is the value of its entry. */
  lemma ValueOfDistinct<K, V>(entries: seq<(K, V)>, key: K, fallback: V, j: int)
    requires DistinctKeys(entries) && 0 <= j < |entries| && entries[j].0 == key
    ensures Value(entries, key, fallback) == entries[j].1
  {
    assert forall i :: 0 <= i < j ==> entries[i].0 != key;
  }

  /**
   * dataRefFromNumber as written: the guard lets num == 119 through to
   * `elements.at(119)`, an out-of-range read (a debug-build assertion, undefined
   * in release), marked None.
   */
  function DataRefAsWritten(t: PeriodicTable, num: int): (r: Option<ElementData>)
    requires WellFormed(t)
    ensures r.None? <==> num == 119
    ensures r.Some? ==> r.value.number == (if 0 <= num <= 118 then num else 0)
  {
    if num < 0 || num > |t.elements| then Some(t.elements[0])
    else if num < |t.elements| then Some(t.elements[num])
    else None
  }

  /** dataRefFromNumber with the bound it evidently intends: every number outside 0..118 gives entry 0. */
  function DataRef(t: PeriodicTable, num: int): (r: ElementData)
    requires WellFormed(t)
    ensures r.number == (if 0 <= num <= 118 then num else 0)
    ensures r.covalentRadius >= 0.0
    ensures DataRefAsWritten(t, num).Some? ==> DataRefAsWritten(t, num).value == r
  {
    if num < 0 || num >= |t.elements| then t.elements[0] else t.elements[num]
  }

  /** An element: its atomic number (0 for the invalid element) and its symbol. */
  datatype Element = Element(number: int, abbr: string)

  /** isValid(). */
  predicate IsValid(e: Element) {
    e.number != 0
  }

  /**
   * Element(int) and fromAtomicNumber: the table row for num, the invalid element
   * outside 1..118. Built on the corrected DataRef, so 119 gives the invalid
   * element where the source reads out of range.
   */
  function ElementOf(t: PeriodicTable, num: int): (e: Element)
    requires WellFormed(t)
    ensures e.number == (if 0 <= num <= 118 then num else 0)
    ensures IsValid(e) <==> 1 <= num <= 118
    ensures !IsValid(e) ==> e.abbr == ""
  {
    var data := DataRef(t, num);
    Element(data.number, data.abbr)
  }

  /** True when `key` is one of the symbol map's keys. */
  predicate IsSymbol(t: PeriodicTable, key: string) {
    exists j :: 0 <= j < |t.abbreviations| && t.abbreviations[j].0 == key
  }

  /** The symbol map gives 1..118 for a key, the number of the element whose lower-cased symbol it is, and 0 otherwise. */
  lemma LookupSymbol(t: PeriodicTable, key: string)
    requires WellFormed(t)
    ensures var n := Value(t.abbreviations, key, 0);
      (IsSymbol(t, key) ==> 1 <= n <= 118 && t.abbreviations[n - 1].0 == key && ToLower(t.elements[n].abbr) == key) &&
      (!IsSymbol(t, key) ==> n == 0)
  {
    if IsSymbol(t, key) {
      var j :| 0 <= j < |t.abbreviations| && t.abbreviations[j].0 == key;
      ValueOfDistinct(t.abbreviations, key, 0, j);
    }
  }

  /** fromAbbr and Element(QString): the element whose symbol matches `s` ignoring case, the invalid element when none does. */
  function FromAbbr(t: PeriodicTable, s: string): (e: Element)
    requires WellFormed(t)
    ensures IsValid(e) <==> IsSymbol(t, ToLower(s))
    ensures IsValid(e) ==> 1 <= e.number <= 118 && ToLower(e.abbr) == ToLower(s)
  {
    LookupSymbol(t, ToLower(s));
    ElementOf(t, Value(t.abbreviations, ToLower(s), 0))
  }

  /** The two tables agree: looking up the symbol of element k gives element k back, for 1..118. */
  lemma FromAbbrOfElement(t: PeriodicTable, k: int)
    requires WellFormed(t) && 1 <= k <= 118
    ensures FromAbbr(t, ElementOf(t, k).abbr) == ElementOf(t, k)
  {
    var key := ToLower(ElementOf(t, k).abbr);
    assert t.abbreviations[k - 1].0 == key;
    LookupSymbol(t, key);
  }

  /** Symbols are looked up without regard to case. */
  lemma FromAbbrIgnoresCase(t: PeriodicTable, s: string)
    requires WellFormed(t)
    ensures FromAbbr(t, ToLower(s)) == FromAbbr(t, s)
  {
    ToLowerIdempotent(s);
  }

  /** group(): periodicGroups.value(number - 1, -1000). */
  function Group(t: PeriodicTable, e: Element): (g: int)
    requires WellFormed(t)
    ensures g == -1000 <==> !(1 <= e.number <= 118)
    ensures g != -1000 ==> -14 <= g <= 18 && g != 0
    ensures g < 0 && g != -1000 <==> 57 <= e.number <= 70 || 89 <= e.number <= 102
  {
    if 0 <= e.number - 1 < |t.groups| then t.groups[e.number - 1] else -1000
  }

  /** covalentRadius(): the table's radius, 0 outside 1..118. */
  function CovalentRadius(t: PeriodicTable, e: Element): (r: real)
    requires WellFormed(t)
    ensures r >= 0.0
    ensures !(1 <= e.number <= 118) ==> r == 0.0
  {
    DataRef(t, e.number).covalentRadius
  }

  /** The bond-length key: the two lower-case symbols, the smaller first under QString's `<`, joined by '-'. */
  function BondKey(a: string, b: string): string {
    if LessThan(a, b) then a + "-" + b else b + "-" + a
  }

  /** The key does not depend on the order of the two symbols. */
  lemma BondKeySymmetric(a: string, b: string)
    ensures BondKey(a, b) == BondKey(b, a)
  {
    if a != b {
      LessThanTotal(a, b);
      if LessThan(a, b) {
        LessThanAsymmetric(a, b);
      } else {
        LessThanAsymmetric(b, a);
      }
    }
  }

  /** estimateBondLength: the tabulated average for the pair, else the sum of the covalent radii. */
  function EstimateBondLength(t: PeriodicTable, a: Element, b: Element): (r: real)
    requires WellFormed(t)
    ensures r >= 0.0
    ensures BondKey(ToLower(a.abbr), ToLower(b.abbr)) in t.bondLengths ==> r == t.bondLengths[BondKey(ToLower(a.abbr), ToLower(b.abbr))]
    ensures BondKey(ToLower(a.abbr), ToLower(b.abbr)) !in t.bondLengths ==> r == CovalentRadius(t, a) + CovalentRadius(t, b)
  {
    var key := BondKey(ToLower(a.abbr), ToLower(b.abbr));
    var average := if key in t.bondLengths then t.bondLengths[key] else 0.0;
    if average != 0.0 then average else CovalentRadius(t, a) + CovalentRadius(t, b)
  }

  /** The estimate is symmetric in the two elements. */
  lemma EstimateBondLengthSymmetric(t: PeriodicTable, a: Element, b: Element)
    requires WellFormed(t)
    ensures EstimateBondLength(t, a, b) == EstimateBondLength(t, b, a)
  {
    BondKeySymmetric(ToLower(a.abbr), ToLower(b.abbr));
  }
}
