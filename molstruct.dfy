/**
 * MolStruct (molstruct.h, molstruct.cpp): atoms and bonds addressed by index.
 * The value types are datatypes; the editing operations that the source runs in
 * place on `atoms` and `bonds` are methods of the class `MolStruct`.
 */
module MolStructs {
  import opened Wrappers
  import opened Text
  import opened ParseHelpers

  /** A fresh Atom is a neutral "H" at the origin. */
  datatype Atom = Atom(x: real, y: real, z: real, element: string, charge: int)

  /** A fresh Bond has order 1. */
  datatype Bond = Bond(from: int, to: int, order: int)

  /** A MolStruct as a value. */
  datatype Mol = Mol(atoms: seq<Atom>, bonds: seq<Bond>)

  const DefaultAtom := Atom(0.0, 0.0, 0.0, "H", 0)

  predicate Touches(b: Bond, id: int) {
    b.from == id || b.to == id
  }

  predicate Joins(b: Bond, a: int, c: int) {
    (b.from == a && b.to == c) || (b.from == c && b.to == a)
  }

  /** Every bond endpoint indexes an atom. */
  predicate BondsInRange(bonds: seq<Bond>, n: int) {
    forall k :: 0 <= k < |bonds| ==> 0 <= bonds[k].from < n && 0 <= bonds[k].to < n
  }

  /** Number of bonds touching atom `id`. */
  function TouchCount(bonds: seq<Bond>, id: int): nat {
    if bonds == [] then 0
    else TouchCount(bonds[..|bonds| - 1], id) + (if Touches(bonds[|bonds| - 1], id) then 1 else 0)
  }

  /** An atom is a leaf when at most one bond touches it. */
  predicate IsLeaf(bonds: seq<Bond>, id: int) {
    TouchCount(bonds, id) <= 1
  }

  /** A bond endpoint past the deleted atom moves down by one. */
  function Renumber(e: int, id: int): int {
    if e > id then e - 1 else e
  }

  function ShiftBond(b: Bond, id: int): Bond {
    Bond(Renumber(b.from, id), Renumber(b.to, id), b.order)
  }

  /** The bonds left after deleting atom `id`: the ones not touching it, renumbered, in order. */
  function BondsWithoutAtom(bonds: seq<Bond>, id: int): seq<Bond> {
    if bonds == [] then []
    else
      var rest := BondsWithoutAtom(bonds[..|bonds| - 1], id);
      if Touches(bonds[|bonds| - 1], id) then rest else rest + [ShiftBond(bonds[|bonds| - 1], id)]
  }

  /** Deleting an atom drops exactly the bonds that touch it. */
  lemma {:induction false} BondsWithoutAtomLength(bonds: seq<Bond>, id: int)
    ensures |BondsWithoutAtom(bonds, id)| == |bonds| - TouchCount(bonds, id)
  {
    if bonds != [] {
      BondsWithoutAtomLength(bonds[..|bonds| - 1], id);
    }
  }

  /** Deleting an atom keeps every surviving bond pointing at an existing atom. */
  lemma {:induction false} BondsWithoutAtomInRange(bonds: seq<Bond>, id: int, n: int)
    requires 0 <= id < n && BondsInRange(bonds, n)
    ensures BondsInRange(BondsWithoutAtom(bonds, id), n - 1)
  {
    if bonds != [] {
      BondsWithoutAtomInRange(bonds[..|bonds| - 1], id, n);
    }
  }

  /** Partner of `id` in the first bond that touches it, or -1 (findBondParter). */
  function BondPartner(bonds: seq<Bond>, id: int): int {
    if bonds == [] then -1
    else if bonds[0].to == id then bonds[0].from
    else if bonds[0].from == id then bonds[0].to
    else BondPartner(bonds[1..], id)
  }

  /** Index of the first bond joining `a` and `c` in either direction, or -1. */
  function PairBond(bonds: seq<Bond>, a: int, c: int): (r: int)
    ensures -1 <= r < |bonds|
    ensures r >= 0 ==> Joins(bonds[r], a, c) && forall k :: 0 <= k < r ==> !Joins(bonds[k], a, c)
    ensures r == -1 ==> forall k :: 0 <= k < |bonds| ==> !Joins(bonds[k], a, c)
  {
    if bonds == [] then -1
    else
      var r := PairBond(bonds[..|bonds| - 1], a, c);
      if r >= 0 then r else if Joins(bonds[|bonds| - 1], a, c) then |bonds| - 1 else -1
  }

  /** A neighbour that makes `id` less than a leaf group: not a hydrogen, or a hydrogen with other bonds. */
  predicate HeavySide(atoms: seq<Atom>, bonds: seq<Bond>, b: Bond, id: int)
    requires 0 <= b.from < |atoms| && 0 <= b.to < |atoms|
  {
    (b.to == id && (atoms[b.from].element != "H" || !IsLeaf(bonds, b.from))) ||
    (b.from == id && (atoms[b.to].element != "H" || !IsLeaf(bonds, b.to)))
  }

  /** Number of bonds among `prefix` that count against `id` being a leaf group. */
  function HeavyCount(atoms: seq<Atom>, bonds: seq<Bond>, prefix: seq<Bond>, id: int): nat
    requires BondsInRange(prefix, |atoms|)
  {
    if prefix == [] then 0
    else
      var last := prefix[|prefix| - 1];
      HeavyCount(atoms, bonds, prefix[..|prefix| - 1], id) + (if HeavySide(atoms, bonds, last, id) then 1 else 0)
  }

  /** The atoms left after deleting index `id`. */
  function RemoveAt<T>(s: seq<T>, id: int): seq<T>
    requires 0 <= id < |s|
  {
    s[..id] + s[id + 1..]
  }

  /** The checks hydrogensToBond makes before changing anything. */
  predicate CanJoinHydrogens(atoms: seq<Atom>, bonds: seq<Bond>, from: int, to: int)
    requires 0 <= from < |atoms| && 0 <= to < |atoms|
  {
    var toOrigin := BondPartner(bonds, to);
    var fromOrigin := BondPartner(bonds, from);
    var existing := PairBond(bonds, toOrigin, fromOrigin);
    to != from
    && IsLeaf(bonds, to) && atoms[to].element == "H"
    && IsLeaf(bonds, from) && atoms[from].element == "H"
    && toOrigin != -1 && fromOrigin != -1 && toOrigin != fromOrigin
    && (existing == -1 || bonds[existing].order < 3)
  }

  /** The bond list once the two partners are joined: a new order-1 bond, or the existing one raised by one. */
  function JoinedBonds(bonds: seq<Bond>, from: int, to: int): seq<Bond> {
    var toOrigin := BondPartner(bonds, to);
    var fromOrigin := BondPartner(bonds, from);
    var existing := PairBond(bonds, toOrigin, fromOrigin);
    if existing == -1 then bonds + [Bond(fromOrigin, toOrigin, 1)]
    else bonds[existing := bonds[existing].(order := bonds[existing].order + 1)]
  }

  /** Index of `to` once atom `from` has been removed. */
  function IndexAfterRemoval(to: int, from: int): int {
    if from < to then to - 1 else to
  }

  class MolStruct {
    var atoms: seq<Atom>
    var bonds: seq<Bond>

    function Value(): Mol
      reads this
    {
      Mol(atoms, bonds)
    }

    constructor (m: Mol)
      ensures atoms == m.atoms && bonds == m.bonds
    {
      atoms := m.atoms;
      bonds := m.bonds;
    }

    /** findBondForPair: the lowest index of a bond joining the two atoms either way, else -1. */
    method FindBondForPair(from: int, to: int) returns (r: int)
      ensures -1 <= r < |bonds|
      ensures r >= 0 ==> Joins(bonds[r], from, to) && forall k :: 0 <= k < r ==> !Joins(bonds[k], from, to)
      ensures r == -1 <==> forall k :: 0 <= k < |bonds| ==> !Joins(bonds[k], from, to)
    {
      for i := 0 to |bonds|
        invariant forall k :: 0 <= k < i ==> !Joins(bonds[k], from, to)
      {
        if bonds[i].to == to && bonds[i].from == from {
          return i;
        } else if bonds[i].to == from && bonds[i].from == to {
          return i;
        }
      }
      return -1;
    }

    /** findBondsForAtom: every index of a bond touching `id`, ascending. */
    method FindBondsForAtom(id: int) returns (r: seq<int>)
      ensures forall k :: k in r <==> 0 <= k < |bonds| && Touches(bonds[k], id)
      ensures forall i, j :: 0 <= i < j < |r| ==> r[i] < r[j]
    {
      r := [];
      for i := 0 to |bonds|
        invariant forall k :: k in r <==> 0 <= k < i && Touches(bonds[k], id)
        invariant forall a, b :: 0 <= a < b < |r| ==> r[a] < r[b]
        invariant forall a :: 0 <= a < |r| ==> r[a] < i
      {
        if bonds[i].to == id || bonds[i].from == id {
          r := r + [i];
        }
      }
    }

    /** isLeafAtom: at most one bond touches `id`. */
    method IsLeafAtom(id: int) returns (r: bool)
      ensures r <==> TouchCount(bonds, id) <= 1
    {
      var bondCount := 0;
      for i := 0 to |bonds|
        invariant bondCount == TouchCount(bonds[..i], id) && bondCount <= 1
      {
        assert bonds[..i + 1][..i] == bonds[..i];
        if bonds[i].to == id || bonds[i].from == id {
          bondCount := bondCount + 1;
        }
        if bondCount > 1 {
          TouchCountMonotone(bonds, i + 1, id);
          return false;
        }
      }
      assert bonds[..|bonds|] == bonds;
      return true;
    }

    /** isLeafGroup: at most one bond leads to a non-hydrogen or to a hydrogen with other bonds. */
    method IsLeafGroup(id: int) returns (r: bool)
      requires BondsInRange(bonds, |atoms|)
      ensures r <==> HeavyCount(atoms, bonds, bonds, id) <= 1
    {
      var bondCount := 0;
      for i := 0 to |bonds|
        invariant BondsInRange(bonds[..i], |atoms|)
        invariant bondCount == HeavyCount(atoms, bonds, bonds[..i], id) && bondCount <= 1
      {
        var bond := bonds[i];
        assert bonds[..i + 1][..i] == bonds[..i];
        assert BondsInRange(bonds[..i + 1], |atoms|);
        var counts := false;
        if bond.to == id {
          var leaf := IsLeafAtom(bond.from);
          counts := atoms[bond.from].element != "H" || !leaf;
        }
        if !counts && bond.from == id {
          var leaf := IsLeafAtom(bond.to);
          counts := atoms[bond.to].element != "H" || !leaf;
        }
        assert counts == HeavySide(atoms, bonds, bond, id);
        if counts {
          bondCount := bondCount + 1;
        }
        if bondCount > 1 {
          HeavyCountMonotone(atoms, bonds, bonds, i + 1, id);
          return false;
        }
      }
      assert bonds[..|bonds|] == bonds;
      return true;
    }

    /**
     * deleteAtom: removes the atom and exactly the bonds touching it, and moves
     * every surviving endpoint past it down by one, keeping the bond order.
     */
    method DeleteAtom(id: int)
      requires 0 <= id < |atoms|
      modifies this
      ensures bonds == BondsWithoutAtom(old(bonds), id)
      ensures atoms == RemoveAt(old(atoms), id)
    {
      var i := 0;
      ghost var k := 0;
      while i < |bonds|
        invariant 0 <= k <= |old(bonds)| && 0 <= i <= |bonds| && atoms == old(atoms)
        invariant bonds[..i] == BondsWithoutAtom(old(bonds)[..k], id)
        invariant bonds[i..] == old(bonds)[k..]
        decreases |old(bonds)| - k
      {
        assert old(bonds)[..k + 1][..k] == old(bonds)[..k];
        assert bonds[i] == old(bonds)[k];
        if bonds[i].from == id || bonds[i].to == id {
          bonds := bonds[..i] + bonds[i + 1..];
        } else {
          var b := bonds[i];
          if b.from > id {
            b := b.(from := b.from - 1);
          }
          if b.to > id {
            b := b.(to := b.to - 1);
          }
          bonds := bonds[i := b];
          i := i + 1;
        }
        k := k + 1;
      }
      assert old(bonds)[..|old(bonds)|] == old(bonds);
      assert bonds[..i] == bonds;
      atoms := atoms[..id] + atoms[id + 1..];
    }

    /** deleteBond: nothing refers to bond indices, so the bond is just removed. */
    method DeleteBond(id: int)
      requires 0 <= id < |bonds|
      modifies this
      ensures bonds == RemoveAt(old(bonds), id) && atoms == old(atoms)
    {
      bonds := bonds[..id] + bonds[id + 1..];
    }

    /**
     * hydrogensToBond: when both atoms are distinct leaf hydrogens on distinct
     * partners whose bond (if any) is below order 3, raises or adds that bond and
     * deletes both hydrogens; otherwise changes nothing and returns false.
     */
    method HydrogensToBond(from: int, to: int) returns (ok: bool)
      requires 0 <= from < |atoms| && 0 <= to < |atoms|
      modifies this
      ensures ok <==> CanJoinHydrogens(old(atoms), old(bonds), from, to)
      ensures !ok ==> atoms == old(atoms) && bonds == old(bonds)
      ensures ok ==> from != to && atoms == RemoveAt(RemoveAt(old(atoms), from), IndexAfterRemoval(to, from))
      ensures ok ==> bonds == BondsWithoutAtom(BondsWithoutAtom(JoinedBonds(old(bonds), from, to), from), IndexAfterRemoval(to, from))
    {
      if to == from {
        return false;
      }
      var leafTo := IsLeafAtom(to);
      if !(leafTo && atoms[to].element == "H") {
        return false;
      }
      var leafFrom := IsLeafAtom(from);
      if !(leafFrom && atoms[from].element == "H") {
        return false;
      }
      var toOrigin := BondPartner(bonds, to);
      var fromOrigin := BondPartner(bonds, from);
      if toOrigin == -1 || fromOrigin == -1 {
        return false;
      }
      if toOrigin == fromOrigin {
        return false;
      }
      var existingBond := FindBondForPair(toOrigin, fromOrigin);
      assert existingBond == PairBond(bonds, toOrigin, fromOrigin);
      if existingBond == -1 {
        bonds := bonds + [Bond(fromOrigin, toOrigin, 1)];
      } else if bonds[existingBond].order < 3 {
        bonds := bonds[existingBond := bonds[existingBond].(order := bonds[existingBond].order + 1)];
      } else {
        return false;
      }
      DeleteAtom(from);
      var t := to;
      if from < t {
        t := t - 1;
      }
      DeleteAtom(t);
      return true;
    }

    /** replaceElement: the ascending indices of the atoms that were `from`; those now read `to`. */
    method ReplaceElement(from: string, to: string) returns (r: seq<int>)
      modifies this
      ensures |atoms| == |old(atoms)| && bonds == old(bonds)
      ensures forall i :: 0 <= i < |atoms| ==>
        atoms[i] == if old(atoms)[i].element == from then old(atoms)[i].(element := to) else old(atoms)[i]
      ensures forall i :: i in r <==> 0 <= i < |atoms| && old(atoms)[i].element == from
      ensures forall i, j :: 0 <= i < j < |r| ==> r[i] < r[j]
    {
      r := [];
      for i := 0 to |atoms|
        invariant |atoms| == |old(atoms)| && bonds == old(bonds)
        invariant forall k :: 0 <= k < i ==>
          atoms[k] == if old(atoms)[k].element == from then old(atoms)[k].(element := to) else old(atoms)[k]
        invariant forall k :: i <= k < |atoms| ==> atoms[k] == old(atoms)[k]
        invariant forall k :: k in r <==> 0 <= k < i && old(atoms)[k].element == from
        invariant forall a, b :: 0 <= a < b < |r| ==> r[a] < r[b]
        invariant forall a :: 0 <= a < |r| ==> r[a] < i
      {
        if atoms[i].element == from {
          atoms := atoms[i := atoms[i].(element := to)];
          r := r + [i];
        }
      }
    }

    /**
     * addFragment: the fragment's atoms follow the existing ones, and its bonds
     * follow the existing bonds with endpoints moved past the old atoms; an
     * endpoint outside the fragment maps to atom 0 (QMap::value's default).
     */
    method AddFragment(fragment: Mol)
      modifies this
      ensures atoms == old(atoms) + fragment.atoms
      ensures bonds == old(bonds) + OffsetBonds(fragment.bonds, |old(atoms)|, |fragment.atoms|)
    {
      var base := |atoms|;
      for i := 0 to |fragment.atoms|
        invariant atoms == old(atoms) + fragment.atoms[..i] && bonds == old(bonds)
      {
        assert fragment.atoms[..i + 1] == fragment.atoms[..i] + [fragment.atoms[i]];
        atoms := atoms + [fragment.atoms[i]];
      }
      assert fragment.atoms[..|fragment.atoms|] == fragment.atoms;
      for i := 0 to |fragment.bonds|
        invariant atoms == old(atoms) + fragment.atoms
        invariant bonds == old(bonds) + OffsetBonds(fragment.bonds[..i], base, |fragment.atoms|)
      {
        assert fragment.bonds[..i + 1][..i] == fragment.bonds[..i];
        var bond := fragment.bonds[i];
        bonds := bonds + [Bond(MapIndex(bond.from, base, |fragment.atoms|), MapIndex(bond.to, base, |fragment.atoms|), bond.order)];
      }
      assert fragment.bonds[..|fragment.bonds|] == fragment.bonds;
    }
  }

  /** Bond count only grows along a prefix. */
  lemma {:induction false} TouchCountMonotone(bonds: seq<Bond>, i: nat, id: int)
    requires i <= |bonds|
    ensures TouchCount(bonds[..i], id) <= TouchCount(bonds, id)
    decreases |bonds| - i
  {
    if i < |bonds| {
      TouchCountMonotone(bonds, i + 1, id);
      assert bonds[..i + 1][..i] == bonds[..i];
    } else {
      assert bonds[..i] == bonds;
    }
  }

  lemma {:induction false} HeavyCountMonotone(atoms: seq<Atom>, bonds: seq<Bond>, all: seq<Bond>, i: nat, id: int)
    requires i <= |all| && BondsInRange(all, |atoms|)
    ensures BondsInRange(all[..i], |atoms|)
    ensures HeavyCount(atoms, bonds, all[..i], id) <= HeavyCount(atoms, bonds, all, id)
    decreases |all| - i
  {
    if i < |all| {
      HeavyCountMonotone(atoms, bonds, all, i + 1, id);
      assert all[..i + 1][..i] == all[..i];
    } else {
      assert all[..i] == all;
    }
  }

  /** Where addFragment puts fragment atom `e`. */
  function MapIndex(e: int, base: int, n: int): int {
    if 0 <= e < n then e + base else 0
  }

  function OffsetBonds(bonds: seq<Bond>, base: int, n: int): seq<Bond> {
    if bonds == [] then []
    else
      var last := bonds[|bonds| - 1];
      OffsetBonds(bonds[..|bonds| - 1], base, n) + [Bond(MapIndex(last.from, base, n), MapIndex(last.to, base, n), last.order)]
  }

  /** A well-formed fragment stays well-formed once appended. */
  lemma {:induction false} OffsetBondsInRange(bonds: seq<Bond>, base: nat, n: nat)
    requires BondsInRange(bonds, n)
    ensures |OffsetBonds(bonds, base, n)| == |bonds|
    ensures BondsInRange(OffsetBonds(bonds, base, n), base + n)
    ensures forall k :: 0 <= k < |bonds| ==>
      OffsetBonds(bonds, base, n)[k] == Bond(bonds[k].from + base, bonds[k].to + base, bonds[k].order)
  {
    if bonds != [] {
      OffsetBondsInRange(bonds[..|bonds| - 1], base, n);
    }
  }

  /** Joining two hydrogens removes exactly those two atoms and keeps every bond in range. */
  lemma JoinHydrogensInRange(atoms: seq<Atom>, bonds: seq<Bond>, from: int, to: int)
    requires 0 <= from < |atoms| && 0 <= to < |atoms| && BondsInRange(bonds, |atoms|)
    requires CanJoinHydrogens(atoms, bonds, from, to)
    ensures var after := BondsWithoutAtom(BondsWithoutAtom(JoinedBonds(bonds, from, to), from), IndexAfterRemoval(to, from));
      BondsInRange(after, |atoms| - 2)
  {
    var joined := JoinedBonds(bonds, from, to);
    PartnerInRange(bonds, to, |atoms|);
    PartnerInRange(bonds, from, |atoms|);
    assert BondsInRange(joined, |atoms|);
    BondsWithoutAtomInRange(joined, from, |atoms|);
    BondsWithoutAtomInRange(BondsWithoutAtom(joined, from), IndexAfterRemoval(to, from), |atoms| - 1);
  }

  lemma {:induction false} PartnerInRange(bonds: seq<Bond>, id: int, n: int)
    requires BondsInRange(bonds, n)
    ensures BondPartner(bonds, id) == -1 || 0 <= BondPartner(bonds, id) < n
  {
    if bonds != [] {
      PartnerInRange(bonds[1..], id, n);
    }
  }

  // ---- V2000 molfile charges -------------------------------------------------

  /** parseMolfileCharge: an atom-block charge code to a formal charge; code 4 (doublet radical) is refused. */
  function ParseMolfileCharge(code: int): (r: Result<int>)
    ensures r.Success? ==> -3 <= r.value <= 3
    ensures r.Failure? ==> r.error == UnsupportedCharge
  {
    match code
    case 1 => Success(3)
    case 2 => Success(2)
    case 3 => Success(1)
    case 4 => Failure(UnsupportedCharge)
    case 5 => Success(-1)
    case 6 => Success(-2)
    case 7 => Success(-3)
    case _ => Success(0)
  }

  /** writeMolfileCharge: a formal charge to its atom-block code, 0 when the code cannot express it. */
  function WriteMolfileCharge(charge: int): (r: int)
    ensures 0 <= r <= 7 && r != 4
  {
    match charge
    case 3 => 1
    case 2 => 2
    case 1 => 3
    case -1 => 5
    case -2 => 6
    case -3 => 7
    case _ => 0
  }

  /** Every charge the atom block can express comes back from its code. */
  lemma ChargeCodeRoundTrip(charge: int)
    requires -3 <= charge <= 3
    ensures ParseMolfileCharge(WriteMolfileCharge(charge)) == Success(charge)
  {
  }

  /** Every code but 4 names a charge that is written back as the same code; other codes read as 0. */
  lemma ChargeCodeInverse(code: int)
    ensures code in {1, 2, 3, 5, 6, 7} ==> WriteMolfileCharge(ParseMolfileCharge(code).value) == code
    ensures code == 4 <==> ParseMolfileCharge(code).Failure?
    ensures code !in {1, 2, 3, 4, 5, 6, 7} ==> ParseMolfileCharge(code) == Success(0)
  {
  }

  // ---- fromSDFData -------------------------------------------------------------

  /**
   * The failure the model gives where fromSDFData dereferences past the last
   * line (the source's behaviour is undefined there).
   */
  const ReadPastEnd := "SDF read error, unexpected end of data"

  /** The other read errors of the SDF reader. */
  const UnsupportedCharge := "SDF read error, unsupported charge value"
  const BadChargeAtom := "Invalid M  CHG atom id"
  const BadChargeLine := "Invalid M  CHG line"
  const MissingHeader := "SDF read error, missing header lines"
  const MissingCounts := "SDF read error, missing counts line"

  /** QString::split on the regular expression [\r\n]: either character ends a line. */
  function SplitLineBreaks(s: string): (r: seq<string>)
    ensures |r| >= 1
  {
    if s == [] then [""]
    else if IsLineTerm(s[0]) then [""] + SplitLineBreaks(s[1..])
    else
      var rest := SplitLineBreaks(s[1..]);
      [[s[0]] + rest[0]] + rest[1..]
  }

  /** The fields splitFixedWidth cuts from a counts line, widths 3 and 3. */
  function CountsFields(line: string): seq<string> {
    [Mid(line, 0, 3), Mid(line, 3, 3)]
  }

  /** The fields of an atom line, widths 11, 10, 10, 4, 2 and 3. */
  function AtomFields(line: string): seq<string> {
    [Mid(line, 0, 11), Mid(line, 11, 10), Mid(line, 21, 10), Mid(line, 31, 4), Mid(line, 35, 2), Mid(line, 37, 3)]
  }

  /** The fields of a bond line, widths 3, 3 and 3. */
  function BondFields(line: string): seq<string> {
    [Mid(line, 0, 3), Mid(line, 3, 3), Mid(line, 6, 3)]
  }

  /** The counts-line offsets are the running sums of its widths. */
  lemma CountsFieldsFromWidths(line: string, fields: seq<string>)
    requires |fields| == 2
    requires forall k :: 0 <= k < 2 ==> fields[k] == Mid(line, Sum([3, 3][..k]), [3, 3][k])
    ensures fields == CountsFields(line)
  {
    var w: seq<nat> := [3, 3];
    assert Sum(w[..0]) == 0;
    SumSnoc(w, 0);
  }

  /** The atom-line offsets 0, 11, 21, 31, 35 and 37 are the running sums of its widths. */
  lemma AtomFieldsFromWidths(line: string, fields: seq<string>)
    requires |fields| == 6
    requires forall k :: 0 <= k < 6 ==> fields[k] == Mid(line, Sum(AtomWidths[..k]), AtomWidths[k])
    ensures fields == AtomFields(line)
  {
    var w := AtomWidths;
    assert Sum(w[..0]) == 0;
    SumSnoc(w, 0);
    SumSnoc(w, 1);
    SumSnoc(w, 2);
    SumSnoc(w, 3);
    SumSnoc(w, 4);
  }

  /** The bond-line offsets 0, 3 and 6 are the running sums of its widths. */
  lemma BondFieldsFromWidths(line: string, fields: seq<string>)
    requires |fields| == 3
    requires forall k :: 0 <= k < 3 ==> fields[k] == Mid(line, Sum(BondWidths[..k]), BondWidths[k])
    ensures fields == BondFields(line)
  {
    var w := BondWidths;
    assert Sum(w[..0]) == 0;
    SumSnoc(w, 0);
    SumSnoc(w, 1);
  }

  /** C++ double-to-int conversion, which truncates toward zero. */
  function TruncToInt(v: real): int {
    if v >= 0.0 then v.Floor else -((-v).Floor)
  }

  function NonNeg(n: int): nat {
    if n < 0 then 0 else n
  }

  /** One atom line, `xxxxx.xxxxyyyyy.yyyyzzzzz.zzzz aaaddccc...`. */
  function AtomFromFields(num: Numbers, f: seq<string>): Result<Atom>
    requires |f| == 6
  {
    var x :- DoubleFromList(num, f, 0);
    var y :- DoubleFromList(num, f, 1);
    var z :- DoubleFromList(num, f, 2);
    var code :- DoubleFromList(num, f, 5);
    var charge :- ParseMolfileCharge(TruncToInt(code));
    Success(Atom(x, y, z, Trim(f[3]), charge))
  }

  const AtomWidths: seq<nat> := [11, 10, 10, 4, 2, 3]
  const BondWidths: seq<nat> := [3, 3, 3]

  /** The atom block: `n` atom lines appended to `acc`. */
  function AtomBlock(num: Numbers, lines: seq<string>, n: int, acc: seq<Atom>): (r: Result<seq<Atom>>)
    ensures r.Success? ==> |lines| >= NonNeg(n) && |r.value| == |acc| + NonNeg(n)
    decreases |lines|
  {
    if n <= 0 then Success(acc)
    else if lines == [] then Failure(ReadPastEnd)
    else
      var a :- AtomFromFields(num, AtomFields(lines[0]));
      AtomBlock(num, lines[1..], n - 1, acc + [a])
  }

  /** One bond line `111222ttt...`, with 1-based atom numbers made 0-based. */
  function BondFromFields(num: Numbers, f: seq<string>): Result<Bond>
    requires |f| == 3
  {
    var from :- IntFromList(num, f, 0);
    var to :- IntFromList(num, f, 1);
    var order :- IntFromList(num, f, 2);
    Success(Bond(from - 1, to - 1, order))
  }

  /** The bond block: `n` bond lines; a bond naming a missing atom is dropped. */
  function BondBlock(num: Numbers, lines: seq<string>, n: int, numAtoms: int, acc: seq<Bond>): (r: Result<seq<Bond>>)
    requires BondsInRange(acc, numAtoms)
    ensures r.Success? ==> |lines| >= NonNeg(n) && BondsInRange(r.value, numAtoms)
    decreases |lines|
  {
    if n <= 0 then Success(acc)
    else if lines == [] then Failure(ReadPastEnd)
    else
      var b :- BondFromFields(num, BondFields(lines[0]));
      if 0 <= b.from < numAtoms && 0 <= b.to < numAtoms then BondBlock(num, lines[1..], n - 1, numAtoms, acc + [b])
      else BondBlock(num, lines[1..], n - 1, numAtoms, acc)
  }

  /** QString::remove(0, n). */
  function DropPrefix(s: string, n: nat): string {
    if |s| <= n then "" else s[n..]
  }

  /** Only charges change, and the atom count stays. */
  predicate SameButCharges(a: seq<Atom>, b: seq<Atom>) {
    |a| == |b| && forall j :: 0 <= j < |a| ==> b[j] == a[j].(charge := b[j].charge)
  }

  /** The (atom number, charge) pairs of one `M  CHG` line, applied in order. */
  function ApplyChargePairs(num: Numbers, tokens: seq<string>, atoms: seq<Atom>): (r: Result<seq<Atom>>)
    requires |tokens| % 2 == 0
    ensures r.Success? ==> SameButCharges(atoms, r.value)
    decreases |tokens|
  {
    if tokens == [] then Success(atoms)
    else
      var id :- ToIntOrThrow(num, tokens[0]);
      var charge :- ToIntOrThrow(num, tokens[1]);
      if id - 1 >= |atoms| || id - 1 < 0 then Failure(BadChargeAtom)
      else ApplyChargePairs(num, tokens[2..], atoms[id - 1 := atoms[id - 1].(charge := charge)])
  }

  /** The tokens of an `M  CHG` line after its 9-character head. */
  function ChargeTokens(line: string): seq<string> {
    SplitSkipEmpty(DropPrefix(line, 9), ' ')
  }

  /** The property block: `M  CHG` lines set charges until `M  END` or the end of the data. */
  function ChargeLines(num: Numbers, lines: seq<string>, atoms: seq<Atom>): (r: Result<seq<Atom>>)
    ensures r.Success? ==> SameButCharges(atoms, r.value)
    decreases |lines|
  {
    if lines == [] || StartsWith(lines[0], "M  END") then Success(atoms)
    else if StartsWith(lines[0], "M  CHG") then
      var tokens := ChargeTokens(lines[0]);
      if |tokens| % 2 != 0 then Failure(BadChargeLine)
      else
        var next :- ApplyChargePairs(num, tokens, atoms);
        ChargeLines(num, lines[1..], next)
    else ChargeLines(num, lines[1..], atoms)
  }

  /** fromSDFData on a V2000 molfile: header, counts, atom block, bond block, property block. */
  function SdfData(num: Numbers, source: string): Result<Mol> {
    var data := SplitLineBreaks(source);
    if |data| < 3 then Failure(MissingHeader)
    else if |data| == 3 then Failure(MissingCounts)
    else
      var counts := CountsFields(data[3]);
      var numAtoms :- IntFromList(num, counts, 0);
      var numBonds :- IntFromList(num, counts, 1);
      MolBlocks(num, data, numAtoms, numBonds)
  }

  /** The atom, bond and property blocks that follow the counts line (line 3). */
  function MolBlocks(num: Numbers, data: seq<string>, numAtoms: int, numBonds: int): Result<Mol>
    requires |data| >= 4
  {
    var atoms :- AtomBlock(num, data[4..], numAtoms, []);
    var afterAtoms := data[4 + NonNeg(numAtoms)..];
    var bonds :- BondBlock(num, afterAtoms, numBonds, |atoms|, []);
    var charged :- ChargeLines(num, afterAtoms[NonNeg(numBonds)..], atoms);
    Success(Mol(charged, bonds))
  }

  /** A molecule read from a molfile has as many atoms as its counts line says and no dangling bond. */
  lemma SdfDataWellFormed(num: Numbers, source: string)
    requires SdfData(num, source).Success?
    ensures var data := SplitLineBreaks(source);
      |data| > 3 && IntFromList(num, CountsFields(data[3]), 0).Success?
      && |SdfData(num, source).value.atoms| == NonNeg(IntFromList(num, CountsFields(data[3]), 0).value)
    ensures BondsInRange(SdfData(num, source).value.bonds, |SdfData(num, source).value.atoms|)
  {
  }

  /** An `M  CHG` line with an odd number of tokens is refused before any of its pairs is read. */
  lemma OddChargeLineRefused(num: Numbers, line: string, rest: seq<string>, atoms: seq<Atom>)
    requires StartsWith(line, "M  CHG") && |ChargeTokens(line)| % 2 == 1
    ensures ChargeLines(num, [line] + rest, atoms) == Failure(BadChargeLine)
  {
    assert !StartsWith(line, "M  END") by {
      assert line[..6] == "M  CHG";
      assert line[3] == line[..6][3] == 'C';
    }
  }

  /** With the Qt conversions, a pair naming an atom number outside 1..|atoms| is refused. */
  lemma ChargeAtomOutOfRangeRefused(id: int, charge: int, rest: seq<string>, atoms: seq<Atom>)
    requires IntMin <= id <= IntMax && IntMin <= charge <= IntMax
    requires id < 1 || id > |atoms|
    requires |rest| % 2 == 0
    ensures ApplyChargePairs(Qt, [IntToString(id), IntToString(charge)] + rest, atoms) == Failure(BadChargeAtom)
  {
    ToIntOfIntToString(id);
    ToIntOfIntToString(charge);
  }

  lemma AtomBlockStep(num: Numbers, lines: seq<string>, n: int, acc: seq<Atom>)
    requires n > 0 && lines != []
    ensures var a := AtomFromFields(num, AtomFields(lines[0]));
      AtomBlock(num, lines, n, acc) == if a.Failure? then Failure(a.error) else AtomBlock(num, lines[1..], n - 1, acc + [a.value])
  {
  }

  lemma BondBlockStep(num: Numbers, lines: seq<string>, n: int, numAtoms: int, acc: seq<Bond>)
    requires n > 0 && lines != [] && BondsInRange(acc, numAtoms)
    ensures var b := BondFromFields(num, BondFields(lines[0]));
      BondBlock(num, lines, n, numAtoms, acc) ==
        if b.Failure? then Failure(b.error)
        else if 0 <= b.value.from < numAtoms && 0 <= b.value.to < numAtoms then BondBlock(num, lines[1..], n - 1, numAtoms, acc + [b.value])
        else BondBlock(num, lines[1..], n - 1, numAtoms, acc)
  {
  }

  /** One atom line, cut with splitFixedWidth and converted. */
  method ReadAtomLine(num: Numbers, line: string) returns (r: Result<Atom>)
    ensures r == AtomFromFields(num, AtomFields(line))
  {
    var fields := SplitFixedWidth(line, AtomWidths);
    AtomFieldsFromWidths(line, fields);
    r := AtomFromFields(num, fields);
  }

  /** One bond line, cut with splitFixedWidth and converted. */
  method ReadBondLine(num: Numbers, line: string) returns (r: Result<Bond>)
    ensures r == BondFromFields(num, BondFields(line))
  {
    var fields := SplitFixedWidth(line, BondWidths);
    BondFieldsFromWidths(line, fields);
    r := BondFromFields(num, fields);
  }

  /** The atom-block loop of fromSDFData. */
  method ReadAtomBlock(num: Numbers, data: seq<string>, start: nat, numAtoms: int) returns (r: Result<seq<Atom>>)
    requires start <= |data|
    ensures r == AtomBlock(num, data[start..], numAtoms, [])
  {
    var pos := start;
    var atoms: seq<Atom> := [];
    var i := 0;
    while i < numAtoms
      invariant 0 <= i && pos == start + i && pos <= |data|
      invariant AtomBlock(num, data[start..], numAtoms, []) == AtomBlock(num, data[pos..], numAtoms - i, atoms)
    {
      if pos >= |data| {
        return Failure(ReadPastEnd);
      }
      AtomBlockStep(num, data[pos..], numAtoms - i, atoms);
      assert data[pos..][1..] == data[pos + 1..];
      var a :- ReadAtomLine(num, data[pos]);
      atoms := atoms + [a];
      pos := pos + 1;
      i := i + 1;
    }
    return Success(atoms);
  }

  /** The bond-block loop of fromSDFData. */
  method ReadBondBlock(num: Numbers, data: seq<string>, start: nat, numBonds: int, numAtoms: int) returns (r: Result<seq<Bond>>)
    requires start <= |data|
    ensures r == BondBlock(num, data[start..], numBonds, numAtoms, [])
  {
    var pos := start;
    var bonds: seq<Bond> := [];
    var i := 0;
    while i < numBonds
      invariant 0 <= i && pos == start + i && pos <= |data|
      invariant BondsInRange(bonds, numAtoms)
      invariant BondBlock(num, data[start..], numBonds, numAtoms, []) == BondBlock(num, data[pos..], numBonds - i, numAtoms, bonds)
    {
      if pos >= |data| {
        return Failure(ReadPastEnd);
      }
      BondBlockStep(num, data[pos..], numBonds - i, numAtoms, bonds);
      assert data[pos..][1..] == data[pos + 1..];
      var b :- ReadBondLine(num, data[pos]);
      if b.from >= 0 && b.from < numAtoms && b.to >= 0 && b.to < numAtoms {
        bonds := bonds + [b];
      }
      pos := pos + 1;
      i := i + 1;
    }
    return Success(bonds);
  }

  /** The pair loop over one `M  CHG` line. */
  method ReadChargePairs(num: Numbers, tokens: seq<string>, atoms: seq<Atom>) returns (r: Result<seq<Atom>>)
    requires |tokens| % 2 == 0
    ensures r == ApplyChargePairs(num, tokens, atoms)
  {
    var result := atoms;
    var k := 0;
    while k < |tokens|
      invariant 0 <= k <= |tokens| && k % 2 == 0
      invariant ApplyChargePairs(num, tokens, atoms) == ApplyChargePairs(num, tokens[k..], result)
    {
      assert tokens[k..][2..] == tokens[k + 2..];
      var id :- ToIntOrThrow(num, tokens[k]);
      id := id - 1;
      var charge :- ToIntOrThrow(num, tokens[k + 1]);
      if id >= |result| || id < 0 {
        return Failure(BadChargeAtom);
      }
      result := result[id := result[id].(charge := charge)];
      k := k + 2;
    }
    return Success(result);
  }

  /** The property-block loop of fromSDFData. */
  method ReadChargeLines(num: Numbers, data: seq<string>, start: nat, atoms: seq<Atom>) returns (r: Result<seq<Atom>>)
    requires start <= |data|
    ensures r == ChargeLines(num, data[start..], atoms)
  {
    var pos := start;
    var result := atoms;
    while pos < |data|
      invariant start <= pos <= |data|
      invariant ChargeLines(num, data[pos..], result) == ChargeLines(num, data[start..], atoms)
    {
      var line := data[pos];
      assert data[pos..][1..] == data[pos + 1..];
      pos := pos + 1;
      if StartsWith(line, "M  END") {
        break;
      } else if StartsWith(line, "M  CHG") {
        var tokens := SplitSkipEmpty(DropPrefix(line, 9), ' ');
        if |tokens| % 2 != 0 {
          return Failure(BadChargeLine);
        }
        result :- ReadChargePairs(num, tokens, result);
      }
    }
    return Success(result);
  }

  /** fromSDFData. */
  method FromSdfData(num: Numbers, source: string) returns (r: Result<Mol>)
    ensures r == SdfData(num, source)
  {
    var data := SplitLineBreaks(source);
    if |data| < 3 {
      return Failure(MissingHeader);
    }
    if |data| == 3 {
      return Failure(MissingCounts);
    }
    var counts := SplitFixedWidth(data[3], [3, 3]);
    CountsFieldsFromWidths(data[3], counts);
    var numAtoms :- IntFromList(num, counts, 0);
    var numBonds :- IntFromList(num, counts, 1);
    r := ReadBlocks(num, data, numAtoms, numBonds);
  }

  /** The bond and charge blocks of MolBlocks, read from `lines` once the atoms are known. */
  function MolBondBlocks(num: Numbers, lines: seq<string>, numBonds: int, atoms: seq<Atom>): Result<Mol> {
    var bonds :- BondBlock(num, lines, numBonds, |atoms|, []);
    var charged :- ChargeLines(num, lines[NonNeg(numBonds)..], atoms);
    Success(Mol(charged, bonds))
  }

  /** The bond and charge reading of fromSDFData from line `start` on. */
  method ReadBondAndCharge(num: Numbers, data: seq<string>, start: nat, numBonds: int, atoms: seq<Atom>) returns (r: Result<Mol>)
    requires start <= |data|
    ensures r == MolBondBlocks(num, data[start..], numBonds, atoms)
  {
    var bonds :- ReadBondBlock(num, data, start, numBonds, |atoms|);
    assert data[start..][NonNeg(numBonds)..] == data[start + NonNeg(numBonds)..];
    var charged :- ReadChargeLines(num, data, start + NonNeg(numBonds), atoms);
    return Success(Mol(charged, bonds));
  }

  /** The block reading of fromSDFData after the counts line. */
  method ReadBlocks(num: Numbers, data: seq<string>, numAtoms: int, numBonds: int) returns (r: Result<Mol>)
    requires |data| >= 4
    ensures r == MolBlocks(num, data, numAtoms, numBonds)
  {
    var atoms :- ReadAtomBlock(num, data, 4, numAtoms);
    var afterAtoms := 4 + NonNeg(numAtoms);
    ghost var rest := data[afterAtoms..];
    assert MolBlocks(num, data, numAtoms, numBonds) == MolBondBlocks(num, rest, numBonds, atoms);
    r := ReadBondAndCharge(num, data, afterAtoms, numBonds, atoms);
  }

  // ---- the M  CHG block of toMolFile --------------------------------------------

  /** QString::arg(n, 3): the number right-aligned in a field of at least three characters. */
  function Pad3(n: int): string {
    PadLeft(IntToString(n), 3)
  }

  /** `s` right-aligned in a field of `width` characters, or `s` itself when it is wider. */
  function PadLeft(s: string, width: nat): string
    decreases width - |s|
  {
    if |s| >= width then s else PadLeft(" " + s, width)
  }

  /** A 1-based atom number with its charge. */
  datatype ChargeEntry = ChargeEntry(id: int, charge: int)

  /** The charged atoms from index `i` on, numbered from 1. */
  function ChargeEntries(atoms: seq<Atom>, i: nat): seq<ChargeEntry>
    decreases |atoms| - i
  {
    if i >= |atoms| then []
    else (if atoms[i].charge != 0 then [ChargeEntry(i + 1, atoms[i].charge)] else []) + ChargeEntries(atoms, i + 1)
  }

  /** One entry of an `M  CHG` line, " nnn ccc". */
  function EntryText(e: ChargeEntry): string {
    " " + Pad3(e.id) + " " + Pad3(e.charge)
  }

  /** The entries of one `M  CHG` line. */
  function RowText(es: seq<ChargeEntry>): string {
    if es == [] then "" else EntryText(es[0]) + RowText(es[1..])
  }

  /** The entries grouped by line: full lines of eight, then the rest. */
  function Chunks(es: seq<ChargeEntry>): seq<seq<ChargeEntry>>
    decreases |es|
  {
    if |es| >= 8 then [es[..8]] + Chunks(es[8..])
    else if es == [] then []
    else [es]
  }

  function Flatten(chunks: seq<seq<ChargeEntry>>): seq<ChargeEntry> {
    if chunks == [] then [] else chunks[0] + Flatten(chunks[1..])
  }

  function ChargeLineText(c: seq<ChargeEntry>): string {
    "M  CHG" + Pad3(|c|) + RowText(c) + "\n"
  }

  function LinesText(chunks: seq<seq<ChargeEntry>>): string {
    if chunks == [] then "" else ChargeLineText(chunks[0]) + LinesText(chunks[1..])
  }

  /** The charge lines toMolFile writes for these atoms. */
  function ChargeBlockText(atoms: seq<Atom>): string {
    LinesText(Chunks(ChargeEntries(atoms, 0)))
  }

  /** Every `M  CHG` line carries one to eight entries, and together they are all the entries, in order. */
  lemma {:induction false} ChunksBounded(es: seq<ChargeEntry>)
    ensures forall k :: 0 <= k < |Chunks(es)| ==> 1 <= |Chunks(es)[k]| <= 8
    ensures Flatten(Chunks(es)) == es
    decreases |es|
  {
    if |es| >= 8 {
      ChunksBounded(es[8..]);
      assert es[..8] + es[8..] == es;
    } else if es != [] {
      assert Flatten([es]) == es + Flatten([]);
    }
  }

  lemma {:induction false} RowTextSnoc(es: seq<ChargeEntry>, e: ChargeEntry)
    ensures RowText(es + [e]) == RowText(es) + EntryText(e)
  {
    if es == [] {
      assert [] + [e] == [e];
      assert RowText([e]) == EntryText(e) + RowText([]);
    } else {
      assert (es + [e])[1..] == es[1..] + [e];
      RowTextSnoc(es[1..], e);
    }
  }

  /** Pending entries that reach eight close a line of their own. */
  lemma ChunksFull(pending: seq<ChargeEntry>, rest: seq<ChargeEntry>)
    requires |pending| == 8
    ensures Chunks(pending + rest) == [pending] + Chunks(rest)
  {
    assert (pending + rest)[..8] == pending && (pending + rest)[8..] == rest;
  }

  lemma {:induction false} LinesTextSnoc(chunks: seq<seq<ChargeEntry>>, c: seq<ChargeEntry>)
    ensures LinesText(chunks + [c]) == LinesText(chunks) + ChargeLineText(c)
  {
    if chunks == [] {
      assert [] + [c] == [c];
      assert LinesText([c]) == ChargeLineText(c) + LinesText([]);
    } else {
      assert (chunks + [c])[1..] == chunks[1..] + [c];
      LinesTextSnoc(chunks[1..], c);
    }
  }

  /** A full line of eight entries closes: its text follows the text written so far. */
  lemma CloseFullLine(written: seq<seq<ChargeEntry>>, pending: seq<ChargeEntry>, rest: seq<ChargeEntry>)
    requires |pending| == 8
    ensures LinesText(written + [pending]) == LinesText(written) + ("M  CHG  8" + RowText(pending) + "\n")
    ensures written + Chunks(pending + rest) == (written + [pending]) + Chunks([] + rest)
  {
    LinesTextSnoc(written, pending);
    PadSmall(8);
    assert Pad3(8) == "  8";
    assert "M  CHG" + "  8" == "M  CHG  8";
    ChunksFull(pending, rest);
    AppendAssoc(written, [pending], Chunks(rest));
    assert [] + rest == rest;
  }

  /** A one-digit count is written as two spaces and the digit. */
  lemma PadSmall(n: nat)
    requires n < 10
    ensures Pad3(n) == "  " + [DigitChar(n)]
  {
    assert IntToString(n) == [DigitChar(n)];
    assert PadLeft([DigitChar(n)], 3) == PadLeft(" " + [DigitChar(n)], 3) == PadLeft("  " + [DigitChar(n)], 3);
  }

  lemma RowTextEmpty(es: seq<ChargeEntry>)
    ensures RowText(es) == "" <==> es == []
  {
    if es != [] {
      assert |EntryText(es[0])| > 0;
    }
  }

  lemma AppendAssoc<T>(a: seq<T>, b: seq<T>, c: seq<T>)
    ensures (a + b) + c == a + (b + c)
  {
  }

  /** An uncharged atom adds no entry. */
  lemma SkipUncharged(atoms: seq<Atom>, i: nat, pending: seq<ChargeEntry>)
    requires i < |atoms| && atoms[i].charge == 0
    ensures pending + ChargeEntries(atoms, i) == pending + ChargeEntries(atoms, i + 1)
  {
    assert [] + ChargeEntries(atoms, i + 1) == ChargeEntries(atoms, i + 1);
  }

  /** A charged atom moves its entry onto the pending line. */
  lemma TakeCharged(atoms: seq<Atom>, i: nat, pending: seq<ChargeEntry>)
    requires i < |atoms| && atoms[i].charge != 0
    ensures var e := ChargeEntry(i + 1, atoms[i].charge);
      pending + ChargeEntries(atoms, i) == (pending + [e]) + ChargeEntries(atoms, i + 1)
      && RowText(pending + [e]) == RowText(pending) + EntryText(e)
  {
    var e := ChargeEntry(i + 1, atoms[i].charge);
    assert ChargeEntries(atoms, i) == [e] + ChargeEntries(atoms, i + 1);
    AppendAssoc(pending, [e], ChargeEntries(atoms, i + 1));
    RowTextSnoc(pending, e);
  }

  /** The `M  CHG` block of toMolFile, written eight entries per line. */
  method ChargeBlock(atoms: seq<Atom>) returns (text: string)
    ensures text == ChargeBlockText(atoms)
  {
    text := "";
    var currentRow := "";
    var currentCount := 0;
    ghost var pending: seq<ChargeEntry> := [];
    ghost var written: seq<seq<ChargeEntry>> := [];
    assert pending + ChargeEntries(atoms, 0) == ChargeEntries(atoms, 0);
    assert written + Chunks(ChargeEntries(atoms, 0)) == Chunks(ChargeEntries(atoms, 0));
    for i := 0 to |atoms|
      invariant |pending| < 8 && currentCount == |pending| && currentRow == RowText(pending)
      invariant text == LinesText(written)
      invariant written + Chunks(pending + ChargeEntries(atoms, i)) == Chunks(ChargeEntries(atoms, 0))
    {
      if atoms[i].charge != 0 {
        var e := ChargeEntry(i + 1, atoms[i].charge);
        TakeCharged(atoms, i, pending);
        currentRow := currentRow + EntryText(e);
        currentCount := currentCount + 1;
        pending := pending + [e];
        if currentCount == 8 {
          CloseFullLine(written, pending, ChargeEntries(atoms, i + 1));
          var line := "M  CHG  8" + currentRow + "\n";
          text := text + line;
          written := written + [pending];
          currentRow := "";
          currentCount := 0;
          pending := [];
        }
      } else {
        SkipUncharged(atoms, i, pending);
      }
    }
    assert pending + ChargeEntries(atoms, |atoms|) == pending;
    if currentRow != "" {
      assert pending != [];
      assert Chunks(pending) == [pending];
      LinesTextSnoc(written, pending);
      var line := "M  CHG" + Pad3(currentCount) + currentRow + "\n";
      assert line == ChargeLineText(pending);
      text := text + line;
    } else {
      RowTextEmpty(pending);
      assert written + [] == written;
    }
  }
}
