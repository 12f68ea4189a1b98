/**
 * calc_util (calculation_util.cpp): the overall charge of a molecule, the spin
 * multiplicity guessed from each atom's effective element, and the per-atom
 * spin list. The bond-order counts and the running sums are accumulated in
 * loops, as in the source; each loop is proved against a function below.
 */
module CalculationUtil {
  import opened Wrappers
  import opened MolStructs
  import opened Elements

  /** Sum of the atoms' charges. */
  function ChargeSum(atoms: seq<Atom>): int {
    if atoms == [] then 0 else ChargeSum(atoms[..|atoms| - 1]) + atoms[|atoms| - 1].charge
  }

  /** The charge of two atom lists joined is the sum of their charges. */
  lemma {:induction false} ChargeSumAppend(a: seq<Atom>, b: seq<Atom>)
    ensures ChargeSum(a + b) == ChargeSum(a) + ChargeSum(b)
    decreases |b|
  {
    if b == [] {
      assert a + b == a;
    } else {
      assert (a + b)[..|a + b| - 1] == a + b[..|b| - 1];
      ChargeSumAppend(a, b[..|b| - 1]);
    }
  }

  /** overallCharge: the sum of the atoms' charges. */
  method OverallCharge(mol: Mol) returns (charge: int)
    ensures charge == ChargeSum(mol.atoms)
  {
    charge := 0;
    for i := 0 to |mol.atoms|
      invariant charge == ChargeSum(mol.atoms[..i])
    {
      assert mol.atoms[..i + 1][..i] == mol.atoms[..i];
      charge := charge + mol.atoms[i].charge;
    }
    assert mol.atoms[..|mol.atoms|] == mol.atoms;
  }

  /** What bond `b` adds to the count of atom `id`: its order once for each of its ends at `id`. */
  function EndOrder(b: Bond, id: int): int {
    (if b.to == id then b.order else 0) + (if b.from == id then b.order else 0)
  }

  /** Summed bond order at atom `id`. */
  function BondOrder(bonds: seq<Bond>, id: int): int {
    if bonds == [] then 0 else BondOrder(bonds[..|bonds| - 1], id) + EndOrder(bonds[|bonds| - 1], id)
  }

  /** An atom that no bond touches has bond order 0. */
  lemma {:induction false} BondOrderUntouched(bonds: seq<Bond>, id: int)
    requires forall k :: 0 <= k < |bonds| ==> !Touches(bonds[k], id)
    ensures BondOrder(bonds, id) == 0
    decreases |bonds|
  {
    if bonds != [] {
      BondOrderUntouched(bonds[..|bonds| - 1], id);
    }
  }

  /** The bond order at `id` over two bond lists joined is the sum over each. */
  lemma {:induction false} BondOrderAppend(a: seq<Bond>, b: seq<Bond>, id: int)
    ensures BondOrder(a + b, id) == BondOrder(a, id) + BondOrder(b, id)
    decreases |b|
  {
    if b == [] {
      assert a + b == a;
    } else {
      assert (a + b)[..|a + b| - 1] == a + b[..|b| - 1];
      BondOrderAppend(a, b[..|b| - 1], id);
    }
  }

  /**
   * A bond moved by addFragment ends at a fragment atom, past the old atoms, or at
   * atom 0 when its endpoint lies outside the fragment: it never touches another old atom.
   */
  lemma {:induction false} OffsetBondsMissOld(bonds: seq<Bond>, base: nat, n: int, id: int)
    requires 1 <= id < base || (0 <= id < base && BondsInRange(bonds, n))
    ensures |OffsetBonds(bonds, base, n)| == |bonds|
    ensures forall k :: 0 <= k < |bonds| ==> !Touches(OffsetBonds(bonds, base, n)[k], id)
    decreases |bonds|
  {
    if bonds != [] {
      var init := bonds[..|bonds| - 1];
      assert BondsInRange(bonds, n) ==> BondsInRange(init, n) by {
        if BondsInRange(bonds, n) {
          forall k | 0 <= k < |init|
            ensures 0 <= init[k].from < n && 0 <= init[k].to < n
          {
            assert init[k] == bonds[k];
          }
        }
      }
      OffsetBondsMissOld(init, base, n, id);
    }
  }

  /**
   * After addFragment the overall charge is the old charge plus the fragment's,
   * and every old atom keeps its bond count, except that atom 0 also counts the
   * fragment bonds whose endpoints lie outside the fragment.
   */
  lemma AddFragmentTotals(mol: Mol, fragment: Mol, id: int)
    ensures var joined := Mol(mol.atoms + fragment.atoms, mol.bonds + OffsetBonds(fragment.bonds, |mol.atoms|, |fragment.atoms|));
      ChargeSum(joined.atoms) == ChargeSum(mol.atoms) + ChargeSum(fragment.atoms) &&
      (1 <= id < |mol.atoms| || (0 <= id < |mol.atoms| && BondsInRange(fragment.bonds, |fragment.atoms|)) ==>
        BondOrder(joined.bonds, id) == BondOrder(mol.bonds, id))
  {
    ChargeSumAppend(mol.atoms, fragment.atoms);
    var moved := OffsetBonds(fragment.bonds, |mol.atoms|, |fragment.atoms|);
    if 1 <= id < |mol.atoms| || (0 <= id < |mol.atoms| && BondsInRange(fragment.bonds, |fragment.atoms|)) {
      OffsetBondsMissOld(fragment.bonds, |mol.atoms|, |fragment.atoms|, id);
      BondOrderUntouched(moved, id);
      BondOrderAppend(mol.bonds, moved, id);
    }
  }

  /** The summed bond order of every atom. */
  function BondOrders(mol: Mol): (r: seq<int>)
    ensures |r| == |mol.atoms|
  {
    seq(|mol.atoms|, i => BondOrder(mol.bonds, i))
  }

  /** The bondCounts vector: each bond adds its order at both of its ends. */
  method BondCounts(mol: Mol) returns (counts: seq<int>)
    requires BondsInRange(mol.bonds, |mol.atoms|)
    ensures counts == BondOrders(mol)
  {
    counts := seq(|mol.atoms|, _ => 0);
    for k := 0 to |mol.bonds|
      invariant |counts| == |mol.atoms|
      invariant forall i :: 0 <= i < |counts| ==> counts[i] == BondOrder(mol.bonds[..k], i)
    {
      var b := mol.bonds[k];
      assert mol.bonds[..k + 1][..k] == mol.bonds[..k];
      counts := counts[b.to := counts[b.to] + b.order];
      counts := counts[b.from := counts[b.from] + b.order];
    }
    assert mol.bonds[..|mol.bonds|] == mol.bonds;
  }

  /** How one atom enters the spin guess. */
  datatype AtomSpin =
    | OverBonded                      // more bond order than electrons
    | HydrogenIon                     // effective number 0: a bare proton
    | NoEffectiveElement              // effective number outside the element table
    | NoGroup                         // effective group missing from the table of unpaired counts
    | Unpaired(count: int, certain: bool)

  /**
   * Unpaired electrons for an effective group, and whether the guess is certain:
   * it is not for the transition metals (groups 3..12) and the f-block (negative groups).
   */
  function GroupSpin(g: int): (r: Option<(int, bool)>)
    ensures -14 <= g <= 18 && g != 0 ==> r.Some? && 0 <= r.value.0 <= 7
    ensures r.Some? ==> (r.value.1 <==> 1 <= g <= 2 || 13 <= g)
    ensures r.None? <==> g == 0 || g < -14
  {
    if g >= 16 then Some((18 - g, true))
    else if g >= 13 then Some((g - 12, true))
    else if g >= 8 then Some((12 - g, false))
    else if g >= 3 then Some((g - 2, false))
    else if g == 2 then Some((0, true))
    else if g == 1 then Some((1, true))
    else if g < 0 && g >= -7 then Some((-g, false))
    else if g < -7 && g >= -14 then Some((14 + g, false))
    else None
  }

  /**
   * Classifies one atom from its element's number, its charge and its summed
   * bond order; the effective atomic number is number + bondOrder - charge.
   */
  function Classify(t: PeriodicTable, number: int, charge: int, bondOrder: int): (s: AtomSpin)
    requires WellFormed(t)
    ensures s != NoGroup
    ensures s.Unpaired? ==> 0 <= s.count <= 7
    ensures s.Unpaired? ==>
      var g := Group(t, ElementOf(t, number + bondOrder - charge));
      (s.certain <==> !(3 <= g <= 12 || g < 0))
    ensures s == HydrogenIon ==> number + bondOrder - charge == 0
  {
    if number - charge < bondOrder then OverBonded
    else
      var effective := number + bondOrder - charge;
      if effective == 0 then HydrogenIon
      else
        var effectiveElement := ElementOf(t, effective);
        if !IsValid(effectiveElement) then NoEffectiveElement
        else match GroupSpin(Group(t, effectiveElement))
          case None => NoGroup
          case Some((count, certain)) => Unpaired(count, certain)
  }

  /** The classification of every atom of the molecule, its element read from its symbol. */
  function AtomClasses(t: PeriodicTable, mol: Mol): (r: seq<AtomSpin>)
    requires WellFormed(t)
    ensures |r| == |mol.atoms|
  {
    var orders := BondOrders(mol);
    seq(|mol.atoms|, i requires 0 <= i < |mol.atoms| =>
      Classify(t, FromAbbr(t, mol.atoms[i].element).number, mol.atoms[i].charge, orders[i]))
  }

  /** Atoms that make the spin guess give up. */
  predicate Fails(s: AtomSpin) {
    s.OverBonded? || s.NoEffectiveElement? || s.NoGroup?
  }

  /** An atom that leaves the guess certain. */
  predicate Certain(s: AtomSpin) {
    !s.Unpaired? || (s.certain && s.count >= 0)
  }

  /** Unpaired electrons an atom adds to the total. */
  function Contribution(s: AtomSpin): int {
    if s.Unpaired? && s.count >= 0 then s.count else 0
  }

  /** Total unpaired electrons over a list of atoms. */
  function UnpairedSum(cs: seq<AtomSpin>): int {
    if cs == [] then 0 else UnpairedSum(cs[..|cs| - 1]) + Contribution(cs[|cs| - 1])
  }

  predicate NoneFails(cs: seq<AtomSpin>) {
    forall i :: 0 <= i < |cs| ==> !Fails(cs[i])
  }

  predicate AllCertain(cs: seq<AtomSpin>) {
    forall i :: 0 <= i < |cs| ==> Certain(cs[i])
  }

  /** The spin guess: 0 when some atom fails, else 1 + the unpaired total, negated when the guess is uncertain. */
  function SpinOf(cs: seq<AtomSpin>): int {
    if !NoneFails(cs) then 0
    else if AllCertain(cs) then UnpairedSum(cs) + 1
    else -(UnpairedSum(cs) + 1)
  }

  /**
   * The branch table on the effective group, as the source writes it: the
   * unpaired count starts at -1 and `certain` is cleared for the uncertain
   * groups; `known` is false when no branch applies.
   */
  method UnpairedOfGroup(group: int) returns (atomSpin: int, certain: bool, known: bool)
    ensures known <==> GroupSpin(group).Some?
    ensures known ==> (atomSpin, certain) == GroupSpin(group).value
  {
    atomSpin, certain, known := -1, true, true;
    if group >= 16 {
      atomSpin := 18 - group;
    } else if group >= 13 {
      atomSpin := group - 12;
    } else if group >= 8 {
      certain := false;
      atomSpin := 12 - group;
    } else if group >= 3 {
      certain := false;
      atomSpin := group - 2;
    } else if group == 2 {
      atomSpin := 0;
    } else if group == 1 {
      atomSpin := 1;
    } else if group < 0 && group >= -7 {
      certain := false;
      atomSpin := -group;
    } else if group < -7 && group >= -14 {
      certain := false;
      atomSpin := 14 + group;
    } else {
      known := false;
    }
  }

  /**
   * The per-atom step shared by overallSpin and atomSpins: the effective element
   * from the element's number, the charge and the bond order, then the unpaired
   * count of its group.
   */
  method ClassifyAtom(t: PeriodicTable, number: int, charge: int, bondOrder: int) returns (s: AtomSpin)
    requires WellFormed(t)
    ensures s == Classify(t, number, charge, bondOrder)
  {
    if number - charge < bondOrder {
      return OverBonded;
    }
    var effectiveNumber := number + bondOrder - charge;
    if effectiveNumber == 0 {
      return HydrogenIon;
    }
    var effectiveElement := ElementOf(t, effectiveNumber);
    if !IsValid(effectiveElement) {
      return NoEffectiveElement;
    }
    var atomSpin, certain, known := UnpairedOfGroup(Group(t, effectiveElement));
    if !known {
      return NoGroup;
    }
    return Unpaired(atomSpin, certain);
  }

  /** One more atom in the running total and certainty of overallSpin's loop. */
  lemma SpinStep(cs: seq<AtomSpin>, i: nat, next: nat)
    requires i < |cs| && next == i + 1
    ensures UnpairedSum(cs[..next]) == UnpairedSum(cs[..i]) + Contribution(cs[i])
    ensures AllCertain(cs[..next]) == (AllCertain(cs[..i]) && Certain(cs[i]))
    ensures NoneFails(cs[..next]) == (NoneFails(cs[..i]) && !Fails(cs[i]))
  {
    assert cs[..next][..i] == cs[..i];
  }

  /** overallSpin: the spin multiplicity guessed from the atoms' effective groups. */
  method OverallSpin(t: PeriodicTable, mol: Mol) returns (spin: int)
    requires WellFormed(t) && BondsInRange(mol.bonds, |mol.atoms|)
    ensures spin == SpinOf(AtomClasses(t, mol))
  {
    var counts := BondCounts(mol);
    ghost var cs := AtomClasses(t, mol);
    var total := 0;
    var spinValid := true;
    var i := 0;
    while i < |mol.atoms|
      invariant i <= |mol.atoms|
      invariant NoneFails(cs[..i])
      invariant total == UnpairedSum(cs[..i])
      invariant spinValid == AllCertain(cs[..i])
    {
      var next := i + 1;
      SpinStep(cs, i, next);
      var element := FromAbbr(t, mol.atoms[i].element);
      var s := ClassifyAtom(t, element.number, mol.atoms[i].charge, counts[i]);
      assert s == cs[i];
      match s {
        case OverBonded => return 0;
        case NoEffectiveElement => return 0;
        case NoGroup => return 0;
        case HydrogenIon =>
        case Unpaired(atomSpin, certain) =>
          if !certain {
            spinValid := false;
          }
          if atomSpin < 0 {
            spinValid := false;
          } else {
            total := total + atomSpin;
          }
      }
      i := next;
    }
    assert cs[..|mol.atoms|] == cs;
    spin := total + 1;
    if !spinValid {
      spin := -spin;
    }
  }

  /** An atomSpins entry: 0 for an over-bonded atom or no effective element, 1 for H+, else unpaired + 1. */
  function SpinEntry(s: AtomSpin): int {
    match s
    case OverBonded => 0
    case HydrogenIon => 1
    case NoEffectiveElement => 0
    case NoGroup => 1
    case Unpaired(count, _) => count + 1
  }

  /** atomSpins: one entry per atom. */
  method AtomSpins(t: PeriodicTable, mol: Mol) returns (result: seq<int>)
    requires WellFormed(t) && BondsInRange(mol.bonds, |mol.atoms|)
    ensures |result| == |mol.atoms|
    ensures forall i :: 0 <= i < |result| ==> result[i] == SpinEntry(AtomClasses(t, mol)[i])
  {
    var counts := BondCounts(mol);
    ghost var cs := AtomClasses(t, mol);
    result := [];
    for i := 0 to |mol.atoms|
      invariant |result| == i
      invariant forall j :: 0 <= j < i ==> result[j] == SpinEntry(cs[j])
    {
      var element := FromAbbr(t, mol.atoms[i].element);
      var s := ClassifyAtom(t, element.number, mol.atoms[i].charge, counts[i]);
      assert s == cs[i];
      var entry;
      match s {
        case OverBonded => entry := 0;
        case HydrogenIon => entry := 1;
        case NoEffectiveElement => entry := 0;
        case NoGroup => entry := 0 + 1;
        case Unpaired(atomSpin, _) => entry := atomSpin + 1;
      }
      result := result + [entry];
    }
  }

  /** Every atomSpins entry lies in 0..8. */
  lemma AtomSpinsBounded(t: PeriodicTable, mol: Mol, i: int)
    requires WellFormed(t) && 0 <= i < |mol.atoms|
    ensures 0 <= SpinEntry(AtomClasses(t, mol)[i]) <= 8
  {
    var s := AtomClasses(t, mol)[i];
    assert s.Unpaired? ==> 0 <= s.count <= 7;
  }

  /** atomSpins entries less one, summed. */
  function EntrySum(cs: seq<AtomSpin>): int {
    if cs == [] then 0 else EntrySum(cs[..|cs| - 1]) + SpinEntry(cs[|cs| - 1]) - 1
  }

  /** Without failing atoms and with non-negative counts, the unpaired total is the sum of the entries less one. */
  lemma {:induction false} UnpairedSumIsEntrySum(cs: seq<AtomSpin>)
    requires forall i :: 0 <= i < |cs| ==> !Fails(cs[i]) && (cs[i].Unpaired? ==> cs[i].count >= 0)
    ensures UnpairedSum(cs) == EntrySum(cs)
    decreases |cs|
  {
    if cs != [] {
      UnpairedSumIsEntrySum(cs[..|cs| - 1]);
    }
  }

  /**
   * overallSpin and atomSpins agree: a non-zero spin has magnitude at least 1,
   * and its magnitude less one is the sum of the atomSpins entries less one.
   */
  lemma SpinMatchesAtomSpins(t: PeriodicTable, mol: Mol)
    requires WellFormed(t)
    ensures var s := SpinOf(AtomClasses(t, mol));
      s != 0 ==> (s >= 1 || s <= -1) && (if s > 0 then s else -s) - 1 == EntrySum(AtomClasses(t, mol))
  {
    var cs := AtomClasses(t, mol);
    if SpinOf(cs) != 0 {
      assert forall i :: 0 <= i < |cs| ==> !Fails(cs[i]);
      UnpairedSumIsEntrySum(cs);
      UnpairedSumNonNegative(cs);
    }
  }

  lemma {:induction false} UnpairedSumNonNegative(cs: seq<AtomSpin>)
    ensures UnpairedSum(cs) >= 0
    decreases |cs|
  {
    if cs != [] {
      UnpairedSumNonNegative(cs[..|cs| - 1]);
    }
  }

  /** A non-zero spin is negative exactly when some atom's effective group is 3..12 or an f-block group. */
  lemma SpinSign(t: PeriodicTable, mol: Mol)
    requires WellFormed(t)
    ensures var s := SpinOf(AtomClasses(t, mol));
      s != 0 ==> (s < 0 <==> exists i :: 0 <= i < |mol.atoms| && AtomClasses(t, mol)[i].Unpaired? && !AtomClasses(t, mol)[i].certain)
  {
    var cs := AtomClasses(t, mol);
    UnpairedSumNonNegative(cs);
    if SpinOf(cs) != 0 && SpinOf(cs) < 0 {
      assert !AllCertain(cs);
      var i :| 0 <= i < |cs| && !Certain(cs[i]);
      assert cs[i].Unpaired? && !cs[i].certain;
    }
  }
}
