/**
 * NWChemConfiguration (nwchemconfiguration.h, nwchemconfiguration.cpp): the
 * settings of an NWChem calculation and the input deck generated from them.
 *
 * The deck is specified block by block (basis, scf, dft, driver, memory,
 * tasks); `GenerateConfig` appends the blocks in the source's order and is
 * proved to produce their concatenation. Loading settings back is modelled on
 * the values the stored JSON object holds, as written (the spin is dropped)
 * and corrected.
 */
module NWChemConfigurations {
  import opened Wrappers
  import opened Text

  datatype Method = MethodSCF | MethodDFT

  datatype Configuration = Configuration(
    calcMethod: Method, basis: string, functional: string,
    driverMaxIter: int, scfMaxIter: int, taskOpt: bool, taskFreq: bool,
    spin: Option<int>)

  /** The member initialisers of nwchemconfiguration.h. */
  const DefaultConfiguration := Configuration(MethodSCF, "6-311G**", "B3LYP", -1, -1, true, false, None)

  /** hasSpin: a spin is set and it is positive. */
  predicate HasSpin(c: Configuration) {
    c.spin.Some? && c.spin.value > 0
  }

  // ---------------------------------------------------------------------------
  // The blocks of the input deck

  // The fixed text of the deck.
  const BasisOpen := "basis\n  * library "
  const BlockClose := "\nend\n"
  const ScfOpen := "scf\n"
  const Newline := "\n"
  const MaxIterPrefix := "  maxiter "
  const SymOff := "  sym off"
  const AdaptOff := "  adapt off"
  const NopenPrefix := "  nopen "
  const DftOpen := "dft"
  const XcPrefix := "  xc "
  const MultPrefix := "  mult "
  const EndLine := "end\n"
  const DriverOpen := "driver\n  maxiter "
  const MemoryLine := "memory total 4 gb\n"
  const TaskPrefix := "task "
  const OptimizeSuffix := " optimize\n"
  const EnergySuffix := " energy\n"
  const FreqSuffix := " freq\n"

  /** generateBasisSection. */
  function BasisSection(c: Configuration): string {
    BasisOpen + c.basis + BlockClose
  }

  /** The lines collected in `scfParams`. */
  function ScfParams(c: Configuration): seq<string> {
    (if c.scfMaxIter != -1 then [MaxIterPrefix + IntToString(c.scfMaxIter)] else []) +
    (if HasSpin(c) then
       [SymOff, AdaptOff] + (if c.calcMethod == MethodSCF then [NopenPrefix + IntToString(c.spin.value - 1)] else [])
     else [])
  }

  function ScfBlock(c: Configuration): string {
    if ScfParams(c) == [] then "" else ScfOpen + Join(ScfParams(c), Newline) + BlockClose
  }

  /** The lines collected in `dftParams`. */
  function DftParams(c: Configuration): seq<string> {
    [DftOpen, XcPrefix + c.functional] + (if HasSpin(c) then [MultPrefix + IntToString(c.spin.value)] else []) + [EndLine]
  }

  function DftBlock(c: Configuration): string {
    if c.calcMethod == MethodDFT then Join(DftParams(c), Newline) else ""
  }

  function DriverBlock(c: Configuration): string {
    if c.taskOpt && c.driverMaxIter != -1 then DriverOpen + IntToString(c.driverMaxIter) + BlockClose else ""
  }

  /** The module name substituted into the task template. */
  function MethodName(m: Method): string {
    match m
    case MethodSCF => "scf"
    case MethodDFT => "dft"
  }

  function TaskLines(c: Configuration): string {
    var m := MethodName(c.calcMethod);
    (if c.taskOpt then TaskPrefix + m + OptimizeSuffix else TaskPrefix + m + EnergySuffix) +
    (if c.taskFreq then TaskPrefix + m + FreqSuffix else "")
  }

  /** The whole deck: the blocks in the order generateConfig appends them. */
  function ConfigText(c: Configuration): string {
    BasisSection(c) + ScfBlock(c) + DftBlock(c) + DriverBlock(c) + MemoryLine + TaskLines(c)
  }

  /** The scf lines of generateConfig, appended one at a time. */
  method CollectScfParams(c: Configuration) returns (scfParams: seq<string>)
    ensures scfParams == ScfParams(c)
  {
    scfParams := [];
    if c.scfMaxIter != -1 {
      scfParams := scfParams + [MaxIterPrefix + IntToString(c.scfMaxIter)];
    }
    if HasSpin(c) {
      scfParams := scfParams + [SymOff];
      scfParams := scfParams + [AdaptOff];
      if c.calcMethod == MethodSCF {
        scfParams := scfParams + [NopenPrefix + IntToString(c.spin.value - 1)];
      }
    }
  }

  /** The dft lines of generateConfig, appended one at a time. */
  method CollectDftParams(c: Configuration) returns (dftParams: seq<string>)
    ensures dftParams == DftParams(c)
  {
    dftParams := [];
    dftParams := dftParams + [DftOpen];
    dftParams := dftParams + [XcPrefix + c.functional];
    if HasSpin(c) {
      dftParams := dftParams + [MultPrefix + IntToString(c.spin.value)];
    }
    dftParams := dftParams + [EndLine];
  }

  /** generateConfig: appends each block to `result` in turn. */
  method GenerateConfig(c: Configuration) returns (result: string)
    ensures result == ConfigText(c)
  {
    result := "";
    result := result + BasisSection(c);
    assert result == BasisSection(c);

    var scfParams := CollectScfParams(c);
    if scfParams != [] {
      result := result + (ScfOpen + Join(scfParams, Newline) + BlockClose);
    } else {
      assert result + ScfBlock(c) == result;
    }
    assert result == BasisSection(c) + ScfBlock(c);

    if c.calcMethod == MethodDFT {
      var dftParams := CollectDftParams(c);
      result := result + Join(dftParams, Newline);
    } else {
      assert result + DftBlock(c) == result;
    }
    assert result == BasisSection(c) + ScfBlock(c) + DftBlock(c);

    if c.taskOpt && c.driverMaxIter != -1 {
      result := result + (DriverOpen + IntToString(c.driverMaxIter) + BlockClose);
    } else {
      assert result + DriverBlock(c) == result;
    }
    assert result == BasisSection(c) + ScfBlock(c) + DftBlock(c) + DriverBlock(c);

    result := result + MemoryLine;

    var m := MethodName(c.calcMethod);
    var task := if c.taskOpt then TaskPrefix + m + OptimizeSuffix else TaskPrefix + m + EnergySuffix;
    if c.taskFreq {
      task := task + (TaskPrefix + m + FreqSuffix);
    }
    assert task == TaskLines(c);
    result := result + task;
  }

  // ---------------------------------------------------------------------------
  // Properties of the deck

  lemma {:induction false} ContainsInside(pre: string, sub: string, post: string)
    ensures Contains(pre + sub + post, sub)
    decreases |pre|
  {
    if pre == [] {
      assert pre + sub + post == sub + post;
    } else {
      assert (pre + sub + post)[1..] == pre[1..] + sub + post;
      ContainsInside(pre[1..], sub, post);
    }
  }

  /** Six pieces laid end to end start with the first and contain the fifth. */
  lemma Frame(b: string, s: string, d: string, r: string, m: string, t: string)
    ensures StartsWith(b + s + d + r + m + t, b)
    ensures Contains(b + s + d + r + m + t, m)
  {
    assert b + s + d + r + m + t == b + (s + d + r + m + t);
    assert (b + (s + d + r + m + t))[..|b|] == b;
    ContainsInside(b + s + d + r, m, t);
  }

  /** The deck opens with the basis section and always sets the memory. */
  lemma ConfigFrame(c: Configuration)
    ensures StartsWith(ConfigText(c), BasisSection(c))
    ensures Contains(ConfigText(c), MemoryLine)
  {
    Frame(BasisSection(c), ScfBlock(c), DftBlock(c), DriverBlock(c), MemoryLine, TaskLines(c));
  }

  /** An scf block is written exactly when an iteration limit or a spin is set. */
  lemma ScfBlockPresent(c: Configuration)
    ensures ScfBlock(c) != "" <==> c.scfMaxIter != -1 || HasSpin(c)
    ensures ScfBlock(c) != "" ==> StartsWith(ScfBlock(c), ScfOpen) && EndsWith(ScfBlock(c), BlockClose)
  {
  }

  /** An scf line starts with NopenPrefix exactly for SCF with a spin, and then it is the last one and gives spin - 1. */
  lemma NopenLine(c: Configuration)
    ensures (exists k :: 0 <= k < |ScfParams(c)| && StartsWith(ScfParams(c)[k], NopenPrefix)) <==>
      c.calcMethod == MethodSCF && HasSpin(c)
    ensures c.calcMethod == MethodSCF && HasSpin(c) ==>
      ScfParams(c)[|ScfParams(c)| - 1] == NopenPrefix + IntToString(c.spin.value - 1)
  {
    var p := ScfParams(c);
    if !(c.calcMethod == MethodSCF && HasSpin(c)) {
      forall k | 0 <= k < |p|
        ensures !StartsWith(p[k], NopenPrefix)
      {
        assert p[k][2] != 'n';
      }
    } else {
      assert StartsWith(p[|p| - 1], NopenPrefix);
    }
  }

  /** A dft block is written exactly for DFT; it opens with the functional. */
  lemma DftBlockPresent(c: Configuration)
    ensures DftBlock(c) != "" <==> c.calcMethod == MethodDFT
    ensures c.calcMethod == MethodDFT ==> StartsWith(DftBlock(c), DftOpen + Newline + XcPrefix + c.functional + Newline)
  {
    if c.calcMethod == MethodDFT {
      var p := DftParams(c);
      assert Join(p, "\n") == "dft" + "\n" + ("  xc " + c.functional + "\n" + Join(p[2..], "\n"));
      assert Join(p, "\n") == (DftOpen + Newline + XcPrefix + c.functional + Newline) + Join(p[2..], "\n");
    }
  }

  /** A dft line starts with MultPrefix exactly when a spin is set, and it gives the spin. */
  lemma MultLine(c: Configuration)
    ensures (exists k :: 0 <= k < |DftParams(c)| && StartsWith(DftParams(c)[k], MultPrefix)) <==> HasSpin(c)
    ensures HasSpin(c) ==> DftParams(c)[2] == MultPrefix + IntToString(c.spin.value)
  {
    var p := DftParams(c);
    if !HasSpin(c) {
      forall k | 0 <= k < |p|
        ensures !StartsWith(p[k], MultPrefix)
      {
        if k == 0 {
          assert p[k][0] != ' ';
        } else if k == 1 {
          assert p[k][2] != 'm';
        } else {
          assert p[k][0] != ' ';
        }
      }
    } else {
      assert StartsWith(p[2], MultPrefix);
    }
  }

  /** A driver block is written exactly when optimising with an iteration limit. */
  lemma DriverBlockPresent(c: Configuration)
    ensures DriverBlock(c) != "" <==> c.taskOpt && c.driverMaxIter != -1
  {
  }

  /** The first task optimises exactly when `taskOpt`, and a frequency task follows exactly when `taskFreq`. */
  lemma TaskChoice(c: Configuration)
    ensures StartsWith(TaskLines(c), TaskPrefix + MethodName(c.calcMethod) + OptimizeSuffix) <==> c.taskOpt
    ensures StartsWith(TaskLines(c), TaskPrefix + MethodName(c.calcMethod) + EnergySuffix) <==> !c.taskOpt
    ensures EndsWith(TaskLines(c), TaskPrefix + MethodName(c.calcMethod) + FreqSuffix) <==> c.taskFreq
  {
    var m := MethodName(c.calcMethod);
    var t := TaskLines(c);
    assert |m| == 3;
    if c.taskOpt {
      assert t[9] == 'o';
    } else {
      assert t[9] == 'e';
    }
    if !c.taskFreq {
      assert t[|t| - 5] != 'f';
    }
  }

  // ---------------------------------------------------------------------------
  // Loading stored settings

  /** The method code as `serialize` stores it. */
  function MethodCode(m: Method): int {
    match m
    case MethodSCF => 0
    case MethodDFT => 1
  }

  /** The constructor's method check: only the codes of SCF and DFT are accepted. */
  function MethodOf(code: int): (r: Result<Method>)
  {
    if code == 0 then Success(MethodSCF)
    else if code == 1 then Success(MethodDFT)
    else Failure("Invalid method")
  }

  lemma MethodOfCodes(code: int)
    ensures MethodOf(code).Success? <==> code == 0 || code == 1
    ensures MethodOf(code).Success? ==> MethodCode(MethodOf(code).value) == code
    ensures forall m :: MethodOf(MethodCode(m)) == Success(m)
  {
  }

  /**
   * The values the stored JSON object holds, after the constructor's
   * defaults for missing keys; `spin` is None when the key is absent.
   */
  datatype Stored = Stored(
    calcMethod: int, basis: string, functional: string,
    driverMaxIter: int, scfMaxIter: int, taskOpt: bool, taskFreq: bool,
    spin: Option<int>)

  /** What serialize stores: every field, and the spin only when it is set. */
  function Store(c: Configuration): Stored {
    Stored(MethodCode(c.calcMethod), c.basis, c.functional, c.driverMaxIter, c.scfMaxIter, c.taskOpt, c.taskFreq, c.spin)
  }

  /**
   * The constructor as written: the spin is written through an empty optional.
   * That is undefined; in practice the optional stays empty, which is what this
   * models.
   */
  function LoadAsWritten(s: Stored): Result<Configuration> {
    var m :- MethodOf(s.calcMethod);
    Success(Configuration(m, s.basis, s.functional, s.driverMaxIter, s.scfMaxIter, s.taskOpt, s.taskFreq, None))
  }

  /** The constructor with the stored spin kept. */
  function Load(s: Stored): Result<Configuration> {
    var m :- MethodOf(s.calcMethod);
    Success(Configuration(m, s.basis, s.functional, s.driverMaxIter, s.scfMaxIter, s.taskOpt, s.taskFreq, s.spin))
  }

  /** Loading rejects exactly the unknown method codes. */
  lemma LoadRejects(s: Stored)
    ensures Load(s).Failure? <==> s.calcMethod != 0 && s.calcMethod != 1
    ensures LoadAsWritten(s).Failure? <==> Load(s).Failure?
  {
  }

  /** Settings survive a store and load. */
  lemma LoadStore(c: Configuration)
    ensures Load(Store(c)) == Success(c)
  {
  }

  /** As written, a stored spin never comes back: the reloaded settings have no spin and differ from the saved ones. */
  lemma SpinLostOnLoad(c: Configuration)
    ensures LoadAsWritten(Store(c)).Success? && !HasSpin(LoadAsWritten(Store(c)).value)
    ensures c.spin.Some? ==> LoadAsWritten(Store(c)) != Success(c)
  {
  }
}
