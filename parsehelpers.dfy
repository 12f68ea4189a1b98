/**
 * Field helpers of parsehelpers.cpp: bounds-checked list access, the Qt
 * string-to-number conversions they wrap, byte search and fixed-width splitting.
 * Every `throw QString(...)` of the source is a `Failure` carrying the same text.
 */
module ParseHelpers {
  import opened Wrappers
  import opened Text

  const IntMin: int := -0x8000_0000
  const IntMax: int := 0x7FFF_FFFF

  /** Value of a run of decimal digits, most significant first. */
  function DigitsValue(s: string): nat
    requires AllDigits(s)
  {
    if s == [] then 0 else 10 * DigitsValue(s[..|s| - 1]) + (s[|s| - 1] as int - '0' as int)
  }

  /** Length of an optional leading '+' or '-'. */
  function SignLength(t: string): nat {
    if |t| > 0 && (t[0] == '-' || t[0] == '+') then 1 else 0
  }

  /**
   * QString::toInt(&ok) in base 10: surrounding whitespace is ignored, an
   * optional sign is followed by at least one digit, and the value must fit
   * in a 32-bit int; `None` is the `ok == false` case.
   */
  function ToInt(s: string): (r: Option<int>)
    ensures r.Some? ==> IntMin <= r.value <= IntMax
  {
    var t := Trim(s);
    var d := t[SignLength(t)..];
    if d == [] || !AllDigits(d) then None
    else
      var v: int := if t[0] == '-' then -(DigitsValue(d) as int) else DigitsValue(d);
      if IntMin <= v <= IntMax then Some(v) else None
  }

  /** m * 10^e for a possibly negative exponent. */
  function Scale(m: real, e: int): real
    decreases if e < 0 then -e else e
  {
    if e == 0 then m
    else if e > 0 then 10.0 * Scale(m, e - 1)
    else Scale(m, e + 1) / 10.0
  }

  /**
   * QString::toDouble(&ok) on decimal text: surrounding whitespace, an optional
   * sign, digits with at most one '.', at least one digit, and an optional
   * exponent `e`/`E` with optional sign and at least one digit. The value is the
   * exact decimal number.
   */
  function ToDouble(s: string): Option<real> {
    var t := Trim(s);
    var body := t[SignLength(t)..];
    var i := DigitsEnd(body, 0);
    var j := if i < |body| && body[i] == '.' then DigitsEnd(body, i + 1) else i;
    var fracLen := if j > i then j - i - 1 else 0;
    if i == 0 && fracLen == 0 then None
    else
      var mantissa := DigitsValue(body[..i] + body[j - fracLen..j]) as real;
      var exponent := ExponentValue(body[j..]);
      if exponent.None? then None
      else
        var v := Scale(mantissa, exponent.value - fracLen);
        Some(if t[0] == '-' then -v else v)
  }

  /** The exponent suffix of a number: empty, or `e`/`E`, an optional sign and digits. */
  function ExponentValue(x: string): Option<int> {
    if x == [] then Some(0)
    else if x[0] != 'e' && x[0] != 'E' then None
    else
      var e := x[1..];
      var d := e[SignLength(e)..];
      if d == [] || !AllDigits(d) then None
      else
        var v: int := if e[0] == '-' then -(DigitsValue(d) as int) else DigitsValue(d);
        Some(v)
  }

  lemma {:induction false} DigitsValueOfNat(n: nat)
    ensures AllDigits(NatToString(n)) && DigitsValue(NatToString(n)) == n
    decreases n
  {
    if n >= 10 {
      DigitsValueOfNat(n / 10);
      var s := NatToString(n);
      assert s[..|s| - 1] == NatToString(n / 10);
    }
  }

  /** Decimal text of a number never carries whitespace at either end. */
  lemma IntToStringTrimmed(n: int)
    ensures Trim(IntToString(n)) == IntToString(n)
  {
    var s := IntToString(n);
    assert !IsWs(s[0]) && !IsWs(s[|s| - 1]);
  }

  /** QString::number and QString::toInt are inverse on the 32-bit range. */
  lemma ToIntOfIntToString(n: int)
    requires IntMin <= n <= IntMax
    ensures ToInt(IntToString(n)) == Some(n)
  {
    IntToStringTrimmed(n);
    DigitsValueOfNat(if n < 0 then -n else n);
    var s := IntToString(n);
    if n < 0 {
      assert s[1..] == NatToString(-n);
    } else {
      assert s[SignLength(s)..] == NatToString(n);
    }
  }

  /** Trimmed text made of an optional '-' and digits reads as that signed whole number. */
  lemma ToDoubleOfSignedDigits(t: string, body: string, neg: bool)
    requires |body| > 0 && AllDigits(body) && Trim(t) == t
    requires t == (if neg then "-" else "") + body
    ensures ToDouble(t) == Some(if neg then -(DigitsValue(body) as real) else DigitsValue(body) as real)
  {
    assert t[SignLength(t)..] == body && (t[0] == '-' <==> neg) by {
      assert IsDigit(body[0]);
    }
    DigitsEndAll(body, 0);
    ToDoubleOfWhole(t, body);
  }

  /** Trimmed text whose unsigned part is all digits reads as their value, negated after a '-'. */
  lemma ToDoubleOfWhole(t: string, body: string)
    requires Trim(t) == t && |body| > 0 && t[SignLength(t)..] == body && DigitsEnd(body, 0) == |body|
    ensures ToDouble(t) == Some(if t[0] == '-' then -(DigitsValue(body) as real) else DigitsValue(body) as real)
  {
    assert body[..|body|] + body[|body| - 0..|body|] == body;
    assert ExponentValue(body[|body|..]) == Some(0) by {
      assert body[|body|..] == [];
    }
    var m := DigitsValue(body) as real;
    assert Scale(m, 0 - 0) == m;
  }

  /** Integer text read as a double gives the same number. */
  lemma ToDoubleOfIntToString(n: int)
    ensures ToDouble(IntToString(n)) == Some(n as real)
  {
    IntToStringTrimmed(n);
    var a: nat := if n < 0 then -n else n;
    DigitsValueOfNat(a);
    ToDoubleOfSignedDigits(IntToString(n), NatToString(a), n < 0);
  }

  lemma {:induction false} DigitsEndAll(s: string, i: nat)
    requires i <= |s| && AllDigits(s)
    ensures DigitsEnd(s, i) == |s|
    decreases |s| - i
  {
    if i < |s| {
      DigitsEndAll(s, i + 1);
    }
  }

  /** atOrThrow: the element at `index`, or "Index out of range". */
  function AtOrThrow(data: seq<string>, index: int): (r: Result<string>)
    ensures r.Success? <==> 0 <= index < |data|
    ensures r.Success? ==> r.value == data[index]
    ensures r.Failure? ==> r.error == "Index out of range"
  {
    if index >= |data| || index < 0 then Failure("Index out of range") else Success(data[index])
  }

  /**
   * The two QString conversions the parsers depend on, handed to them as
   * partial functions whose definitions they do not look into; `Qt` holds the
   * ones defined above.
   */
  datatype Numbers = Numbers(toInt: string -> Option<int>, toDouble: string -> Option<real>)

  const Qt: Numbers := Numbers(ToInt, ToDouble)

  /** toIntOrThrow: the converted value, or the conversion error naming the text. */
  function ToIntOrThrow(num: Numbers, s: string): (r: Result<int>)
    ensures r.Success? <==> num.toInt(s).Some?
    ensures r.Success? ==> r.value == num.toInt(s).value
    ensures r.Failure? ==> r.error == "Could not convert QString to integer:" + s
  {
    match num.toInt(s)
    case None => Failure("Could not convert QString to integer:" + s)
    case Some(v) => Success(v)
  }

  /** toDoubleOrThrow: the converted value, or the conversion error naming the text. */
  function ToDoubleOrThrow(num: Numbers, s: string): (r: Result<real>)
    ensures r.Success? <==> num.toDouble(s).Some?
    ensures r.Success? ==> r.value == num.toDouble(s).value
    ensures r.Failure? ==> r.error == "Could not convert QString to double:" + s
  {
    match num.toDouble(s)
    case None => Failure("Could not convert QString to double:" + s)
    case Some(v) => Success(v)
  }

  /** intFromList: fails when the index is out of range or the field is not an integer. */
  function IntFromList(num: Numbers, data: seq<string>, index: int): (r: Result<int>)
    ensures r.Success? <==> 0 <= index < |data| && num.toInt(data[index]).Some?
    ensures r.Success? ==> r.value == num.toInt(data[index]).value
    ensures !(0 <= index < |data|) ==> r == Failure("Index out of range")
    ensures 0 <= index < |data| && r.Failure? ==> r == ToIntOrThrow(num, data[index])
  {
    match AtOrThrow(data, index)
    case Failure(e) => Failure(e)
    case Success(s) => ToIntOrThrow(num, s)
  }

  /** doubleFromList: fails when the index is out of range or the field is not a number. */
  function DoubleFromList(num: Numbers, data: seq<string>, index: int): (r: Result<real>)
    ensures r.Success? <==> 0 <= index < |data| && num.toDouble(data[index]).Some?
    ensures r.Success? ==> r.value == num.toDouble(data[index]).value
    ensures !(0 <= index < |data|) ==> r == Failure("Index out of range")
    ensures 0 <= index < |data| && r.Failure? ==> r == ToDoubleOrThrow(num, data[index])
  {
    match AtOrThrow(data, index)
    case Failure(e) => Failure(e)
    case Success(s) => ToDoubleOrThrow(num, s)
  }

  /** True when `target` occurs in `data` at position `i`. */
  predicate OccursAt(data: string, target: string, i: nat) {
    i + |target| <= |data| && data[i..i + |target|] == target
  }

  /** First position at or after `from` where `target` occurs, or -1. */
  function FirstOccurrence(data: string, target: string, from: nat): (r: int)
    ensures r == -1 || (from <= r && OccursAt(data, target, r))
    ensures r == -1 ==> forall i :: from <= i <= |data| ==> !OccursAt(data, target, i)
    ensures r >= 0 ==> forall i :: from <= i < r ==> !OccursAt(data, target, i)
    decreases |data| - from
  {
    if from + |target| > |data| then -1
    else if OccursAt(data, target, from) then from
    else FirstOccurrence(data, target, from + 1)
  }

  /** QByteArray::indexOf(target, from): a negative `from` counts back from the end. */
  function IndexOf(data: string, target: string, from: int): int {
    var start := if from < 0 then (if from + |data| < 0 then 0 else from + |data|) else from;
    FirstOccurrence(data, target, start)
  }

  /** indexOrThrow: the first occurrence at or after `from`, or "QByteArray: Target not found". */
  function IndexOrThrow(data: string, target: string, from: nat): (r: Result<nat>)
    ensures r.Success? ==> from <= r.value && OccursAt(data, target, r.value)
    ensures r.Success? ==> forall i :: from <= i < r.value ==> !OccursAt(data, target, i)
    ensures r.Failure? <==> forall i :: from <= i <= |data| ==> !OccursAt(data, target, i)
    ensures r.Failure? ==> r.error == "QByteArray: Target not found"
  {
    var i := IndexOf(data, target, from);
    if i < 0 then Failure("QByteArray: Target not found") else Success(i)
  }

  /** QString::mid(pos, n) for a non-negative position and width. */
  function Mid(s: string, pos: nat, n: nat): (r: string)
    ensures pos <= |s| ==> r == s[pos..if pos + n <= |s| then pos + n else |s|]
    ensures pos > |s| ==> r == ""
  {
    if pos >= |s| then "" else if pos + n > |s| then s[pos..] else s[pos..pos + n]
  }

  function Sum(sizes: seq<nat>): nat {
    if sizes == [] then 0 else Sum(sizes[..|sizes| - 1]) + sizes[|sizes| - 1]
  }

  function Concat(parts: seq<string>): string {
    if parts == [] then "" else Concat(parts[..|parts| - 1]) + parts[|parts| - 1]
  }

  lemma ConcatSnoc(parts: seq<string>, x: string)
    ensures Concat(parts + [x]) == Concat(parts) + x
  {
    assert (parts + [x])[..|parts|] == parts;
  }

  /** The prefix up to `last`, followed by the next field, is the prefix up to `last + n`. */
  lemma PrefixThenMid(s: string, last: nat, n: nat)
    ensures s[..Clamp(last, s)] + Mid(s, last, n) == s[..Clamp(last + n, s)]
  {
  }

  /** `n`, capped at the length of `s`. */
  function Clamp(n: nat, s: string): (r: nat)
    ensures r <= |s|
  {
    if n <= |s| then n else |s|
  }

  lemma SumSnoc(sizes: seq<nat>, k: nat)
    requires k < |sizes|
    ensures Sum(sizes[..k + 1]) == Sum(sizes[..k]) + sizes[k]
  {
    assert sizes[..k + 1][..k] == sizes[..k];
  }

  /** The fields cut so far: field i is s.mid(Σ sizes[..i], sizes[i]), and together they are the prefix up to Σ sizes[..k]. */
  ghost predicate FieldsCut(s: string, sizes: seq<nat>, result: seq<string>, k: nat)
    requires k <= |sizes|
  {
    |result| == k &&
    (forall i {:trigger result[i]} :: 0 <= i < k ==> result[i] == Mid(s, Sum(sizes[..i]), sizes[i])) &&
    Concat(result) == s[..Clamp(Sum(sizes[..k]), s)]
  }

  lemma FieldsCutStep(s: string, sizes: seq<nat>, result: seq<string>, k: nat)
    requires k < |sizes| && FieldsCut(s, sizes, result, k)
    ensures FieldsCut(s, sizes, result + [Mid(s, Sum(sizes[..k]), sizes[k])], k + 1)
  {
    var last := Sum(sizes[..k]);
    var field := Mid(s, last, sizes[k]);
    ConcatSnoc(result, field);
    PrefixThenMid(s, last, sizes[k]);
    SumSnoc(sizes, k);
    var next := result + [field];
    forall i | 0 <= i < k + 1
      ensures next[i] == Mid(s, Sum(sizes[..i]), sizes[i])
    {
      if i < k {
        assert next[i] == result[i];
      }
    }
  }

  /**
   * splitFixedWidth: one field per width, field k being s.mid(Σ sizes[..k], sizes[k]).
   */
  method SplitFixedWidth(s: string, sizes: seq<nat>) returns (result: seq<string>)
    ensures |result| == |sizes|
    ensures forall k :: 0 <= k < |sizes| ==> result[k] == Mid(s, Sum(sizes[..k]), sizes[k])
    ensures Concat(result) == s[..Clamp(Sum(sizes), s)]
  {
    result := [];
    var last := 0;
    for k := 0 to |sizes|
      invariant last == Sum(sizes[..k])
      invariant FieldsCut(s, sizes, result, k)
    {
      FieldsCutStep(s, sizes, result, k);
      SumSnoc(sizes, k);
      result := result + [Mid(s, last, sizes[k])];
      last := last + sizes[k];
    }
    assert sizes[..|sizes|] == sizes;
  }
}
