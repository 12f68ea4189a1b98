/**
 * Character classes and string operations shared by the model: the QByteArray /
 * QString splitting, joining and trimming that the parser relies on, and the
 * character classes of ECMAScript regular expressions (std::regex's default).
 */
module Text {

  /** `\s` of std::regex over narrow chars: space, \t, \n, \v, \f, \r. */
  predicate IsWs(c: char) {
    c == ' ' || c == '\t' || c == '\n' || c == '\r' || c == '\U{000B}' || c == '\U{000C}'
  }

  predicate IsDigit(c: char) {
    '0' <= c <= '9'
  }

  predicate IsLetter(c: char) {
    ('a' <= c <= 'z') || ('A' <= c <= 'Z')
  }

  /** `\w`: letters, digits and underscore. */
  predicate IsWordChar(c: char) {
    IsLetter(c) || IsDigit(c) || c == '_'
  }

  /** Characters that `.` does not match in ECMAScript regular expressions. */
  predicate IsLineTerm(c: char) {
    c == '\n' || c == '\r'
  }

  predicate AllWs(s: string) {
    forall i :: 0 <= i < |s| ==> IsWs(s[i])
  }

  predicate AllDigits(s: string) {
    forall i :: 0 <= i < |s| ==> IsDigit(s[i])
  }

  predicate AllWordChars(s: string) {
    forall i :: 0 <= i < |s| ==> IsWordChar(s[i])
  }

  /** Text that `.*` can match. */
  predicate NoLineTerm(s: string) {
    forall i :: 0 <= i < |s| ==> !IsLineTerm(s[i])
  }

  predicate StartsWith(s: string, prefix: string) {
    |prefix| <= |s| && s[..|prefix|] == prefix
  }

  predicate EndsWith(s: string, suffix: string) {
    |suffix| <= |s| && s[|s| - |suffix|..] == suffix
  }

  /** True when `sub` occurs somewhere in `s`. */
  predicate Contains(s: string, sub: string)
    decreases |s|
  {
    StartsWith(s, sub) || (|s| > 0 && Contains(s[1..], sub))
  }

  /** Index of the first character at or after `i` that is not whitespace. */
  function SkipWs(s: string, i: nat): (j: nat)
    requires i <= |s|
    ensures i <= j <= |s|
    ensures AllWs(s[i..j])
    ensures j < |s| ==> !IsWs(s[j])
    decreases |s| - i
  {
    if i == |s| || !IsWs(s[i]) then i else SkipWs(s, i + 1)
  }

  /** Length of `s` without its trailing whitespace. */
  function TrimEnd(s: string): (n: nat)
    ensures n <= |s|
    ensures AllWs(s[n..])
    ensures n > 0 ==> !IsWs(s[n - 1])
  {
    if |s| == 0 || !IsWs(s[|s| - 1]) then |s|
    else TrimEnd(s[..|s| - 1])
  }

  /** `s` without its leading whitespace. */
  function TrimLeft(s: string): string
    decreases |s|
  {
    if |s| > 0 && IsWs(s[0]) then TrimLeft(s[1..]) else s
  }

  /** `s` without its trailing whitespace. */
  function TrimRight(s: string): string
    decreases |s|
  {
    if |s| > 0 && IsWs(s[|s| - 1]) then TrimRight(s[..|s| - 1]) else s
  }

  /** QString::trimmed / QByteArray::trimmed. */
  function Trim(s: string): string {
    TrimRight(TrimLeft(s))
  }

  /**
   * QByteArray::split / QString::split keeping empty parts: `|r|` is one more
   * than the number of separators, and no part contains the separator.
   */
  function Split(s: string, sep: char): (r: seq<string>)
    ensures |r| >= 1
    ensures forall k :: 0 <= k < |r| ==> sep !in r[k]
  {
    if s == [] then [""]
    else if s[0] == sep then [""] + Split(s[1..], sep)
    else
      var rest := Split(s[1..], sep);
      [[s[0]] + rest[0]] + rest[1..]
  }

  /** QList<QByteArray>::join / QStringList::join with a one-character separator. */
  function Join(parts: seq<string>, sep: string): string
  {
    if |parts| == 0 then ""
    else if |parts| == 1 then parts[0]
    else parts[0] + sep + Join(parts[1..], sep)
  }

  /** Parts of a split that are not empty (Qt::SkipEmptyParts). */
  function NonEmpty(parts: seq<string>): (r: seq<string>)
    ensures forall k :: 0 <= k < |r| ==> r[k] != ""
    ensures |r| <= |parts|
  {
    if parts == [] then []
    else if parts[0] == "" then NonEmpty(parts[1..])
    else [parts[0]] + NonEmpty(parts[1..])
  }

  /** Every kept part is one of the parts, and every non-empty part is kept. */
  lemma {:induction false} NonEmptyKeeps(parts: seq<string>)
    ensures forall k :: 0 <= k < |NonEmpty(parts)| ==> NonEmpty(parts)[k] in parts
    ensures forall p :: p in parts && p != "" ==> p in NonEmpty(parts)
  {
    if parts != [] {
      NonEmptyKeeps(parts[1..]);
      assert parts == [parts[0]] + parts[1..];
    }
  }

  /** QString::split(sep, Qt::SkipEmptyParts). */
  function SplitSkipEmpty(s: string, sep: char): seq<string> {
    NonEmpty(Split(s, sep))
  }

  /** QString::split(sep) with a two-character separator, keeping empty parts. */
  function Split2(s: string, sep: string): (r: seq<string>)
    requires |sep| == 2
    ensures |r| >= 1
    decreases |s|
  {
    if |s| < 2 then [s]
    else if s[..2] == sep then [""] + Split2(s[2..], sep)
    else
      var rest := Split2(s[1..], sep);
      [[s[0]] + rest[0]] + rest[1..]
  }

  /** Whitespace-separated words of a line, as `\s+` would separate them. */
  function Words(s: string): seq<string>
    decreases |s|
  {
    var i := SkipWs(s, 0);
    if i == |s| then []
    else
      var j := WordEnd(s, i);
      [s[i..j]] + Words(s[j..])
  }

  /** End of the run of non-whitespace characters that starts at `i`. */
  function WordEnd(s: string, i: nat): (j: nat)
    requires i <= |s|
    ensures i <= j <= |s|
    ensures forall k :: i <= k < j ==> !IsWs(s[k])
    ensures j < |s| ==> IsWs(s[j])
    decreases |s| - i
  {
    if i == |s| || IsWs(s[i]) then i else WordEnd(s, i + 1)
  }

  /** Index of the first character at or after `i` that is not a decimal digit. */
  function DigitsEnd(s: string, i: nat): (j: nat)
    requires i <= |s|
    ensures i <= j <= |s|
    ensures AllDigits(s[i..j])
    ensures j < |s| ==> !IsDigit(s[j])
    decreases |s| - i
  {
    if i == |s| || !IsDigit(s[i]) then i else DigitsEnd(s, i + 1)
  }

  function LowerChar(c: char): char {
    if 'A' <= c <= 'Z' then (c as int + 32) as char else c
  }

  /** QString::toLower, for the ASCII letters element symbols are made of. */
  function ToLower(s: string): (r: string)
    ensures |r| == |s|
    ensures forall k :: 0 <= k < |s| ==> r[k] == LowerChar(s[k])
  {
    seq(|s|, k requires 0 <= k < |s| => LowerChar(s[k]))
  }

  /** QString::replace(a, b) for single characters. */
  function ReplaceChar(s: string, a: char, b: char): (r: string)
    ensures |r| == |s|
    ensures forall k :: 0 <= k < |s| ==> r[k] == (if s[k] == a then b else s[k])
  {
    seq(|s|, k requires 0 <= k < |s| => if s[k] == a then b else s[k])
  }

  function DigitChar(d: nat): char
    requires d < 10
  {
    ('0' as int + d) as char
  }

  /** Decimal digits of a natural number, most significant first, no leading zeros. */
  function NatToString(n: nat): (r: string)
    ensures |r| >= 1 && AllDigits(r)
    decreases n
  {
    if n < 10 then [DigitChar(n)] else NatToString(n / 10) + [DigitChar(n % 10)]
  }

  /** std::min and std::max on int. */
  function Min(a: int, b: int): int {
    if a < b then a else b
  }

  function Max(a: int, b: int): int {
    if a < b then b else a
  }

  /** QString::number(int). */
  function IntToString(n: int): string {
    if n < 0 then "-" + NatToString(-n) else NatToString(n)
  }

  /** Lexicographic `<` on strings (QString::operator< on ASCII text). */
  predicate LessThan(a: string, b: string)
    decreases |a|
  {
    if |a| == 0 then |b| > 0
    else if |b| == 0 then false
    else if a[0] != b[0] then a[0] < b[0]
    else LessThan(a[1..], b[1..])
  }

  lemma {:induction false} JoinSplit(s: string, sep: char)
    ensures Join(Split(s, sep), [sep]) == s
    decreases |s|
  {
    if s == [] {
    } else if s[0] == sep {
      JoinSplit(s[1..], sep);
      assert s == [sep] + s[1..];
    } else {
      JoinSplit(s[1..], sep);
      var rest := Split(s[1..], sep);
      if |rest| == 1 {
        assert s == [s[0]] + rest[0];
      } else {
        assert Join(rest, [sep]) == rest[0] + [sep] + Join(rest[1..], [sep]);
        assert s == [s[0]] + s[1..];
      }
    }
  }

  /** Joining after an empty first part starts with the separator. */
  lemma JoinEmptyHead(parts: seq<string>, sep: string)
    requires |parts| >= 1
    ensures Join([""] + parts, sep) == sep + Join(parts, sep)
  {
    assert ([""] + parts)[1..] == parts;
  }

  /** Joining after extending the first part by one character extends the join by it. */
  lemma JoinConsHead(c: char, parts: seq<string>, sep: string)
    requires |parts| >= 1
    ensures Join([[c] + parts[0]] + parts[1..], sep) == [c] + Join(parts, sep)
  {
    var q := [[c] + parts[0]] + parts[1..];
    if |parts| > 1 {
      assert q[1..] == parts[1..];
    }
  }

  /** Splitting on a two-character separator loses no text: joining the parts with it gives the input back. */
  lemma {:induction false} Split2Join(s: string, sep: string)
    requires |sep| == 2
    ensures Join(Split2(s, sep), sep) == s
    decreases |s|
  {
    if |s| < 2 {
    } else if s[..2] == sep {
      Split2Join(s[2..], sep);
      JoinEmptyHead(Split2(s[2..], sep), sep);
      assert s == sep + s[2..];
    } else {
      Split2Join(s[1..], sep);
      JoinConsHead(s[0], Split2(s[1..], sep), sep);
      assert s == [s[0]] + s[1..];
    }
  }

  /** A part free of the separator's first character stays whole. */
  lemma {:induction false} Split2Whole(p: string, sep: string)
    requires |sep| == 2 && sep[0] !in p
    ensures Split2(p, sep) == [p]
    decreases |p|
  {
    if |p| >= 2 {
      Split2Whole(p[1..], sep);
      assert p == [p[0]] + p[1..];
    }
  }

  /** Splitting stops at the first separator when the text before it cannot start one. */
  lemma {:induction false} Split2First(p: string, sep: string, rest: string)
    requires |sep| == 2 && sep[0] !in p
    ensures Split2(p + sep + rest, sep) == [p] + Split2(rest, sep)
    decreases |p|
  {
    var s := p + sep + rest;
    if p == [] {
      assert s == sep + rest;
      assert s[..2] == sep && s[2..] == rest;
    } else {
      assert s[0] == p[0];
      assert s[1..] == p[1..] + sep + rest;
      Split2First(p[1..], sep, rest);
      assert p == [p[0]] + p[1..];
    }
  }

  /** Joining parts free of the separator's first character and splitting again gives the parts back. */
  lemma {:induction false} Split2OfJoin(parts: seq<string>, sep: string)
    requires |sep| == 2 && |parts| >= 1
    requires forall k :: 0 <= k < |parts| ==> sep[0] !in parts[k]
    ensures Split2(Join(parts, sep), sep) == parts
    decreases |parts|
  {
    if |parts| == 1 {
      Split2Whole(parts[0], sep);
    } else {
      Split2OfJoin(parts[1..], sep);
      Split2First(parts[0], sep, Join(parts[1..], sep));
      assert parts == [parts[0]] + parts[1..];
    }
  }

  /** A character in neither the parts nor the separator is not in their join. */
  lemma {:induction false} JoinAvoids(parts: seq<string>, sep: string, c: char)
    requires c !in sep
    requires forall k :: 0 <= k < |parts| ==> c !in parts[k]
    ensures c !in Join(parts, sep)
    decreases |parts|
  {
    if |parts| > 1 {
      JoinAvoids(parts[1..], sep, c);
    }
  }

  /** Lower-casing is idempotent. */
  lemma {:induction false} ToLowerIdempotent(s: string)
    ensures ToLower(ToLower(s)) == ToLower(s)
  {
    forall k | 0 <= k < |s| ensures ToLower(ToLower(s))[k] == ToLower(s)[k] {
      var c := s[k];
      assert ToLower(s)[k] == LowerChar(c);
    }
  }

  /** Strict lexicographic order is asymmetric, so at most one of the two keys orders first. */
  lemma {:induction false} LessThanAsymmetric(a: string, b: string)
    requires LessThan(a, b)
    ensures !LessThan(b, a)
    decreases |a|
  {
    if |a| > 0 && |b| > 0 && a[0] == b[0] {
      LessThanAsymmetric(a[1..], b[1..]);
    }
  }

  /** Two distinct strings are ordered one way or the other. */
  lemma {:induction false} LessThanTotal(a: string, b: string)
    requires a != b
    ensures LessThan(a, b) || LessThan(b, a)
    decreases |a|
  {
    if |a| > 0 && |b| > 0 && a[0] == b[0] {
      assert a == [a[0]] + a[1..] && b == [b[0]] + b[1..];
      LessThanTotal(a[1..], b[1..]);
    }
  }
}
