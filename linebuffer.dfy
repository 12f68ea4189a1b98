/**
 * LineBuffer (linebuffer.cpp): turns an arbitrarily chunked byte stream into an
 * append-only list of lines. Each append re-opens the last line and extends it
 * with the text before the chunk's first newline.
 */
module LineBuffers {
  import opened Text

  /** The lines joined with '\n' separators and no trailing newline. */
  function JoinLines(lines: seq<string>): string {
    Join(lines, "\n")
  }

  /** `l` followed by `s`, where the first part of `s` continues the last line of `l`. */
  function Glue(l: seq<string>, s: seq<string>): (r: seq<string>)
    requires |l| >= 1 && |s| >= 1
    ensures |r| == |l| + |s| - 1
  {
    l[..|l| - 1] + [l[|l| - 1] + s[0]] + s[1..]
  }

  /** Joining one more line appends a newline and that line. */
  lemma {:induction false} JoinSnoc(l: seq<string>, x: string)
    requires |l| >= 1
    ensures JoinLines(l + [x]) == JoinLines(l) + "\n" + x
    decreases |l|
  {
    if |l| == 1 {
      assert l + [x] == [l[0], x];
      assert JoinLines([l[0], x]) == l[0] + "\n" + JoinLines([x]);
    } else {
      assert (l + [x])[1..] == l[1..] + [x];
      JoinSnoc(l[1..], x);
    }
  }

  /** Gluing commutes with prepending a whole line. */
  lemma GlueLine(x: string, l: seq<string>, s: seq<string>)
    requires |l| >= 1 && |s| >= 1
    ensures Glue([x] + l, s) == [x] + Glue(l, s)
  {
    assert ([x] + l)[..|l|] == [x] + l[..|l| - 1];
  }

  /** Gluing commutes with prepending one character to the first line. */
  lemma GlueChar(c: char, l: seq<string>, s: seq<string>)
    requires |l| >= 1 && |s| >= 1
    ensures Glue([[c] + l[0]] + l[1..], s) == [[c] + Glue(l, s)[0]] + Glue(l, s)[1..]
  {
    if |l| == 1 {
      assert [c] + l[0] + s[0] == [c] + (l[0] + s[0]);
    } else {
      assert ([[c] + l[0]] + l[1..])[..|l| - 1] == [[c] + l[0]] + l[1..|l| - 1];
    }
  }

  /** Splitting a concatenation glues the two splits together. */
  lemma {:induction false} SplitConcat(a: string, b: string)
    ensures Split(a + b, '\n') == Glue(Split(a, '\n'), Split(b, '\n'))
    decreases |a|
  {
    if a == [] {
      var sb := Split(b, '\n');
      assert a + b == b;
      assert [""][..0] == [] && "" + sb[0] == sb[0];
      assert Glue([""], sb) == [sb[0]] + sb[1..] == sb;
    } else {
      assert (a + b)[1..] == a[1..] + b;
      SplitConcat(a[1..], b);
      if a[0] == '\n' {
        GlueLine("", Split(a[1..], '\n'), Split(b, '\n'));
      } else {
        var r := Split(a[1..] + b, '\n');
        assert (a + b)[0] == a[0];
        assert Split(a + b, '\n') == [[a[0]] + r[0]] + r[1..];
        GlueChar(a[0], Split(a[1..], '\n'), Split(b, '\n'));
      }
    }
  }

  class LineBuffer {
    var lines: seq<string>
    /** Every chunk ever appended, concatenated in order. */
    ghost var Stream: string

    /**
     * The lines are those of the whole stream, however it was chunked; an empty
     * line list means nothing was appended yet.
     */
    ghost predicate Valid()
      reads this
    {
      (lines == [] ==> Stream == "") &&
      (lines != [] ==> lines == Split(Stream, '\n'))
    }

    constructor ()
      ensures Valid() && lines == [] && Stream == ""
    {
      lines := [];
      Stream := "";
    }

    /**
     * LineBuffer::append: returns how many line entries were created; only the
     * last existing line changes, and only by being extended.
     */
    method Append(data: string) returns (linesAdded: int)
      requires Valid()
      modifies this
      ensures Valid() && Stream == old(Stream) + data
      ensures lines == if old(lines) == [] then Split(data, '\n') else Glue(old(lines), Split(data, '\n'))
      ensures |lines| == |old(lines)| + linesAdded
      ensures linesAdded == |Split(data, '\n')| - (if old(lines) == [] then 0 else 1)
      ensures forall i :: 0 <= i < |old(lines)| - 1 ==> lines[i] == old(lines)[i]
    {
      var splitData := Split(data, '\n');
      linesAdded := if |lines| == 0 then 0 else -1;
      linesAdded := linesAdded + |splitData|;
      var k := 0;
      if |lines| != 0 {
        lines := lines[..|lines| - 1] + [lines[|lines| - 1] + splitData[0]];
        k := 1;
      }
      while k < |splitData|
        invariant 0 <= k <= |splitData|
        invariant Stream == old(Stream)
        invariant old(lines) == [] ==> lines == splitData[..k]
        invariant old(lines) != [] ==> k >= 1 && lines == Glue(old(lines), splitData[..k])
      {
        lines := lines + [splitData[k]];
        k := k + 1;
      }
      assert splitData[..k] == splitData;
      if old(lines) != [] {
        SplitConcat(old(Stream), data);
      } else {
        assert old(Stream) + data == data;
      }
      Stream := Stream + data;
    }

    /** LineBuffer::joinRange for a start the callers keep non-negative. */
    method JoinRange(start: int, count: int) returns (r: string)
      requires 0 <= start
      ensures start >= |lines| ==> r == ""
      ensures start < |lines| && count >= 1 ==> r == JoinLines(lines[start..Min(start + count, |lines|)])
      ensures start < |lines| && count < 1 ==> r == lines[start]
    {
      if start >= |lines| {
        return "";
      }
      var n := Min(start + count, |lines|) - start;
      r := lines[start];
      var i := start + 1;
      while i < start + n
        invariant start + 1 <= i <= |lines|
        invariant n >= 1 ==> i <= start + n
        invariant n < 1 ==> i == start + 1
        invariant r == JoinLines(lines[start..i])
      {
        JoinSnoc(lines[start..i], lines[i]);
        assert lines[start..i + 1] == lines[start..i] + [lines[i]];
        r := r + "\n" + lines[i];
        i := i + 1;
      }
    }

    /** LineBuffer::joined: the whole stream appended so far. */
    method Joined() returns (r: string)
      requires Valid()
      ensures r == Stream
    {
      r := JoinRange(0, |lines|);
      if lines != [] {
        assert lines[0..|lines|] == lines;
        JoinSplit(Stream, '\n');
      }
    }

    /** LineBuffer::joinLast: the last min(count, |lines|) lines. */
    method JoinLast(count: int) returns (r: string)
      ensures count < 1 || lines == [] ==> r == ""
      ensures count >= 1 && lines != [] ==> r == JoinLines(lines[Max(0, |lines| - count)..])
    {
      var start := Max(0, |lines| - count);
      r := JoinRange(start, count);
      assert start < |lines| ==> lines[start..Min(start + count, |lines|)] == lines[start..];
    }
  }
}
