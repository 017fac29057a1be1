/**
 * Python's `"\n".join(lines)` and `s.split("\n")`, and the facts that
 * every joined line can be found again at a known position, in order,
 * and that splitting undoes joining for lines without a line break.
 */
module Lines {

  /** `"\n".join(lines)` */
  function Join(lines: seq<string>): string
    decreases |lines|
  {
    if |lines| == 0 then ""
    else if |lines| == 1 then lines[0]
    else lines[0] + "\n" + Join(lines[1..])
  }

  /** `s.split("\n")` */
  function Split(s: string): (parts: seq<string>)
    ensures |parts| >= 1
    decreases |s|
  {
    if |s| == 0 then [""]
    else
      var rest := Split(s[1..]);
      if s[0] == '\n' then [""] + rest
      else [[s[0]] + rest[0]] + rest[1..]
  }

  predicate NoLineBreak(s: string)
  {
    '\n' !in s
  }

  /** Where line `i` begins in `Join(lines)`: each earlier line and its separator come first. */
  function LineStart(lines: seq<string>, i: nat): nat
    requires i <= |lines|
    decreases i
  {
    if i == 0 then 0 else |lines[0]| + 1 + LineStart(lines[1..], i - 1)
  }

  /** Line `i` stands in `Join(lines)` at `LineStart(lines, i)`. */
  lemma {:induction false} JoinLineAt(lines: seq<string>, i: nat)
    requires i < |lines|
    ensures LineStart(lines, i) + |lines[i]| <= |Join(lines)|
    ensures Join(lines)[LineStart(lines, i)..LineStart(lines, i) + |lines[i]|] == lines[i]
    decreases i
  {
    if i == 0 {
      if |lines| > 1 {
        assert Join(lines) == lines[0] + ("\n" + Join(lines[1..]));
      }
    } else {
      var tail := lines[1..];
      JoinLineAt(tail, i - 1);
      var s := LineStart(tail, i - 1);
      assert Join(lines) == (lines[0] + "\n") + Join(tail);
      assert Join(lines)[|lines[0]| + 1 + s..|lines[0]| + 1 + s + |lines[i]|]
          == Join(tail)[s..s + |tail[i - 1]|];
    }
  }

  /** Lines follow each other: line `i + 1` starts after line `i` and its separator. */
  lemma {:induction false} LineStartsIncrease(lines: seq<string>, i: nat)
    requires i + 1 < |lines|
    ensures LineStart(lines, i + 1) == LineStart(lines, i) + |lines[i]| + 1
    decreases i
  {
    if i > 0 {
      LineStartsIncrease(lines[1..], i - 1);
    }
  }

  lemma {:induction false} SplitSingle(a: string)
    requires NoLineBreak(a)
    ensures Split(a) == [a]
    decreases |a|
  {
    if |a| > 0 {
      assert a[0] in a;
      SplitSingle(a[1..]);
      assert [a[0]] + a[1..] == a;
    }
  }

  lemma {:induction false} SplitAfterLine(a: string, b: string)
    requires NoLineBreak(a)
    ensures Split(a + "\n" + b) == [a] + Split(b)
    decreases |a|
  {
    var s := a + "\n" + b;
    if |a| == 0 {
      assert s[1..] == b;
    } else {
      assert s[1..] == a[1..] + "\n" + b;
      SplitAfterLine(a[1..], b);
      assert [a[0]] + a[1..] == a;
    }
  }

  /** Splitting a join of one or more lines without line breaks gives the lines back. */
  lemma {:induction false} SplitJoin(lines: seq<string>)
    requires |lines| >= 1
    requires forall i :: 0 <= i < |lines| ==> NoLineBreak(lines[i])
    ensures Split(Join(lines)) == lines
    decreases |lines|
  {
    if |lines| == 1 {
      SplitSingle(lines[0]);
    } else {
      SplitJoin(lines[1..]);
      SplitAfterLine(lines[0], Join(lines[1..]));
      assert [lines[0]] + lines[1..] == lines;
    }
  }
}
