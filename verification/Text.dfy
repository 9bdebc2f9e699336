/**
 Note bodies as UTF-8 bytes, split into and joined from lines. The newline byte
 never occurs inside a multi-byte character, so splitting bytes is splitting text.
 */
module Text {
  newtype Byte = b: int | 0 <= b < 256

  type Bytes = seq<Byte>

  const NEWLINE: Byte := 10

  predicate OneLine(s: Bytes) {
    NEWLINE !in s
  }

  /** `str::split('\n')`: always at least one piece. */
  function Split(s: Bytes): (r: seq<Bytes>)
    ensures |r| >= 1
  {
    if s == [] then [[]]
    else
      var rest := Split(s[1..]);
      if s[0] == NEWLINE then [[]] + rest
      else [[s[0]] + rest[0]] + rest[1..]
  }

  /** `[&str]::join("\n")`. */
  function Join(lines: seq<Bytes>): Bytes {
    if lines == [] then []
    else if |lines| == 1 then lines[0]
    else lines[0] + [NEWLINE] + Join(lines[1..])
  }

  lemma {:induction false} SplitGivesOneLiners(s: Bytes)
    ensures forall i :: 0 <= i < |Split(s)| ==> OneLine(Split(s)[i])
  {
    if s != [] {
      SplitGivesOneLiners(s[1..]);
    }
  }

  /** Joining the pieces of any text gives the text back. */
  lemma {:induction false} JoinSplit(s: Bytes)
    ensures Join(Split(s)) == s
  {
    if s != [] {
      JoinSplit(s[1..]);
      var rest := Split(s[1..]);
      if s[0] == NEWLINE {
        assert ([[]] + rest)[1..] == rest;
        assert Split(s)[0] == [];
        assert Join(Split(s)) == [] + [NEWLINE] + s[1..];
      } else {
        var r := [[s[0]] + rest[0]] + rest[1..];
        assert Split(s) == r;
        assert r[1..] == rest[1..];
        assert Join(r) == [s[0]] + Join(rest) by {
          if |rest| > 1 {
            assert Join(r) == ([s[0]] + rest[0]) + [NEWLINE] + Join(rest[1..]);
          }
        }
      }
    }
  }

  /** Splitting glued text: the first piece runs to the first newline. */
  lemma {:induction false} SplitAtNewline(head: Bytes, tail: Bytes)
    requires OneLine(head)
    ensures Split(head + [NEWLINE] + tail) == [head] + Split(tail)
  {
    var s := head + [NEWLINE] + tail;
    if head == [] {
      assert s[1..] == tail;
    } else {
      assert s[1..] == head[1..] + [NEWLINE] + tail;
      SplitAtNewline(head[1..], tail);
      assert head == [head[0]] + head[1..];
    }
  }

  lemma {:induction false} SplitOneLine(s: Bytes)
    requires OneLine(s)
    ensures Split(s) == [s]
  {
    if s != [] {
      SplitOneLine(s[1..]);
      assert s == [s[0]] + s[1..];
    }
  }

  /** Splitting joined lines gives the lines back, for any non-empty list of
      newline-free lines. */
  lemma {:induction false} SplitJoin(lines: seq<Bytes>)
    requires |lines| >= 1
    requires forall i :: 0 <= i < |lines| ==> OneLine(lines[i])
    ensures Split(Join(lines)) == lines
  {
    if |lines| == 1 {
      SplitOneLine(lines[0]);
    } else {
      SplitJoin(lines[1..]);
      SplitAtNewline(lines[0], Join(lines[1..]));
      assert lines == [lines[0]] + lines[1..];
    }
  }

  function TotalBytes(lines: seq<Bytes>): nat {
    if lines == [] then 0 else |lines[0]| + TotalBytes(lines[1..])
  }

  /** The size predicted before joining, one separator between neighbours. */
  function PredictedSize(lines: seq<Bytes>): nat {
    TotalBytes(lines) + if |lines| == 0 then 0 else |lines| - 1
  }

  lemma {:induction false} PredictedSizeIsExact(lines: seq<Bytes>)
    ensures PredictedSize(lines) == |Join(lines)|
  {
    if |lines| == 1 {
      assert lines[1..] == [];
    } else if |lines| > 1 {
      PredictedSizeIsExact(lines[1..]);
    }
  }
}
