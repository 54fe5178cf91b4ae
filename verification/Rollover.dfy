/** The dual-count rollover of internal/result/writer.go as a partition of a list of lines.
    A line is the marshalled JSON without its trailing newline; the newline is counted. */
module Rollover {
  import opened Base

  type Line = Bytes

  datatype Limits = Limits(maxRows: int, maxBytes: int)

  function LineSize(l: Line): nat { |l| + 1 }

  /** Decompressed bytes of a list of lines. */
  function RawSize(lines: seq<Line>): nat {
    Sum(LineSize, lines)
  }

  /** The rollover condition, checked after a line was added. */
  predicate Full(lim: Limits, lines: seq<Line>) {
    |lines| >= lim.maxRows || RawSize(lines) >= lim.maxBytes
  }

  /** Closed parts and the buffer still open. */
  datatype Chopped = Chopped(closed: seq<seq<Line>>, open: seq<Line>)

  function Push(lim: Limits, c: Chopped, l: Line): Chopped {
    var open := c.open + [l];
    if Full(lim, open) then Chopped(c.closed + [open], []) else Chopped(c.closed, open)
  }

  /** Lines written one after the other since the channel was started. */
  function Chop(lim: Limits, lines: seq<Line>): Chopped {
    if lines == [] then Chopped([], []) else Push(lim, Chop(lim, Front(lines)), Last(lines))
  }

  function Close(c: Chopped): seq<seq<Line>> {
    if c.open == [] then c.closed else c.closed + [c.open]
  }

  /** The parts one visit of a channel produces. */
  function Split(lim: Limits, lines: seq<Line>): seq<seq<Line>> {
    Close(Chop(lim, lines))
  }

  /** No part could have been closed earlier. */
  ghost predicate NotFullEarlier(lim: Limits, part: seq<Line>) {
    forall j :: 0 < j < |part| ==> !Full(lim, part[..j])
  }

  /** The greedy partition, described without the algorithm: parts are non-empty, each one
      but the last is full, and none was full before its last line. */
  ghost predicate IsGreedy(lim: Limits, parts: seq<seq<Line>>) {
    && (forall k :: 0 <= k < |parts| ==> parts[k] != [] && NotFullEarlier(lim, parts[k]))
    && (forall k :: 0 <= k < |parts| - 1 ==> Full(lim, parts[k]))
  }

  ghost predicate ChopInvariant(lim: Limits, c: Chopped, lines: seq<Line>) {
    && Flatten(c.closed) + c.open == lines
    && (forall k :: 0 <= k < |c.closed| ==>
          c.closed[k] != [] && NotFullEarlier(lim, c.closed[k]) && Full(lim, c.closed[k]))
    && NotFullEarlier(lim, c.open)
    && (c.open != [] ==> !Full(lim, c.open))
  }

  lemma NotFullGrows(lim: Limits, open: seq<Line>, l: Line)
    requires NotFullEarlier(lim, open) && (open != [] ==> !Full(lim, open))
    ensures NotFullEarlier(lim, open + [l])
  {
    forall j | 0 < j < |open + [l]|
      ensures !Full(lim, (open + [l])[..j])
    {
      if j < |open| {
        assert (open + [l])[..j] == open[..j];
      } else {
        assert (open + [l])[..j] == open;
      }
    }
  }

  lemma PushKeeps(lim: Limits, c: Chopped, lines: seq<Line>, l: Line)
    requires ChopInvariant(lim, c, lines)
    ensures ChopInvariant(lim, Push(lim, c, l), lines + [l])
  {
    var open := c.open + [l];
    NotFullGrows(lim, c.open, l);
    Regroup(Flatten(c.closed), c.open, [l]);
    if Full(lim, open) {
      FlattenPush(c.closed, open);
      assert Flatten(c.closed + [open]) + [] == lines + [l];
    }
  }

  lemma {:induction false} ChopKeeps(lim: Limits, lines: seq<Line>)
    ensures ChopInvariant(lim, Chop(lim, lines), lines)
  {
    if lines != [] {
      ChopKeeps(lim, Front(lines));
      PushKeeps(lim, Chop(lim, Front(lines)), Front(lines), Last(lines));
      assert Front(lines) + [Last(lines)] == lines;
    }
  }

  /** The writer's rollover yields a greedy partition of exactly the lines written. */
  lemma SplitIsGreedy(lim: Limits, lines: seq<Line>)
    ensures IsGreedy(lim, Split(lim, lines))
    ensures Flatten(Split(lim, lines)) == lines
  {
    ChopKeeps(lim, lines);
    var c := Chop(lim, lines);
    FlattenPush(c.closed, c.open);
    assert c.open == [] ==> Flatten(c.closed) == lines;
  }

  /** There is only one greedy partition, so `IsGreedy` fixes every part boundary. */
  lemma {:induction false} GreedyIsUnique(lim: Limits, a: seq<seq<Line>>, b: seq<seq<Line>>)
    requires IsGreedy(lim, a) && IsGreedy(lim, b)
    requires Flatten(a) == Flatten(b)
    ensures a == b
    decreases |a|
  {
    if a == [] || b == [] {
      FlattenNotShorter(a);
      FlattenNotShorter(b);
    } else {
      SameFirst(lim, a, b);
      assert Flatten(a) == a[0] + Flatten(a[1..]) && Flatten(b) == a[0] + Flatten(b[1..]);
      assert Flatten(a[1..]) == Flatten(a)[|a[0]|..] == Flatten(b[1..]);
      GreedyIsUnique(lim, a[1..], b[1..]);
      assert a == [a[0]] + a[1..] && b == [b[0]] + b[1..];
    }
  }

  lemma SameFirst(lim: Limits, a: seq<seq<Line>>, b: seq<seq<Line>>)
    requires IsGreedy(lim, a) && IsGreedy(lim, b) && a != [] && b != []
    requires Flatten(a) == Flatten(b)
    ensures a[0] == b[0]
  {
    var f := Flatten(a);
    assert f[..|a[0]|] == a[0] && f[..|b[0]|] == b[0];
    NotShorter(lim, a, b);
    NotShorter(lim, b, a);
  }

  /** A full list reaches at least as far as one that was not full earlier. */
  lemma FullReaches(lim: Limits, p: seq<Line>, q: seq<Line>)
    requires p != [] && Full(lim, p) && NotFullEarlier(lim, q)
    requires p <= q || q <= p
    ensures |p| >= |q|
  {
    if p <= q {
      assert p == q[..|p|];
    }
  }

  lemma NotShorter(lim: Limits, a: seq<seq<Line>>, b: seq<seq<Line>>)
    requires IsGreedy(lim, a) && IsGreedy(lim, b) && a != [] && b != []
    requires Flatten(a) == Flatten(b)
    ensures |a[0]| >= |b[0]|
  {
    var f := Flatten(a);
    assert a[0] <= f && b[0] <= f;
    if |a| == 1 {
      FlattenSingle(a[0]);
      assert a == [a[0]];
    } else {
      FullReaches(lim, a[0], b[0]);
    }
  }

  lemma {:induction false} FlattenNotShorter(parts: seq<seq<Line>>)
    requires forall k :: 0 <= k < |parts| ==> parts[k] != []
    ensures |Flatten(parts)| >= |parts|
  {
    if parts != [] {
      FlattenNotShorter(parts[1..]);
    }
  }

  /** Size of any part of a greedy partition under positive limits: never more than maxRows
      rows, and fewer than maxBytes bytes before its last line - so a part may pass maxBytes,
      by less than that line. */
  lemma PartSize(lim: Limits, parts: seq<seq<Line>>, k: nat)
    requires IsGreedy(lim, parts) && k < |parts|
    ensures |parts[k]| <= Max(1, lim.maxRows)
    ensures lim.maxBytes > 0 ==> RawSize(Front(parts[k])) < lim.maxBytes
    ensures lim.maxBytes > 0 ==> RawSize(parts[k]) < lim.maxBytes + LineSize(Last(parts[k]))
  {
    var p := parts[k];
    assert p == Front(p) + [Last(p)];
    SumAppend(LineSize, Front(p), [Last(p)]);
    SumSingle(LineSize, Last(p));
    if |p| > 1 {
      assert !Full(lim, p[..|p| - 1]);
    }
  }

  /** Parts that are full by their row count. */
  function RowFull(lim: Limits, parts: seq<seq<Line>>): nat {
    Sum((p: seq<Line>) => if |p| >= lim.maxRows then 1 else 0, parts)
  }

  /** Parts that are full by their bytes. */
  function ByteFull(lim: Limits, parts: seq<seq<Line>>): nat {
    Sum((p: seq<Line>) => if RawSize(p) >= lim.maxBytes then 1 else 0, parts)
  }

  lemma {:induction false} RowFullBound(lim: Limits, parts: seq<seq<Line>>)
    requires lim.maxRows > 0
    ensures RowFull(lim, parts) * lim.maxRows <= |Flatten(parts)|
  {
    if parts != [] {
      RowFullBound(lim, parts[1..]);
      OneMoreTimes(RowFull(lim, parts[1..]), lim.maxRows);
    }
  }

  lemma {:induction false} ByteFullBound(lim: Limits, parts: seq<seq<Line>>)
    requires lim.maxBytes > 0
    ensures ByteFull(lim, parts) * lim.maxBytes <= RawSize(Flatten(parts))
  {
    if parts != [] {
      ByteFullBound(lim, parts[1..]);
      SumAppend(LineSize, parts[0], Flatten(parts[1..]));
      OneMoreTimes(ByteFull(lim, parts[1..]), lim.maxBytes);
    }
  }

  lemma OneMoreTimes(n: nat, d: int)
    ensures (n + 1) * d == n * d + d
  {
  }

  /** In one visit only the last part can be short of both limits. */
  lemma {:induction false} FullParts(lim: Limits, parts: seq<seq<Line>>)
    requires IsGreedy(lim, parts)
    ensures |parts| <= (if parts == [] then 0 else 1) + RowFull(lim, parts) + ByteFull(lim, parts)
  {
    if |parts| > 1 {
      assert Full(lim, parts[0]);
      FullParts(lim, parts[1..]);
    }
  }

  lemma DivBound(n: nat, d: nat, total: nat)
    requires d > 0 && n * d <= total
    ensures n <= total / d
  {
    var q := total / d;
    assert (q + 1) * d == q * d + d;
    assert total < (q + 1) * d;
    MulMonotone(q + 1, n, d);
  }

  lemma MulMonotone(a: nat, b: nat, d: nat)
    ensures a <= b ==> a * d <= b * d
  {
  }

  // ----- one part, or several -----

  /** The lines fit into one part: without the last of them neither limit is reached. */
  predicate FitsOnePart(lim: Limits, lines: seq<Line>) {
    |lines| <= 1 || (|lines| <= lim.maxRows && RawSize(Front(lines)) < lim.maxBytes)
  }

  lemma PrefixSize(lines: seq<Line>, j: nat)
    requires j <= |lines|
    ensures RawSize(lines[..j]) <= RawSize(lines)
  {
    SumAppend(LineSize, lines[..j], lines[j..]);
    assert lines[..j] + lines[j..] == lines;
  }

  lemma FitsMeansNotFull(lim: Limits, lines: seq<Line>)
    ensures FitsOnePart(lim, lines) <==> NotFullEarlier(lim, lines)
  {
    if |lines| > 1 {
      var front := Front(lines);
      assert lines[..|lines| - 1] == front;
      forall j | 0 < j < |lines|
        ensures FitsOnePart(lim, lines) ==> !Full(lim, lines[..j])
      {
        assert front[..j] == lines[..j];
        PrefixSize(front, j);
      }
    }
  }

  /** A visit yields at most one part if and only if its lines fit into one. */
  lemma OnePartIff(lim: Limits, lines: seq<Line>)
    ensures |Split(lim, lines)| <= 1 <==> FitsOnePart(lim, lines)
  {
    var parts := Split(lim, lines);
    SplitIsGreedy(lim, lines);
    FitsMeansNotFull(lim, lines);
    if |parts| == 1 {
      FlattenSingle(parts[0]);
      assert parts == [parts[0]];
    }
    if FitsOnePart(lim, lines) && lines != [] {
      FlattenSingle(lines);
      GreedyIsUnique(lim, parts, [lines]);
    }
  }

  // ----- parts within the byte limit -----

  ghost predicate WithinBytes(lim: Limits, parts: seq<seq<Line>>) {
    forall k :: 0 <= k < |parts| ==> RawSize(parts[k]) <= lim.maxBytes
  }

  /** The double counter after the lines were written: rows and bytes of the open part. */
  datatype Count = Count(rows: nat, bytes: nat)

  function Counted(lim: Limits, lines: seq<Line>): Count {
    if lines == [] then Count(0, 0)
    else
      var before := Counted(lim, Front(lines));
      var rows, bytes := before.rows + 1, before.bytes + LineSize(Last(lines));
      if rows >= lim.maxRows || bytes >= lim.maxBytes then Count(0, 0) else Count(rows, bytes)
  }

  /** No line is longer than the room the byte counter leaves when the line is written. */
  ghost predicate EveryLineFits(lim: Limits, lines: seq<Line>) {
    forall k :: 0 <= k < |lines| ==> Counted(lim, lines[..k]).bytes + LineSize(lines[k]) <= lim.maxBytes
  }

  lemma {:induction false} CountedIsOpen(lim: Limits, lines: seq<Line>)
    ensures var open := Chop(lim, lines).open;
            Counted(lim, lines) == Count(|open|, RawSize(open))
  {
    if lines != [] {
      CountedIsOpen(lim, Front(lines));
      var open := Chop(lim, Front(lines)).open;
      SumAppend(LineSize, open, [Last(lines)]);
      SumSingle(LineSize, Last(lines));
    }
  }

  lemma ClosePush(lim: Limits, c: Chopped, l: Line)
    ensures Close(Push(lim, c, l)) == c.closed + [c.open + [l]]
  {
  }

  lemma WithinAppend(lim: Limits, a: seq<seq<Line>>, b: seq<seq<Line>>)
    ensures WithinBytes(lim, a + b) <==> WithinBytes(lim, a) && WithinBytes(lim, b)
  {
    var c := a + b;
    forall k | 0 <= k < |b|
      ensures WithinBytes(lim, c) ==> RawSize(b[k]) <= lim.maxBytes
    {
      assert c[|a| + k] == b[k];
    }
    forall k | 0 <= k < |a|
      ensures WithinBytes(lim, c) ==> RawSize(a[k]) <= lim.maxBytes
    {
      assert c[k] == a[k];
    }
  }

  lemma WithinSingle(lim: Limits, part: seq<Line>)
    ensures WithinBytes(lim, [part]) <==> RawSize(part) <= lim.maxBytes
  {
    assert [part][0] == part;
  }

  lemma WithinPush(lim: Limits, c: Chopped, l: Line)
    ensures WithinBytes(lim, Close(Push(lim, c, l)))
            <==> WithinBytes(lim, Close(c)) && RawSize(c.open) + LineSize(l) <= lim.maxBytes
  {
    hide WithinBytes;
    ClosePush(lim, c, l);
    SumAppend(LineSize, c.open, [l]);
    SumSingle(LineSize, l);
    WithinAppend(lim, c.closed, [c.open + [l]]);
    WithinAppend(lim, c.closed, [c.open]);
    WithinSingle(lim, c.open + [l]);
    WithinSingle(lim, c.open);
  }

  lemma FitsPush(lim: Limits, lines: seq<Line>)
    requires lines != []
    ensures EveryLineFits(lim, lines)
            <==> EveryLineFits(lim, Front(lines))
                 && Counted(lim, Front(lines)).bytes + LineSize(Last(lines)) <= lim.maxBytes
  {
    var front := Front(lines);
    assert lines[..|front|] == front;
    forall k | 0 <= k < |front|
      ensures lines[..k] == front[..k] && lines[k] == front[k]
    {
    }
  }

  /** No part passes the byte limit if and only if every line fits into what is left of it. */
  lemma {:induction false} WithinBytesIff(lim: Limits, lines: seq<Line>)
    ensures WithinBytes(lim, Split(lim, lines)) <==> EveryLineFits(lim, lines)
  {
    if lines != [] {
      WithinBytesIff(lim, Front(lines));
      CountedIsOpen(lim, Front(lines));
      WithinPush(lim, Chop(lim, Front(lines)), Last(lines));
      FitsPush(lim, lines);
    }
  }
}
