/** The bytes of a part: lines ended by a newline, and their recovery (`gzipDecode`). */
module Framing {
  import opened Base
  import opened Rollover

  /** What the writer feeds to gzip for a list of lines. */
  function Raw(lines: seq<Line>): Bytes {
    if lines == [] then [] else lines[0] + [NEWLINE] + Raw(lines[1..])
  }

  lemma {:induction false} RawAppend(a: seq<Line>, b: seq<Line>)
    ensures Raw(a + b) == Raw(a) + Raw(b)
  {
    if a == [] {
      assert a + b == b;
    } else {
      RawAppend(a[1..], b);
      assert (a + b)[0] == a[0] && (a + b)[1..] == a[1..] + b;
      Regroup(a[0] + [NEWLINE], Raw(a[1..]), Raw(b));
    }
  }

  lemma {:induction false} RawPush(a: seq<Line>, l: Line)
    ensures Raw(a + [l]) == Raw(a) + l + [NEWLINE]
  {
    RawAppend(a, [l]);
    assert [l][1..] == [];
    assert Raw([l]) == l + [NEWLINE];
    assert Raw(a) + (l + [NEWLINE]) == Raw(a) + l + [NEWLINE];
  }

  /** The double counter counts the bytes that are really in the part. */
  lemma {:induction false} RawLength(lines: seq<Line>)
    ensures |Raw(lines)| == RawSize(lines)
  {
    if lines != [] {
      RawLength(lines[1..]);
    }
  }

  /** Lines are ended by a line feed, each by one. */
  lemma LineFeeds(l: Line, rest: seq<Line>)
    ensures Raw([l] + rest) == l + [10] + Raw(rest)
  {
    assert ([l] + rest)[1..] == rest;
  }

  /** A marshalled JSON object: not empty, and no raw newline (section 7 of RFC 8259). */
  ghost predicate IsJsonLine(l: Line) {
    l != [] && NEWLINE !in l
  }

  /** Index of the first newline, or the length. */
  function NextNewline(b: Bytes): (n: nat)
    ensures n <= |b|
    ensures forall i :: 0 <= i < n ==> b[i] != NEWLINE
    ensures n < |b| ==> b[n] == NEWLINE
  {
    if b == [] || b[0] == NEWLINE then 0 else 1 + NextNewline(b[1..])
  }

  /** bytes.Split on newline, dropping empty pieces. */
  function Pieces(b: Bytes): seq<Line>
    decreases |b|
  {
    if b == [] then []
    else
      var n := NextNewline(b);
      var rest := if n < |b| then b[n + 1..] else [];
      if n == 0 then Pieces(rest) else [b[..n]] + Pieces(rest)
  }

  /** The loop of `gzipDecode` over the decompressed bytes. */
  method DecodeLines(raw: Bytes) returns (lines: seq<Line>)
    ensures lines == Pieces(raw)
  {
    lines := [];
    var rest := raw;
    while rest != []
      invariant lines + Pieces(rest) == Pieces(raw)
      decreases |rest|
    {
      var n := NextNewline(rest);
      var piece := rest[..n];
      var next := if n < |rest| then rest[n + 1..] else [];
      if |piece| > 0 {
        assert lines + ([piece] + Pieces(next)) == lines + [piece] + Pieces(next);
        lines := lines + [piece];
      }
      rest := next;
    }
  }

  lemma {:induction false} FirstNewline(l: Line, rest: Bytes)
    requires NEWLINE !in l
    ensures NextNewline(l + [NEWLINE] + rest) == |l|
  {
    if l != [] {
      FirstNewline(l[1..], rest);
      assert (l + [NEWLINE] + rest)[1..] == l[1..] + [NEWLINE] + rest;
    }
  }

  /** Splitting a part's bytes gives back exactly its lines, in order. */
  lemma {:induction false} PiecesOfRaw(lines: seq<Line>)
    requires forall l :: l in lines ==> IsJsonLine(l)
    ensures Pieces(Raw(lines)) == lines
  {
    if lines != [] {
      var l, rest := lines[0], lines[1..];
      assert IsJsonLine(l);
      assert forall x :: x in rest ==> x in lines;
      PiecesOfRaw(rest);
      var b := Raw(lines);
      FirstNewline(l, Raw(rest));
      var n := NextNewline(b);
      assert b[..n] == l && b[n + 1..] == Raw(rest);
    }
  }
}
