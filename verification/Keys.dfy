/** Object keys of internal/result/s3.go. */
module Keys {
  import opened Base

  const OBJECT_ROOT := "octo-message-export-api"

  /** The two halves of strings.Trim(s, "/"). */
  function TrimLeft(s: string): string {
    if s != "" && s[0] == '/' then TrimLeft(s[1..]) else s
  }

  function TrimRight(s: string): string {
    if s != "" && Last(s) == '/' then TrimRight(Front(s)) else s
  }

  function Trim(s: string): string {
    TrimRight(TrimLeft(s))
  }

  /** Adds the environment prefix, if there is one. */
  function WithPrefix(keyPrefix: string, s: string): string {
    var p := Trim(keyPrefix);
    if p == "" then s else p + "/" + s
  }

  function Decimal(n: nat): (s: string)
    ensures s != ""
  {
    var last := ["0123456789"[n % 10]];
    if n < 10 then last else Decimal(n / 10) + last
  }

  /** The verb %03d on a number that is not negative. */
  function Padded(n: nat): string {
    var d := Decimal(n);
    if |d| == 1 then "00" + d else if |d| == 2 then "0" + d else d
  }

  function TaskDir(day: string, caller: string, taskId: string): string {
    OBJECT_ROOT + "/" + day + "/" + caller + "/" + taskId + "/"
  }

  function PartKey(day: string, caller: string, taskId: string, partSeq: nat): string {
    TaskDir(day, caller, taskId) + "part-" + Padded(partSeq) + ".ndjson.gz"
  }

  /** Where `Upload` stores a part. */
  function ObjectKey(keyPrefix: string, day: string, caller: string, taskId: string, partSeq: nat): string {
    WithPrefix(keyPrefix, PartKey(day, caller, taskId, partSeq))
  }

  /** The prefix that cancel cleans up. */
  function TaskPrefix(keyPrefix: string, day: string, caller: string, taskId: string): string {
    WithPrefix(keyPrefix, TaskDir(day, caller, taskId))
  }

  predicate SlashFree(s: string) {
    '/' !in s
  }

  function DecimalDigit(c: char): nat
  {
    if '0' <= c <= '9' then c as int - '0' as int else 0
  }

  function ParseDecimal(s: string): nat {
    if s == "" then 0 else ParseDecimal(Front(s)) * 10 + DecimalDigit(Last(s))
  }

  lemma {:induction false} DecimalRoundTrip(n: nat)
    ensures ParseDecimal(Decimal(n)) == n
  {
    var last := "0123456789"[n % 10];
    assert DecimalDigit(last) == n % 10;
    if n < 10 {
      assert Front([last]) == "" && Last([last]) == last;
    } else {
      DecimalRoundTrip(n / 10);
      assert Front(Decimal(n)) == Decimal(n / 10);
    }
  }

  lemma {:induction false} LeadingZero(s: string)
    ensures ParseDecimal("0" + s) == ParseDecimal(s)
  {
    if s == "" {
      assert Front("0" + s) == "";
    } else {
      LeadingZero(Front(s));
      assert Front("0" + s) == "0" + Front(s);
    }
  }

  lemma PaddedRoundTrip(n: nat)
    ensures ParseDecimal(Padded(n)) == n
  {
    var d := Decimal(n);
    DecimalRoundTrip(n);
    if |d| == 1 {
      TwoZeros(d);
    } else if |d| == 2 {
      LeadingZero(d);
    }
  }

  lemma TwoZeros(s: string)
    ensures ParseDecimal("00" + s) == ParseDecimal(s)
  {
    var t := "0" + s;
    LeadingZero(s);
    LeadingZero(t);
    assert "00" + s == "0" + t;
  }

  lemma CancelPrefix(p: string, x: string, y: string)
    ensures p + y <= p + x <==> y <= x
    ensures p + y == p + x <==> y == x
  {
    assert (p + x)[|p|..] == x && (p + y)[|p|..] == y;
    if y <= x {
      assert x == y + x[|y|..];
      assert p + x == (p + y) + x[|y|..];
    }
    if p + y <= p + x {
      assert (p + x)[..|p + y|] == p + y;
      assert x[..|y|] == (p + x)[|p|..|p| + |y|] == y;
    }
  }

  /** The environment prefix does not disturb prefix comparison. */
  lemma EnvironmentCancels(keyPrefix: string, x: string, y: string)
    ensures WithPrefix(keyPrefix, y) <= WithPrefix(keyPrefix, x) <==> y <= x
    ensures WithPrefix(keyPrefix, y) == WithPrefix(keyPrefix, x) <==> y == x
  {
    CancelPrefix(Trim(keyPrefix) + "/", x, y);
  }

  /** A slash-free segment is fixed by the slash that ends it. */
  lemma {:induction false} SegmentPrefix(a: string, x: string, b: string, y: string)
    requires SlashFree(a) && SlashFree(b)
    ensures b + "/" + y <= a + "/" + x <==> a == b && y <= x
  {
    if a == "" || b == "" {
      var l, r := b + "/" + y, a + "/" + x;
      assert a == "" && b != "" ==> r[0] == '/' && l[0] == b[0] && b[0] in b;
      assert b == "" && a != "" ==> l[0] == '/' && r[0] == a[0] && a[0] in a;
      assert a == b ==> l == "/" + y && r == "/" + x;
      CancelPrefix("/", x, y);
    } else {
      SegmentPrefix(a[1..], x, b[1..], y);
      assert a == [a[0]] + a[1..] && b == [b[0]] + b[1..];
      assert a + "/" + x == [a[0]] + (a[1..] + "/" + x);
      assert b + "/" + y == [b[0]] + (b[1..] + "/" + y);
      CancelPrefix([a[0]], a[1..] + "/" + x, b[1..] + "/" + y);
      assert a[0] != b[0] ==> (b + "/" + y)[0] != (a + "/" + x)[0];
    }
  }

  /** The part of a key below the root, slash by slash. */
  function Path(day: string, caller: string, id: string, file: string): string {
    day + "/" + (caller + "/" + (id + "/" + file))
  }

  lemma PathPrefix(day: string, caller: string, id: string, file: string,
                   day': string, caller': string, id': string)
    requires SlashFree(day) && SlashFree(caller) && SlashFree(id)
    requires SlashFree(day') && SlashFree(caller') && SlashFree(id')
    ensures Path(day', caller', id', "") <= Path(day, caller, id, file)
            <==> day == day' && caller == caller' && id == id'
  {
    var c, c' := caller + "/" + (id + "/" + file), caller' + "/" + (id' + "/" + "");
    SegmentPrefix(day, c, day', c');
    SegmentPrefix(caller, id + "/" + file, caller', id' + "/" + "");
    SegmentPrefix(id, file, id', "");
  }

  lemma DirIsPath(day: string, caller: string, id: string, file: string)
    ensures TaskDir(day, caller, id) + file == OBJECT_ROOT + "/" + Path(day, caller, id, file)
  {
    var root := OBJECT_ROOT + "/";
    assert TaskDir(day, caller, id) == root + day + "/" + caller + "/" + id + "/";
    assert id + "/" + file == id + ("/" + file);
    Regroup(root, day, caller, id, file);
  }

  lemma Regroup(r: string, a: string, b: string, c: string, f: string)
    ensures r + a + "/" + b + "/" + c + "/" + f == r + (a + "/" + (b + "/" + (c + "/" + f)))
  {
    var tail := c + "/" + f;
    var mid := b + "/" + tail;
    assert r + a + "/" + b + "/" + c + "/" + f == r + a + "/" + b + "/" + tail;
    assert r + a + "/" + b + "/" + tail == r + a + "/" + mid;
    assert r + a + "/" + mid == r + (a + "/" + mid);
  }

  /** Cleaning one task's prefix reaches a part exactly when it is a part of that task. */
  lemma KeyIsolation(keyPrefix: string, day: string, caller: string, id: string, n: nat,
                     day': string, caller': string, id': string)
    requires SlashFree(day) && SlashFree(caller) && SlashFree(id)
    requires SlashFree(day') && SlashFree(caller') && SlashFree(id')
    ensures TaskPrefix(keyPrefix, day', caller', id') <= ObjectKey(keyPrefix, day, caller, id, n)
            <==> day == day' && caller == caller' && id == id'
  {
    var file := "part-" + Padded(n) + ".ndjson.gz";
    var key, dir := PartKey(day, caller, id, n), TaskDir(day', caller', id');
    assert key == TaskDir(day, caller, id) + file;
    assert dir == dir + "";
    DirIsPath(day, caller, id, file);
    DirIsPath(day', caller', id', "");
    EnvironmentCancels(keyPrefix, key, dir);
    CancelPrefix(OBJECT_ROOT + "/", Path(day, caller, id, file), Path(day', caller', id', ""));
    PathPrefix(day, caller, id, file, day', caller', id');
  }

  lemma CancelSuffix(a: string, b: string, suffix: string)
    ensures a + suffix == b + suffix <==> a == b
  {
    if a + suffix == b + suffix {
      assert |a| == |b|;
      assert a == (a + suffix)[..|a|] && b == (b + suffix)[..|b|];
    }
  }

  lemma PaddedInjective(m: nat, n: nat)
    ensures Padded(m) == Padded(n) <==> m == n
  {
    PaddedRoundTrip(m);
    PaddedRoundTrip(n);
  }

  /** Different part numbers, also past 999, give different keys. */
  lemma KeyInjective(keyPrefix: string, day: string, caller: string, id: string, m: nat, n: nat)
    ensures ObjectKey(keyPrefix, day, caller, id, m) == ObjectKey(keyPrefix, day, caller, id, n) <==> m == n
  {
    var dir := TaskDir(day, caller, id) + "part-";
    EnvironmentCancels(keyPrefix, dir + Padded(m) + ".ndjson.gz", dir + Padded(n) + ".ndjson.gz");
    CancelSuffix(dir + Padded(m), dir + Padded(n), ".ndjson.gz");
    CancelPrefix(dir, Padded(m), Padded(n));
    PaddedInjective(m, n);
  }

  // ----- what a key looks like -----

  /** One character in front of the pieces of a string. */
  function PushChar(c: char, rest: seq<string>): (r: seq<string>)
    requires rest != []
    ensures r != []
  {
    if c == '/' then [""] + rest else [[c] + rest[0]] + rest[1..]
  }

  /** The pieces between slashes. */
  function Segments(s: string): (r: seq<string>)
    ensures r != []
  {
    if s == "" then [""] else PushChar(s[0], Segments(s[1..]))
  }

  lemma PushCharAppend(c: char, a: seq<string>, b: seq<string>)
    requires a != []
    ensures PushChar(c, a + b) == PushChar(c, a) + b
  {
    assert (a + b)[1..] == a[1..] + b;
  }

  lemma {:induction false} SegmentsJoin(a: string, b: string)
    ensures Segments(a + "/" + b) == Segments(a) + Segments(b)
  {
    hide PushChar;
    var s := a + "/" + b;
    if a == "" {
      assert s[1..] == b && s[0] == '/';
      SlashFirst(Segments(b));
    } else {
      SegmentsJoin(a[1..], b);
      assert s[1..] == a[1..] + "/" + b && s[0] == a[0];
      PushCharAppend(a[0], Segments(a[1..]), Segments(b));
    }
  }

  lemma SlashFirst(rest: seq<string>)
    requires rest != []
    ensures PushChar('/', rest) == [""] + rest
  {
  }

  lemma {:induction false} OneSegment(a: string)
    requires SlashFree(a)
    ensures Segments(a) == [a]
  {
    if a != "" {
      OneSegment(a[1..]);
      assert [a[0]] + a[1..] == a;
    }
  }

  lemma {:induction false} DecimalDigits(n: nat)
    ensures forall c :: c in Decimal(n) ==> '0' <= c <= '9'
    ensures |Decimal(n)| == 1 <==> n < 10
    ensures |Decimal(n)| == 2 <==> 10 <= n < 100
    ensures |Decimal(n)| == 3 <==> 100 <= n < 1000
  {
    if n >= 10 {
      DecimalDigits(n / 10);
    }
  }

  /** The number in a key has three digits, or more from 1000 on, and no leading zero beyond. */
  lemma PaddedDigits(n: nat)
    ensures ParseDecimal(Padded(n)) == n && SlashFree(Padded(n))
    ensures |Padded(n)| == Max(3, |Decimal(n)|) && (|Padded(n)| == 3 <==> n < 1000)
  {
    PaddedRoundTrip(n);
    DecimalDigits(n);
  }

  lemma {:induction false} TrimLeftMeaning(s: string)
    ensures var t := TrimLeft(s); |t| <= |s| && t == s[|s| - |t|..] && (t == "" || t[0] != '/')
    ensures forall k :: 0 <= k < |s| - |TrimLeft(s)| ==> s[k] == '/'
  {
    if s != "" && s[0] == '/' {
      TrimLeftMeaning(s[1..]);
    }
  }

  lemma {:induction false} TrimRightMeaning(s: string)
    ensures var t := TrimRight(s); t <= s && (t == "" || Last(t) != '/')
    ensures forall k :: |TrimRight(s)| <= k < |s| ==> s[k] == '/'
  {
    if s != "" && Last(s) == '/' {
      TrimRightMeaning(Front(s));
    }
  }

  /** Trimming takes slashes off both ends, all of them, and nothing else. */
  lemma TrimMeaning(s: string) returns (i: nat, j: nat)
    ensures i <= j <= |s| && Trim(s) == s[i..j]
    ensures forall k :: 0 <= k < i || j <= k < |s| ==> s[k] == '/'
    ensures i < j ==> s[i] != '/' && s[j - 1] != '/'
  {
    var t := TrimLeft(s);
    TrimLeftMeaning(s);
    TrimRightMeaning(t);
    i := |s| - |t|;
    j := i + |TrimRight(t)|;
    forall k | j <= k < |s|
      ensures s[k] == '/'
    {
      assert s[k] == t[k - i];
    }
  }

  lemma FileSegment(n: nat)
    ensures SlashFree("part-" + Padded(n) + ".ndjson.gz")
  {
    PaddedDigits(n);
  }

  lemma PartKeyLayout(day: string, caller: string, id: string, n: nat)
    requires SlashFree(day) && SlashFree(caller) && SlashFree(id)
    ensures Segments(PartKey(day, caller, id, n))
         == ["octo-message-export-api", day, caller, id, "part-" + Padded(n) + ".ndjson.gz"]
  {
    hide Segments, Padded, SlashFree;
    var file := "part-" + Padded(n) + ".ndjson.gz";
    assert PartKey(day, caller, id, n) == TaskDir(day, caller, id) + file;
    DirIsPath(day, caller, id, file);
    FileSegment(n);
    OneSegment(file);
    OneSegment(id);
    OneSegment(caller);
    OneSegment(day);
    RootSegment();
    SegmentsJoin(id, file);
    SegmentsJoin(caller, id + "/" + file);
    SegmentsJoin(day, caller + "/" + (id + "/" + file));
    SegmentsJoin(OBJECT_ROOT, Path(day, caller, id, file));
  }

  lemma RootSegment()
    ensures Segments(OBJECT_ROOT) == ["octo-message-export-api"]
  {
    OneSegment(OBJECT_ROOT);
  }

  /** The layout of a key: the environment prefix, if there is one, then the root, the day, the
      caller, the task and the numbered file. */
  lemma KeyLayout(keyPrefix: string, day: string, caller: string, id: string, n: nat)
    requires SlashFree(day) && SlashFree(caller) && SlashFree(id)
    ensures Segments(ObjectKey(keyPrefix, day, caller, id, n))
         == (if Trim(keyPrefix) == "" then [] else Segments(Trim(keyPrefix)))
            + ["octo-message-export-api", day, caller, id, "part-" + Padded(n) + ".ndjson.gz"]
  {
    hide Segments, Trim;
    var key := PartKey(day, caller, id, n);
    PartKeyLayout(day, caller, id, n);
    if Trim(keyPrefix) != "" {
      SegmentsJoin(Trim(keyPrefix), key);
    }
  }
}
