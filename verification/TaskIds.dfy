/** `NewTaskID` of internal/submit/submit.go: a time prefix of 8 base-32 digits followed by
    16 random ones. */
module TaskIds {
  import opened Base
  import Sorting

  const ALPHABET := "0123456789ABCDEFGHJKMNPQRSTVWXYZ"
  const ID_PREFIX := "ost_"

  /** 2^40, the range of eight base-32 digits. */
  const WINDOW := 0x100_0000_0000

  function Digit(d: nat): char
    requires d < 32
  {
    ALPHABET[d]
  }

  predicate IsDigit(c: char) {
    c in ALPHABET
  }

  function DigitValue(c: char): (d: nat)
    requires IsDigit(c)
    ensures d < 32 && Digit(d) == c
  {
    IndexIn(ALPHABET, c)
  }

  function IndexIn(s: string, c: char): (i: nat)
    requires c in s
    ensures i < |s| && s[i] == c
  {
    if s[0] == c then 0 else 1 + IndexIn(s[1..], c)
  }

  lemma AlphabetAscending(i: nat, j: nat)
    requires i < j < 32
    ensures Digit(i) < Digit(j)
  {
    // Checked digit by digit against the next one.
    if j > i + 1 {
      AlphabetAscending(i, j - 1);
    }
  }

  /** The n low base-32 digits of a number, most significant first. */
  function Digits(ms: nat, n: nat): (s: string)
    ensures |s| == n
  {
    if n == 0 then "" else Digits(ms / 32, n - 1) + [Digit(ms % 32)]
  }

  function TimePrefix(ms: nat): string {
    Digits(ms, 8)
  }

  /** Reads digits back as a number. */
  function ValueOf(s: string): nat
    requires forall c :: c in s ==> IsDigit(c)
  {
    if s == "" then 0 else ValueOf(Front(s)) * 32 + DigitValue(Last(s))
  }

  function Pow32(n: nat): (p: nat)
    ensures p > 0
  {
    if n == 0 then 1 else 32 * Pow32(n - 1)
  }

  lemma DigitRoundTrip(d: nat)
    requires d < 32
    ensures IsDigit(Digit(d)) && DigitValue(Digit(d)) == d
  {
    var e := DigitValue(Digit(d));
    if e < d {
      AlphabetAscending(e, d);
    } else if d < e {
      AlphabetAscending(d, e);
    }
  }

  lemma {:induction false} DigitsAreDigits(ms: nat, n: nat)
    ensures forall c :: c in Digits(ms, n) ==> IsDigit(c)
  {
    if n > 0 {
      DigitsAreDigits(ms / 32, n - 1);
    }
  }

  lemma ModStep(ms: nat, p: nat)
    requires p > 0
    ensures (ms / 32 % p) * 32 + ms % 32 == ms % (32 * p)
  {
    var q, r := ms / 32, ms % 32;
    var a, b := q / p, q % p;
    assert ms == 32 * (a * p + b) + r;
    assert ms == a * (32 * p) + (32 * b + r);
    assert 0 <= 32 * b + r < 32 * p;
    ModUnique(ms, 32 * p, a, 32 * b + r);
  }

  lemma ModUnique(x: nat, m: nat, a: nat, b: nat)
    requires m > 0 && b < m && x == a * m + b
    ensures x % m == b
  {
    var q := x / m;
    assert x == q * m + x % m;
    assert (a - q) * m == x % m - b;
    Squeeze(a - q, m, x % m - b);
  }

  lemma Squeeze(k: int, m: int, d: int)
    requires m > 0 && k * m == d && -m < d < m
    ensures k == 0
  {
    assert k >= 1 ==> k * m >= m;
    assert k <= -1 ==> k * m <= -m;
  }

  lemma {:induction false} DigitsRoundTrip(ms: nat, n: nat)
    ensures forall c :: c in Digits(ms, n) ==> IsDigit(c)
    ensures ValueOf(Digits(ms, n)) == ms % Pow32(n)
  {
    DigitsAreDigits(ms, n);
    if n > 0 {
      DigitsRoundTrip(ms / 32, n - 1);
      var s := Digits(ms, n);
      assert Front(s) == Digits(ms / 32, n - 1);
      DigitRoundTrip(ms % 32);
      ModStep(ms, Pow32(n - 1));
    }
  }

  /** The prefix keeps the milliseconds modulo 2^40 - a range of about 34.8 years - and no more. */
  lemma PrefixRoundTrip(ms: nat)
    ensures forall c :: c in TimePrefix(ms) ==> IsDigit(c)
    ensures ValueOf(TimePrefix(ms)) == ms % WINDOW
  {
    DigitsRoundTrip(ms, 8);
    assert Pow32(8) == WINDOW by {
      assert Pow32(4) == 0x10_0000;
    }
  }

  /** Strictly before, in the order by which strings sort. */
  predicate Less(a: string, b: string) {
    a != b && Sorting.Leq(a, b)
  }

  lemma {:induction false} LessAppendDigit(a: string, b: string, c: char, d: char)
    requires |a| == |b|
    ensures Less(a + [c], b + [d]) <==> Less(a, b) || (a == b && c < d)
  {
    if a == "" {
    } else {
      LessAppendDigit(a[1..], b[1..], c, d);
      assert (a + [c])[1..] == a[1..] + [c] && (b + [d])[1..] == b[1..] + [d];
      SameTail(a, b);
      SameTail(a + [c], b + [d]);
    }
  }

  lemma SameTail(a: string, b: string)
    requires a != "" && b != ""
    ensures a == b <==> a[0] == b[0] && a[1..] == b[1..]
  {
    assert a == [a[0]] + a[1..] && b == [b[0]] + b[1..];
  }

  lemma {:induction false} DigitsOrder(x: nat, y: nat, n: nat)
    ensures Less(Digits(x, n), Digits(y, n)) <==> x % Pow32(n) < y % Pow32(n)
    ensures Digits(x, n) == Digits(y, n) <==> x % Pow32(n) == y % Pow32(n)
  {
    if n > 0 {
      DigitsOrder(x / 32, y / 32, n - 1);
      ModStep(x, Pow32(n - 1));
      ModStep(y, Pow32(n - 1));
      var a, b := Digits(x / 32, n - 1), Digits(y / 32, n - 1);
      LessAppendDigit(a, b, Digit(x % 32), Digit(y % 32));
      SameAppend(a, b, Digit(x % 32), Digit(y % 32));
      DigitOrder(x % 32, y % 32);
    }
  }

  lemma SameAppend(a: string, b: string, c: char, d: char)
    ensures a + [c] == b + [d] <==> a == b && c == d
  {
    assert Front(a + [c]) == a && Front(b + [d]) == b;
    assert Last(a + [c]) == c && Last(b + [d]) == d;
  }

  lemma DigitOrder(i: nat, j: nat)
    requires i < 32 && j < 32
    ensures Digit(i) < Digit(j) <==> i < j
    ensures Digit(i) == Digit(j) <==> i == j
  {
    if i < j {
      AlphabetAscending(i, j);
    } else if j < i {
      AlphabetAscending(j, i);
    }
  }

  /** Prefixes sort by the time modulo 2^40, so like the times themselves as far as one
      window reaches. */
  lemma PrefixOrder(x: nat, y: nat)
    ensures Less(TimePrefix(x), TimePrefix(y)) <==> x % WINDOW < y % WINDOW
    ensures x / WINDOW == y / WINDOW ==> (Less(TimePrefix(x), TimePrefix(y)) <==> x < y)
  {
    DigitsOrder(x, y, 8);
    assert Pow32(8) == WINDOW by {
      assert Pow32(4) == 0x10_0000;
    }
  }

  /** At the end of every window the order is lost: the next millisecond sorts first. */
  lemma PrefixWraps(last: nat)
    requires last % WINDOW == WINDOW - 1
    ensures Less(TimePrefix(last + 1), TimePrefix(last))
  {
    PrefixOrder(last + 1, last);
    ModUnique(last + 1, WINDOW, last / WINDOW + 1, 0);
  }

  /** The id of a given moment and given random bytes. */
  ghost predicate IsIdFor(id: string, now: nat, rnd: seq<byte>)
    requires |rnd| == 16
  {
    && |id| == 28 && id[..4] == ID_PREFIX && id[4..12] == TimePrefix(now)
    && forall i :: 0 <= i < 16 ==> id[12 + i] == Digit(rnd[i] as nat % 32)
  }

  lemma DigitMonotone(i: nat, j: nat)
    requires i <= j < 32
    ensures Digit(i) <= Digit(j)
  {
    if i < j {
      AlphabetAscending(i, j);
    }
  }

  /** A digit or a capital letter, but none that is easily misread. */
  predicate IsPlain(c: char) {
    ('0' <= c <= '9' || 'A' <= c <= 'Z') && c != 'I' && c != 'L' && c != 'O' && c != 'U'
  }

  lemma DigitIsPlain(d: nat)
    requires d < 32
    ensures IsPlain(Digit(d))
  {
    DigitMonotone(0, d);
    DigitMonotone(d, 31);
    if d <= 9 { DigitMonotone(d, 9); } else { DigitMonotone(10, d); }
    if d <= 17 { DigitMonotone(d, 17); } else { DigitMonotone(18, d); }
    if d <= 19 { DigitMonotone(d, 19); } else { DigitMonotone(20, d); }
    if d <= 21 { DigitMonotone(d, 21); } else { DigitMonotone(22, d); }
    if d <= 26 { DigitMonotone(d, 26); } else { DigitMonotone(27, d); }
  }

  /** An id is the service's prefix and 24 plain characters, of which the first eight read back as
      the time modulo 2^40. */
  lemma IdShape(id: string, now: nat, rnd: seq<byte>)
    requires |rnd| == 16 && IsIdFor(id, now, rnd)
    ensures |id| == 28 && id[..4] == "ost_" && forall i :: 4 <= i < 28 ==> IsPlain(id[i])
    ensures (forall c :: c in id[4..12] ==> IsDigit(c)) && ValueOf(id[4..12]) == now % 0x100_0000_0000
  {
    hide Digit, IsPlain;
    PrefixRoundTrip(now);
    forall i | 4 <= i < 28
      ensures IsPlain(id[i])
    {
      if i < 12 {
        assert id[i] == id[4..12][i - 4];
        DigitIsPlain(DigitValue(id[i]));
      } else {
        assert id[12 + (i - 12)] == Digit(rnd[i - 12] as nat % 32);
        DigitIsPlain(rnd[i - 12] as nat % 32);
      }
    }
  }

  /** The two loops over the byte array; `rnd` stands for the random bytes read. */
  method NewTaskID(now: nat, rnd: seq<byte>) returns (id: string)
    requires |rnd| == 16
    ensures IsIdFor(id, now, rnd)
  {
    var b := new char[24](_ => '0');
    var ms := now;
    var i := 7;
    while i >= 0
      invariant -1 <= i <= 7
      invariant Digits(now, 8) == Digits(ms, i + 1) + b[i + 1..8]
    {
      ghost var before := b[i + 1..8];
      b[i] := ALPHABET[ms % 32];
      assert b[i..8] == [b[i]] + before;
      assert Digits(ms, i + 1) == Digits(ms / 32, i) + [b[i]];
      assert Digits(ms / 32, i) + [b[i]] + before == Digits(ms / 32, i) + b[i..8];
      ms := ms / 32;
      i := i - 1;
    }
    assert b[0..8] == TimePrefix(now);
    for k := 0 to 16
      invariant b[0..8] == TimePrefix(now)
      invariant forall j :: 0 <= j < k ==> b[8 + j] == Digit(rnd[j] as nat % 32)
    {
      ghost var before := b[0..8];
      b[8 + k] := ALPHABET[rnd[k] as nat % 32];
      assert b[0..8] == before;
    }
    id := ID_PREFIX + b[..];
    assert id[4..12] == b[0..8];
  }
}
