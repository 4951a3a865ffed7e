/**
 * The string helpers the file store uses to shard a uuid: `str.replace('-', '')`
 * and `partition_string` from smqtk.utils.string_utils.
 */
module StringUtils {

  /** `s.replace('-', '')`: the string with every hyphen removed. */
  function StripHyphens(s: string): (r: string)
    ensures '-' !in r
    ensures |r| <= |s|
  {
    if s == [] then ""
    else (if s[0] == '-' then "" else [s[0]]) + StripHyphens(s[1..])
  }

  /** Every character other than the hyphen survives stripping exactly as often. */
  lemma {:induction false} StripHyphensCounts(s: string)
    ensures multiset(StripHyphens(s)) == multiset(s)['-' := 0]
  {
    if s != [] {
      assert s == [s[0]] + s[1..];
      StripHyphensCounts(s[1..]);
    }
  }

  /** A string without hyphens is left as it is. */
  lemma {:induction false} StripHyphensKeepsPlain(s: string)
    requires '-' !in s
    ensures StripHyphens(s) == s
  {
    if s != [] {
      StripHyphensKeepsPlain(s[1..]);
    }
  }

  /** Stripping works piecewise, so the characters that survive keep their order. */
  lemma {:induction false} StripHyphensAppend(a: string, b: string)
    ensures StripHyphens(a + b) == StripHyphens(a) + StripHyphens(b)
  {
    if a == [] {
      assert a + b == b;
    } else {
      assert (a + b)[1..] == a[1..] + b;
      StripHyphensAppend(a[1..], b);
    }
  }

  /** Stripping adds no character that was not there. */
  lemma StripHyphensAddsNothing(s: string, c: char)
    ensures c in StripHyphens(s) ==> c in s
  {
    if c in StripHyphens(s) {
      StripHyphensCounts(s);
      assert multiset(StripHyphens(s))[c] > 0;
    }
  }

  /** Stripping twice strips nothing more. */
  lemma StripHyphensIdempotent(s: string)
    ensures StripHyphens(StripHyphens(s)) == StripHyphens(s)
  {
    StripHyphensKeepsPlain(StripHyphens(s));
  }

  /** The parts written one after another. */
  function Concat(parts: seq<string>): string
    decreases |parts|
  {
    if parts == [] then "" else parts[0] + Concat(parts[1..])
  }

  /** A character of any part is a character of the concatenation. */
  lemma {:induction false} ConcatContains(parts: seq<string>, i: nat, c: char)
    requires i < |parts| && c in parts[i]
    ensures c in Concat(parts)
    decreases |parts|
  {
    if i > 0 {
      ConcatContains(parts[1..], i - 1, c);
    }
  }

  /** Length of the first of `n` segments: the leading segments take the remainder. */
  function FirstSegmentLength(len: nat, n: nat): nat
    requires n > 0
  {
    len / n + (if len % n == 0 then 0 else 1)
  }

  /** Division has one quotient: if a == q * b + r with 0 <= r < b then a / b == q. */
  lemma DivUnique(a: int, b: int, q: int, r: int)
    requires b > 0 && 0 <= r < b && a == q * b + r
    ensures a / b == q
  {
    var q', r' := a / b, a % b;
    assert a == q' * b + r';
    assert (q - q') * b == r' - r by {
      assert (q - q') * b == q * b - q' * b;
    }
    if q' < q {
      MulAtLeast(q - q', b);
      assert false;
    } else if q' > q {
      MulAtLeast(q' - q, b);
      assert false;
    }
  }

  /** A positive multiple of b is at least b. */
  lemma MulAtLeast(k: int, b: int)
    requires k >= 1 && b > 0
    ensures k * b >= b
  {
    assert k * b == (k - 1) * b + b;
    assert (k - 1) * b >= 0;
  }

  /** After the first segment, the rest splits into n - 1 segments of the same base length. */
  lemma RestBaseLength(len: nat, n: nat)
    requires 2 <= n <= len
    ensures (len - FirstSegmentLength(len, n)) / (n - 1) == len / n
    ensures n - 1 <= len - FirstSegmentLength(len, n)
  {
    var q, t := len / n, len % n;
    assert len == q * n + t;
    assert q >= 1;
    assert q * (n - 1) == q * n - q;
    var rest := len - FirstSegmentLength(len, n);
    if t == 0 {
      assert rest == q * (n - 1) + 0;
      DivUnique(rest, n - 1, q, 0);
    } else {
      assert rest == q * (n - 1) + (t - 1);
      DivUnique(rest, n - 1, q, t - 1);
    }
    MulAtLeast(q, n - 1);
    assert q * (n - 1) == (n - 1) * q;
  }

  /**
   * `partition_string(s, n)`: `n` contiguous segments that spell `s`, whose
   * lengths are the floor or the ceiling of |s| / n (the leading ones the longer).
   * Asking for more segments than characters is refused, so every segment is non-empty.
   */
  function Partition(s: string, n: nat): (r: seq<string>)
    requires 0 < n <= |s|
    ensures |r| == n
    ensures Concat(r) == s
    ensures forall i :: 0 <= i < n ==> |s| / n <= |r[i]| <= |s| / n + 1
    ensures forall i :: 0 <= i < n ==> |r[i]| > 0
    decreases n
  {
    if n == 1 then
      assert Concat([s]) == s + Concat([]);
      [s]
    else
      var k := FirstSegmentLength(|s|, n);
      RestBaseLength(|s|, n);
      var rest := Partition(s[k..], n - 1);
      PrependSegment(s, n, k, rest);
      [s[..k]] + rest
  }

  /** Putting the first segment in front of a partition of the rest partitions the whole. */
  lemma PrependSegment(s: string, n: nat, k: nat, rest: seq<string>)
    requires 2 <= n <= |s| && k == FirstSegmentLength(|s|, n) && k <= |s|
    requires (|s| - k) / (n - 1) == |s| / n
    requires |rest| == n - 1 && Concat(rest) == s[k..]
    requires forall i :: 0 <= i < n - 1 ==> |s| / n <= |rest[i]| <= |s| / n + 1
    requires forall i :: 0 <= i < n - 1 ==> |rest[i]| > 0
    ensures var r := [s[..k]] + rest;
            && |r| == n
            && Concat(r) == s
            && (forall i :: 0 <= i < n ==> |s| / n <= |r[i]| <= |s| / n + 1)
            && (forall i :: 0 <= i < n ==> |r[i]| > 0)
  {
    var r := [s[..k]] + rest;
    assert r[1..] == rest;
    assert s[..k] + s[k..] == s;
    assert |s| / n >= 1;
    forall i | 0 <= i < n
      ensures |s| / n <= |r[i]| <= |s| / n + 1 && |r[i]| > 0
    {
      if i > 0 {
        assert r[i] == rest[i - 1];
      }
    }
  }
}
