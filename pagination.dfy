/**
 * The offset/limit clamp the in-memory message store applies to a filtered
 * list (adapters/memory/message_repository.go:58-68).
 */
module Pagination {
  import opened GoInt

  function Min(a: int, b: int): int {
    if a <= b then a else b
  }

  /** Go evaluates `result[start:end]` without a panic exactly when this holds. */
  predicate SliceInRange(start: int, end: int, n: int) {
    0 <= start <= end <= n
  }

  /**
   * The clamp exactly as written, on Go's 64-bit `int`: `start` is `offset`
   * capped at `n`, `end` is `start + limit` (wrapping) capped at `n`.
   */
  function BoundsAsWritten(n: nat, limit: int, offset: int): (b: (int, int))
    requires IsInt(n) && IsInt(limit) && IsInt(offset)
    ensures b.0 == Min(offset, n) && b.1 <= n
    ensures IsInt(b.0 + limit) ==> b.1 == Min(b.0 + limit, n)
  {
    var start := if offset > n then n else offset;
    var end := Add(start, limit);
    (start, if end > n then n else end)
  }

  /**
   * As written, the slice is in range exactly when neither argument is
   * negative and `start + limit` does not overflow.
   */
  lemma AsWrittenInRange(n: nat, limit: int, offset: int)
    requires IsInt(n) && IsInt(limit) && IsInt(offset)
    ensures var b := BoundsAsWritten(n, limit, offset);
            SliceInRange(b.0, b.1, n) <==> 0 <= limit && 0 <= offset && Min(offset, n) + limit <= MaxInt
  {
    var start := if offset > n then n else offset;
    if 0 <= limit && 0 <= offset && start + limit > MaxInt {
      assert Add(start, limit) == start + limit - Modulus < 0;
    }
  }

  /**
   * The overflow: one matching message, `offset = 1` and `limit = MaxInt`
   * give `end = 1 + MaxInt`, which wraps to `MinInt`, so the slice expression
   * panics instead of returning the empty page.
   */
  lemma AsWrittenOverflowPanics()
    ensures BoundsAsWritten(1, MaxInt, 1) == (1, MinInt)
    ensures var b := BoundsAsWritten(1, MaxInt, 1); !SliceInRange(b.0, b.1, 1)
  {
  }

  /**
   * The clamp as intended: the same `start`, and `end` capped at `n` by a
   * comparison that cannot overflow (`limit > n - start` instead of
   * `start + limit > n`).
   */
  function PageBounds(n: nat, limit: nat, offset: nat): (b: (nat, nat))
    ensures b.0 <= b.1 <= n
    ensures b.0 == Min(offset, n)
    ensures b.1 - b.0 == Min(limit, n - b.0)
  {
    var start := if offset > n then n else offset;
    var end := if limit > n - start then n else start + limit;
    (start, end)
  }

  /** Every intermediate value of the corrected clamp stays within Go's `int`. */
  lemma PageBoundsFitInt(n: nat, limit: nat, offset: nat)
    requires IsInt(n) && IsInt(limit) && IsInt(offset)
    ensures IsInt(n - Min(offset, n))
    ensures limit <= n - Min(offset, n) ==> IsInt(Min(offset, n) + limit)
  {
  }

  /** Wherever the clamp as written does not overflow, the corrected clamp computes the same bounds. */
  lemma CorrectedAgreesWithAsWritten(n: nat, limit: nat, offset: nat)
    requires IsInt(n) && IsInt(limit) && IsInt(offset)
    requires Min(offset, n) + limit <= MaxInt
    ensures BoundsAsWritten(n, limit, offset) == PageBounds(n, limit, offset)
  {
  }

  /** The page of `s` that starts at `offset` and holds at most `limit` elements. */
  function Page<T>(s: seq<T>, limit: nat, offset: nat): (r: seq<T>)
    ensures |r| == Min(limit, |s| - Min(offset, |s|))
    ensures |r| <= limit && |r| <= |s|
    ensures offset >= |s| ==> r == []
    ensures forall i :: 0 <= i < |r| ==> r[i] == s[offset + i]
  {
    var b := PageBounds(|s|, limit, offset);
    s[b.0..b.1]
  }

  /** Consecutive pages tile the list: the page after a page continues where it stopped. */
  lemma PagesTile<T>(s: seq<T>, a: nat, b: nat, offset: nat)
    ensures Page(s, a, offset) + Page(s, b, offset + a) == Page(s, a + b, offset)
  {
    var p, q, r := Page(s, a, offset), Page(s, b, offset + a), Page(s, a + b, offset);
    assert |p| + |q| == |r|;
    forall i | 0 <= i < |r|
      ensures (p + q)[i] == r[i]
    {
      if i >= |p| {
        assert |p| == a;
        assert q[i - a] == s[offset + i];
      }
    }
  }

  /** Ten matching messages: (limit 5, offset 0), (3, 7) and (5, 10) give pages of 5, 3 and 0. */
  lemma PageSizesForTen<T>(s: seq<T>)
    requires |s| == 10
    ensures |Page(s, 5, 0)| == 5 && |Page(s, 3, 7)| == 3 && |Page(s, 5, 10)| == 0
  {
  }
}
