/** Reading a remote iterator in growing chunks. */
module Buffiter {
  import opened Core

  /** `sys.maxsize`. */
  const MAX_SIZE := 0x7fff_ffff_ffff_ffff

  /** The counts that `islice` takes. */
  predicate Countable(count: int) {
    0 <= count <= MAX_SIZE
  }

  /** The owner's end: the next `count` items of the iterator, fewer at the end. Other counts are refused. */
  function Islice<T>(xs: seq<T>, at: nat, count: int): (r: Result<seq<T>>)
    requires at <= |xs|
    ensures r.Ok? <==> 0 <= count < 0x8000_0000_0000_0000
    ensures r.Ok? ==> |r.value| == Min(count, |xs| - at) && xs[..at] + r.value == xs[..at + |r.value|]
  {
    if !Countable(count) then Err(ValueError) else Ok(xs[at..at + Min(count, |xs| - at)])
  }

  /** How reading `n` items goes: the sizes asked for, how many items come, and whether it ends without error. */
  datatype Trace = Trace(requests: seq<int>, taken: nat, ok: bool) {
    function After(earlier: seq<int>, already: nat): Trace {
      Trace(earlier + requests, already + taken, ok)
    }

    lemma AfterOne(earlier: seq<int>, already: nat, count: int, got: nat)
      ensures After([count], got).After(earlier, already) == After(earlier + [count], already + got)
    {
      Regroup(earlier, [count], requests);
    }
  }

  function Reading(n: nat, count: int, maxChunk: int, factor: int): (t: Trace)
    ensures t.taken <= n
    decreases n
  {
    if !Countable(count) then Trace([count], 0, false)
    else if n == 0 || count == 0 then Trace([count], 0, true)
    else
      var got := Min(count, n);
      Reading(n - got, Min(count * factor, maxChunk), maxChunk, factor).After([count], got)
  }

  /** One request of a reading that has made the earlier ones and taken so many items already. */
  lemma OneRequest(n: nat, count: int, maxChunk: int, factor: int, earlier: seq<int>, already: nat)
    ensures var whole := Reading(n, count, maxChunk, factor).After(earlier, already);
            if !Countable(count) || Min(count, n) == 0 then whole == Trace(earlier + [count], already, Countable(count))
            else
              var got := Min(count, n);
              whole == Reading(n - got, Min(count * factor, maxChunk), maxChunk, factor).After(earlier + [count], already + got)
  {
    if Countable(count) && Min(count, n) > 0 {
      var got := Min(count, n);
      Reading(n - got, Min(count * factor, maxChunk), maxChunk, factor).AfterOne(earlier, already, count, got);
    }
  }

  /** The generator run to its end, or to the exception that ends it. */
  method Iterate<T>(xs: seq<T>, chunk: int, maxChunk: int, factor: int)
    returns (r: Result<()>, yielded: seq<T>, requests: seq<int>)
    ensures factor < 1 ==> r == Err(ValueError) && yielded == [] && requests == []
    ensures factor >= 1 ==>
              var t := Reading(|xs|, chunk, maxChunk, factor);
              yielded == xs[..t.taken] && requests == t.requests && r == if t.ok then Ok(()) else Err(ValueError)
  {
    yielded, requests := [], [];
    if factor < 1 {
      return Err(ValueError), yielded, requests;
    }
    var at, count := 0, chunk;
    ghost var n := |xs|;
    ghost var whole := Reading(|xs|, chunk, maxChunk, factor);
    while true
      invariant at <= |xs| && yielded == xs[..at]
      invariant n == |xs| - at
      invariant whole == Reading(n, count, maxChunk, factor).After(requests, at)
      decreases |xs| - at
    {
      OneRequest(n, count, maxChunk, factor, requests, at);
      var items := Islice(xs, at, count);
      requests := requests + [count];
      if items.Err? {
        return Err(items.error), yielded, requests;
      }
      if items.value == [] {
        return Ok(()), yielded, requests;
      }
      count := Min(count * factor, maxChunk);
      yielded := yielded + items.value;
      at, n := at + |items.value|, n - |items.value|;
    }
  }

  // ---- the sizes asked for ----

  function Pow(b: nat, e: nat): (p: nat)
    ensures b >= 1 ==> p >= 1
  {
    if e == 0 then 1 else b * Pow(b, e - 1)
  }

  function Asked(chunk: nat, maxChunk: nat, factor: nat, j: nat): int {
    if j == 0 then chunk else Min(chunk * Pow(factor, j), maxChunk)
  }

  lemma AskedShift(chunk: nat, maxChunk: nat, factor: nat, j: nat)
    requires factor >= 1 && maxChunk >= 1 && chunk >= 1 && j > 0
    ensures Asked(Min(chunk * factor, maxChunk), maxChunk, factor, j - 1) == Asked(chunk, maxChunk, factor, j)
  {
    var p := Pow(factor, j - 1);
    assert chunk * (factor * p) == chunk * factor * p;
    if j == 1 {
      assert Pow(factor, 1) == factor * Pow(factor, 0);
    } else if chunk * factor > maxChunk {
      assert chunk * factor * p >= chunk * factor && maxChunk * p >= maxChunk;
    }
  }

  lemma Growing(count: nat, factor: nat)
    requires factor >= 1
    ensures count * factor >= count
  {
  }

  /** The first request asks for the first chunk, the j-th after it for the chunk multiplied j times, up to the
      limit. */
  lemma {:induction false} RequestSizes(n: nat, chunk: nat, maxChunk: nat, factor: nat, j: nat)
    requires factor >= 1 && maxChunk >= 1 && chunk >= 1
    requires j < |Reading(n, chunk, maxChunk, factor).requests|
    ensures Reading(n, chunk, maxChunk, factor).requests[j] == Asked(chunk, maxChunk, factor, j)
    decreases n
  {
    if n > 0 && j > 0 {
      assert chunk * factor >= 1;
      RequestSizes(n - Min(chunk, n), Min(chunk * factor, maxChunk), maxChunk, factor, j - 1);
      AskedShift(chunk, maxChunk, factor, j);
    }
  }

  // ---- when everything is read ----

  /** The sizes of the first j requests together. */
  function Total(chunk: nat, maxChunk: nat, factor: nat, j: nat): nat {
    if j == 0 then 0 else Total(chunk, maxChunk, factor, j - 1) + Asked(chunk, maxChunk, factor, j - 1)
  }

  lemma {:induction false} TotalShift(chunk: nat, maxChunk: nat, factor: nat, j: nat)
    requires factor >= 1 && maxChunk >= 1 && chunk >= 1 && j > 0
    ensures Total(chunk, maxChunk, factor, j) == chunk + Total(Min(chunk * factor, maxChunk), maxChunk, factor, j - 1)
  {
    if j > 1 {
      TotalShift(chunk, maxChunk, factor, j - 1);
      AskedShift(chunk, maxChunk, factor, j - 1);
    }
  }

  /** As long as items are left before a request, the next one can be made too. */
  ghost predicate StaysCountable(n: nat, chunk: nat, maxChunk: nat, factor: nat) {
    forall j: nat :: Total(chunk, maxChunk, factor, j) < n ==> Asked(chunk, maxChunk, factor, j + 1) <= MAX_SIZE
  }

  /** Everything is read, without error, exactly when the first chunk is a size that can be asked for and there is
      nothing to read, or the first chunk and the limit are not empty and no later request gets too large before the
      end; a limit of zero does if the first chunk is enough. */
  lemma ReadsAllIff(n: nat, chunk: int, maxChunk: int, factor: int)
    requires factor >= 1
    ensures var t := Reading(n, chunk, maxChunk, factor);
            t.ok && t.taken == n <==>
            Countable(chunk) && (n == 0 || (chunk >= 1 && if maxChunk >= 1 then StaysCountable(n, chunk, maxChunk, factor)
                                                          else maxChunk == 0 && n <= chunk))
  {
    if n > 0 && chunk > 0 {
      assert chunk * factor >= chunk;
      if maxChunk >= 1 && Countable(chunk) {
        GrowingReadsAllIff(n, chunk, maxChunk, factor);
      }
    }
  }

  /** No request is too large for a limit that can be asked for itself. */
  lemma SmallLimitReadsAll(n: nat, chunk: int, maxChunk: int, factor: int)
    requires factor >= 1 && 1 <= chunk <= MAX_SIZE && 1 <= maxChunk <= MAX_SIZE
    ensures Reading(n, chunk, maxChunk, factor).ok && Reading(n, chunk, maxChunk, factor).taken == n
  {
    ReadsAllIff(n, chunk, maxChunk, factor);
  }

  lemma {:induction false} GrowingReadsAllIff(n: nat, count: nat, maxChunk: nat, factor: nat)
    requires factor >= 1 && maxChunk >= 1 && 1 <= count <= MAX_SIZE
    ensures var t := Reading(n, count, maxChunk, factor);
            t.ok && t.taken == n <==> StaysCountable(n, count, maxChunk, factor)
    decreases n
  {
    if n > 0 {
      var next := Min(count * factor, maxChunk);
      Growing(count, factor);
      assert Pow(factor, 1) == factor * Pow(factor, 0);
      assert Total(count, maxChunk, factor, 0) == 0 && Asked(count, maxChunk, factor, 1) == next;
      if next <= MAX_SIZE {
        GrowingReadsAllIff(n - Min(count, n), next, maxChunk, factor);
        StaysCountableShift(n, count, maxChunk, factor);
      }
    }
  }

  lemma StaysCountableShift(n: nat, count: nat, maxChunk: nat, factor: nat)
    requires factor >= 1 && maxChunk >= 1 && count >= 1 && Asked(count, maxChunk, factor, 1) <= MAX_SIZE
    ensures var next := Min(count * factor, maxChunk);
            next >= 0 && (StaysCountable(n, count, maxChunk, factor) <==>
                          StaysCountable(n - Min(count, n), next, maxChunk, factor))
  {
    Growing(count, factor);
    var next, rest := Min(count * factor, maxChunk), n - Min(count, n);
    forall j: nat
      ensures Total(count, maxChunk, factor, j + 1) == count + Total(next, maxChunk, factor, j)
      ensures Asked(count, maxChunk, factor, j + 2) == Asked(next, maxChunk, factor, j + 1)
    {
      TotalShift(count, maxChunk, factor, j + 1);
      AskedShift(count, maxChunk, factor, j + 2);
    }
    if StaysCountable(n, count, maxChunk, factor) {
      forall j: nat | Total(next, maxChunk, factor, j) < rest ensures Asked(next, maxChunk, factor, j + 1) <= MAX_SIZE {
        assert Total(count, maxChunk, factor, j + 1) < n;
      }
    }
    if StaysCountable(rest, next, maxChunk, factor) {
      forall j: nat | Total(count, maxChunk, factor, j) < n ensures Asked(count, maxChunk, factor, j + 1) <= MAX_SIZE {
        if j > 0 {
          assert Total(next, maxChunk, factor, j - 1) < rest;
        }
      }
    }
  }

  // ---- how many requests there are ----

  /** How many chunks of size `d` hold `n` items: the ceiling of their quotient. */
  function Chunks(n: nat, d: nat): nat
    requires d > 0
  {
    if n == 0 then 0 else if n <= d then 1 else 1 + Chunks(n - d, d)
  }

  lemma {:induction false} ChunksIsCeiling(n: nat, d: nat)
    requires d > 0
    ensures (Chunks(n, d) - 1) * d < n <= Chunks(n, d) * d || (n == 0 && Chunks(n, d) == 0)
  {
    if n > d {
      ChunksIsCeiling(n - d, d);
    }
  }

  lemma {:induction false} ChunksMonotone(m: nat, n: nat, d: nat)
    requires d > 0 && m <= n
    ensures Chunks(m, d) <= Chunks(n, d)
    ensures m + d <= n ==> Chunks(m, d) + 1 <= Chunks(n, d)
    decreases n
  {
    if m > d {
      ChunksMonotone(m - d, n - d, d);
    }
    if d < n && m + d <= n {
      ChunksMonotone(m, n - d, d);
    }
  }

  /** Once the limit is reached every request but the last brings a full chunk. */
  lemma {:induction false} FullRequests(n: nat, count: int, maxChunk: int, factor: int)
    requires factor >= 1 && count >= maxChunk >= 1
    ensures |Reading(n, count, maxChunk, factor).requests| <= Chunks(n, maxChunk) + 1
    decreases n
  {
    if n > 0 {
      Growing(count, factor);
      var next, rest := Min(count * factor, maxChunk), n - Min(count, n);
      assert next == maxChunk;
      FullRequests(rest, maxChunk, maxChunk, factor);
      ChunksMonotone(rest, n, maxChunk);
      OneMoreRequest(n, count, maxChunk, factor);
    }
  }

  lemma OneMoreRequest(n: nat, count: int, maxChunk: int, factor: int)
    requires n > 0 && count > 0
    ensures |Reading(n, count, maxChunk, factor).requests|
            <= 1 + |Reading(n - Min(count, n), Min(count * factor, maxChunk), maxChunk, factor).requests|
  {
  }

  /** When k multiplications reach the limit, at most k requests are smaller than it, and the rest are as few as
      full chunks allow, with one more that finds the end. */
  lemma {:induction false} FewRequests(n: nat, chunk: int, maxChunk: int, factor: nat, k: nat)
    requires factor >= 1 && maxChunk >= 1 && chunk >= 1 && chunk * Pow(factor, k) >= maxChunk
    ensures |Reading(n, chunk, maxChunk, factor).requests| <= k + Chunks(n, maxChunk) + 1
    decreases k
  {
    if k == 0 {
      FullRequests(n, chunk, maxChunk, factor);
    } else if n > 0 {
      var p := Pow(factor, k - 1);
      assert chunk * (factor * p) == chunk * factor * p;
      assert chunk * factor >= 1 && maxChunk * p >= maxChunk;
      FewRequests(n - Min(chunk, n), Min(chunk * factor, maxChunk), maxChunk, factor, k - 1);
      ChunksMonotone(n - Min(chunk, n), n, maxChunk);
    }
  }
}
