/** Sequence helpers behind the API client's bulk writes: the batches that
    `chunkArray` produces (src/lib/spotify-api.ts), and the facts about them
    that the writers rely on. */
module Batching {

  function Min(a: int, b: int): int {
    if a <= b then a else b
  }

  /** The ceiling of n / d. */
  function CeilDiv(n: nat, d: nat): nat
    requires d > 0
  {
    (n + d - 1) / d
  }

  predicate IsPrefix<T(==)>(a: seq<T>, b: seq<T>) {
    |a| <= |b| && b[..|a|] == a
  }

  lemma AppendAssoc<T>(a: seq<T>, b: seq<T>, c: seq<T>)
    ensures (a + b) + c == a + (b + c)
  {
  }

  /** A log that went from `base + pre` to a prefix of `base + pre + next`
      is a prefix of `base + whole` whenever `whole` is `pre + next`. */
  lemma PrefixOfStep<T>(base: seq<T>, pre: seq<T>, next: seq<T>, whole: seq<T>, mid: seq<T>, after: seq<T>)
    requires mid == base + pre && whole == pre + next
    requires IsPrefix(after, mid + next)
    ensures IsPrefix(after, base + whole)
    ensures after == mid + next ==> after == base + whole
  {
    assert mid + next == base + whole;
  }

  lemma PrefixOfAppend<T>(a: seq<T>, b: seq<T>)
    ensures IsPrefix(a, a + b)
  {
    assert (a + b)[..|a|] == a;
  }

  lemma PrefixTrans<T>(a: seq<T>, b: seq<T>, c: seq<T>)
    requires IsPrefix(a, b) && IsPrefix(b, c)
    ensures IsPrefix(a, c)
  {
    assert c[..|b|][..|a|] == c[..|a|];
  }

  lemma PrefixAppend<T>(a: seq<T>, b: seq<T>, c: seq<T>)
    requires IsPrefix(b, c)
    ensures IsPrefix(a + b, a + c)
  {
    assert (a + c)[..|a + b|] == a + c[..|b|];
  }

  /** A loop stopped before the i-th of `all` has written a strict prefix. */
  lemma StopsShort<T>(base: seq<T>, all: seq<T>, i: nat)
    requires i < |all|
    ensures IsPrefix(base + all[..i], base + all) && |base + all[..i]| < |base + all|
  {
    PrefixOfAppend(all[..i], all[i..]);
    assert all[..i] + all[i..] == all;
    PrefixAppend(base, all[..i], all);
  }

  /** The batches of `s` of size `n`: consecutive slices of exactly `n`
      elements, the last one possibly shorter. */
  function Chunks<T>(s: seq<T>, n: nat): seq<seq<T>>
    requires n > 0
    decreases |s|
  {
    if s == [] then []
    else if |s| <= n then [s]
    else [s[..n]] + Chunks(s[n..], n)
  }

  function Flatten<T>(ss: seq<seq<T>>): seq<T> {
    if ss == [] then [] else ss[0] + Flatten(ss[1..])
  }

  /** Putting the batches back together gives the input, in order. */
  lemma {:induction false} FlattenChunks<T>(s: seq<T>, n: nat)
    requires n > 0
    ensures Flatten(Chunks(s, n)) == s
    decreases |s|
  {
    if s == [] {
    } else if |s| <= n {
      assert [s][1..] == [];
    } else {
      FlattenChunks(s[n..], n);
      var cs := Chunks(s, n);
      assert cs[0] == s[..n] && cs[1..] == Chunks(s[n..], n);
      assert s == s[..n] + s[n..];
    }
  }

  /** Every batch is non-empty and holds at most n elements; every batch but
      the last holds exactly n. */
  lemma {:induction false} ChunkSizes<T>(s: seq<T>, n: nat)
    requires n > 0
    ensures forall k :: 0 <= k < |Chunks(s, n)| ==> 0 < |Chunks(s, n)[k]| <= n
    ensures forall k :: 0 <= k < |Chunks(s, n)| - 1 ==> |Chunks(s, n)[k]| == n
    decreases |s|
  {
    if |s| > n {
      ChunkSizes(s[n..], n);
      var cs := Chunks(s, n);
      assert forall k :: 1 <= k < |cs| ==> cs[k] == Chunks(s[n..], n)[k - 1];
    }
  }

  lemma MulAtLeast(a: int, n: int)
    requires a >= 1 && n > 0
    ensures a * n >= n
  {
    assert a * n == (a - 1) * n + n;
  }

  /** Euclidean division has one quotient for each remainder in [0, n). */
  lemma DivUnique(x: int, n: int, q: int, r: int)
    requires n > 0 && 0 <= r < n && x == q * n + r
    ensures x / n == q
  {
    var q', r' := x / n, x % n;
    assert x == q' * n + r';
    assert q * n - q' * n == (q - q') * n;
    if q > q' { MulAtLeast(q - q', n); }
    if q < q' { assert q' * n - q * n == (q' - q) * n; MulAtLeast(q' - q, n); }
  }

  lemma DivStep(m: nat, n: nat)
    requires n > 0
    ensures (m + n) / n == m / n + 1
  {
    var q, r := m / n, m % n;
    assert m == q * n + r;
    assert m + n == (q + 1) * n + r;
    DivUnique(m + n, n, q + 1, r);
  }

  /** i is a whole number of batches of size n. */
  predicate MultipleOf(i: nat, n: nat)
    requires n > 0
    decreases i
  {
    i == 0 || (i >= n && MultipleOf(i - n, n))
  }

  /** There are ⌈|s| / n⌉ batches, hence none at all for an empty input. */
  lemma {:induction false} ChunkCount<T>(s: seq<T>, n: nat)
    requires n > 0
    ensures |Chunks(s, n)| == CeilDiv(|s|, n)
    ensures Chunks(s, n) == [] <==> s == []
    decreases |s|
  {
    if s == [] {
      DivUnique(n - 1, n, 0, n - 1);
    } else if |s| <= n {
      DivUnique(|s| + n - 1, n, 1, |s| - 1);
    } else {
      ChunkCount(s[n..], n);
      DivStep(|s| - 1, n);
    }
  }

  /** Batching a concatenation whose first part is a whole number of batches
      batches the two parts separately. */
  lemma {:induction false} ChunksAppend<T>(a: seq<T>, b: seq<T>, n: nat)
    requires n > 0 && MultipleOf(|a|, n)
    ensures Chunks(a + b, n) == Chunks(a, n) + Chunks(b, n)
    decreases |a|
  {
    if a == [] {
      assert a + b == b;
    } else {
      assert |a| >= n;
      if |a + b| <= n {
        assert b == [] && a + b == a;
      } else {
        assert (a + b)[..n] == a[..n];
        assert (a + b)[n..] == a[n..] + b;
        ChunksAppend(a[n..], b, n);
        if |a| == n {
          assert a[n..] == [] && a[..n] == a;
        }
      }
    }
  }

  /** Extending a batched prefix by one more batch. */
  lemma ChunksStep<T>(s: seq<T>, i: nat, n: nat)
    requires n > 0 && MultipleOf(i, n) && i < |s|
    ensures Chunks(s[..Min(i + n, |s|)], n) == Chunks(s[..i], n) + [s[i..Min(i + n, |s|)]]
  {
    var j := Min(i + n, |s|);
    assert s[..j] == s[..i] + s[i..j];
    ChunksAppend(s[..i], s[i..j], n);
  }

  /** The batches of a prefix that ends on a batch boundary (or at the end)
      are a prefix of the batches of the whole. */
  lemma ChunksPrefix<T>(s: seq<T>, i: nat, n: nat)
    requires n > 0 && i <= |s| && (MultipleOf(i, n) || i == |s|)
    ensures IsPrefix(Chunks(s[..i], n), Chunks(s, n))
  {
    if i < |s| {
      assert s == s[..i] + s[i..];
      ChunksAppend(s[..i], s[i..], n);
    } else {
      assert s[..i] == s;
    }
  }

  /** chunkArray (src/lib/spotify-api.ts): slices `array` into batches of
      `chunkSize`, walking an index forward by `chunkSize`. */
  method ChunkArray<T>(items: seq<T>, chunkSize: nat) returns (chunks: seq<seq<T>>)
    requires chunkSize > 0
    ensures chunks == Chunks(items, chunkSize)
    ensures Flatten(chunks) == items
    ensures forall k :: 0 <= k < |chunks| ==> 0 < |chunks[k]| <= chunkSize
    ensures |chunks| == CeilDiv(|items|, chunkSize)
  {
    chunks := [];
    var i := 0;
    while i < |items|
      invariant MultipleOf(i, chunkSize)
      invariant i <= |items| || i - chunkSize < |items|
      invariant chunks == Chunks(items[..Min(i, |items|)], chunkSize)
    {
      ChunksStep(items, i, chunkSize);
      chunks := chunks + [items[i..Min(i + chunkSize, |items|)]];
      i := i + chunkSize;
    }
    assert items[..Min(i, |items|)] == items;
    FlattenChunks(items, chunkSize);
    ChunkSizes(items, chunkSize);
    ChunkCount(items, chunkSize);
  }
}
