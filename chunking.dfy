/** Splitting a sequence into consecutive fixed-size chunks, as Rust's `slice::chunks`
    (src/exchange/okex.rs) and the `chunks` generator of averaging_data.py both do. */
module Chunking {
  import opened Common

  /** The chunks of `s`: slices of length `n` starting at 0, n, 2n, ..., the last one
      possibly shorter. Neither source accepts `n == 0` (Rust panics, Python's `range`
      raises `ValueError`). */
  function Chunks<T>(s: seq<T>, n: nat): (r: seq<seq<T>>)
    requires n > 0
    ensures |r| == 0 <==> |s| == 0
    ensures forall k :: 0 <= k < |r| ==> 0 < |r[k]| <= n
    ensures forall k :: 0 <= k < |r| - 1 ==> |r[k]| == n
    decreases |s|
  {
    if |s| == 0 then []
    else if |s| <= n then [s]
    else [s[..n]] + Chunks(s[n..], n)
  }

  /** All chunks but the last are full and the last is not empty. */
  lemma {:induction false} ChunkBounds<T>(s: seq<T>, n: nat)
    requires n > 0
    ensures var r := Chunks(s, n);
            |r| > 0 ==> (|r| - 1) * n < |s| <= |r| * n
    decreases |s|
  {
    if |s| > n {
      ChunkBounds(s[n..], n);
      var q := |Chunks(s[n..], n)|;
      assert |Chunks(s, n)| == q + 1;
      MulStep(q - 1, n);
      MulStep(q, n);
    }
  }

  lemma MulStep(q: int, n: int)
    ensures (q + 1) * n == q * n + n
  {
  }

  /** Concatenation of a sequence of sequences. */
  function Flatten<T>(ss: seq<seq<T>>): seq<T>
  {
    if ss == [] then [] else ss[0] + Flatten(ss[1..])
  }

  /** Concatenating the chunks gives back the input. */
  lemma {:induction false} FlattenChunks<T>(s: seq<T>, n: nat)
    requires n > 0
    ensures Flatten(Chunks(s, n)) == s
    decreases |s|
  {
    if |s| == 0 {
    } else if |s| <= n {
      assert Flatten(Chunks(s, n)) == s + Flatten<T>([]);
    } else {
      var r := Chunks(s, n);
      FlattenChunks(s[n..], n);
      assert r[1..] == Chunks(s[n..], n);
      assert s == s[..n] + s[n..];
    }
  }

  /** Chunk `k` is the slice `s[k*n .. k*n + n]`, cut at the end of `s`. */
  lemma {:induction false} ChunkAt<T>(s: seq<T>, n: nat, k: nat)
    requires n > 0
    requires k < |Chunks(s, n)|
    ensures k * n < |s|
    ensures Chunks(s, n)[k] == s[k * n .. Min(k * n + n, |s|)]
    decreases |s|
  {
    if |s| <= n {
      assert k == 0 && k * n == 0;
      assert s[0..|s|] == s;
    } else if k == 0 {
      assert k * n == 0 && Min(k * n + n, |s|) == n;
    } else {
      var tail := s[n..];
      assert Chunks(s, n)[k] == Chunks(tail, n)[k - 1];
      ChunkAt(tail, n, k - 1);
      var lo := (k - 1) * n;
      MulStep(k - 1, n);
      var hi := Min(lo + n, |tail|);
      SliceOfDrop(s, n, lo, hi);
    }
  }

  /** A slice of `s[n..]` is the slice of `s` shifted by `n`. */
  lemma SliceOfDrop<T>(s: seq<T>, n: nat, lo: nat, hi: nat)
    requires n <= |s| && lo <= hi <= |s| - n
    ensures s[n..][lo..hi] == s[lo + n .. hi + n]
  {
    forall i | 0 <= i < hi - lo
      ensures s[n..][lo..hi][i] == s[lo + n .. hi + n][i]
    {
      assert s[n..][lo + i] == s[n + lo + i];
    }
  }

  /** The number of chunks depends only on the length. */
  lemma {:induction false} ChunkCount<T, U>(s: seq<T>, t: seq<U>, n: nat)
    requires n > 0 && |s| == |t|
    ensures |Chunks(s, n)| == |Chunks(t, n)|
    decreases |s|
  {
    if |s| > n {
      ChunkCount(s[n..], t[n..], n);
    }
  }

  /** A chunk's elements are elements of the sequence. */
  lemma ChunkMembers<T>(s: seq<T>, n: nat, k: nat)
    requires n > 0
    requires k < |Chunks(s, n)|
    ensures forall x :: x in Chunks(s, n)[k] ==> x in s
  {
    ChunkAt(s, n, k);
    var lo, hi := k * n, Min(k * n + n, |s|);
    forall x | x in s[lo..hi]
      ensures x in s
    {
      var a :| 0 <= a < hi - lo && s[lo..hi][a] == x;
      assert s[lo + a] == x;
    }
  }

  /** Distinct chunks of a sequence without repetitions share no element. */
  lemma {:induction false} ChunksDisjoint<T>(s: seq<T>, n: nat, j: nat, k: nat)
    requires n > 0
    requires forall a, b :: 0 <= a < b < |s| ==> s[a] != s[b]
    requires j < k < |Chunks(s, n)|
    ensures forall x :: x in Chunks(s, n)[j] ==> x !in Chunks(s, n)[k]
    decreases |s|
  {
    var r := Chunks(s, n);
    var tail := s[n..];
    assert r[1..] == Chunks(tail, n);
    if j == 0 {
      ChunkMembers(tail, n, k - 1);
      forall x | x in r[0]
        ensures x !in r[k]
      {
        var a :| 0 <= a < n && s[..n][a] == x;
        assert s[a] == x;
      }
    } else {
      assert forall a, b :: 0 <= a < b < |tail| ==> tail[a] != tail[b] by {
        forall a, b | 0 <= a < b < |tail|
          ensures tail[a] != tail[b]
        {
          assert tail[a] == s[n + a] && tail[b] == s[n + b];
        }
      }
      ChunksDisjoint(tail, n, j - 1, k - 1);
    }
  }
}
