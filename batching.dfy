/**
  The batch partitioner of ExecBatchFast and its worker-count rule.

  `Chunks` is the functional specification of the producer loop: with a
  positive batch size the requests are cut into consecutive slices of that
  size, the last one possibly shorter; with a batch size of zero or less the
  loop's length test never fires and every request goes into one trailing
  batch.
*/
module Batching {
  import opened Sequences

  /** The batches the producer loop emits, in emission order. */
  function Chunks<T>(s: seq<T>, size: int): seq<seq<T>>
    decreases |s|
  {
    if s == [] then []
    else if size <= 0 || |s| <= size then [s]
    else [s[..size]] + Chunks(s[size..], size)
  }

  /** One step of the producer: a full batch is cut off the front. */
  lemma ChunksStep<T>(s: seq<T>, size: int)
    requires 1 <= size <= |s|
    ensures Chunks(s, size) == [s[..size]] + Chunks(s[size..], size)
  {
    if |s| == size {
      assert s[..size] == s;
      assert s[size..] == [];
    }
  }

  /** Concatenating the batches gives back the requests: nothing is dropped,
      duplicated or reordered. */
  lemma {:induction false} FlattenChunks<T>(s: seq<T>, size: int)
    ensures Flatten(Chunks(s, size)) == s
    decreases |s|
  {
    if s == [] {
    } else if size <= 0 || |s| <= size {
      assert Chunks(s, size) == [s];
      assert Flatten([s]) == s + Flatten([s][1..]);
      assert [s][1..] == [];
    } else {
      var c := Chunks(s, size);
      assert c == [s[..size]] + Chunks(s[size..], size);
      assert c[1..] == Chunks(s[size..], size);
      FlattenChunks(s[size..], size);
      assert s == s[..size] + s[size..];
    }
  }

  /** With a positive batch size every batch but the last holds exactly
      `size` requests and the last holds between 1 and `size`. */
  lemma {:induction false} ChunkSizes<T>(s: seq<T>, size: int)
    requires size >= 1
    ensures var c := Chunks(s, size);
      && (c == [] <==> s == [])
      && (forall k | 0 <= k < |c| - 1 :: |c[k]| == size)
      && (c != [] ==> 1 <= |c[|c| - 1]| <= size)
    decreases |s|
  {
    if s != [] && |s| > size {
      var c := Chunks(s, size);
      var rest := Chunks(s[size..], size);
      ChunkSizes(s[size..], size);
      assert c == [s[..size]] + rest;
      forall k | 0 <= k < |c| - 1
        ensures |c[k]| == size
      {
        if k > 0 {
          assert c[k] == rest[k - 1];
        }
      }
      assert c[|c| - 1] == rest[|rest| - 1];
    }
  }

  /** With a positive batch size the batch count is the smallest whose
      capacity holds all N requests. */
  lemma {:induction false} ChunkCountBounds<T>(s: seq<T>, size: int)
    requires size >= 1 && s != []
    ensures (|Chunks(s, size)| - 1) * size < |s| <= |Chunks(s, size)| * size
    decreases |s|
  {
    if |s| > size {
      ChunkCountBounds(s[size..], size);
      var m := |Chunks(s[size..], size)|;
      assert |Chunks(s, size)| == m + 1;
      assert (m - 1) * size < |s| - size <= m * size;
    }
  }

  /** With a positive batch size there are ceil(N / size) batches. */
  lemma ChunkCount<T>(s: seq<T>, size: int)
    requires size >= 1
    ensures |Chunks(s, size)| == (|s| + size - 1) / size
  {
    if s == [] {
      DivUnique(size - 1, size, 0);
    } else {
      ChunkCountBounds(s, size);
      DivUnique(|s| + size - 1, size, |Chunks(s, size)|);
    }
  }

  /** Euclidean division has a unique quotient. */
  lemma DivUnique(x: int, d: int, q: int)
    requires d >= 1 && q * d <= x < (q + 1) * d
    ensures x / d == q
  {
    var k, r := x / d, x % d;
    assert x == k * d + r && 0 <= r < d;
    if k > q {
      MulMonotone(q + 1, k, d);
    } else if k < q {
      MulMonotone(k + 1, q, d);
    }
  }

  lemma MulMonotone(a: int, b: int, d: int)
    requires a <= b && d >= 0
    ensures a * d <= b * d
  {
    assert b * d - a * d == (b - a) * d;
  }

  /** With a batch size of zero or less the length test never matches, so
      all requests leave in a single trailing batch. */
  lemma NonPositiveSizeOneBatch<T>(s: seq<T>, size: int)
    requires size <= 0 && s != []
    ensures Chunks(s, size) == [s]
  {
  }

  /**
    The producer loop of ExecBatchFast: requests are appended to `batch`
    and a batch is emitted (after one `wg.Add(1)`, counted in `added`) as
    soon as its length equals `size`; a non-empty remainder is emitted at
    the end.
  */
  method Partition<T>(rs: seq<T>, size: int) returns (batches: seq<seq<T>>, added: nat)
    ensures batches == Chunks(rs, size)
    ensures added == |batches|
  {
    batches, added := [], 0;
    var batch: seq<T> := [];
    ghost var start := 0;
    for i := 0 to |rs|
      invariant start + |batch| == i
      invariant batch == rs[start..i]
      invariant size >= 1 ==> |batch| < size
      invariant size <= 0 ==> batches == [] && start == 0
      invariant batches + Chunks(rs[start..], size) == Chunks(rs, size)
      invariant added == |batches|
    {
      batch := batch + [rs[i]];
      if |batch| == size {
        assert start + size == i + 1 && batch == rs[start..start + size];
        EmitKeeps(rs, size, batches, start);
        added := added + 1;
        batches := batches + [batch];
        batch := [];
        start := i + 1;
      }
    }
    if |batch| > 0 {
      LastStep(rs, start, size);
      added := added + 1;
      batches := batches + [batch];
    } else {
      assert rs[start..] == [];
    }
  }

  /** Emitting the full batch at `start` keeps the emitted batches a
      prefix of the chunks. */
  lemma EmitKeeps<T>(rs: seq<T>, size: int, batches: seq<seq<T>>, start: nat)
    requires size >= 1 && start + size <= |rs|
    requires batches + Chunks(rs[start..], size) == Chunks(rs, size)
    ensures (batches + [rs[start..start + size]]) + Chunks(rs[start + size..], size) == Chunks(rs, size)
  {
    ChunksStep(rs[start..], size);
    assert rs[start..][..size] == rs[start..start + size];
    assert rs[start..][size..] == rs[start + size..];
    assert (batches + [rs[start..start + size]]) + Chunks(rs[start + size..], size)
        == batches + ([rs[start..start + size]] + Chunks(rs[start + size..], size));
  }

  /** The trailing partial batch is the last chunk. */
  lemma LastStep<T>(rs: seq<T>, start: nat, size: int)
    requires start < |rs| && (size <= 0 || |rs| - start < size)
    ensures Chunks(rs[start..], size) == [rs[start..|rs|]]
  {
    assert rs[start..] == rs[start..|rs|];
  }

  /**
    The number of client workers ExecBatchFast starts for `n` requests: none
    for an empty list, otherwise `min(conn, n)`, and the start-up loop runs
    zero times when that is not positive.  The bound is the number of
    requests, not the number of batches.
  */
  function WorkersStarted(conn: int, n: nat): (w: nat)
    ensures n == 0 ==> w == 0
    ensures w <= n && (conn >= 0 ==> w <= conn)
    ensures n >= 1 && conn >= 1 ==> w >= 1
    ensures n >= 1 && conn >= n ==> w == n
  {
    if n < 1 then 0
    else
      var maxConn := if conn > n then n else conn;
      if maxConn > 0 then maxConn else 0
  }

  /** Every batch has a worker available up to the connection bound: the
      workers started are at least min(conn, number of batches), for every
      setting of conn, zero and negative ones included. */
  lemma {:induction false} WorkersCoverBatches<T>(rs: seq<T>, conn: int, size: int)
    ensures var b := |Chunks(rs, size)|;
      WorkersStarted(conn, |rs|) >= (if conn < b then conn else b)
  {
    ChunksNoMoreThanRequests(rs, size);
  }

  /** There are never more batches than requests. */
  lemma {:induction false} ChunksNoMoreThanRequests<T>(s: seq<T>, size: int)
    ensures |Chunks(s, size)| <= |s|
    decreases |s|
  {
    if s != [] && size >= 1 && |s| > size {
      ChunksNoMoreThanRequests(s[size..], size);
    }
  }

  /** 120 requests with the default batch size of 50 and four connections
      give batches of 50, 50 and 20 and start four workers, one more than
      there are batches. */
  lemma DefaultScenario<T>(rs: seq<T>)
    requires |rs| == 120
    ensures var c := Chunks(rs, 50);
      |c| == 3 && |c[0]| == 50 && |c[1]| == 50 && |c[2]| == 20
      && c[0] + c[1] + c[2] == rs
      && WorkersStarted(4, |rs|) == 4
  {
    var c := Chunks(rs, 50);
    assert c == [rs[..50]] + Chunks(rs[50..], 50);
    assert Chunks(rs[50..], 50) == [rs[50..][..50]] + Chunks(rs[50..][50..], 50);
    assert Chunks(rs[50..][50..], 50) == [rs[50..][50..]];
    assert rs == rs[..50] + rs[50..][..50] + rs[50..][50..];
  }
}
