/**
 * Cutting the list of profile URLs into batches (`split_batches`,
 * index.py:181-183) and pairing batches with accounts (index.py:273-278,
 * 12.py:3 and 24-29).
 */
module Batches {
  import opened Values

  function Min(a: int, b: int): (m: int)
    ensures m <= a && m <= b && (m == a || m == b)
  {
    if a <= b then a else b
  }

  /** The number of chunks: `len(range(0, n, size))`, that is ceil(n / size). */
  function NumChunks(n: nat, size: nat): nat
    requires size > 0
  {
    (n + size - 1) / size
  }

  /** The chunks, cut off the front one at a time. */
  function Chunks<T>(data: seq<T>, size: nat): (cs: seq<seq<T>>)
    requires size > 0
    decreases |data|
  {
    if data == [] then []
    else if |data| <= size then [data]
    else [data[..size]] + Chunks(data[size..], size)
  }

  /** `split_batches(data, size)`: a zero size makes `range` raise
      `ValueError` (None); a negative size makes the range, and so the result,
      empty. */
  function SplitBatches<T>(data: seq<T>, size: int): (r: Option<seq<seq<T>>>)
    ensures r.None? <==> size == 0
    ensures size < 0 ==> r == Some([])
    ensures size > 0 ==> r == Some(Chunks(data, size))
  {
    if size == 0 then None
    else if size < 0 then Some([])
    else Some(Chunks(data, size))
  }

  /** Joining the chunks back together gives the list. */
  lemma {:induction false} ChunksConcat<T>(data: seq<T>, size: nat)
    requires size > 0
    ensures Concat(Chunks(data, size)) == data
    decreases |data|
  {
    if data == [] {
    } else if |data| <= size {
      assert Concat([data]) == Concat([]) + data;
    } else {
      ChunksConcat(data[size..], size);
      ConcatAppend([data[..size]], Chunks(data[size..], size));
      assert Concat([data[..size]]) == Concat([]) + data[..size];
      assert data[..size] + data[size..] == data;
    }
  }

  /** Every chunk is non-empty and at most `size` long, and every chunk but
      the last is exactly `size` long. */
  lemma {:induction false} ChunkLengths<T>(data: seq<T>, size: nat)
    requires size > 0
    ensures forall i :: 0 <= i < |Chunks(data, size)| ==> 0 < |Chunks(data, size)[i]| <= size
    ensures forall i :: 0 <= i < |Chunks(data, size)| - 1 ==> |Chunks(data, size)[i]| == size
    decreases |data|
  {
    if |data| > size {
      ChunkLengths(data[size..], size);
      var cs := Chunks(data, size);
      assert forall i :: 1 <= i < |cs| ==> cs[i] == Chunks(data[size..], size)[i - 1];
    }
  }

  /** Euclidean division is determined by quotient and remainder. */
  lemma DivUnique(x: int, s: int, q: int, r: int)
    requires s > 0 && 0 <= r < s && x == q * s + r
    ensures x / s == q
  {
    var q', r' := x / s, x % s;
    assert x == q' * s + r';
    Distribute(q, q', s);
    if q > q' {
      MulAtLeast(q - q', s);
    } else if q < q' {
      Distribute(q', q, s);
      MulAtLeast(q' - q, s);
    }
  }

  lemma Distribute(a: int, b: int, s: int)
    ensures a * s - b * s == (a - b) * s
  {
  }

  lemma MulAtLeast(d: int, s: int)
    requires d >= 1 && s > 0
    ensures d * s >= s
  {
  }

  lemma DivStep(n: nat, size: nat)
    requires size > 0 && n > size
    ensures NumChunks(n, size) == NumChunks(n - size, size) + 1
  {
    var m := n - size + size - 1;
    var q := m / size;
    var r := m % size;
    assert m == q * size + r && 0 <= r < size;
    assert n + size - 1 == (q + 1) * size + r;
    DivUnique(n + size - 1, size, q + 1, r);
  }

  /** There are ceil(n / size) chunks. */
  lemma {:induction false} ChunkCount<T>(data: seq<T>, size: nat)
    requires size > 0
    ensures |Chunks(data, size)| == NumChunks(|data|, size)
    decreases |data|
  {
    if data == [] {
      DivUnique(size - 1, size, 0, size - 1);
    } else if |data| <= size {
      DivUnique(|data| + size - 1, size, 1, |data| - 1);
    } else {
      ChunkCount(data[size..], size);
      DivStep(|data|, size);
    }
  }

  /** Chunk `j` is the slice `data[j*size : j*size + size]`, clamped to the
      end of the list, as in the list comprehension. */
  lemma {:induction false} ChunkIsSlice<T>(data: seq<T>, size: nat, j: nat)
    requires size > 0 && j < |Chunks(data, size)|
    ensures j * size < |data|
    ensures Chunks(data, size)[j] == data[j * size..Min(j * size + size, |data|)]
    decreases j
  {
    if j == 0 {
    } else {
      var rest := data[size..];
      assert |data| > size;
      ChunkIsSlice(rest, size, j - 1);
      assert (j - 1) * size + size == j * size;
      assert rest[(j - 1) * size..Min((j - 1) * size + size, |rest|)]
          == data[j * size..Min(j * size + size, |data|)];
    }
  }

  /** index.py plans 100 URLs per batch; 250 URLs make three batches. */
  lemma IndexBatchExample(urls: seq<string>)
    requires |urls| == 250
    ensures var cs := Chunks(urls, 100); |cs| == 3 && |cs[0]| == 100 && |cs[1]| == 100 && |cs[2]| == 50
  {
    var cs := Chunks(urls, 100);
    assert cs == [urls[..100]] + Chunks(urls[100..], 100);
    assert Chunks(urls[100..], 100) == [urls[100..][..100]] + Chunks(urls[100..][100..], 100);
  }

  /** The (account, batch) pairs processed: as many as the shorter list. */
  function Pairs<A, B>(accounts: seq<A>, batches: seq<B>): (ps: seq<(A, B)>)
    ensures |ps| == Min(|accounts|, |batches|)
    ensures forall i :: 0 <= i < |ps| ==> ps[i] == (accounts[i], batches[i])
  {
    seq(Min(|accounts|, |batches|), i requires 0 <= i < Min(|accounts|, |batches|) => (accounts[i], batches[i]))
  }
}
