/** Fixed-size overlapping chunks (backend/nodes/ingest_document.py). */
module Chunking {

  datatype Config = Config(size: int, overlap: int)

  /** The bounds the node's config validator enforces before any text is chunked. */
  predicate Accepted(c: Config) {
    c.size > 0 && c.overlap >= 0 && c.overlap < c.size
  }

  /** How far each chunk starts after the previous one. */
  function Stride(c: Config): (r: nat)
    requires Accepted(c)
    ensures 0 < r <= c.size && r + c.overlap == c.size
  {
    c.size - c.overlap
  }

  /** Python's `text[from : from + n]`: a slice cut off at the end of the text. */
  function Slice(text: string, from: nat, n: nat): (r: string)
    requires from <= |text|
    ensures |r| == (if n <= |text| - from then n else |text| - from) && r <= text[from..]
  {
    if n <= |text| - from then text[from..from + n] else text[from..]
  }

  function First(n: nat, s: string): (r: string)
    ensures r <= s && |r| == (if n <= |s| then n else |s|)
  {
    if n <= |s| then s[..n] else s
  }

  /** The first n characters of every chunk, put end to end. */
  function Joined(chunks: seq<string>, n: nat): string {
    if chunks == [] then "" else Joined(chunks[..|chunks| - 1], n) + First(n, chunks[|chunks| - 1])
  }

  /** Where the k-th chunk starts. */
  function Start(c: Config, k: nat): (r: nat)
    requires Accepted(c)
    ensures k == 0 ==> r == 0
  {
    k * Stride(c)
  }

  lemma StartNext(c: Config, k: nat)
    requires Accepted(c)
    ensures Start(c, k + 1) == Start(c, k) + Stride(c)
  {
  }

  /** n is the length over the stride, rounded up. */
  predicate Crosses(c: Config, length: nat, n: nat)
    requires Accepted(c)
  {
    length <= Start(c, n) < length + Stride(c)
  }

  lemma CrossesIsCeiling(c: Config, length: nat, n: nat)
    requires Accepted(c)
    ensures Crosses(c, length, n) <==> n == (length + Stride(c) - 1) / Stride(c)
  {
    Ceiling(length, n, Stride(c));
  }

  lemma Ceiling(length: nat, n: nat, stride: nat)
    requires stride > 0
    ensures length <= n * stride < length + stride <==> n == (length + stride - 1) / stride
  {
    var q, slack := (length + stride - 1) / stride, (length + stride - 1) % stride;
    assert q * stride + slack == length + stride - 1;
    if length <= n * stride < length + stride {
      Squeeze(n, q, stride);
    }
  }

  lemma Squeeze(n: int, q: int, stride: int)
    requires stride > 0
    requires -stride < n * stride - q * stride < stride
    ensures n == q
  {
    Multiple(n - q, stride);
    Multiple(q - n, stride);
    assert (n - q) * stride == n * stride - q * stride;
    assert (q - n) * stride == q * stride - n * stride;
  }

  lemma Multiple(d: int, stride: int)
    requires stride > 0
    ensures d >= 1 ==> d * stride >= stride
  {
    if d >= 1 {
      assert d * stride == (d - 1) * stride + stride;
    }
  }

  /** Chunk k is the slice of the text at k strides. */
  predicate Sliced(c: Config, text: string, chunks: seq<string>)
    requires Accepted(c)
  {
    forall k | 0 <= k < |chunks| :: Start(c, k) < |text| && chunks[k] == Slice(text, Start(c, k), c.size)
  }

  /** Each chunk repeats, from its second stride on, the beginning of the next. */
  predicate Overlapping(c: Config, chunks: seq<string>)
    requires Accepted(c)
  {
    forall k | 0 <= k < |chunks| - 1 :: Stride(c) <= |chunks[k]| && chunks[k][Stride(c)..] <= chunks[k + 1]
  }

  /** For every accepted configuration and every text: as many chunks as strides it takes to cross
      the text, none empty or too long, overlapping, and all of the text. */
  method ChunkText(text: string, c: Config) returns (chunks: seq<string>)
    requires Accepted(c)
    ensures var stride := c.size - c.overlap;
            && |chunks| == (|text| + stride - 1) / stride
            && (forall k | 0 <= k < |chunks| :: 0 < |chunks[k]| <= c.size)
            && (forall k | 0 <= k < |chunks| - 1 :: stride <= |chunks[k]| && chunks[k][stride..] <= chunks[k + 1])
            && Joined(chunks, stride) == text
    ensures Sliced(c, text, chunks)
  {
    hide Start, Joined;
    chunks := [];
    if text == "" {
      CrossesIsCeiling(c, 0, 0);
      SlicesJoin(c, text, chunks);
      SlicesOverlap(c, text, chunks);
      return;
    }
    var stride := Stride(c);
    var start := 0;
    while start < |text|
      invariant start == Start(c, |chunks|) < |text| + stride
      invariant Sliced(c, text, chunks)
      decreases |text| - start
    {
      StartNext(c, |chunks|);
      chunks := chunks + [Slice(text, start, c.size)];
      start := start + stride;
    }
    CrossesIsCeiling(c, |text|, |chunks|);
    SlicesJoin(c, text, chunks);
    SlicesOverlap(c, text, chunks);
  }

  /** The first strides of consecutive slices make up the text as far as they go. */
  lemma {:induction false} SlicesJoin(c: Config, text: string, chunks: seq<string>)
    requires Accepted(c) && Sliced(c, text, chunks)
    ensures Joined(chunks, Stride(c)) == First(Start(c, |chunks|), text)
  {
    hide Start, Slice, First;
    if chunks == [] {
      FirstNone(text);
    } else {
      var k := |chunks| - 1;
      SlicesJoin(c, text, chunks[..k]);
      StartNext(c, k);
      JoinSlice(text, Start(c, k), Stride(c), c.size);
    }
  }

  lemma FirstNone(text: string)
    ensures First(0, text) == ""
  {
  }

  lemma JoinSlice(text: string, start: nat, stride: nat, size: nat)
    requires start < |text| && 0 < stride <= size
    ensures First(start, text) + First(stride, Slice(text, start, size)) == First(start + stride, text)
  {
  }

  lemma SlicesOverlap(c: Config, text: string, chunks: seq<string>)
    requires Accepted(c) && Sliced(c, text, chunks)
    ensures Overlapping(c, chunks)
  {
    hide Start, Slice;
    forall k | 0 <= k < |chunks| - 1 ensures Stride(c) <= |chunks[k]| && chunks[k][Stride(c)..] <= chunks[k + 1] {
      StartNext(c, k);
      Overlap(text, Start(c, k), Stride(c), c.size);
    }
  }

  lemma Overlap(text: string, start: nat, stride: nat, size: nat)
    requires start + stride < |text| && 0 < stride <= size
    ensures stride <= |Slice(text, start, size)|
    ensures Slice(text, start, size)[stride..] <= Slice(text, start + stride, size)
  {
  }
}
