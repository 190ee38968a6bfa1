/** The partition of the bulk into upload calls that `bulk.splice(0, 1000)`
    repeated until the bulk is empty produces (index.js lines 178-181). */
module Chunking {

  const ChunkSize: nat := 1000

  function Min(a: nat, b: nat): nat
  {
    if a <= b then a else b
  }

  /** The lines of each successive upload call: splice removes and returns the
      first min(1000, remaining) elements. */
  function Chunks<T>(s: seq<T>): seq<seq<T>>
    decreases |s|
  {
    if |s| == 0 then []
    else
      var n := Min(ChunkSize, |s|);
      [s[..n]] + Chunks(s[n..])
  }

  function Flatten<T>(ss: seq<seq<T>>): seq<T>
  {
    if ss == [] then [] else ss[0] + Flatten(ss[1..])
  }

  /** The chunks, put back together in order, give back the bulk: every row
      is sent exactly once, and in its place. */
  lemma {:induction false} ChunksFlatten<T>(s: seq<T>)
    ensures Flatten(Chunks(s)) == s
    decreases |s|
  {
    if |s| > 0 {
      var n := Min(ChunkSize, |s|);
      ChunksFlatten(s[n..]);
      assert Chunks(s)[1..] == Chunks(s[n..]);
      assert s == s[..n] + s[n..];
    }
  }

  /** ceil(N / 1000) upload calls. */
  lemma {:induction false} ChunksCount<T>(s: seq<T>)
    ensures |Chunks(s)| == (|s| + ChunkSize - 1) / ChunkSize
    decreases |s|
  {
    if |s| > 0 {
      var n := Min(ChunkSize, |s|);
      ChunksCount(s[n..]);
    }
  }

  /** No chunk is empty or longer than 1000 rows, and all but the last hold
      exactly 1000. */
  lemma {:induction false} ChunksSizes<T>(s: seq<T>)
    ensures forall i | 0 <= i < |Chunks(s)| :: 0 < |Chunks(s)[i]| <= ChunkSize
    ensures forall i | 0 <= i < |Chunks(s)| - 1 :: |Chunks(s)[i]| == ChunkSize
    decreases |s|
  {
    if |s| > 0 {
      var n := Min(ChunkSize, |s|);
      ChunksSizes(s[n..]);
      assert forall i | 1 <= i < |Chunks(s)| :: Chunks(s)[i] == Chunks(s[n..])[i - 1];
      if n < ChunkSize {
        assert s[n..] == [];
      }
    }
  }
}
