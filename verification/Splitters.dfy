/** The two splitters side by side: bytes on the watch, UTF-16 on the phone. */
module Splitters {
  import opened Unicode
  import opened Greedy
  import opened Messages
  import opened WatchCodec
  import opened Protocol

  /** On any text both ends can carry they cut at the same code points, into the same number of
      nonempty chunks, and no code-point-boundary partition within the capacity has fewer. */
  lemma SplittersAgree(vs: seq<Scalar>, cap: nat, other: seq<seq<Scalar>>)
    requires vs != [] && Bytes(vs) <= MAX_RESPONSE_BYTES && 4 <= cap <= UINT32_MAX
    requires IsPartition(other, vs, cap)
    ensures Chunks(Utf8All(vs), cap).Some? && Split(Utf16All(vs), cap).Some?
    ensures var cs, js := Chunks(Utf8All(vs), cap).value, Split(Utf16All(vs), cap).value;
            && |cs| == |js| <= |other|
            && (forall i | 0 <= i < |cs| ::
                  cs[i] != [] && |cs[i]| <= cap && Decode8(cs[i]).Some? && Decode16(js[i]) == Decode8(cs[i]))
  {
    hide Utf8, Decode8, Decode16;
    PiecesAreNearlyFull(vs, cap);
    ChunksAreGreedy(vs, cap);
    Decode16Encode(vs);
    GreedyIsOptimal(vs, other, cap);
    PartitionIsPartition(vs, cap);
    var parts := Partition(vs, cap);
    forall i | 0 <= i < |parts|
      ensures Decode8(Utf8All(parts[i])) == Some(parts[i]) && Decode16(Utf16All(parts[i])) == Some(parts[i]) && Bytes(parts[i]) > 0
    {
      Decode8Encode(parts[i]);
      Decode16Encode(parts[i]);
      assert Bytes(parts[i]) >= Size(parts[i][0]);
    }
  }
}
