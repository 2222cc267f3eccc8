/** Greedy partition of a text into pieces of bounded UTF-8 size: what both splitters of the
    protocol compute, stated once over scalar values so that it is independent of either
    end's encoding. */
module Greedy {
  import opened Unicode

  predicate AllFit(vs: seq<Scalar>, cap: nat) {
    forall i | 0 <= i < |vs| :: Size(vs[i]) <= cap
  }

  /** How many leading scalars fit in `room` bytes. */
  function Fit(vs: seq<Scalar>, room: nat): (n: nat)
    ensures n <= |vs|
    ensures vs != [] && Size(vs[0]) <= room ==> n > 0
  {
    if vs == [] || Size(vs[0]) > room then 0 else 1 + Fit(vs[1..], room - Size(vs[0]))
  }

  function Partition(vs: seq<Scalar>, cap: nat): seq<seq<Scalar>>
    requires AllFit(vs, cap)
    decreases |vs|
  {
    if vs == [] then []
    else var n := Fit(vs, cap); [vs[..n]] + Partition(vs[n..], cap)
  }

  function Flatten<T>(parts: seq<seq<T>>): seq<T> {
    if parts == [] then [] else parts[0] + Flatten(parts[1..])
  }

  /** `parts` splits `vs` at code-point boundaries into pieces of at most `cap` bytes. */
  ghost predicate IsPartition(parts: seq<seq<Scalar>>, vs: seq<Scalar>, cap: nat) {
    Flatten(parts) == vs && forall i | 0 <= i < |parts| :: Bytes(parts[i]) <= cap
  }

  /** `Fit` takes as many as fit and no more. */
  lemma {:induction false} FitIsMaximal(vs: seq<Scalar>, room: nat, k: nat)
    requires k <= |vs|
    ensures Bytes(vs[..k]) <= room <==> k <= Fit(vs, room)
  {
    hide Utf8;
    if k > 0 {
      assert vs[..k][1..] == vs[1..][..k - 1];
      if Size(vs[0]) <= room {
        FitIsMaximal(vs[1..], room - Size(vs[0]), k - 1);
      }
    }
  }

  lemma PartitionCons(head: seq<Scalar>, rest: seq<seq<Scalar>>, tail: seq<Scalar>, cap: nat)
    requires Bytes(head) <= cap && IsPartition(rest, tail, cap)
    ensures IsPartition([head] + rest, head + tail, cap)
  {
    hide Bytes;
    assert ([head] + rest)[1..] == rest;
  }

  /** The partition is one: it reassembles to the text, its pieces are within the capacity
      and none is empty. */
  lemma {:induction false} PartitionIsPartition(vs: seq<Scalar>, cap: nat)
    requires AllFit(vs, cap)
    ensures IsPartition(Partition(vs, cap), vs, cap)
    ensures forall i | 0 <= i < |Partition(vs, cap)| :: Partition(vs, cap)[i] != []
    ensures Partition(vs, cap) == [] <==> vs == []
    decreases |vs|
  {
    hide Utf8, Size, Bytes;
    if vs != [] {
      var n := Fit(vs, cap);
      FitIsMaximal(vs, cap, n);
      PartitionIsPartition(vs[n..], cap);
      PartitionCons(vs[..n], Partition(vs[n..], cap), vs[n..], cap);
      assert vs == vs[..n] + vs[n..];
    }
  }

  lemma {:induction false} FlattenConcat<T>(a: seq<seq<T>>, b: seq<seq<T>>)
    ensures Flatten(a + b) == Flatten(a) + Flatten(b)
  {
    if a == [] {
      assert a + b == b;
    } else {
      assert (a + b)[1..] == a[1..] + b;
      FlattenConcat(a[1..], b);
    }
  }

  /** No partition of a text that ends in `vs` has fewer pieces than the greedy partition of
      `vs`: greedy cuts always stay at or beyond anyone else's. */
  lemma {:induction false} GreedyStaysAhead(vs: seq<Scalar>, ws: seq<Scalar>, k: nat, parts: seq<seq<Scalar>>, cap: nat)
    requires AllFit(vs, cap) && k <= |ws| && vs == ws[k..]
    requires IsPartition(parts, ws, cap)
    ensures |Partition(vs, cap)| <= |parts|
    decreases |parts|
  {
    hide Utf8, Size;
    if vs != [] {
      var a := |parts[0]|;
      var rest := Flatten(parts[1..]);
      assert ws == parts[0] + rest;
      assert rest == ws[a..];
      if a <= k {
        GreedyStaysAhead(vs, rest, k - a, parts[1..], cap);
      } else {
        var n := Fit(vs, cap);
        Utf8AllConcat(ws[..k], ws[k..a]);
        assert parts[0] == ws[..k] + ws[k..a];
        assert ws[k..a] == vs[..a - k];
        FitIsMaximal(vs, cap, a - k);
        GreedyStaysAhead(vs[n..], rest, k + n - a, parts[1..], cap);
      }
    }
  }

  /** Greedy chunking is optimal: it uses the fewest chunks of any code-point-boundary
      partition within the capacity. */
  lemma GreedyIsOptimal(vs: seq<Scalar>, parts: seq<seq<Scalar>>, cap: nat)
    requires AllFit(vs, cap) && IsPartition(parts, vs, cap)
    ensures |Partition(vs, cap)| <= |parts|
  {
    GreedyStaysAhead(vs, vs, 0, parts, cap);
  }

  /** A greedy piece that leaves text behind is within three bytes of the capacity. */
  lemma CutPieceIsNearlyFull(vs: seq<Scalar>, cap: nat)
    requires AllFit(vs, cap) && Fit(vs, cap) < |vs|
    ensures Bytes(vs[..Fit(vs, cap)]) + 3 >= cap
  {
    hide Utf8;
    var n := Fit(vs, cap);
    FitIsMaximal(vs, cap, n + 1);
    assert vs[..n + 1] == vs[..n] + [vs[n]];
    Utf8AllConcat(vs[..n], [vs[n]]);
    assert Utf8All([vs[n]]) == Utf8(vs[n]) + Utf8All([]);
  }

  /** So every piece but the last is, and `n` pieces carry more than `(n - 1) * (cap - 3)`
      bytes. */
  lemma {:induction false} PiecesAreNearlyFull(vs: seq<Scalar>, cap: nat)
    requires cap >= 4 && vs != []
    ensures AllFit(vs, cap)
    ensures forall i | 0 <= i < |Partition(vs, cap)| - 1 :: Bytes(Partition(vs, cap)[i]) + 3 >= cap
    ensures (|Partition(vs, cap)| - 1) * (cap - 3) < Bytes(vs)
    decreases |vs|
  {
    hide Utf8;
    var n := Fit(vs, cap);
    var tail := vs[n..];
    assert vs == vs[..n] + tail;
    Utf8AllConcat(vs[..n], tail);
    if tail != [] {
      CutPieceIsNearlyFull(vs, cap);
      PiecesAreNearlyFull(tail, cap);
      assert Partition(vs, cap) == [vs[..n]] + Partition(tail, cap);
      OneMore(|Partition(tail, cap)|, cap - 3, Bytes(vs[..n]), Bytes(tail));
    }
  }

  lemma OneMore(m: int, x: int, first: int, rest: int)
    requires x <= first && (m - 1) * x < rest
    ensures m * x < first + rest
  {
    assert m * x == (m - 1) * x + x;
  }

  /** The UTF-8 form of every piece. */
  function EachUtf8(parts: seq<seq<Scalar>>): (r: seq<seq<Byte>>)
    ensures |r| == |parts|
    ensures forall i | 0 <= i < |parts| :: r[i] == Utf8All(parts[i])
  {
    if parts == [] then [] else [Utf8All(parts[0])] + EachUtf8(parts[1..])
  }

  /** The UTF-16 form of every piece. */
  function EachUtf16(parts: seq<seq<Scalar>>): (r: seq<seq<Unit>>)
    ensures |r| == |parts|
    ensures forall i | 0 <= i < |parts| :: r[i] == Utf16All(parts[i])
  {
    if parts == [] then [] else [Utf16All(parts[0])] + EachUtf16(parts[1..])
  }

  /** Encoding commutes with reassembly, in both encodings and for every leading run of
      pieces. */
  lemma {:induction false} EncodeFlatten(parts: seq<seq<Scalar>>, k: nat)
    requires k <= |parts|
    ensures Flatten(EachUtf8(parts)[..k]) == Utf8All(Flatten(parts[..k]))
    ensures Flatten(EachUtf16(parts)[..k]) == Utf16All(Flatten(parts[..k]))
  {
    hide Utf8, Utf16;
    if k > 0 {
      EncodeFlatten(parts[1..], k - 1);
      assert EachUtf8(parts)[..k][1..] == EachUtf8(parts[1..])[..k - 1];
      assert EachUtf16(parts)[..k][1..] == EachUtf16(parts[1..])[..k - 1];
      assert parts[..k][1..] == parts[1..][..k - 1];
      Utf8AllConcat(parts[0], Flatten(parts[1..][..k - 1]));
      Utf16AllConcat(parts[0], Flatten(parts[1..][..k - 1]));
    }
  }
}
