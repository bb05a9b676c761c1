/** Options, flattening and cutting of sequences, shared by the other modules. */
module Sequences {

  datatype Option<+T> = None | Some(value: T)

  /** All pieces, one after the other. */
  function Flatten<T>(pieces: seq<seq<T>>): seq<T> {
    if pieces == [] then [] else Flatten(pieces[..|pieces| - 1]) + pieces[|pieces| - 1]
  }

  lemma FlattenAppend<T>(pieces: seq<seq<T>>, last: seq<T>)
    ensures Flatten(pieces + [last]) == Flatten(pieces) + last
  {
    assert (pieces + [last])[..|pieces|] == pieces;
  }

  lemma {:induction false} FlattenConcat<T>(left: seq<seq<T>>, right: seq<seq<T>>)
    ensures Flatten(left + right) == Flatten(left) + Flatten(right)
  {
    if right == [] {
      assert left + right == left;
    } else {
      var init := right[..|right| - 1];
      FlattenConcat(left, init);
      assert (left + right)[..|left + right| - 1] == left + init;
    }
  }

  lemma FlattenCons<T>(first: seq<T>, rest: seq<seq<T>>)
    ensures Flatten([first] + rest) == first + Flatten(rest)
  {
    FlattenConcat([first], rest);
    assert Flatten([first]) == Flatten<T>([]) + first by {
      FlattenAppend<T>([], first);
      assert [] + [first] == [first];
    }
  }

  lemma {:induction false} InFlatten<T>(pieces: seq<seq<T>>, k: nat, j: nat)
    requires k < |pieces| && j < |pieces[k]|
    ensures pieces[k][j] in Flatten(pieces)
  {
    var n := |pieces| - 1;
    if k < n { InFlatten(pieces[..n], k, j); }
  }

  /** Cut into pieces of m, the last one possibly shorter. */
  function Chunks<T>(xs: seq<T>, m: nat): seq<seq<T>>
    requires m > 0
    decreases |xs|
  {
    if xs == [] then []
    else if |xs| <= m then [xs]
    else [xs[..m]] + Chunks(xs[m..], m)
  }

  /** Nothing is lost, repeated or reordered; every piece is full except that the last may be shorter. */
  lemma {:induction false} ChunksPartition<T>(xs: seq<T>, m: nat)
    requires m > 0
    ensures Flatten(Chunks(xs, m)) == xs
    ensures forall k :: 0 <= k < |Chunks(xs, m)| ==> 0 < |Chunks(xs, m)[k]| <= m
    ensures forall k :: 0 <= k < |Chunks(xs, m)| - 1 ==> |Chunks(xs, m)[k]| == m
    decreases |xs|
  {
    if 0 < |xs| <= m {
      FlattenCons(xs, []);
      assert [xs] + [] == [xs];
    } else if |xs| > m {
      ChunksPartition(xs[m..], m);
      FlattenCons(xs[..m], Chunks(xs[m..], m));
    }
  }

  /** Full pieces in front of a sequence stay pieces when it is cut. */
  lemma {:induction false} ChunksAfterFull<T>(full: seq<seq<T>>, rest: seq<T>, m: nat)
    requires m > 0
    requires forall k :: 0 <= k < |full| ==> |full[k]| == m
    ensures Chunks(Flatten(full) + rest, m) == full + Chunks(rest, m)
  {
    if full == [] {
      assert Flatten(full) + rest == rest;
    } else {
      var first, others := full[0], full[1..];
      assert full == [first] + others;
      FlattenCons(first, others);
      var all := Flatten(full) + rest;
      ChunksAfterFull(others, rest, m);
      assert all == first + (Flatten(others) + rest);
      assert all[..m] == first && all[m..] == Flatten(others) + rest;
      if |all| <= m {
        assert Flatten(others) + rest == [];
        assert all == first;
        assert others + Chunks(rest, m) == [];
      }
    }
  }

  /** The state of a batching loop: full batches behind it, an unfinished one at hand. */
  lemma ChunksOfFullPieces<T>(full: seq<seq<T>>, rest: seq<T>, m: nat)
    requires m > 0
    requires forall k :: 0 <= k < |full| ==> |full[k]| == m
    requires |rest| <= m
    ensures Chunks(Flatten(full) + rest, m) == full + (if rest == [] then [] else [rest])
  {
    ChunksAfterFull(full, rest, m);
  }

  /** ... and whatever comes, the batch at hand is the beginning of the next piece. */
  lemma ChunksContinue<T>(full: seq<seq<T>>, batch: seq<T>, rest: seq<T>, m: nat)
    requires m > 0
    requires forall k :: 0 <= k < |full| ==> |full[k]| == m
    requires 0 < |batch| <= m
    ensures |Chunks(Flatten(full) + batch + rest, m)| > |full|
    ensures batch <= Chunks(Flatten(full) + batch + rest, m)[|full|]
  {
    ChunksAfterFull(full, batch + rest, m);
    assert Flatten(full) + batch + rest == Flatten(full) + (batch + rest);
  }
}
