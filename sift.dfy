/**
 * An ordered filter-map over the indices 0 .. n-1: the shape shared by every loop
 * of the record synchroniser that walks the declared fields in order and appends
 * something for some of them (RDN bits, attributes of a new entry, modifications).
 */
module Sift {
  import opened Wrappers

  /** What `pick` yields for the indices below `n`, in index order; `None` is skipped. */
  function Gather<T>(n: nat, pick: nat -> Option<T>): seq<T>
  {
    if n == 0 then []
    else Gather(n - 1, pick) + (if pick(n - 1).Some? then [pick(n - 1).value] else [])
  }

  /** The indices below `n` for which `pick` yields something, in increasing order. */
  function Hits<T>(n: nat, pick: nat -> Option<T>): seq<nat>
  {
    if n == 0 then []
    else Hits(n - 1, pick) + (if pick(n - 1).Some? then [n - 1] else [])
  }

  /** The k-th gathered element is what `pick` yields at the k-th hit. */
  lemma {:induction false} GatherAtHits<T>(n: nat, pick: nat -> Option<T>)
    ensures |Gather(n, pick)| == |Hits(n, pick)|
    ensures forall k :: 0 <= k < |Hits(n, pick)| ==>
              pick(Hits(n, pick)[k]).Some? && Gather(n, pick)[k] == pick(Hits(n, pick)[k]).value
  {
    if n > 0 {
      GatherAtHits(n - 1, pick);
    }
  }

  /** The hits are exactly the indices below `n` that `pick` keeps, strictly increasing. */
  lemma {:induction false} HitsExactly<T>(n: nat, pick: nat -> Option<T>)
    ensures forall i: nat :: i in Hits(n, pick) <==> i < n && pick(i).Some?
    ensures forall j, k :: 0 <= j < k < |Hits(n, pick)| ==> Hits(n, pick)[j] < Hits(n, pick)[k]
  {
    if n > 0 {
      HitsExactly(n - 1, pick);
      var earlier := Hits(n - 1, pick);
      assert forall j :: 0 <= j < |earlier| ==> earlier[j] in earlier && earlier[j] < n - 1;
    }
  }

  /** Nothing is gathered exactly when `pick` keeps no index below `n`. */
  lemma {:induction false} GatherEmpty<T>(n: nat, pick: nat -> Option<T>)
    ensures Gather(n, pick) == [] <==> forall i :: 0 <= i < n ==> pick(i).None?
  {
    if n > 0 {
      GatherEmpty(n - 1, pick);
    }
  }
}
