/**
 * `grouper` (log_parser/connected_hostnames.py): the itertools recipe that
 * cuts a sequence into chunks of exactly `n` elements, padding the last chunk
 * with `None`.
 */
module Grouping {
  import opened Common

  /** Every element present. */
  function Wrap<T>(xs: seq<T>): (r: seq<Option<T>>)
    ensures |r| == |xs|
    ensures forall i :: 0 <= i < |xs| ==> r[i] == Some(xs[i])
  {
    seq(|xs|, i requires 0 <= i < |xs| => Some(xs[i]))
  }

  lemma WrapSplit<T>(xs: seq<T>, n: nat)
    requires n <= |xs|
    ensures Wrap(xs) == Wrap(xs[..n]) + Wrap(xs[n..])
  {
  }

  /** `k` fill values. */
  function Pads<T>(k: nat): (r: seq<Option<T>>)
    ensures |r| == k
    ensures forall i :: 0 <= i < k ==> r[i] == None
  {
    seq(k, i => None)
  }

  /** `list(zip_longest(*[iter(xs)] * n))`. With `n <= 0` no iterator is zipped
      and nothing is produced; otherwise consecutive groups of `n`, the last one
      completed with `None`. */
  function Grouper<T>(xs: seq<T>, n: int): (chunks: seq<seq<Option<T>>>)
    ensures forall i :: 0 <= i < |chunks| ==> |chunks[i]| == n
    ensures n <= 0 || xs == [] ==> chunks == []
    ensures n > 0 && xs != [] ==> |chunks| > 0
    decreases |xs|
  {
    if n <= 0 || xs == [] then []
    else if |xs| <= n then [Wrap(xs) + Pads(n - |xs|)]
    else [Wrap(xs[..n])] + Grouper(xs[n..], n)
  }

  /** The chunks laid end to end. */
  function Flatten<T>(chunks: seq<seq<Option<T>>>): (r: seq<Option<T>>)
    decreases |chunks|
  {
    if chunks == [] then [] else chunks[0] + Flatten(chunks[1..])
  }

  /** The number of fill values `zip_longest` appends to `len` elements grouped by `n`:
      what is missing from the last, partial group (none when `n` divides `len`). */
  function PadCount(len: nat, n: nat): (k: nat)
    requires n > 0
    ensures k < n
    ensures len == 0 ==> k == 0
    decreases len
  {
    if len == 0 then 0 else if len <= n then n - len else PadCount(len - n, n)
  }

  /** Laid end to end, the chunks are the input followed by fewer than `n` pads. */
  lemma {:induction false} GrouperFlatten<T>(xs: seq<T>, n: int)
    requires n > 0
    ensures PadCount(|xs|, n) < n
    ensures Flatten(Grouper(xs, n)) == Wrap(xs) + Pads(PadCount(|xs|, n))
    decreases |xs|
  {
    var chunks := Grouper(xs, n);
    if xs == [] {
      assert Wrap(xs) + Pads(PadCount(|xs|, n)) == [];
    } else if |xs| <= n {
      assert chunks[1..] == [];
    } else {
      var rest := xs[n..];
      GrouperFlatten(rest, n);
      assert chunks[1..] == Grouper(rest, n);
      WrapSplit(xs, n);
    }
  }

  /** There are ceil(|xs| / n) chunks: together they hold the input and its pads. */
  lemma {:induction false} GrouperCount<T>(xs: seq<T>, n: int)
    requires n > 0
    ensures |Grouper(xs, n)| * n == |xs| + PadCount(|xs|, n)
    decreases |xs|
  {
    if xs == [] {
    } else if |xs| <= n {
    } else {
      GrouperCount(xs[n..], n);
      assert |Grouper(xs, n)| == 1 + |Grouper(xs[n..], n)|;
    }
  }

  /** Padding appears only in the last chunk: every earlier chunk holds input elements only. */
  lemma {:induction false} GrouperPadsOnlyLast<T>(xs: seq<T>, n: int, i: nat, j: nat)
    requires i + 1 < |Grouper(xs, n)| && j < n
    ensures Grouper(xs, n)[i][j].Some?
    decreases |xs|
  {
    if i > 0 {
      GrouperPadsOnlyLast(xs[n..], n, i - 1, j);
    }
  }

  /** `grouper(range(5), 2)` and `grouper(range(5), 6)` (tests/test_connected_hostnames.py:10-18). */
  lemma GrouperExamples()
    ensures Grouper([0, 1, 2, 3, 4], 2) == [[Some(0), Some(1)], [Some(2), Some(3)], [Some(4), None]]
    ensures Grouper([0, 1, 2, 3, 4], 6) == [[Some(0), Some(1), Some(2), Some(3), Some(4), None]]
  {
    var xs := [0, 1, 2, 3, 4];
    assert xs[..2] == [0, 1] && xs[2..] == [2, 3, 4];
    assert xs[2..][..2] == [2, 3] && xs[2..][2..] == [4];
    assert Grouper([4], 2) == [[Some(4), None]] by {
      assert Wrap([4]) + Pads(1) == [Some(4), None];
    }
    assert Grouper([2, 3, 4], 2) == [[Some(2), Some(3)], [Some(4), None]] by {
      assert Wrap([2, 3]) == [Some(2), Some(3)];
    }
    assert Wrap([0, 1]) == [Some(0), Some(1)];
    assert Wrap(xs) + Pads(1) == [Some(0), Some(1), Some(2), Some(3), Some(4), None];
  }
}
