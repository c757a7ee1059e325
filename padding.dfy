/** `lstrip_pad` and `rstrip_pad` of fairseq/utils.py over a one-dimensional
    token sequence. Both count EVERY occurrence of `pad` (`tensor.eq(pad).sum()`)
    and then drop that many elements from one end, so they strip exactly the
    padding only when all pads sit at that end. */
module Padding {

  /** Number of occurrences of `pad` in `t`: `t.eq(pad).sum()`. */
  function CountPad(pad: int, t: seq<int>): (n: nat)
    ensures n <= |t|
    ensures n == 0 <==> pad !in t
    ensures n == |t| <==> forall i :: 0 <= i < |t| ==> t[i] == pad
  {
    if t == [] then 0
    else (if t[0] == pad then 1 else 0) + CountPad(pad, t[1..])
  }

  /** `tensor[tensor.eq(pad).sum():]`. */
  function LStripPad(t: seq<int>, pad: int): (r: seq<int>)
    ensures |r| == |t| - CountPad(pad, t)
    ensures r == t[|t| - |r|..]
    ensures pad !in t ==> r == t
  {
    t[CountPad(pad, t)..]
  }

  /** `tensor[:-strip]` when `strip > 0`, otherwise the tensor itself. */
  function RStripPad(t: seq<int>, pad: int): (r: seq<int>)
    ensures |r| == |t| - CountPad(pad, t)
    ensures r == t[..|r|]
    ensures pad !in t ==> r == t
  {
    var strip := CountPad(pad, t);
    if strip > 0 then t[..|t| - strip] else t
  }

  /** `k` copies of `pad`. */
  function Pads(pad: int, k: nat): (r: seq<int>)
    ensures |r| == k && forall i :: 0 <= i < k ==> r[i] == pad
  {
    if k == 0 then [] else [pad] + Pads(pad, k - 1)
  }

  lemma {:induction false} CountPadAppend(pad: int, a: seq<int>, b: seq<int>)
    ensures CountPad(pad, a + b) == CountPad(pad, a) + CountPad(pad, b)
  {
    if a == [] {
      assert a + b == b;
    } else {
      assert (a + b)[1..] == a[1..] + b;
      CountPadAppend(pad, a[1..], b);
    }
  }

  /** A left-padded sequence: `lstrip_pad` removes exactly the leading pads
      and what is left holds no pad. */
  lemma LStripLeftPadded(pad: int, k: nat, u: seq<int>)
    requires pad !in u
    ensures LStripPad(Pads(pad, k) + u, pad) == u
    ensures pad !in LStripPad(Pads(pad, k) + u, pad)
  {
    CountPadAppend(pad, Pads(pad, k), u);
    assert CountPad(pad, Pads(pad, k)) == k;
    assert (Pads(pad, k) + u)[k..] == u;
  }

  /** A right-padded sequence: `rstrip_pad` removes exactly the trailing pads
      and what is left holds no pad. */
  lemma RStripRightPadded(pad: int, u: seq<int>, k: nat)
    requires pad !in u
    ensures RStripPad(u + Pads(pad, k), pad) == u
    ensures pad !in RStripPad(u + Pads(pad, k), pad)
  {
    CountPadAppend(pad, u, Pads(pad, k));
    assert CountPad(pad, Pads(pad, k)) == k;
    assert (u + Pads(pad, k))[..|u|] == u;
  }

  /** When a pad sits in the middle, `lstrip_pad` drops a real token from the
      front and keeps the pad: the helpers assume one-sided padding. */
  lemma LStripInteriorPad()
    ensures LStripPad([5, 1, 7], 1) == [1, 7]
  {
    assert CountPad(1, [5, 1, 7]) == 1 by {
      assert [5, 1, 7][1..] == [1, 7];
      assert [1, 7][1..] == [7];
      assert [7][1..] == [];
    }
  }
}
