/**
 * Value-level specification of the pooled teleport-arc segments.
 *
 * A pool entry is seen here only through what the arc drawing changes on
 * it: whether it is visible and which pair of spline points its start and
 * end were last taken from. `Drawn` follows the drawing code step by step
 * (hide every entry, then for each segment index create the entry if it is
 * missing, show it and bind it); `DrawnShape` says what that amounts to.
 */
module SegmentPool {

  /** The spline points a segment's start and end were taken from. */
  datatype Binding = Unbound | Bound(startPoint: nat, endPoint: nat)

  datatype SegmentView = SegmentView(visible: bool, binding: Binding)

  function Max(a: int, b: int): int {
    if a < b then b else a
  }

  /** A pool entry as it is right after creation. */
  const Created := SegmentView(true, Unbound)

  /** Every entry hidden, nothing else changed. */
  function HideAll(v: seq<SegmentView>): seq<SegmentView> {
    seq(|v|, i requires 0 <= i < |v| => v[i].(visible := false))
  }

  /** One step of the segment loop: create entry `i` when the pool is too
      short, then show it and bind it to spline points `i` and `i + 1`. */
  function Bind(v: seq<SegmentView>, i: nat): seq<SegmentView>
    requires i <= |v|
  {
    var grown := if |v| <= i then v + [Created] else v;
    grown[i := SegmentView(true, Bound(i, i + 1))]
  }

  /** The segment loop from index `i` up to (excluding) `n`. */
  function BindFrom(v: seq<SegmentView>, i: nat, n: int): seq<SegmentView>
    requires i <= |v|
    decreases n - i
  {
    if n <= i then v else BindFrom(Bind(v, i), i + 1, n)
  }

  /** The pool after drawing an arc of `n` segments over pool `v`. */
  function Drawn(v: seq<SegmentView>, n: int): seq<SegmentView> {
    BindFrom(HideAll(v), 0, n)
  }

  lemma {:induction false} BindFromShape(v: seq<SegmentView>, i: nat, n: int)
    requires i <= |v|
    ensures |BindFrom(v, i, n)| == Max(|v|, n)
    ensures forall j :: 0 <= j < i ==> BindFrom(v, i, n)[j] == v[j]
    ensures forall j :: i <= j < n ==> BindFrom(v, i, n)[j] == SegmentView(true, Bound(j, j + 1))
    ensures forall j :: Max(i, n) <= j < |v| ==> BindFrom(v, i, n)[j] == v[j]
    decreases n - i
  {
    if i < n {
      BindFromShape(Bind(v, i), i + 1, n);
    }
  }

  /** Drawing `n` segments leaves max(old size, n) entries; entry `i` is
      visible iff `i < n`; visible entries are bound to points `i`, `i + 1`;
      hidden entries keep the binding they had. */
  lemma DrawnShape(v: seq<SegmentView>, n: int)
    ensures |Drawn(v, n)| == Max(|v|, n)
    ensures forall i :: 0 <= i < |Drawn(v, n)| ==> (Drawn(v, n)[i].visible <==> i < n)
    ensures forall i :: 0 <= i < n ==> Drawn(v, n)[i].binding == Bound(i, i + 1)
    ensures forall i :: 0 <= i < |v| && n <= i ==> Drawn(v, n)[i].binding == v[i].binding
  {
    BindFromShape(HideAll(v), 0, n);
  }

  /** The converse of DrawnShape: a pool of max(old size, n) entries in
      which exactly the entries below `n` are visible and bound to their
      point pair, and the others keep their old binding, is the drawn one. */
  lemma DrawnUnique(v: seq<SegmentView>, n: int, w: seq<SegmentView>)
    requires |w| == Max(|v|, n)
    requires forall i :: 0 <= i < |w| ==> (w[i].visible <==> i < n)
    requires forall i :: 0 <= i < n ==> w[i].binding == Bound(i, i + 1)
    requires forall i :: 0 <= i < |v| && n <= i ==> w[i].binding == v[i].binding
    ensures w == Drawn(v, n)
  {
    DrawnShape(v, n);
    var d := Drawn(v, n);
    forall i | 0 <= i < |w|
      ensures w[i] == d[i]
    {
      if n <= i {
        assert w[i].binding == v[i].binding == d[i].binding;
      }
    }
  }

  /** An arc with fewer than two points hides every entry and keeps the
      pool's size. */
  lemma DrawnShortArc(v: seq<SegmentView>, points: int)
    requires points < 2
    ensures Drawn(v, points - 1) == HideAll(v)
    ensures |Drawn(v, points - 1)| == |v|
  {
  }

  /** Drawing the same arc a second time changes nothing. */
  lemma DrawnIdempotent(v: seq<SegmentView>, n: int)
    ensures Drawn(Drawn(v, n), n) == Drawn(v, n)
  {
    var once := Drawn(v, n);
    DrawnShape(v, n);
    DrawnShape(once, n);
    var twice := Drawn(once, n);
    forall i | 0 <= i < |once|
      ensures twice[i] == once[i]
    {
      if n <= i {
        assert twice[i].binding == once[i].binding;
      }
    }
  }

  /** Drawing a longer arc after a shorter one reveals the entries already
      created beyond the shorter arc instead of recreating them: their
      count only grows, and every entry below the longer arc's count is
      visible. */
  lemma DrawnLongerArc(v: seq<SegmentView>, n1: int, n2: int)
    requires n1 < n2
    ensures |Drawn(Drawn(v, n1), n2)| == Max(|v|, n2)
    ensures forall i :: 0 <= i < n2 ==> Drawn(Drawn(v, n1), n2)[i] == SegmentView(true, Bound(i, i + 1))
  {
    DrawnShape(v, n1);
    DrawnShape(Drawn(v, n1), n2);
  }

  /** The largest segment count in a history of draws (0 when none). */
  function Peak(counts: seq<int>): nat {
    if counts == [] then 0 else Max(Max(counts[0], 0), Peak(counts[1..]))
  }

  lemma {:induction false} PeakAppend(counts: seq<int>, n: int)
    ensures Peak(counts + [n]) == Max(Peak(counts), n)
  {
    if counts != [] {
      assert (counts + [n])[1..] == counts[1..] + [n];
      PeakAppend(counts[1..], n);
    } else {
      assert (counts + [n])[1..] == [];
    }
  }

  lemma {:induction false} PeakBounds(counts: seq<int>)
    ensures forall k :: 0 <= k < |counts| ==> counts[k] <= Peak(counts)
    ensures Peak(counts) == 0 || exists k :: 0 <= k < |counts| && counts[k] == Peak(counts)
  {
    if counts != [] {
      PeakBounds(counts[1..]);
      forall k | 0 < k < |counts|
        ensures counts[k] <= Peak(counts)
      {
        assert counts[k] == counts[1..][k - 1];
      }
      if Peak(counts) != 0 && Peak(counts) != counts[0] {
        var k :| 0 <= k < |counts[1..]| && counts[1..][k] == Peak(counts[1..]);
        assert counts[k + 1] == Peak(counts);
      }
    }
  }
}
