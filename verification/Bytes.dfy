/** Bytes, payload segments and the arithmetic of stream offsets. */
module Bytes {

  type Byte = b: int | 0 <= b < 256

  /** The payload of one `Write`: the unit the replay buffer keeps and drops. */
  type Segment = seq<Byte>

  datatype Option<+T> = None | Some(value: T)

  function Max(a: nat, b: nat): nat {
    if a < b then b else a
  }

  /** Number of bytes in a list of segments. */
  function Total(segs: seq<Segment>): nat {
    if segs == [] then 0 else |segs[0]| + Total(segs[1..])
  }

  /** The bytes of a list of segments. */
  function Flat(segs: seq<Segment>): seq<Byte> {
    if segs == [] then [] else segs[0] + Flat(segs[1..])
  }

  ghost predicate AllNonEmpty(segs: seq<Segment>) {
    forall i | 0 <= i < |segs| :: segs[i] != []
  }

  /** `part` is the stretch of `whole` that starts at segment `from`. */
  ghost predicate RunAt(part: seq<Segment>, whole: seq<Segment>, from: int) {
    && 0 <= from && from + |part| <= |whole|
    && (forall i | 0 <= i < |part| :: part[i] == whole[from + i])
  }

  lemma RunAtSlice(part: seq<Segment>, whole: seq<Segment>, from: int)
    ensures RunAt(part, whole, from) <==>
            0 <= from && from + |part| <= |whole| && part == whole[from..from + |part|]
  {
  }

  /** `off` is an offset at which some segment ends (or 0). */
  ghost predicate Boundary(segs: seq<Segment>, off: nat) {
    exists k :: 0 <= k <= |segs| && Total(segs[..k]) == off
  }

  lemma {:induction false} TotalAppend(a: seq<Segment>, b: seq<Segment>)
    ensures Total(a + b) == Total(a) + Total(b)
  {
    if a == [] {
      assert a + b == b;
    } else {
      assert (a + b)[1..] == a[1..] + b;
      TotalAppend(a[1..], b);
    }
  }

  lemma {:induction false} FlatAppend(a: seq<Segment>, b: seq<Segment>)
    ensures Flat(a + b) == Flat(a) + Flat(b)
  {
    if a == [] {
      assert a + b == b;
    } else {
      assert (a + b)[1..] == a[1..] + b;
      FlatAppend(a[1..], b);
      assert a[0] + (Flat(a[1..]) + Flat(b)) == (a[0] + Flat(a[1..])) + Flat(b);
    }
  }

  lemma {:induction false} FlatLength(segs: seq<Segment>)
    ensures |Flat(segs)| == Total(segs)
  {
    if segs != [] {
      FlatLength(segs[1..]);
    }
  }

  lemma SplitTotal(segs: seq<Segment>, k: nat)
    requires k <= |segs|
    ensures Total(segs) == Total(segs[..k]) + Total(segs[k..])
  {
    assert segs == segs[..k] + segs[k..];
    TotalAppend(segs[..k], segs[k..]);
  }

  lemma TotalSnoc(segs: seq<Segment>, last: Segment)
    ensures Total(segs + [last]) == Total(segs) + |last|
  {
    TotalAppend(segs, [last]);
  }

  lemma TakeMonotone(segs: seq<Segment>, i: nat, j: nat)
    requires i <= j <= |segs|
    ensures Total(segs[..i]) <= Total(segs[..j]) <= Total(segs)
  {
    SplitTotal(segs, j);
    assert segs[..j][..i] == segs[..i];
    SplitTotal(segs[..j], i);
  }

  lemma {:induction false} NonEmptyTotal(segs: seq<Segment>)
    requires AllNonEmpty(segs)
    ensures |segs| <= Total(segs)
  {
    if segs != [] {
      NonEmptyTotal(segs[1..]);
    }
  }

  /** With no empty segment an offset names at most one segment count. */
  lemma OffsetInjective(segs: seq<Segment>, i: nat, j: nat)
    requires AllNonEmpty(segs) && i <= |segs| && j <= |segs|
    ensures Total(segs[..i]) == Total(segs[..j]) <==> i == j
    ensures Total(segs[..i]) < Total(segs[..j]) <==> i < j
  {
    if i < j {
      OffsetStrict(segs, i, j);
    } else if j < i {
      OffsetStrict(segs, j, i);
    }
  }

  lemma OffsetStrict(segs: seq<Segment>, i: nat, j: nat)
    requires AllNonEmpty(segs) && i < j <= |segs|
    ensures Total(segs[..i]) < Total(segs[..j])
  {
    assert segs[..j][..i] == segs[..i];
    assert segs[..j][i..] == segs[i..j];
    SplitTotal(segs[..j], i);
    NonEmptyTotal(segs[i..j]);
  }

  lemma BoundaryBound(segs: seq<Segment>, off: nat)
    requires Boundary(segs, off)
    ensures off <= Total(segs)
  {
    var k :| 0 <= k <= |segs| && Total(segs[..k]) == off;
    SplitTotal(segs, k);
  }

  lemma BoundaryExtends(segs: seq<Segment>, longer: seq<Segment>, off: nat)
    requires segs <= longer && Boundary(segs, off)
    ensures Boundary(longer, off)
  {
    var k :| 0 <= k <= |segs| && Total(segs[..k]) == off;
    assert longer[..k] == segs[..k];
  }

  lemma BoundaryEnd(segs: seq<Segment>)
    ensures Boundary(segs, Total(segs))
  {
    assert segs[..|segs|] == segs;
  }
}
