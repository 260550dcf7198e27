/**
 * The FBX mesh buffers: vertex positions flattened to one list of reals,
 * and the polygon-vertex index list in which the last index of every
 * polygon is stored as `-idx - 1`, so that a negative entry marks the end
 * of a polygon. Indexing follows Python's list semantics: a negative
 * position counts from the end, and a position outside the list raises
 * `IndexError`, modelled as `None`.
 */
module FbxPolygons {
  import opened Basics

  /** Python `s[k]`. */
  function PyIndex(s: seq<int>, k: int): (r: Option<int>)
    ensures 0 <= k < |s| ==> r == Some(s[k])
    ensures -|s| <= k < 0 ==> r == Some(s[|s| + k])
    ensures k >= |s| || k < -|s| ==> r == None
  {
    if 0 <= k < |s| then Some(s[k])
    else if -|s| <= k < 0 then Some(s[|s| + k])
    else None
  }

  /** `sum(counts)`. */
  function Sum(counts: seq<int>): int
  {
    if counts == [] then 0 else Sum(counts[..|counts| - 1]) + counts[|counts| - 1]
  }

  /** Every polygon has at least one vertex. */
  predicate PositiveCounts(counts: seq<int>)
  {
    forall i :: 0 <= i < |counts| ==> counts[i] >= 1
  }

  /** The inner loop `for i in range(m): poly_indices.append(indices[offset + i])`. */
  function PolygonBody(indices: seq<int>, offset: int, m: int): Option<seq<int>>
    decreases m
  {
    if m <= 0 then Some([])
    else
      match PolygonBody(indices, offset, m - 1)
      case None => None
      case Some(p) =>
        match PyIndex(indices, offset + m - 1)
        case None => None
        case Some(v) => Some(p + [v])
  }

  /** One polygon: its first `count - 1` indices, then `-indices[offset + count - 1] - 1`. */
  function Polygon(indices: seq<int>, offset: int, count: int): Option<seq<int>>
  {
    match PolygonBody(indices, offset, count - 1)
    case None => None
    case Some(p) =>
      match PyIndex(indices, offset + count - 1)
      case None => None
      case Some(v) => Some(p + [-v - 1])
  }

  /** The `poly_indices` list of `_write_mesh`, or `None` when an index is out of range. */
  function PolygonVertexIndex(indices: seq<int>, counts: seq<int>): Option<seq<int>>
    decreases |counts|
  {
    if counts == [] then Some([])
    else
      var front := counts[..|counts| - 1];
      match PolygonVertexIndex(indices, front)
      case None => None
      case Some(p) =>
        match Polygon(indices, Sum(front), counts[|counts| - 1])
        case None => None
        case Some(q) => Some(p + q)
  }

  /** The positions of the entries that close a polygon: one less than each prefix sum. */
  function PolygonEnds(counts: seq<int>): set<int>
    decreases |counts|
  {
    if counts == [] then {} else PolygonEnds(counts[..|counts| - 1]) + {Sum(counts) - 1}
  }

  /** The `pos_array` of `_write_mesh`: the components of every (converted) position in turn. */
  function FlattenPositions(ps: seq<Vec3>): seq<real>
  {
    if ps == [] then []
    else
      var p := ps[|ps| - 1];
      FlattenPositions(ps[..|ps| - 1]) + [p.x, p.y, p.z]
  }

  /** Undoes the end-of-polygon encoding of every entry. */
  function DecodeIndices(r: seq<int>): seq<int>
  {
    seq(|r|, j requires 0 <= j < |r| => if r[j] < 0 then -r[j] - 1 else r[j])
  }

  /** Reads the polygon sizes back off the negative end markers; `run` counts the open polygon. */
  function RecoverCounts(r: seq<int>, run: int): seq<int>
    decreases |r|
  {
    if r == [] then []
    else if r[0] < 0 then [run + 1] + RecoverCounts(r[1..], 0)
    else RecoverCounts(r[1..], run + 1)
  }

  lemma {:induction false} FlattenPositionsAt(ps: seq<Vec3>)
    ensures |FlattenPositions(ps)| == 3 * |ps|
    ensures forall i :: 0 <= i < |ps| ==>
      && FlattenPositions(ps)[3 * i] == ps[i].x
      && FlattenPositions(ps)[3 * i + 1] == ps[i].y
      && FlattenPositions(ps)[3 * i + 2] == ps[i].z
  {
    if ps != [] {
      FlattenPositionsAt(ps[..|ps| - 1]);
    }
  }

  lemma {:induction false} SumPrefixPositive(counts: seq<int>)
    requires PositiveCounts(counts)
    ensures Sum(counts) >= |counts|
    ensures forall e :: e in PolygonEnds(counts) ==> 0 <= e < Sum(counts)
    decreases |counts|
  {
    if counts != [] {
      SumPrefixPositive(counts[..|counts| - 1]);
    }
  }

  lemma {:induction false} PolygonBodySpec(indices: seq<int>, offset: int, m: int)
    requires offset >= 0 && m >= 0
    ensures PolygonBody(indices, offset, m).Some? <==> m == 0 || offset + m <= |indices|
    ensures PolygonBody(indices, offset, m).Some? ==>
      var p := PolygonBody(indices, offset, m).value;
      |p| == m && forall i :: 0 <= i < m ==> p[i] == indices[offset + i]
    decreases m
  {
    if m > 0 {
      PolygonBodySpec(indices, offset, m - 1);
    }
  }

  lemma PolygonSpec(indices: seq<int>, offset: int, count: int)
    requires offset >= 0 && count >= 1
    ensures Polygon(indices, offset, count).Some? <==> offset + count <= |indices|
    ensures Polygon(indices, offset, count).Some? ==>
      var q := Polygon(indices, offset, count).value;
      && |q| == count
      && (forall i :: 0 <= i < count - 1 ==> q[i] == indices[offset + i])
      && q[count - 1] == -indices[offset + count - 1] - 1
  {
    PolygonBodySpec(indices, offset, count - 1);
  }

  /**
   * With every count at least one, flattening succeeds exactly when the
   * counts cover no more than the index list; it then yields `sum(counts)`
   * entries, each copied from `indices` except the polygon-closing ones,
   * which hold `-idx - 1`.
   */
  lemma {:induction false} PolygonVertexIndexSpec(indices: seq<int>, counts: seq<int>)
    requires PositiveCounts(counts)
    ensures PolygonVertexIndex(indices, counts).Some? <==> Sum(counts) <= |indices|
    ensures PolygonVertexIndex(indices, counts).Some? ==>
      var r := PolygonVertexIndex(indices, counts).value;
      && |r| == Sum(counts)
      && forall j :: 0 <= j < |r| ==>
           r[j] == if j in PolygonEnds(counts) then -indices[j] - 1 else indices[j]
    decreases |counts|
  {
    if counts != [] {
      var front := counts[..|counts| - 1];
      var last := counts[|counts| - 1];
      assert PositiveCounts(front);
      PolygonVertexIndexSpec(indices, front);
      SumPrefixPositive(front);
      PolygonSpec(indices, Sum(front), last);
      if PolygonVertexIndex(indices, counts).Some? {
        var p := PolygonVertexIndex(indices, front).value;
        var q := Polygon(indices, Sum(front), last).value;
        var r := PolygonVertexIndex(indices, counts).value;
        assert r == p + q;
        forall j | 0 <= j < |r|
          ensures r[j] == if j in PolygonEnds(counts) then -indices[j] - 1 else indices[j]
        {
          if j < |p| {
            assert r[j] == p[j];
          } else {
            assert r[j] == q[j - |p|];
          }
        }
      }
    }
  }

  /**
   * For non-negative indices the encoding is lossless: exactly the
   * polygon-closing entries are negative, decoding every entry gives back
   * the index list, and the negative markers give back the counts.
   */
  lemma PolygonVertexIndexRoundTrip(indices: seq<int>, counts: seq<int>)
    requires PositiveCounts(counts) && Sum(counts) == |indices|
    requires forall i :: 0 <= i < |indices| ==> indices[i] >= 0
    ensures PolygonVertexIndex(indices, counts).Some?
    ensures var r := PolygonVertexIndex(indices, counts).value;
      && (forall j :: 0 <= j < |r| ==> (r[j] < 0 <==> j in PolygonEnds(counts)))
      && DecodeIndices(r) == indices
      && RecoverCounts(r, 0) == counts
  {
    PolygonVertexIndexSpec(indices, counts);
    var r := PolygonVertexIndex(indices, counts).value;
    assert DecodeIndices(r) == indices;
    RecoverCountsOfFlattening(indices, counts);
  }

  lemma {:induction false} RecoverCountsOfFlattening(indices: seq<int>, counts: seq<int>)
    requires PositiveCounts(counts) && Sum(counts) <= |indices|
    requires forall i :: 0 <= i < |indices| ==> indices[i] >= 0
    ensures PolygonVertexIndex(indices, counts).Some?
    ensures RecoverCounts(PolygonVertexIndex(indices, counts).value, 0) == counts
    decreases |counts|
  {
    if counts == [] {
    } else {
      var front := counts[..|counts| - 1];
      var last := counts[|counts| - 1];
      assert PositiveCounts(front);
      SumPrefixPositive(front);
      RecoverCountsOfFlattening(indices, front);
      var p := PolygonVertexIndex(indices, front).value;
      RecoverCountsOfPolygon(indices, Sum(front), last);
      var q := Polygon(indices, Sum(front), last).value;
      assert PolygonVertexIndex(indices, counts) == Some(p + q);
      if front == [] {
        assert p + q == q;
      } else {
        FlatteningEndsNegative(indices, front);
        RecoverCountsAppend(p, q, 0);
      }
      assert counts == front + [last];
    }
  }

  /** A non-empty flattening ends on a polygon-closing (negative) entry. */
  lemma FlatteningEndsNegative(indices: seq<int>, counts: seq<int>)
    requires PositiveCounts(counts) && counts != [] && Sum(counts) <= |indices|
    requires forall i :: 0 <= i < |indices| ==> indices[i] >= 0
    ensures var r := PolygonVertexIndex(indices, counts); r.Some? && r.value != [] && r.value[|r.value| - 1] < 0
  {
    PolygonVertexIndexSpec(indices, counts);
    SumPrefixPositive(counts);
    assert Sum(counts) - 1 in PolygonEnds(counts);
  }

  lemma RecoverCountsOfPolygon(indices: seq<int>, offset: int, count: int)
    requires offset >= 0 && count >= 1 && offset + count <= |indices|
    requires forall i :: 0 <= i < |indices| ==> indices[i] >= 0
    ensures Polygon(indices, offset, count).Some?
    ensures RecoverCounts(Polygon(indices, offset, count).value, 0) == [count]
  {
    PolygonSpec(indices, offset, count);
    var q := Polygon(indices, offset, count).value;
    assert q == q[..count - 1] + [q[count - 1]];
    RecoverCountsOfRun(q[..count - 1], q[count - 1], 0);
  }

  lemma {:induction false} RecoverCountsOfRun(a: seq<int>, end: int, run: int)
    requires forall i :: 0 <= i < |a| ==> a[i] >= 0
    requires end < 0
    ensures RecoverCounts(a + [end], run) == [run + |a| + 1]
    decreases |a|
  {
    if a == [] {
      assert RecoverCounts([end], run) == [run + 1] + RecoverCounts([], 0);
    } else {
      assert (a + [end])[1..] == a[1..] + [end];
      RecoverCountsOfRun(a[1..], end, run + 1);
    }
  }

  lemma {:induction false} RecoverCountsAppend(p: seq<int>, q: seq<int>, run: int)
    requires p != [] && p[|p| - 1] < 0
    ensures RecoverCounts(p + q, run) == RecoverCounts(p, run) + RecoverCounts(q, 0)
    decreases |p|
  {
    if |p| == 1 {
      assert (p + q)[1..] == q;
    } else {
      assert (p + q)[1..] == p[1..] + q;
      RecoverCountsAppend(p[1..], q, if p[0] < 0 then 0 else run + 1);
    }
  }

  /** Once a prefix of the polygons fails, the whole flattening fails. */
  lemma {:induction false} PrefixFailure(indices: seq<int>, counts: seq<int>, k: nat)
    requires k <= |counts|
    requires PolygonVertexIndex(indices, counts[..k]).None?
    ensures PolygonVertexIndex(indices, counts).None?
    decreases |counts| - k
  {
    if k < |counts| {
      assert counts[..k + 1][..k] == counts[..k];
      PrefixFailure(indices, counts, k + 1);
    } else {
      assert counts[..k] == counts;
    }
  }

  /** Once an index of a polygon is out of range, every longer body fails too. */
  lemma {:induction false} BodyFailure(indices: seq<int>, offset: int, m: int, n: int)
    requires m <= n
    requires PolygonBody(indices, offset, m).None?
    ensures PolygonBody(indices, offset, n).None?
    decreases n - m
  {
    if m < n {
      BodyFailure(indices, offset, m, n - 1);
    }
  }

  /** The design's example: a triangle `[3, 1, 4]` is stored as `[3, 1, -5]`. */
  lemma TriangleExample()
    ensures PolygonVertexIndex([3, 1, 4], [3]) == Some([3, 1, -5])
  {
    PolygonVertexIndexSpec([3, 1, 4], [3]);
    var r := PolygonVertexIndex([3, 1, 4], [3]).value;
    assert [3] == [] + [3];
    assert PolygonEnds([3]) == {2};
    assert r == [3, 1, -5];
  }
}
