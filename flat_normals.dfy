/** `makeFlatNormals(triangles, start, num, normals)` of the lighting demo:
    one flat normal per triangle of a TRIANGLES vertex list, written into the
    three normal slots of that triangle, in place. The vector library it
    calls is a parameter, so nothing here depends on how `normalize` or
    `cross` compute. */
module FlatNormals {
  import opened Geometry

  /** The normal of the triangle `p0, p1, p2`:
      `normalize(cross(normalize(p1 - p0), normalize(p2 - p1)))`, taken over
      the x, y, z parts of the points only. It is a unit vector whenever
      `normalize` returns unit vectors. */
  function FaceNormal(lib: VecLib, p0: Vec4, p1: Vec4, p2: Vec4): (n: Vec3)
    ensures (forall v :: IsUnit(lib.normalize(v))) ==> IsUnit(n)
  {
    var v1 := lib.normalize(lib.subtract(Xyz(p1), Xyz(p0)));
    var v2 := lib.normalize(lib.subtract(Xyz(p2), Xyz(p1)));
    lib.normalize(lib.cross(v1, v2))
  }

  /** The normal of the triangle whose first vertex is `tris[i]`; a unit
      vector whenever `normalize` returns unit vectors. */
  function TriangleNormal(lib: VecLib, tris: seq<Vec4>, i: nat): (n: Vec3)
    requires i + 3 <= |tris|
    ensures (forall v :: IsUnit(lib.normalize(v))) ==> IsUnit(n)
  {
    FaceNormal(lib, tris[i], tris[i + 1], tris[i + 2])
  }

  /** The argument checks the code does not make but relies on: when the
      count is a multiple of 3, the addressed vertices exist and there is a
      normal slot for each of them. A count that is not a multiple of 3 is
      turned away before anything is read. */
  predicate InBounds(nTris: nat, start: nat, num: nat, nNormals: nat) {
    num % 3 == 0 ==> start + num <= nTris && start + num <= nNormals
  }

  /** The normals array after the call, given the array `before` it:
      unchanged when `num` is not a multiple of 3; otherwise slot `j` in
      `[start, start + num)` holds the normal of the triangle that starts at
      `j - (j - start) % 3`, and every other slot keeps its entry. */
  function FlatNormalsOf(lib: VecLib, tris: seq<Vec4>, start: nat, num: nat, before: seq<Vec3>): (r: seq<Vec3>)
    requires InBounds(|tris|, start, num, |before|)
    ensures |r| == |before|
  {
    if num % 3 != 0 then before
    else seq(|before|, j requires 0 <= j < |before| =>
               if start <= j < start + num then TriangleNormal(lib, tris, j - (j - start) % 3)
               else before[j])
  }

  /** A count that is not a multiple of 3 writes nothing. */
  lemma RejectsPartialTriangle(lib: VecLib, tris: seq<Vec4>, start: nat, num: nat, before: seq<Vec3>)
    requires num % 3 != 0
    ensures FlatNormalsOf(lib, tris, start, num, before) == before
  {
  }

  /** An empty range is accepted and writes nothing. */
  lemma EmptyRangeWritesNothing(lib: VecLib, tris: seq<Vec4>, start: nat, before: seq<Vec3>)
    requires start <= |tris| && start <= |before|
    ensures FlatNormalsOf(lib, tris, start, 0, before) == before
  {
  }

  /** Slots outside `[start, start + num)` keep their entries. */
  lemma OutsideUnchanged(lib: VecLib, tris: seq<Vec4>, start: nat, num: nat, before: seq<Vec3>, j: nat)
    requires InBounds(|tris|, start, num, |before|)
    requires j < |before| && !(start <= j < start + num)
    ensures FlatNormalsOf(lib, tris, start, num, before)[j] == before[j]
  {
  }

  /** Triangle `k` of the range, at `i = start + 3k`, gets one normal in all
      three of its slots, and that normal is computed from its own three
      vertices. */
  lemma {:induction false} TriangleSlotsShareNormal(lib: VecLib, tris: seq<Vec4>, start: nat, num: nat, before: seq<Vec3>, k: nat)
    requires num % 3 == 0 && InBounds(|tris|, start, num, |before|)
    requires 3 * k < num
    ensures var r := FlatNormalsOf(lib, tris, start, num, before);
            var i := start + 3 * k;
            && r[i] == TriangleNormal(lib, tris, i)
            && r[i + 1] == TriangleNormal(lib, tris, i)
            && r[i + 2] == TriangleNormal(lib, tris, i)
  {
    var i := start + 3 * k;
    assert (i - start) % 3 == 0;
    assert (i + 1 - start) % 3 == 1;
    assert (i + 2 - start) % 3 == 2;
  }

  /** The documented postcondition: if `normalize` returns unit vectors, all
      entries from `start` to `start + num` are unit length. */
  lemma WrittenNormalsAreUnit(lib: VecLib, tris: seq<Vec4>, start: nat, num: nat, before: seq<Vec3>, j: nat)
    requires forall v :: IsUnit(lib.normalize(v))
    requires num % 3 == 0 && InBounds(|tris|, start, num, |before|)
    requires start <= j < start + num
    ensures IsUnit(FlatNormalsOf(lib, tris, start, num, before)[j])
  {
    var i := j - (j - start) % 3;
    assert FlatNormalsOf(lib, tris, start, num, before)[j] == TriangleNormal(lib, tris, i);
  }

  /** The normal of a triangle does not depend on the fourth (w) component
      of its vertices. */
  lemma FaceNormalIgnoresW(lib: VecLib, p0: Vec4, p1: Vec4, p2: Vec4, w0: real, w1: real, w2: real)
    ensures FaceNormal(lib, p0, p1, p2) == FaceNormal(lib, p0.(w := w0), p1.(w := w1), p2.(w := w2))
  {
  }

  /** Running the generator a second time over the same range and vertices
      changes nothing. */
  lemma Idempotent(lib: VecLib, tris: seq<Vec4>, start: nat, num: nat, before: seq<Vec3>)
    requires InBounds(|tris|, start, num, |before|)
    ensures var once := FlatNormalsOf(lib, tris, start, num, before);
            FlatNormalsOf(lib, tris, start, num, once) == once
  {
  }

  /** Covering one more triangle of the range writes exactly its three slots. */
  lemma ExtendByTriangle(lib: VecLib, tris: seq<Vec4>, start: nat, n: nat, before: seq<Vec3>)
    requires n % 3 == 0 && start + n + 3 <= |tris| && start + n + 3 <= |before|
    ensures var i := start + n;
            var t := TriangleNormal(lib, tris, i);
            FlatNormalsOf(lib, tris, start, n + 3, before)
              == FlatNormalsOf(lib, tris, start, n, before)[i := t][i + 1 := t][i + 2 := t]
  {
    var i := start + n;
    var t := TriangleNormal(lib, tris, i);
    var longer := FlatNormalsOf(lib, tris, start, n + 3, before);
    var shorter := FlatNormalsOf(lib, tris, start, n, before)[i := t][i + 1 := t][i + 2 := t];
    forall j | 0 <= j < |before|
      ensures longer[j] == shorter[j]
    {
      if i <= j < i + 3 {
        var m := n / 3;
        assert j - start == 3 * m + (j - i);
        assert (j - start) % 3 == j - i;
      }
    }
  }

  /** The generator itself. It returns `warned` for the console warning it
      prints when `num` is not a multiple of 3, in which case it returns
      without touching `normals`; otherwise it walks the range in steps of 3
      and writes each triangle's normal into its three slots. */
  method MakeFlatNormals(lib: VecLib, triangles: array<Vec4>, start: nat, num: nat, normals: array<Vec3>)
    returns (warned: bool)
    requires InBounds(triangles.Length, start, num, normals.Length)
    modifies normals
    ensures warned <==> num % 3 != 0
    ensures warned ==> normals[..] == old(normals[..])
    ensures normals[..] == FlatNormalsOf(lib, triangles[..], start, num, old(normals[..]))
    ensures triangles[..] == old(triangles[..])
  {
    if num % 3 != 0 {
      warned := true;
      return;
    }
    warned := false;
    ghost var before := normals[..];
    var i := start;
    while i < start + num
      invariant start <= i <= start + num && (i - start) % 3 == 0
      invariant normals[..] == FlatNormalsOf(lib, triangles[..], start, i - start, before)
    {
      ExtendByTriangle(lib, triangles[..], start, i - start, before);
      var p0 := triangles[i];
      var p1 := triangles[i + 1];
      var p2 := triangles[i + 2];
      var n := FaceNormal(lib, p0, p1, p2);
      normals[i] := n;
      normals[i + 1] := n;
      normals[i + 2] := n;
      i := i + 3;
    }
  }
}
