/**
 * Vertex and index buffers as the engine builds them before uploading them
 * to the GPU: vertices are flat runs of five floats (x, y, z, u, v), and each
 * quad is two triangles over four vertices, indexed 0,1,3 and 1,2,3 from the
 * quad's first vertex. Index values are `uint32` in the engine; the model
 * uses `nat` (a mesh with more than 2^30 quads would wrap).
 */
module Mesh {
  import opened Transforms

  datatype MeshData = MeshData(vertices: seq<real>, indices: seq<nat>)

  /** The index pattern of one quad, relative to its first vertex. */
  const QuadPattern: seq<nat> := [0, 1, 3, 1, 2, 3]

  /** The six indices of the k-th quad of a mesh. */
  function QuadIndices(k: nat): (r: seq<nat>)
  {
    [4 * k, 4 * k + 1, 4 * k + 3, 4 * k + 1, 4 * k + 2, 4 * k + 3]
  }

  /** The indices of n consecutive quads, each offset by 4 from the previous one. */
  function QuadRun(n: nat): seq<nat>
  {
    if n == 0 then [] else QuadRun(n - 1) + QuadIndices(n - 1)
  }

  /** Index i of a run belongs to quad i / 6 and is its (i % 6)-th corner. */
  lemma {:induction false} QuadRunAt(n: nat)
    ensures |QuadRun(n)| == 6 * n
    ensures forall i :: 0 <= i < 6 * n ==> QuadRun(n)[i] == 4 * (i / 6) + QuadPattern[i % 6]
  {
    if n > 0 {
      QuadRunAt(n - 1);
      var r := QuadRun(n);
      assert r == QuadRun(n - 1) + QuadIndices(n - 1);
      forall i | 0 <= i < 6 * n
        ensures r[i] == 4 * (i / 6) + QuadPattern[i % 6]
      {
        if i >= 6 * (n - 1) {
          assert i / 6 == n - 1 && i % 6 == i - 6 * (n - 1);
        }
      }
    }
  }

  /** Every index of a run of n quads names one of its 4n vertices. */
  lemma QuadRunBounded(n: nat)
    ensures forall i :: 0 <= i < |QuadRun(n)| ==> QuadRun(n)[i] < 4 * n
  {
    QuadRunAt(n);
    forall i | 0 <= i < |QuadRun(n)|
      ensures QuadRun(n)[i] < 4 * n
    {
      assert i / 6 < n;
    }
  }

  /** A mesh whose every index names a vertex it actually holds. */
  predicate IndicesInRange(m: MeshData)
  {
    |m.vertices| % 5 == 0 &&
    forall i :: 0 <= i < |m.indices| ==> m.indices[i] < |m.vertices| / 5
  }

  /** x of the k-th vertex */
  function VX(m: MeshData, k: nat): real
    requires 5 * k < |m.vertices|
  {
    m.vertices[5 * k]
  }

  /** y of the k-th vertex */
  function VY(m: MeshData, k: nat): real
    requires 5 * k + 1 < |m.vertices|
  {
    m.vertices[5 * k + 1]
  }

  /**
   * A four-vertex quad whose corners, in the order bottom-left, bottom-right,
   * top-right, top-left, form the axis-aligned rectangle [x0, x1] × [y0, y1].
   */
  predicate IsRect(m: MeshData, x0: real, x1: real, y0: real, y1: real)
  {
    |m.vertices| == 20 &&
    VX(m, 0) == x0 && VY(m, 0) == y0 &&
    VX(m, 1) == x1 && VY(m, 1) == y0 &&
    VX(m, 2) == x1 && VY(m, 2) == y1 &&
    VX(m, 3) == x0 && VY(m, 3) == y1
  }

  /** A w-by-h rectangle centred on the origin. */
  predicate IsCentredRect(m: MeshData, w: real, h: real)
  {
    IsRect(m, -w / 2.0, w / 2.0, -h / 2.0, h / 2.0)
  }

  /** u and v of the k-th vertex */
  function VU(m: MeshData, k: nat): real
    requires 5 * k + 3 < |m.vertices|
  {
    m.vertices[5 * k + 3]
  }

  function VV(m: MeshData, k: nat): real
    requires 5 * k + 4 < |m.vertices|
  {
    m.vertices[5 * k + 4]
  }

  /**
   * A four-vertex quad textured with the UV rectangle {u min, u max, v min, v max}:
   * (umin, vmin), (umax, vmin), (umax, vmax), (umin, vmax) in vertex order.
   */
  predicate HasCornerUVs(m: MeshData, umin: real, umax: real, vmin: real, vmax: real)
  {
    |m.vertices| == 20 &&
    VU(m, 0) == umin && VV(m, 0) == vmin &&
    VU(m, 1) == umax && VV(m, 1) == vmin &&
    VU(m, 2) == umax && VV(m, 2) == vmax &&
    VU(m, 3) == umin && VV(m, 3) == vmax
  }

  /** Every vertex of a four-vertex quad lies at depth z. */
  predicate AtDepth(m: MeshData, z: real)
  {
    |m.vertices| == 20 &&
    m.vertices[2] == z && m.vertices[7] == z && m.vertices[12] == z && m.vertices[17] == z
  }

  /** One vertex: position (x, y, z) and texture coordinate (u, v). */
  function Corner(x: real, y: real, z: real, u: real, v: real): (r: seq<real>)
  {
    [x, y, z, u, v]
  }

  /**
   * The quad over [x0, x1] × [y0, y1] at depth z, corners counter-clockwise from
   * bottom-left textured with the UV rectangle {u min, u max, v min, v max},
   * indexed as the two triangles of QuadPattern.
   */
  function FlatQuad(x0: real, x1: real, y0: real, y1: real, z: real, uv: Vec4): (m: MeshData)
    ensures |m.vertices| == 20 && m.indices == QuadPattern
  {
    MeshData(Corner(x0, y0, z, uv.x, uv.z) + Corner(x1, y0, z, uv.y, uv.z) +
             Corner(x1, y1, z, uv.y, uv.w) + Corner(x0, y1, z, uv.x, uv.w), [0, 1, 3, 1, 2, 3])
  }

  /** The flat quad is the rectangle, at its depth, with the UV rectangle on its corners, and its indices name its vertices. */
  lemma FlatQuadShape(x0: real, x1: real, y0: real, y1: real, z: real, uv: Vec4)
    ensures var m := FlatQuad(x0, x1, y0, y1, z, uv);
      IsRect(m, x0, x1, y0, y1) && HasCornerUVs(m, uv.x, uv.y, uv.z, uv.w) && AtDepth(m, z) && IndicesInRange(m)
  {
    var a, b := Corner(x0, y0, z, uv.x, uv.z), Corner(x1, y0, z, uv.y, uv.z);
    var c, d := Corner(x1, y1, z, uv.y, uv.w), Corner(x0, y1, z, uv.x, uv.w);
    var vs := FlatQuad(x0, x1, y0, y1, z, uv).vertices;
    assert vs == a + b + c + d;
    assert vs[0] == a[0] && vs[1] == a[1] && vs[2] == a[2] && vs[3] == a[3] && vs[4] == a[4];
    assert vs[5] == b[0] && vs[6] == b[1] && vs[7] == b[2] && vs[8] == b[3] && vs[9] == b[4];
    assert vs[10] == c[0] && vs[11] == c[1] && vs[12] == c[2] && vs[13] == c[3] && vs[14] == c[4];
    assert vs[15] == d[0] && vs[16] == d[1] && vs[17] == d[2] && vs[18] == d[3] && vs[19] == d[4];
  }

  /** The engine's `append(indices, 0+offset, 1+offset, 3+offset, 1+offset, 2+offset, 3+offset)` for the quad starting at vertex `offset`. */
  method AppendQuadIndices(indices: seq<nat>, offset: nat, ghost quad: nat) returns (r: seq<nat>)
    requires offset == 4 * quad
    ensures r == indices + QuadIndices(quad)
  {
    r := indices + [0 + offset, 1 + offset, 3 + offset, 1 + offset, 2 + offset, 3 + offset];
  }
}
