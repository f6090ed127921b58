/** The GPU as the engine sees it: vertex batches, uniform values, 4x4
    matrices, and the trace of calls the engine issues during a frame. */
module Gpu {
  import opened Host

  predicate IsMat4(m: Matrix)
  {
    |m| == 4 && forall i :: 0 <= i < 4 ==> |m[i]| == 4
  }

  /** `Matrix.transposed()` of a 4x4 matrix. */
  function Transposed(m: Matrix): (t: Matrix)
    requires IsMat4(m)
    ensures IsMat4(t)
    ensures forall i, j :: 0 <= i < 4 && 0 <= j < 4 ==> t[i][j] == m[j][i]
  {
    seq(4, i requires 0 <= i < 4 => seq(4, j requires 0 <= j < 4 => m[j][i]))
  }

  /** Transposing twice gives the matrix back. */
  lemma TransposedTwice(m: Matrix)
    requires IsMat4(m)
    ensures Transposed(Transposed(m)) == m
  {
    var t := Transposed(Transposed(m));
    forall i | 0 <= i < 4
      ensures t[i] == m[i]
    {
      assert |t[i]| == |m[i]|;
    }
  }

  /** A triangle-list batch made by `batch_for_shader`: per-vertex positions,
      normals and colours, and a flat list of vertex indices, three per triangle. */
  datatype Batch = Batch(positions: seq<Vec3>, normals: seq<Vec3>, colors: seq<Rgba>, indices: seq<nat>)
  {
    /** The vertex attributes line up and the indices come in triples. */
    predicate Aligned()
    {
      |normals| == |positions| && |colors| == |positions| && |indices| % 3 == 0
    }

    /** No index refers past the last vertex. */
    predicate IndicesInRange()
    {
      forall k :: 0 <= k < |indices| ==> indices[k] < |positions|
    }
  }

  datatype UniformValue =
    | MatrixValue(m: Matrix)
    | FloatValue(f: real)
    | BoolValue(flags: seq<bool>)

  datatype DepthTest = LessEqual | NoDepthTest
  datatype FaceCulling = Back | NoCulling

  /** One call the engine makes into the GPU module. `UniformSet` is
      `uniform_float` or `uniform_bool` (told apart by the value) that did
      not raise. */
  datatype GpuEvent =
    | DepthMaskSet(write: bool)
    | DepthTestSet(test: DepthTest)
    | FaceCullingSet(culling: FaceCulling)
    | ShaderBind
    | UniformSet(name: string, value: UniformValue)
    | BatchDraw(batch: Batch)

  /** The batches drawn by a trace, in order. */
  function DrawnBatches(events: seq<GpuEvent>): (r: seq<Batch>)
    ensures |r| <= |events|
  {
    if events == [] then []
    else
      var last := events[|events| - 1];
      DrawnBatches(events[..|events| - 1]) + (if last.BatchDraw? then [last.batch] else [])
  }

  /** Drawing the trace `a + b` draws `a`'s batches, then `b`'s. */
  lemma {:induction false} DrawnBatchesAppend(a: seq<GpuEvent>, b: seq<GpuEvent>)
    ensures DrawnBatches(a + b) == DrawnBatches(a) + DrawnBatches(b)
  {
    if b == [] {
      assert a + b == a;
    } else {
      var n := |b| - 1;
      assert (a + b)[..|a + b| - 1] == a + b[..n];
      DrawnBatchesAppend(a, b[..n]);
    }
  }
}
