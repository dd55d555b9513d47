/**
 * The model-matrix chain shared by both renderable classes:
 * `translate`, `scale` and `rotate` each replace the model matrix by the old
 * one right-multiplied by elementary matrices, and `rotate` applies its X,
 * Y and Z rotations one after the other, in that order.
 */
module Transforms {
  import opened Gl

  /** One call of translate(pos), scale(scalers) or rotate(angles in degrees). */
  datatype Transform =
    | Translate(pos: Vec3)
    | Scale(scalers: Vec3)
    | Rotate(angles: Vec3)

  /** The elementary matrices one call multiplies in, in multiplication order. */
  function Factors(t: Transform): seq<Mat4> {
    match t
    case Translate(pos) => [Translation(pos)]
    case Scale(s) => [Scaling(s)]
    case Rotate(a) => [Rotation(XAxis, a.x), Rotation(YAxis, a.y), Rotation(ZAxis, a.z)]
  }

  /** m · f[0] · f[1] · … · f[n-1], multiplied left to right. */
  function RightMultiply(m: Mat4, fs: seq<Mat4>): Mat4
    decreases |fs|
  {
    if fs == [] then m else RightMultiply(Times(m, fs[0]), fs[1..])
  }

  /** The matrix after one call: glm.translate/scale/rotate on the old matrix. */
  function Apply(m: Mat4, t: Transform): Mat4 {
    match t
    case Translate(pos) => Times(m, Translation(pos))
    case Scale(s) => Times(m, Scaling(s))
    case Rotate(a) =>
      Times(Times(Times(m, Rotation(XAxis, a.x)), Rotation(YAxis, a.y)), Rotation(ZAxis, a.z))
  }

  /** One call multiplies in exactly its elementary matrices, left to right. */
  lemma ApplyIsProduct(m: Mat4, t: Transform)
    ensures Apply(m, t) == RightMultiply(m, Factors(t))
  {
    var fs := Factors(t);
    if t.Rotate? {
      var a := t.angles;
      var mx := Times(m, Rotation(XAxis, a.x));
      var mxy := Times(mx, Rotation(YAxis, a.y));
      assert fs[1..] == [Rotation(YAxis, a.y), Rotation(ZAxis, a.z)];
      assert fs[1..][1..] == [Rotation(ZAxis, a.z)];
      assert RightMultiply(mxy, fs[1..][1..]) == Times(mxy, Rotation(ZAxis, a.z));
    } else {
      assert fs[1..] == [];
    }
  }

  /** The matrix after a chain of calls, made in sequence order. */
  function ApplyAll(m: Mat4, ts: seq<Transform>): Mat4
    decreases |ts|
  {
    if ts == [] then m else ApplyAll(Apply(m, ts[0]), ts[1..])
  }

  /** Every elementary matrix a chain of calls multiplies in, in call order. */
  function AllFactors(ts: seq<Transform>): seq<Mat4>
    decreases |ts|
  {
    if ts == [] then [] else Factors(ts[0]) + AllFactors(ts[1..])
  }

  lemma {:induction false} RightMultiplyAppend(m: Mat4, a: seq<Mat4>, b: seq<Mat4>)
    ensures RightMultiply(m, a + b) == RightMultiply(RightMultiply(m, a), b)
    decreases |a|
  {
    if a != [] {
      assert (a + b)[1..] == a[1..] + b;
      RightMultiplyAppend(Times(m, a[0]), a[1..], b);
    } else {
      assert a + b == b;
    }
  }

  /**
   * Any chain of translate/scale/rotate calls leaves the starting matrix
   * right-multiplied by each call's elementary matrices, in call order.
   */
  lemma {:induction false} ChainIsProduct(m: Mat4, ts: seq<Transform>)
    ensures ApplyAll(m, ts) == RightMultiply(m, AllFactors(ts))
    decreases |ts|
  {
    if ts != [] {
      ChainIsProduct(Apply(m, ts[0]), ts[1..]);
      ApplyIsProduct(m, ts[0]);
      RightMultiplyAppend(m, Factors(ts[0]), AllFactors(ts[1..]));
    }
  }

  /** Chains compose: running two chains one after the other is running their concatenation. */
  lemma {:induction false} ChainsCompose(m: Mat4, s: seq<Transform>, t: seq<Transform>)
    ensures ApplyAll(ApplyAll(m, s), t) == ApplyAll(m, s + t)
    decreases |s|
  {
    if s != [] {
      assert (s + t)[1..] == s[1..] + t;
      ChainsCompose(Apply(m, s[0]), s[1..], t);
    } else {
      assert s + t == t;
    }
  }
}
