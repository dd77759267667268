/** Three-component vectors over the reals: the part of Unity's Vector3 that the
    controller and the gravity registry use (addition, scaling, dot product).
    Real arithmetic is exact, so float rounding is not part of this model. */
module Vectors {

  datatype Vec3 = Vec3(x: real, y: real, z: real)

  const Zero: Vec3 := Vec3(0.0, 0.0, 0.0)
  const Up: Vec3 := Vec3(0.0, 1.0, 0.0)
  const Right: Vec3 := Vec3(1.0, 0.0, 0.0)
  const Forward: Vec3 := Vec3(0.0, 0.0, 1.0)

  function Add(a: Vec3, b: Vec3): Vec3 {
    Vec3(a.x + b.x, a.y + b.y, a.z + b.z)
  }

  function Sub(a: Vec3, b: Vec3): Vec3 {
    Vec3(a.x - b.x, a.y - b.y, a.z - b.z)
  }

  function Neg(a: Vec3): Vec3 {
    Vec3(-a.x, -a.y, -a.z)
  }

  /** `v * k` in Unity's notation. */
  function Scale(k: real, v: Vec3): Vec3 {
    Vec3(k * v.x, k * v.y, k * v.z)
  }

  function Dot(a: Vec3, b: Vec3): real {
    a.x * b.x + a.y * b.y + a.z * b.z
  }

  /** Left-to-right sum of a sequence of vectors, starting from the zero vector. */
  function Sum(vs: seq<Vec3>): Vec3 {
    if vs == [] then Zero else Add(Sum(vs[..|vs| - 1]), vs[|vs| - 1])
  }

  lemma DotSymmetric(a: Vec3, b: Vec3)
    ensures Dot(a, b) == Dot(b, a)
  {
  }

  /** Scaling one side scales the dot product. */
  lemma DotScale(k: real, d: Vec3, w: Vec3)
    ensures Dot(Scale(k, d), w) == k * Dot(d, w)
  {
  }

  /** Dot product distributes over `v + k d`. */
  lemma DotScaleAdd(v: Vec3, k: real, d: Vec3, w: Vec3)
    ensures Dot(Add(v, Scale(k, d)), w) == Dot(v, w) + k * Dot(d, w)
  {
  }

  /** Dot product distributes over `v + a p + b q`. */
  lemma DotLinear(v: Vec3, a: real, p: Vec3, b: real, q: Vec3, w: Vec3)
    ensures Dot(Add(v, Add(Scale(a, p), Scale(b, q))), w) == Dot(v, w) + a * Dot(p, w) + b * Dot(q, w)
  {
  }

  /** Adding `a x + b z` to `v`, for orthonormal `x` and `z`, adds `a` to the
      component along `x`, `b` to the one along `z`, and nothing along any
      direction perpendicular to both. */
  lemma OrthonormalUpdate(v: Vec3, a: real, x: Vec3, b: real, z: Vec3, n: Vec3)
    requires Dot(x, x) == 1.0 && Dot(z, z) == 1.0 && Dot(x, z) == 0.0
    requires Dot(n, x) == 0.0 && Dot(n, z) == 0.0
    ensures Dot(Add(v, Add(Scale(a, x), Scale(b, z))), x) == Dot(v, x) + a
    ensures Dot(Add(v, Add(Scale(a, x), Scale(b, z))), z) == Dot(v, z) + b
    ensures Dot(Add(v, Add(Scale(a, x), Scale(b, z))), n) == Dot(v, n)
  {
    DotLinear(v, a, x, b, z, x);
    DotLinear(v, a, x, b, z, z);
    DotLinear(v, a, x, b, z, n);
    DotSymmetric(z, x);
    DotSymmetric(x, n);
    DotSymmetric(z, n);
  }

  /** Moving the components of `v` along unit axes `x` and `z`, which need not
      be orthogonal, to the values `p` and `q`: each component lands on its
      target plus the other move times the cosine between the axes. */
  lemma SkewUpdate(v: Vec3, p: real, x: Vec3, q: real, z: Vec3)
    requires Dot(x, x) == 1.0 && Dot(z, z) == 1.0
    ensures var w := Add(v, Add(Scale(p - Dot(v, x), x), Scale(q - Dot(v, z), z)));
      && Dot(w, x) == p + (q - Dot(v, z)) * Dot(x, z)
      && Dot(w, z) == q + (p - Dot(v, x)) * Dot(x, z)
  {
    DotLinear(v, p - Dot(v, x), x, q - Dot(v, z), z, x);
    DotLinear(v, p - Dot(v, x), x, q - Dot(v, z), z, z);
    DotSymmetric(z, x);
  }
}
