/**
 * Float vectors and colours of the engine (`FLinearColor`, `FVector`,
 * `FVector2f`, `FVector4f`) over the reals, and `FMath::Lerp`.
 */
module Vectors {

  datatype LinearColor = LinearColor(r: real, g: real, b: real, a: real)

  datatype Vector3 = Vector3(x: real, y: real, z: real)

  datatype Vector2 = Vector2(x: real, y: real)

  datatype Vector4 = Vector4(x: real, y: real, z: real, w: real)

  /** `FMath::Lerp(A, B, Alpha)`: A moved toward B by the fraction Alpha. */
  function Lerp(a: real, b: real, w: real): real {
    a + (b - a) * w
  }

  /** `FMath::Lerp` on an `FLinearColor`: every channel independently. */
  function LerpColor(a: LinearColor, b: LinearColor, w: real): LinearColor {
    LinearColor(Lerp(a.r, b.r, w), Lerp(a.g, b.g, w), Lerp(a.b, b.b, w), Lerp(a.a, b.a, w))
  }

  /** `FMath::Lerp` on an `FVector`: every component independently. */
  function LerpVector3(a: Vector3, b: Vector3, w: real): Vector3 {
    Vector3(Lerp(a.x, b.x, w), Lerp(a.y, b.y, w), Lerp(a.z, b.z, w))
  }

  /** Lerping twice toward the same target is one lerp by the combined weight. */
  lemma LerpRepeat(x: real, b: real, w1: real, w2: real)
    ensures Lerp(Lerp(x, b, w1), b, w2) == Lerp(x, b, w1 + w2 - w1 * w2)
  {
    // both sides leave (1 - w1) * (1 - w2) of the distance from x to b
    calc {
      Lerp(Lerp(x, b, w1), b, w2);
      b - (b - x) * (1.0 - w1) * (1.0 - w2);
      Lerp(x, b, w1 + w2 - w1 * w2);
    }
  }

  lemma LerpColorRepeat(a: LinearColor, b: LinearColor, w1: real, w2: real)
    ensures LerpColor(LerpColor(a, b, w1), b, w2) == LerpColor(a, b, w1 + w2 - w1 * w2)
  {
    LerpRepeat(a.r, b.r, w1, w2);
    LerpRepeat(a.g, b.g, w1, w2);
    LerpRepeat(a.b, b.b, w1, w2);
    LerpRepeat(a.a, b.a, w1, w2);
  }

  lemma LerpVector3Repeat(a: Vector3, b: Vector3, w1: real, w2: real)
    ensures LerpVector3(LerpVector3(a, b, w1), b, w2) == LerpVector3(a, b, w1 + w2 - w1 * w2)
  {
    LerpRepeat(a.x, b.x, w1, w2);
    LerpRepeat(a.y, b.y, w1, w2);
    LerpRepeat(a.z, b.z, w1, w2);
  }
}
