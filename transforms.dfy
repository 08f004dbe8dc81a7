/**
 * The engine's vector, transform and light records (engine/transform.go and
 * engine/light.go). mgl32's float32 vectors are modelled as tuples of reals;
 * the matrix products `GetMatrix` and `Light.position` are not modelled.
 */
module Transforms {

  datatype Vec3 = Vec3(x: real, y: real, z: real)
  datatype Vec4 = Vec4(x: real, y: real, z: real, w: real)

  /** Position (z is the layering index), scale and rotation. */
  datatype Transform = Transform(pos: Vec3, scale: Vec3, rot: Vec3)

  const Zero3 := Vec3(0.0, 0.0, 0.0)
  const One3 := Vec3(1.0, 1.0, 1.0)
  const Zero4 := Vec4(0.0, 0.0, 0.0, 0.0)

  /** engine/transform.go NewTransform: unit scale, no rotation. */
  function NewTransform(x: real, y: real, z: real): Transform
  {
    Transform(Vec3(x, y, z), One3, Zero3)
  }

  /** A light pushed to the renderer: colour (RGB plus intensity), falloff triple, transform. */
  datatype Light = Light(colour: Vec4, falloffs: Vec3, transform: Transform)

  /** engine/light.go NewLight: the falloff triple is fixed at (0.3, 4, 20). */
  function NewLight(x: real, y: real, z: real, r: real, g: real, b: real, intensity: real): Light
  {
    Light(Vec4(r, g, b, intensity), Vec3(0.3, 4.0, 20.0), NewTransform(x, y, z))
  }
}
