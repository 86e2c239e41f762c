/** The vector types of the renderer's interface. Coordinates and colour
    components are single-precision floats in the program; here they are
    exact reals, passed through unchanged. */
module LinAlg {

  /** A 2D point or extent (float2). */
  datatype Float2 = Float2(x: real, y: real)

  /** An RGB colour or 3D vector (float3). */
  datatype Float3 = Float3(x: real, y: real, z: real)
}
