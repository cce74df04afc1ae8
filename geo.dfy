/** The numeric stand-ins shared by the catalogue, the renderer and the JSON
    tree: a C++ `double` and a geographic coordinate. */
module Geo {
  /** A C++ `double`, kept as its IEEE-754 bit pattern: nothing in this model
      computes with doubles, it only stores, copies and compares them. */
  datatype Float64 = Float64(bits: bv64)

  /** The doubles 0.0 and 1.0. */
  const Zero := Float64(0)
  const One := Float64(0x3FF0_0000_0000_0000)

  /** `geo::Coordinates`: a latitude and a longitude. */
  datatype Coordinates = Coordinates(lat: Float64, lng: Float64)
}
