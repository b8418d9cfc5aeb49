/** Values exchanged between the GPS reader and the position tracer. */
module Types {

  /** A position on earth at an instant (seconds since the epoch). */
  datatype Point = Point(latitude: real, longitude: real, time: int)
}
