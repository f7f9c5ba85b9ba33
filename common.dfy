/** Optional values and results with an error, used where the Java code returns
    null, an Optional, or throws. */
module Wrappers {

  datatype Option<+T> = None | Some(value: T)

  datatype Result<+R, +E> = Success(value: R) | Failure(error: E)
}

/** The plane the road network lives in. */
module Geom {

  /** A network point: two double coordinates, modelled as reals. */
  datatype Point = Point(x: real, y: real)
}
