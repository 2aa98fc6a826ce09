/** Small shared vocabulary: raw bytes and an optional value. */
module Common {

  /** One octet, as produced by the camera and the JPEG encoder. */
  newtype byte = x: int | 0 <= x < 256

  datatype Option<+T> = None | Some(value: T)
}
