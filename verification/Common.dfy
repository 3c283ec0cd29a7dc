/** Definitions shared by all models. */
module Common {

  datatype Option<+T> = None | Some(value: T)

  /** The largest `usize`, also the largest possible length of a Rust vector or string. */
  const USIZE_MAX: nat := 0xFFFF_FFFF_FFFF_FFFF
}
