/** Optional values and results. */
module Wrappers {
  datatype Option<+T> = None | Some(value: T)

  datatype Result<+T, +E> = Ok(value: T) | Err(error: E)
}

/** 64-bit unsigned arithmetic that stops at its largest value. */
module Integers {
  const U64_MAX := 0xFFFF_FFFF_FFFF_FFFF

  function Saturate(x: nat): nat { if x < U64_MAX then x else U64_MAX }
}
