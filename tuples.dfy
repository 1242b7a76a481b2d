/** The application-side tuple types. */
module Tuples {

  /** `Tuple10<A, ..., J>`: ten ordered components; `vK` is the Java `_K()`. */
  datatype Tuple10<+A, +B, +C, +D, +E, +F, +G, +H, +I, +J> =
    Tuple10(v1: A, v2: B, v3: C, v4: D, v5: E, v6: F, v7: G, v8: H, v9: I, v10: J)
}
