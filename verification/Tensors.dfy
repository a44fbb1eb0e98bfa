/** The tensors themselves are foreign: one token's key or value at one layer is an opaque value. */
module Tensors {
  type Vec(==, !new)
}
