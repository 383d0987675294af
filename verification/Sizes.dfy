/** The C engine's fixed sizes. Strings leave room for their terminator. */
module Sizes {
  const MAX_NODES := 8
  const MAX_PEERS := MAX_NODES - 1
  const MAX_ID := 16
  const MAX_LOG := 128
  const MAX_OP := 32
  const MAX_KEY := 64
  const MAX_VALUE := 128
  const MAX_PAIRS := 128
  const MAX_SNAPSHOT := 4096
}
