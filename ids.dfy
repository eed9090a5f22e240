/** Call identifiers: `PluginOpCallId` is a UUID (src/runtime.rs:27). */
module Ids {

  /** A 128-bit UUID, kept as the integer its bits spell. */
  newtype CallId = x: int | 0 <= x < 0x1_0000_0000_0000_0000_0000_0000_0000_0000

  /** The nil UUID (all bits zero): the sentinel id that makes the dispatch
      loop broadcast one outcome to every pending call. */
  const NIL: CallId := 0

  predicate IsNil(id: CallId) {
    id == NIL
  }
}
