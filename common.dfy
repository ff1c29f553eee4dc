/** Types shared by every part of the model: Go's fixed-width integers as
    subset types, opaque byte strings, an Option and a Result whose error
    side is the error values the library returns. */
module Common {

  type Bytes = seq<bv8>

  type int64 = x: int | -0x8000_0000_0000_0000 <= x < 0x8000_0000_0000_0000
  type int32 = x: int | -0x8000_0000 <= x < 0x8000_0000
  type uint32 = x: int | 0 <= x < 0x1_0000_0000

  datatype Option<+T> = None | Some(value: T)

  /** The errors a call can end with: the sentinel values of exception.go,
      and the foreign failures (marshalling, the transport, the caller's
      context, unmarshalling the reply) that are passed through unchanged. */
  datatype Error =
    | SymbolIdRequired
    | AssetIdRequired
    | FromTimestampRequired
    | ToTimestampRequired
    | TimestampRange
    | VolumeRequired
    | PositionIdRequired
    | MarshalFailed
    | SendFailed(code: nat)
    | ContextDone
    | UnmarshalFailed

  datatype Result<+T> = Ok(value: T) | Err(error: Error)
}
