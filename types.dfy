/** Machine integers, byte strings and the error shapes shared by the Kafka and outbox crates. */
module Types {

  /** Rust `u8`: one byte of a Kafka key or payload. */
  newtype u8 = x: int | 0 <= x < 0x100

  /** Rust `u32`: the width of `max_retries`. */
  newtype u32 = x: int | 0 <= x < 0x1_0000_0000

  /** Rust `u64`: the width of `user_id` and `timeout_ms`. */
  newtype u64 = x: int | 0 <= x < 0x1_0000_0000_0000_0000

  /** A `&[u8]` key or payload. */
  type Bytes = seq<u8>

  datatype Option<+T> = None | Some(value: T) {
    /** `unwrap_or(default)`; with `[]` as default it is `unwrap_or_default` on a slice. */
    function GetOr(default: T): T {
      match this
      case Some(v) => v
      case None => default
    }
  }

  datatype Result<+T, +E> = Ok(value: T) | Err(error: E)

  /** The variants of `common_error::error::KafkaError` that the core raises. */
  datatype KafkaError =
    | ClientCreation(detail: string)
    | MessageSend(detail: string)
    | MessageDelivery(detail: string)

  /** A failed MongoDB round trip (`mongodb::error::Error`); its contents are not modelled. */
  datatype DbError = DbError
}
