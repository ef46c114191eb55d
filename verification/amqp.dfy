/** Failure-free optional values and results, used instead of Go's nil and error returns. */
module Wrappers {
  datatype Option<+T> = None | Some(value: T)

  datatype Result<+T, +E> = Ok(value: T) | Err(error: E)
}

/** The part of the AMQP data model the retry pipeline reads and writes. */
module Amqp {
  import opened Wrappers

  newtype byte = n: int | 0 <= n < 256

  const INT32_MIN := -0x8000_0000
  const INT32_MAX := 0x7FFF_FFFF

  type Int32 = n: int | INT32_MIN <= n <= INT32_MAX
  type Int64 = n: int | -0x8000_0000_0000_0000 <= n <= 0x7FFF_FFFF_FFFF_FFFF

  /** A header value. Integer widths matter, everything else is kept as an opaque token. */
  datatype HeaderValue = I32(i32: Int32) | I64(i64: Int64) | GoInt(n: Int64) | Other(token: string)

  type Table = map<string, HeaderValue>

  /** The message properties of a delivery or publishing; an expiration is in milliseconds. */
  datatype Message = Message(
    headers: Table,
    contentType: string,
    contentEncoding: string,
    persistent: bool,
    priority: nat,
    correlationId: string,
    replyTo: string,
    expiration: Option<nat>,
    messageId: string,
    timestamp: int,
    typ: string,
    userId: string,
    appId: string,
    body: seq<byte>)

  /** Go's int32(n): keep the low 32 bits, read as two's complement. */
  function ToInt32(n: int): (r: Int32)
    ensures (n - r) % 0x1_0000_0000 == 0
  {
    var low := n % 0x1_0000_0000;
    if low <= INT32_MAX then low else low - 0x1_0000_0000
  }
}
