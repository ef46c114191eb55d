/** Cloning a failed delivery: the retry counter header and what a clone keeps of the original. */
module Republishing {
  import opened Wrappers
  import opened Amqp
  import RetryPolicies

  const RETRY_HEADER := "x-retry-count"

  // Headers RabbitMQ itself adds when it dead-letters a message.
  const BROKER_HEADERS := {
    "x-death",
    "x-first-death-exchange", "x-first-death-queue", "x-first-death-reason",
    "x-last-death-exchange", "x-last-death-queue", "x-last-death-reason"}

  /** The number of retries recorded in a header table; anything unreadable counts as none. */
  function RetryCount(headers: Table): Int64 {
    if RETRY_HEADER !in headers then 0
    else match headers[RETRY_HEADER]
      case I32(n) => n
      case I64(n) => n
      case GoInt(n) => n
      case Other(_) => 0
  }

  /** The counter is read from the header x-retry-count, in any of the three integer widths; else there is none. */
  lemma RetryCountReads(headers: Table, n: Int32, wide: Int64, token: string)
    ensures "x-retry-count" !in headers ==> RetryCount(headers) == 0
    ensures RetryCount(headers["x-retry-count" := I32(n)]) == n
    ensures RetryCount(headers["x-retry-count" := I64(wide)]) == wide
    ensures RetryCount(headers["x-retry-count" := GoInt(wide)]) == wide
    ensures RetryCount(headers["x-retry-count" := Other(token)]) == 0
  {
  }

  /** A header table with the counter stamped in, narrowed to 32 bits. */
  function Stamped(headers: Table, retries: int): Table {
    headers[RETRY_HEADER := I32(ToInt32(retries))]
  }

  /** How long a publishing may wait, as the broker reads it: nothing, or whole milliseconds. */
  function Ttl(expiration: int): Option<nat> {
    if expiration > 0 then Some(expiration / RetryPolicies.MILLISECOND) else None
  }

  /** The publishing built from a delivery; `expiration` is in nanoseconds. */
  function Clone(m: Message, retries: int, expiration: int): Message {
    Message(
      Stamped(m.headers, retries), m.contentType, "", true, 0, m.correlationId, "", Ttl(expiration),
      m.messageId, m.timestamp, m.typ, "", m.appId, m.body)
  }

  /** Building the publishing step by step; the delivery's own header table is only read. */
  method BuildClone(m: Message, retries: int, expiration: int) returns (clone: Message)
    ensures clone == Clone(m, retries, expiration)
  {
    var headers: Table := map[];
    var pending := m.headers.Keys;
    while pending != {}
      invariant pending <= m.headers.Keys
      invariant headers.Keys == m.headers.Keys - pending
      invariant forall k <- headers :: headers[k] == m.headers[k]
      decreases |pending|
    {
      var k :| k in pending;
      headers := headers[k := m.headers[k]];
      pending := pending - {k};
    }
    assert headers == m.headers;
    headers := headers[RETRY_HEADER := I32(ToInt32(retries))];
    var ttl := None;
    if expiration > 0 {
      ttl := Some(expiration / RetryPolicies.MILLISECOND);
    }
    clone := Message(headers, m.contentType, "", true, 0, m.correlationId, "", ttl,
                     m.messageId, m.timestamp, m.typ, "", m.appId, m.body);
  }

  /** What the pipeline read back from a stamped table is what it wrote, exactly on the int32 range. */
  lemma CounterRoundTrip(headers: Table, retries: int)
    ensures RetryCount(Stamped(headers, retries)) == retries <==> INT32_MIN <= retries <= INT32_MAX
  {
    if INT32_MIN <= retries < 0 {
      assert retries % 0x1_0000_0000 == retries + 0x1_0000_0000;
    }
  }

  /** The headers that belong to the application: all but the counter and the broker's own. */
  function UserHeaders(headers: Table): Table {
    map k | k in headers && k != RETRY_HEADER && k !in BROKER_HEADERS :: headers[k]
  }

  /** Two messages carry the same application content. */
  predicate SameContent(a: Message, b: Message) {
    && a.body == b.body
    && a.contentType == b.contentType
    && a.typ == b.typ
    && a.correlationId == b.correlationId
    && a.messageId == b.messageId
    && a.timestamp == b.timestamp
    && a.appId == b.appId
    && UserHeaders(a.headers) == UserHeaders(b.headers)
  }

  /** A clone has the content of its original, whatever its counter and expiration. */
  lemma CloneKeepsContent(m: Message, retries: int, expiration: int)
    ensures SameContent(m, Clone(m, retries, expiration))
    ensures forall k <- m.headers :: k != RETRY_HEADER ==>
      k in Clone(m, retries, expiration).headers && Clone(m, retries, expiration).headers[k] == m.headers[k]
  {
    assert UserHeaders(m.headers) == UserHeaders(Stamped(m.headers, retries));
  }

  /**
   * A clone is its original with only the counter stamped exactly when the original left unset the
   * four properties that are not carried over, was persistent, and already had the clone's own TTL.
   */
  lemma CloneIsCompleteIff(m: Message, retries: int, expiration: int)
    ensures Clone(m, retries, expiration) == m.(headers := Stamped(m.headers, retries))
       <==> && m.contentEncoding == "" && m.priority == 0 && m.replyTo == "" && m.userId == ""
            && m.persistent
            && m.expiration == (if expiration > 0 then Some(expiration / 1_000_000) else None)
  {
  }
}
