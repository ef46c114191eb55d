/** Content-type sniffing on upload: read ahead at most 512 bytes, then replay them in front of the rest. */
module Sniffing {
  import opened Wrappers
  import opened Amqp

  const SNIFF_LEN := 512

  /** Why a read yields no more: io.EOF, io.ErrUnexpectedEOF, or any other error. */
  datatype ReadError = EndOfFile | Truncated | Fault(reason: string)

  /**
   * A stream a reader has yet to deliver: the bytes, how it paces them, and how it ends. `pace`
   * bounds the successive reads, 0 being an empty read; once it runs out a read gives all it can.
   * `eager` readers report the end together with the last bytes. Reads past the end report `next`,
   * then the errors of `later` one by one, the last of them for ever.
   */
  class Reader {
    var pending: seq<byte>
    var pace: seq<nat>
    var next: ReadError
    var later: seq<ReadError>
    const eager: bool

    constructor (bytes: seq<byte>, pace: seq<nat>, next: ReadError, later: seq<ReadError>, eager: bool)
      ensures pending == bytes && this.pace == pace && this.next == next && this.later == later && this.eager == eager
    {
      pending := bytes;
      this.pace := pace;
      this.next := next;
      this.later := later;
      this.eager := eager;
    }

    /** Report the end of the stream. */
    method Report() returns (err: ReadError)
      modifies this`next, this`later
      ensures err == old(next) && next == Following(old(next), old(later))
    {
      err := next;
      if later != [] {
        next := later[0];
        later := later[1..];
      }
    }

    /** io.Reader's contract: some of the next bytes, in order, and an error only at the end. */
    method Read(buf: array<byte>, from: nat) returns (n: nat, err: Option<ReadError>)
      requires from < buf.Length
      modifies this, buf
      ensures n <= |old(pending)| && from + n <= buf.Length
      ensures pending == old(pending)[n..]
      ensures buf[..from + n] == old(buf[..from]) + old(pending)[..n]
      ensures buf[from + n..] == old(buf[from + n..])
      ensures err.Some? <==> pending == [] && (old(pending) == [] || eager)
      ensures err.Some? ==> err.value == old(next) && next == Following(old(next), old(later))
      ensures err.None? ==> next == old(next) && later == old(later)
      ensures err.None? ==> |pending| < |old(pending)| || |pace| < |old(pace)|
      ensures |pace| <= |old(pace)|
    {
      if |pending| == 0 {
        var end := Report();
        return 0, Some(end);
      }
      n := if |pending| < buf.Length - from then |pending| else buf.Length - from;
      if pace != [] {
        n := if pace[0] < n then pace[0] else n;
        pace := pace[1..];
      }
      Copy(buf, from, n);
      pending := pending[n..];
      err := None;
      if eager && pending == [] {
        var end := Report();
        err := Some(end);
      }
    }

    /** Copy the next `n` bytes into the buffer. */
    method Copy(buf: array<byte>, from: nat, n: nat)
      requires n <= |pending| && from + n <= buf.Length
      modifies buf
      ensures buf[..from + n] == old(buf[..from]) + pending[..n]
      ensures buf[from + n..] == old(buf[from + n..])
    {
      var k := 0;
      while k < n
        invariant 0 <= k <= n
        invariant buf[..from + k] == old(buf[..from]) + pending[..k]
        invariant forall j | from + k <= j < buf.Length :: buf[j] == old(buf[j])
      {
        buf[from + k] := pending[k];
        k := k + 1;
      }
    }
  }

  /** The error after the one just reported. */
  function Following(next: ReadError, later: seq<ReadError>): ReadError {
    if later != [] then later[0] else next
  }

  datatype FillError = NoBytes | TooFewBytes | Failed(reason: string)

  /** Filling a buffer of this length reaches, and so uses up, the end a stream reports. */
  predicate UsesUpEnd(length: nat, available: nat, eager: bool) {
    available < length || (available == length && eager)
  }

  /**
   * io.ReadFull: fill the buffer, or explain why not; it returns nil exactly when the buffer is full.
   * An io.EOF after some bytes becomes io.ErrUnexpectedEOF, which the reader may also report itself.
   */
  method ReadFull(r: Reader, buf: array<byte>) returns (n: nat, err: Option<FillError>)
    requires buf.Length > 0
    modifies r, buf
    ensures n == Shorter(buf.Length, |old(r.pending)|)
    ensures buf[..n] == old(r.pending)[..n] && r.pending == old(r.pending)[n..]
    ensures err.None? <==> |old(r.pending)| >= buf.Length
    ensures err.Some? && err.value.Failed? <==> |old(r.pending)| < buf.Length && old(r.next).Fault?
    ensures err.Some? && err.value.Failed? ==> old(r.next) == Fault(err.value.reason)
    ensures err == Some(NoBytes) <==> old(r.pending) == [] && old(r.next).EndOfFile?
    ensures err == Some(TooFewBytes) <==>
      |old(r.pending)| < buf.Length && (old(r.next).Truncated? || (old(r.next).EndOfFile? && old(r.pending) != []))
    ensures r.next ==
      if UsesUpEnd(buf.Length, |old(r.pending)|, r.eager) then Following(old(r.next), old(r.later)) else old(r.next)
  {
    n := 0;
    var e: Option<ReadError> := None;
    while n < buf.Length && e.None?
      invariant 0 <= n <= buf.Length && n <= |old(r.pending)|
      invariant buf[..n] == old(r.pending)[..n] && r.pending == old(r.pending)[n..]
      invariant e.Some? ==> e.value == old(r.next) && r.pending == [] && r.next == Following(old(r.next), old(r.later))
      invariant e.Some? ==> n < buf.Length || r.eager
      invariant e.None? ==> r.next == old(r.next) && r.later == old(r.later)
      invariant e.None? && r.pending == [] && n > 0 ==> !r.eager
      decreases e.None?, |r.pending| + |r.pace|
    {
      var got;
      ghost var before := r.pending;
      got, e := r.Read(buf, n);
      n := n + got;
      assert old(r.pending)[..n - got] + before[..got] == old(r.pending)[..n];
    }
    if n >= buf.Length {
      err := None;
    } else {
      err := match e.value
        case EndOfFile => if n > 0 then Some(TooFewBytes) else Some(NoBytes)
        case Truncated => Some(TooFewBytes)
        case Fault(reason) => Some(Failed(reason));
    }
  }

  function Shorter(a: nat, b: nat): nat {
    if a <= b then a else b
  }

  // ----- Detection -----

  function LowerByte(b: byte): byte {
    if 65 <= b <= 90 then b + 32 else b
  }

  function LowerBytes(s: seq<byte>): (t: seq<byte>)
    ensures |t| == |s|
  {
    seq(|s|, k requires 0 <= k < |s| => LowerByte(s[k]))
  }

  function LowerChar(c: char): char {
    if 'A' <= c <= 'Z' then (c as int + 32) as char else c
  }

  function LowerString(s: string): (t: string)
    ensures |t| == |s|
  {
    seq(|s|, k requires 0 <= k < |s| => LowerChar(s[k]))
  }

  predicate HasSuffix(s: string, suffix: string) {
    |suffix| <= |s| && s[|s| - |suffix|..] == suffix
  }

  ghost predicate Contains(s: seq<byte>, part: seq<byte>) {
    exists i: nat :: OccursAt(s, part, i)
  }

  predicate OccursAt(s: seq<byte>, part: seq<byte>, i: nat) {
    i + |part| <= |s| && s[i..i + |part|] == part
  }

  /** bytes.Contains. */
  method HasTag(s: seq<byte>, part: seq<byte>) returns (found: bool)
    ensures found <==> Contains(s, part)
  {
    var i := 0;
    while i + |part| <= |s|
      invariant forall k: nat | k < i :: !OccursAt(s, part, k)
    {
      if s[i..i + |part|] == part {
        assert OccursAt(s, part, i);
        return true;
      }
      i := i + 1;
    }
    found := false;
  }

  const SVG_TAG: seq<byte> := [60, 115, 118, 103] // "<svg"

  ghost predicate LooksLikeSvg(key: string, head: seq<byte>) {
    HasSuffix(LowerString(key), ".svg") || Contains(LowerBytes(head), SVG_TAG)
  }

  /** The detected type, given the standard detector as a function of the leading bytes. */
  ghost function DetectedType(detect: seq<byte> -> string, key: string, body: seq<byte>): string {
    var head := body[..Shorter(SNIFF_LEN, |body|)];
    if LooksLikeSvg(key, head) then "image/svg+xml" else detect(head)
  }

  /** The suffix is found in any mix of cases, and only there. */
  lemma SvgKeyIff(key: string)
    ensures HasSuffix(LowerString(key), ".svg") <==>
      && |key| >= 4 && key[|key| - 4] == '.'
      && key[|key| - 3] in {'s', 'S'} && key[|key| - 2] in {'v', 'V'} && key[|key| - 1] in {'g', 'G'}
  {
    var lower := LowerString(key);
    if |key| >= 4 {
      var tail := lower[|key| - 4..];
      assert tail == [lower[|key| - 4], lower[|key| - 3], lower[|key| - 2], lower[|key| - 1]];
      forall c: char | 'A' <= c <= 'Z' ensures LowerChar(c) as int == c as int + 32 {
      }
    }
  }

  /** So is the tag: a `<`, then the three letters in either case. */
  lemma SvgTagIff(head: seq<byte>)
    ensures Contains(LowerBytes(head), SVG_TAG) <==> exists i: nat :: TagAt(head, i)
  {
    var lower := LowerBytes(head);
    forall i: nat ensures OccursAt(lower, SVG_TAG, i) <==> TagAt(head, i) {
      if i + 4 <= |head| {
        assert lower[i..i + 4] == [lower[i], lower[i + 1], lower[i + 2], lower[i + 3]];
      }
    }
  }

  predicate TagAt(head: seq<byte>, i: nat) {
    && i + 4 <= |head| && head[i] == '<' as int as byte
    && head[i + 1] in {'s' as int as byte, 'S' as int as byte}
    && head[i + 2] in {'v' as int as byte, 'V' as int as byte}
    && head[i + 3] in {'g' as int as byte, 'G' as int as byte}
  }

  // ----- Replay -----

  /** io.MultiReader over the bytes read ahead and the rest of the body. */
  class Replay {
    var head: seq<byte>
    const rest: Reader

    constructor (head: seq<byte>, rest: Reader)
      ensures this.head == head && this.rest == rest
    {
      this.head := head;
      this.rest := rest;
    }

    /** The bytes still to come, head first. */
    ghost function Remaining(): seq<byte>
      reads this, rest
    {
      head + rest.pending
    }

    /** One read: from the head while it lasts, then from the body; errors only at the body's end. */
    method Read(buf: array<byte>) returns (n: nat, err: Option<ReadError>)
      requires buf.Length > 0
      modifies this, rest, buf
      ensures n <= |old(Remaining())| && n <= buf.Length
      ensures Remaining() == old(Remaining())[n..]
      ensures buf[..n] == old(Remaining())[..n]
      ensures err.Some? ==> err.value == old(rest.next) && Remaining() == []
      ensures err.None? ==> rest.next == old(rest.next)
      ensures err.None? ==> |Remaining()| < |old(Remaining())| || |rest.pace| < |old(rest.pace)|
      ensures |rest.pace| <= |old(rest.pace)|
    {
      if head != [] {
        n := Shorter(|head|, buf.Length);
        var k := 0;
        while k < n
          invariant 0 <= k <= n <= |head|
          invariant head == old(head) && rest.pending == old(rest.pending)
          invariant rest.next == old(rest.next) && rest.pace == old(rest.pace)
          invariant buf[..k] == head[..k]
        {
          buf[k] := head[k];
          k := k + 1;
        }
        ghost var all := Remaining();
        head := head[n..];
        assert all[..n] == buf[..n] && all[n..] == Remaining();
        err := None;
      } else {
        assert Remaining() == rest.pending;
        n, err := rest.Read(buf, 0);
        assert buf[..0 + n] == buf[..n];
        assert Remaining() == rest.pending;
      }
    }
  }

  /** What an engine gets by reading to the end, with a buffer of any size: everything, in order. */
  method ReadAll(r: Replay, size: nat) returns (all: seq<byte>, err: ReadError)
    requires size > 0
    modifies r, r.rest
    ensures all == old(r.Remaining()) && err == old(r.rest.next)
  {
    all := [];
    var buf := new byte[size];
    var e: Option<ReadError> := None;
    while e.None?
      invariant fresh(buf)
      invariant all + r.Remaining() == old(r.Remaining())
      invariant e.None? ==> r.rest.next == old(r.rest.next)
      invariant e.Some? ==> e.value == old(r.rest.next) && r.Remaining() == []
      decreases e.None?, |r.Remaining()| + |r.rest.pace|
    {
      var n;
      ghost var sofar, before := all, r.Remaining();
      n, e := r.Read(buf);
      all := all + buf[..n];
      assert sofar + before[..n] + before[n..] == sofar + before;
    }
    err := e.value;
  }

  datatype SniffResult = Sniffed(contentType: string, body: Replay) | SniffFailed(reason: string)

  /** Sniffing fails: the stream breaks before its 512th byte, other than by ending too early. */
  predicate SniffFails(available: nat, next: ReadError) {
    available < SNIFF_LEN && next.Fault?
  }

  /**
   * Sniff and replay: for any chunking, the body handed on yields exactly the original bytes, at
   * most 512 of them were consumed, and the type is a function of the key and those bytes. It fails
   * if and only if an error other than io.EOF and io.ErrUnexpectedEOF comes before the 512th byte;
   * a report of the end that sniffing runs into is used up.
   */
  method SniffContentType(detect: seq<byte> -> string, key: string, body: Reader) returns (r: SniffResult)
    modifies body
    ensures r.SniffFailed? <==> |old(body.pending)| < 512 && old(body.next).Fault?
    ensures r.SniffFailed? ==> old(body.next) == Fault(r.reason)
    ensures r.Sniffed? ==>
      && fresh(r.body) && r.body.rest == body
      && r.contentType == DetectedType(detect, key, old(body.pending))
      && (var head := if |old(body.pending)| < 512 then old(body.pending) else old(body.pending)[..512];
          r.contentType == if HasSuffix(LowerString(key), ".svg") || Contains(LowerBytes(head), SVG_TAG)
                           then "image/svg+xml" else detect(head))
      && r.body.Remaining() == old(body.pending)
      && |r.body.head| <= 512
    ensures body.next ==
      if UsesUpEnd(SNIFF_LEN, |old(body.pending)|, body.eager) then Following(old(body.next), old(body.later))
      else old(body.next)
  {
    var head := new byte[SNIFF_LEN];
    var n, err := ReadFull(body, head);
    if err.Some? && err.value.Failed? {
      return SniffFailed(err.value.reason);
    }
    var sniffed := head[..n];
    var contentType := detect(sniffed);
    var tagged := HasTag(LowerBytes(sniffed), SVG_TAG);
    if HasSuffix(LowerString(key), ".svg") || tagged {
      contentType := "image/svg+xml";
    }
    var replay := new Replay(sniffed, body);
    assert old(body.pending)[..n] + old(body.pending)[n..] == old(body.pending);
    assert old(body.pending)[..|old(body.pending)|] == old(body.pending);
    return Sniffed(contentType, replay);
  }

  // ----- Upload -----

  datatype Request = Request(bucket: string, key: string, contentType: string, acl: string)

  datatype Object = Object(bucket: string, key: string, contentType: string, acl: string, content: seq<byte>)

  datatype UploadError = NotReady | BucketAndKeyRequired | BodyRequired | DetectionFailed(reason: string) | EngineFailed

  const ACL_PRIVATE := "private"

  /** The engine stores what it reads, unless it fails or the stream does not end in io.EOF. */
  method EnginePut(r: Request, contentType: string, acl: string, body: Replay, fails: bool, bufferSize: nat)
    returns (res: Result<Object, UploadError>)
    requires bufferSize > 0
    modifies body, body.rest
    ensures res == if fails || !old(body.rest.next).EndOfFile? then Err(EngineFailed)
                   else Ok(Object(r.bucket, r.key, contentType, acl, old(body.Remaining())))
  {
    var content, end := ReadAll(body, bufferSize);
    if fails || !end.EndOfFile? {
      return Err(EngineFailed);
    }
    return Ok(Object(r.bucket, r.key, contentType, acl, content));
  }

  /** How the body ends for the engine: sniffing a short body has used up its first report of the end. */
  function EndForEngine(sniff: bool, available: nat, next: ReadError, later: seq<ReadError>, eager: bool): ReadError {
    if sniff && UsesUpEnd(SNIFF_LEN, available, eager) then Following(next, later) else next
  }

  /** The body gets through: sniffing does not fail, and the engine sees it end in io.EOF. */
  predicate BodyAccepted(sniff: bool, available: nat, next: ReadError, later: seq<ReadError>, eager: bool) {
    && !(sniff && SniffFails(available, next))
    && EndForEngine(sniff, available, next, later, eager).EndOfFile?
  }

  /**
   * An upload stores exactly the bytes the body delivers, under the type the request names or the
   * body's head suggests; sniffing never costs or alters a byte. It succeeds if and only if its
   * arguments are there, the engine does not fail, and the body is accepted.
   */
  method Upload(detect: seq<byte> -> string, ready: bool, r: Request, body: Option<Reader>, fails: bool, bufferSize: nat)
    returns (res: Result<Object, UploadError>)
    requires bufferSize > 0
    modifies if body.Some? then {body.value} else {}
    ensures res.Ok? <==>
      && ready && r.bucket != "" && r.key != "" && body.Some? && !fails
      && old(BodyAccepted(r.contentType == "", |body.value.pending|, body.value.next, body.value.later, body.value.eager))
    ensures res.Ok? ==>
      && res.value.content == old(body.value.pending)
      && res.value.bucket == r.bucket && res.value.key == r.key
      && res.value.acl == (if r.acl == "" then "private" else r.acl)
      && res.value.contentType ==
           (if r.contentType != "" then r.contentType else DetectedType(detect, r.key, old(body.value.pending)))
    ensures !ready ==> res == Err(NotReady)
    ensures ready && (r.bucket == "" || r.key == "") ==> res == Err(BucketAndKeyRequired)
    ensures ready && r.bucket != "" && r.key != "" && body.None? ==> res == Err(BodyRequired)
    ensures res.Err? && ready && r.bucket != "" && r.key != "" && body.Some? ==>
      res.error == if r.contentType == "" && old(SniffFails(|body.value.pending|, body.value.next))
                   then DetectionFailed(old(body.value.next).reason) else EngineFailed
  {
    if !ready {
      return Err(NotReady);
    }
    if r.bucket == "" || r.key == "" {
      return Err(BucketAndKeyRequired);
    }
    if body.None? {
      return Err(BodyRequired);
    }
    var contentType := r.contentType;
    var stream;
    if contentType == "" {
      var sniffed := SniffContentType(detect, r.key, body.value);
      if sniffed.SniffFailed? {
        return Err(DetectionFailed(sniffed.reason));
      }
      contentType := sniffed.contentType;
      stream := sniffed.body;
    } else {
      stream := new Replay([], body.value);
      assert stream.Remaining() == body.value.pending;
    }
    var acl := if r.acl == "" then ACL_PRIVATE else r.acl;
    res := EnginePut(r, contentType, acl, stream, fails, bufferSize);
  }

  /**
   * When a body whose end is not io.EOF is stored as if it were whole: exactly when sniffing uses up
   * that report without failing on it, and the body reports io.EOF the next time it is asked.
   */
  lemma BrokenBodyStoredIff(sniff: bool, available: nat, next: ReadError, later: seq<ReadError>, eager: bool)
    requires !next.EndOfFile?
    ensures BodyAccepted(sniff, available, next, later, eager) <==>
      && sniff && Following(next, later).EndOfFile?
      && ((available < 512 && next.Truncated?) || (available == 512 && eager))
  {
  }

  /** A reader that repeats its error is never stored unless it really ended. */
  lemma RepeatedErrorNeverHidden(sniff: bool, available: nat, next: ReadError, later: seq<ReadError>, eager: bool)
    requires Following(next, later) == next
    ensures BodyAccepted(sniff, available, next, later, eager) <==> next.EndOfFile?
  {
  }

  /** A body cut short after 10 bytes that says so once: sniffed, it is stored as a whole object; else it is refused. */
  method TruncatedBodyStored(detect: seq<byte> -> string, r: Request)
    returns (sniffed: Result<Object, UploadError>, named: Result<Object, UploadError>)
    requires r.bucket != "" && r.key != "" && r.contentType == ""
    ensures sniffed.Ok? && |sniffed.value.content| == 10
    ensures named == Err(EngineFailed)
  {
    var bytes := [0, 1, 2, 3, 4, 5, 6, 7, 8, 9];
    var first := new Reader(bytes, [], Truncated, [EndOfFile], false);
    sniffed := Upload(detect, true, r, Some(first), false, 32);
    var second := new Reader(bytes, [], Truncated, [EndOfFile], false);
    named := Upload(detect, true, r.(contentType := "text/plain"), Some(second), false, 32);
  }
}
