/** Cursor-driven listing: S3's paginated key listing, and Redis SCAN in its eager and streaming forms. */
module Paging {
  import opened Wrappers

  datatype End = Complete | Failed(reason: string)

  /**
   * A server's replies to one client, call by call: `ask(n, c)` answers the n-th call, made with cursor
   * `c`. The replies are `pages`: each call but the first uses the cursor of the page before, every
   * page but the last says there is more, and then the last one says there is not, or an error follows.
   */
  ghost predicate Follows<P, C>(ask: (nat, C) -> Result<P, string>, first: C, more: P -> bool, next: P -> C,
                                pages: seq<P>, end: End)
  {
    && (pages != [] ==> ask(0, first) == Ok(pages[0]))
    && (forall i | 0 <= i < |pages| - 1 :: more(pages[i]))
    && (forall i, j | 0 <= i < j < |pages| && j == i + 1 :: ask(j, next(pages[i])) == Ok(pages[j]))
    && match end
       case Complete => pages != [] && !more(pages[|pages| - 1])
       case Failed(reason) =>
         && (pages != [] ==> more(pages[|pages| - 1]))
         && ask(|pages|, if pages == [] then first else next(pages[|pages| - 1])) == Err(reason)
  }

  /** There is only one way for the replies to go. */
  lemma FollowsUnique<P, C>(ask: (nat, C) -> Result<P, string>, first: C, more: P -> bool, next: P -> C,
                            p: seq<P>, pe: End, q: seq<P>, qe: End)
    requires Follows(ask, first, more, next, p, pe) && Follows(ask, first, more, next, q, qe)
    ensures p == q && pe == qe
  {
    if |p| < |q| {
      NoLonger(ask, first, more, next, p, pe, q, qe);
    } else if |q| < |p| {
      NoLonger(ask, first, more, next, q, qe, p, pe);
    } else {
      SamePages(ask, first, more, next, p, pe, q, qe, |p|);
      assert p[..|p|] == p && q[..|p|] == q;
    }
  }

  /** No listing stops at a page after which another one goes on. */
  lemma NoLonger<P, C>(ask: (nat, C) -> Result<P, string>, first: C, more: P -> bool, next: P -> C,
                       p: seq<P>, pe: End, q: seq<P>, qe: End)
    requires Follows(ask, first, more, next, p, pe) && Follows(ask, first, more, next, q, qe)
    ensures |p| >= |q|
  {
    if |p| < |q| {
      SamePages(ask, first, more, next, p, pe, q, qe, |p|);
      GoesOn(ask, first, more, next, q, qe, |p|);
    }
  }

  lemma GoesOn<P, C>(ask: (nat, C) -> Result<P, string>, first: C, more: P -> bool, next: P -> C,
                     q: seq<P>, qe: End, n: nat)
    requires Follows(ask, first, more, next, q, qe) && n < |q|
    ensures ask(n, if n == 0 then first else next(q[n - 1])) == Ok(q[n])
    ensures n > 0 ==> more(q[n - 1])
  {
    if n > 0 {
      assert ask(n, next(q[n - 1])) == Ok(q[n]);
    }
  }

  lemma {:induction false} SamePages<P, C>(ask: (nat, C) -> Result<P, string>, first: C, more: P -> bool, next: P -> C,
                                           p: seq<P>, pe: End, q: seq<P>, qe: End, n: nat)
    requires Follows(ask, first, more, next, p, pe) && Follows(ask, first, more, next, q, qe)
    requires n <= |p| && n <= |q|
    ensures p[..n] == q[..n] && (n > 0 ==> p[n - 1] == q[n - 1])
  {
    if n > 0 {
      SamePages(ask, first, more, next, p, pe, q, qe, n - 1);
      if n > 1 {
        assert p[n - 2] == p[..n - 1][n - 2] == q[..n - 1][n - 2] == q[n - 2];
        assert ask(n - 1, next(p[n - 2])) == Ok(p[n - 1]);
      }
    }
  }

  // ----- S3: listing keys -----

  datatype ListError = NotReady | BucketRequired | Request(reason: string)

  /** What the server sends: a key may be missing, and so may the truncation flag. */
  datatype S3Page = S3Page(contents: seq<Option<string>>, isTruncated: Option<bool>, nextToken: Option<string>)

  function Keys(contents: seq<Option<string>>): seq<string> {
    if contents == [] then []
    else Keys(contents[..|contents| - 1]) + match contents[|contents| - 1] { case Some(k) => [k] case None => [] }
  }

  function AllKeys(pages: seq<S3Page>): seq<string> {
    if pages == [] then [] else AllKeys(pages[..|pages| - 1]) + Keys(pages[|pages| - 1].contents)
  }

  /** Which objects of a page the keys are from: each key's own, in order, and every one that has a key. */
  ghost predicate ObjectsOf(contents: seq<Option<string>>, keys: seq<string>, at: seq<nat>) {
    && |at| == |keys|
    && (forall k | 0 <= k < |at| :: at[k] < |contents| && contents[at[k]] == Some(keys[k]))
    && (forall k, l | 0 <= k < l < |at| :: at[k] < at[l])
    && (forall o | 0 <= o < |contents| && contents[o].Some? :: o in at)
  }

  lemma {:induction false} KeysInOrder(contents: seq<Option<string>>) returns (at: seq<nat>)
    ensures ObjectsOf(contents, Keys(contents), at)
  {
    at := [];
    if contents != [] {
      var last := |contents| - 1;
      at := KeysInOrder(contents[..last]);
      OneMoreObject(contents[..last], Keys(contents[..last]), at, contents[last], contents);
      if contents[last].Some? {
        at := at + [last];
      }
    }
  }

  lemma OneMoreObject(before: seq<Option<string>>, keys: seq<string>, at: seq<nat>, o: Option<string>, all: seq<Option<string>>)
    requires ObjectsOf(before, keys, at) && all == before + [o]
    ensures o.None? ==> ObjectsOf(all, keys, at)
    ensures o.Some? ==> ObjectsOf(all, keys + [o.value], at + [|before|])
  {
    forall i | 0 <= i < |before| ensures all[i] == before[i] {
    }
    assert (at + [|before|])[|at|] == |before|;
    forall i | 0 <= i < |all| && all[i].Some? ensures i in at + [|before|] {
      if i < |before| {
        assert i in at;
      }
    }
  }

  /** Which object of which page the keys are from: each key's own, in order, and every one that has a key. */
  ghost predicate PageObjectsOf(pages: seq<S3Page>, keys: seq<string>, at: seq<(nat, nat)>) {
    EachFromObject(pages, keys, at) && InReadingOrder(at) && EveryKeyCovered(pages, at)
  }

  ghost predicate EachFromObject(pages: seq<S3Page>, keys: seq<string>, at: seq<(nat, nat)>) {
    |at| == |keys| && forall k | 0 <= k < |at| :: FromObject(pages, at[k], keys[k])
  }

  ghost predicate InReadingOrder(at: seq<(nat, nat)>) {
    forall k, l | 0 <= k < l < |at| :: at[k].0 < at[l].0 || (at[k].0 == at[l].0 && at[k].1 < at[l].1)
  }

  ghost predicate EveryKeyCovered(pages: seq<S3Page>, at: seq<(nat, nat)>) {
    forall p: nat, o: nat | p < |pages| && o < |pages[p].contents| && pages[p].contents[o].Some? :: (p, o) in at
  }

  /** The keys of a listing are those of all pages in order, nothing dropped, repeated or reordered. */
  lemma {:induction false} AllKeysInOrder(pages: seq<S3Page>) returns (at: seq<(nat, nat)>)
    ensures PageObjectsOf(pages, AllKeys(pages), at)
  {
    at := [];
    if pages != [] {
      var last := |pages| - 1;
      at := AllKeysInOrder(pages[..last]);
      var inPage := KeysInOrder(pages[last].contents);
      at := OneMorePage(pages[..last], AllKeys(pages[..last]), at, pages[last], inPage, pages);
    }
  }

  lemma OneMorePage(before: seq<S3Page>, keys: seq<string>, at: seq<(nat, nat)>, page: S3Page, inPage: seq<nat>, all: seq<S3Page>)
    returns (more: seq<(nat, nat)>)
    requires PageObjectsOf(before, keys, at) && ObjectsOf(page.contents, Keys(page.contents), inPage)
    requires all == before + [page]
    ensures PageObjectsOf(all, keys + Keys(page.contents), more)
  {
    var here: seq<(nat, nat)> := seq(|inPage|, k requires 0 <= k < |inPage| => (|before|, inPage[k]));
    more := at + here;
    EachStillFrom(before, keys, at, page, inPage, here, all);
    StillInOrder(before, keys, at, here);
    StillCovered(before, at, page, inPage, here, all);
  }

  lemma EachStillFrom(before: seq<S3Page>, keys: seq<string>, at: seq<(nat, nat)>, page: S3Page, inPage: seq<nat>,
                      here: seq<(nat, nat)>, all: seq<S3Page>)
    requires EachFromObject(before, keys, at) && ObjectsOf(page.contents, Keys(page.contents), inPage)
    requires all == before + [page]
    requires |here| == |inPage| && forall k | 0 <= k < |here| :: here[k] == (|before|, inPage[k])
    ensures EachFromObject(all, keys + Keys(page.contents), at + here)
  {
    var more, both := at + here, keys + Keys(page.contents);
    forall k | 0 <= k < |more| ensures FromObject(all, more[k], both[k]) {
      if k < |at| {
        assert FromObject(before, at[k], keys[k]);
      }
    }
  }

  lemma StillInOrder(before: seq<S3Page>, keys: seq<string>, at: seq<(nat, nat)>, here: seq<(nat, nat)>)
    requires EachFromObject(before, keys, at) && InReadingOrder(at)
    requires forall k | 0 <= k < |here| :: here[k].0 == |before|
    requires forall k, l | 0 <= k < l < |here| :: here[k].1 < here[l].1
    ensures InReadingOrder(at + here)
  {
    forall k | 0 <= k < |at| ensures at[k].0 < |before| {
      assert FromObject(before, at[k], keys[k]);
    }
  }

  lemma StillCovered(before: seq<S3Page>, at: seq<(nat, nat)>, page: S3Page, inPage: seq<nat>, here: seq<(nat, nat)>,
                     all: seq<S3Page>)
    requires EveryKeyCovered(before, at) && ObjectsOf(page.contents, Keys(page.contents), inPage)
    requires all == before + [page]
    requires |here| == |inPage| && forall k | 0 <= k < |here| :: here[k] == (|before|, inPage[k])
    ensures EveryKeyCovered(all, at + here)
  {
    forall p: nat, o: nat | p < |all| && o < |all[p].contents| && all[p].contents[o].Some? ensures (p, o) in at + here {
      if p < |before| {
        assert before[p] == all[p];
      } else {
        var k :| 0 <= k < |inPage| && inPage[k] == o;
        assert (at + here)[|at| + k] == (p, o);
      }
    }
  }

  predicate FromObject(pages: seq<S3Page>, at: (nat, nat), key: string) {
    at.0 < |pages| && at.1 < |pages[at.0].contents| && pages[at.0].contents[at.1] == Some(key)
  }

  /** The bucket may change while it is listed, so the same token may be answered differently from call to call. */
  type S3Server = (nat, Option<string>) -> Result<S3Page, string>

  /** A server whose replies do not depend on when they are asked for. */
  ghost predicate Timeless(server: S3Server) {
    forall m, n, token :: server(m, token) == server(n, token)
  }

  /** Append the keys of one page, passing over objects without one. */
  method AppendKeys(keys: seq<string>, contents: seq<Option<string>>) returns (more: seq<string>)
    ensures more == keys + Keys(contents)
  {
    more := keys;
    var i := 0;
    while i < |contents|
      invariant 0 <= i <= |contents|
      invariant more == keys + Keys(contents[..i])
    {
      assert contents[..i + 1][..i] == contents[..i];
      if contents[i].Some? {
        more := more + [contents[i].value];
      }
      i := i + 1;
    }
    assert contents[..i] == contents;
  }

  /**
   * Against any server whose pages come to an end, the listing terminates with exactly the keys of
   * all pages, in order; a failing request fails it as a whole. Each call but the first carries the
   * token of the page before; a page is the last one unless it says that it is truncated.
   */
  method ListKeys(ready: bool, bucket: string, server: S3Server, ghost pages: seq<S3Page>, ghost end: End)
    returns (r: Result<seq<string>, ListError>)
    requires pages != [] ==> server(0, None) == Ok(pages[0])
    requires forall i | 0 <= i < |pages| - 1 :: pages[i].isTruncated == Some(true)
    requires forall i, j | 0 <= i < j < |pages| && j == i + 1 :: server(j, pages[i].nextToken) == Ok(pages[j])
    requires end.Complete? ==> pages != [] && pages[|pages| - 1].isTruncated != Some(true)
    requires end.Failed? ==>
      && (pages != [] ==> pages[|pages| - 1].isTruncated == Some(true))
      && server(|pages|, if pages == [] then None else pages[|pages| - 1].nextToken) == Err(end.reason)
    ensures !ready ==> r == Err(NotReady)
    ensures ready && bucket == "" ==> r == Err(BucketRequired)
    ensures ready && bucket != "" ==>
      r == if end.Complete? then Ok(AllKeys(pages)) else Err(Request(end.reason))
  {
    if !ready {
      return Err(NotReady);
    }
    if bucket == "" {
      return Err(BucketRequired);
    }
    var keys: seq<string> := [];
    var token: Option<string> := None;
    var n := 0;
    while true
      invariant 0 <= n <= |pages| && keys == AllKeys(pages[..n])
      invariant token == if n == 0 then None else pages[n - 1].nextToken
      invariant n == |pages| ==> end.Failed?
      decreases |pages| - n
    {
      assert 0 < n < |pages| ==> server(n, pages[n - 1].nextToken) == Ok(pages[n]);
      assert n + 1 < |pages| ==> server(n + 1, pages[n].nextToken) == Ok(pages[n + 1]);
      var reply := server(n, token);
      if reply.Err? {
        return Err(Request(reply.error));
      }
      var out := reply.value;
      assert pages[..n + 1][..n] == pages[..n];
      keys := AppendKeys(keys, out.contents);
      n := n + 1;
      if out.isTruncated.None? || !out.isTruncated.value {
        assert pages[..n] == pages;
        return Ok(keys);
      }
      token := out.nextToken;
    }
  }

  function Truncated(p: S3Page): bool {
    p.isTruncated == Some(true)
  }

  function NextToken(p: S3Page): Option<string> {
    p.nextToken
  }

  /** The token call number i is made with. */
  function TokenFor(pages: seq<S3Page>, i: nat): Option<string>
    requires i <= |pages|
  {
    if i == 0 then None else pages[i - 1].nextToken
  }

  lemma Asked(server: S3Server, pages: seq<S3Page>, end: End, i: nat)
    requires Follows(server, None, Truncated, NextToken, pages, end) && i < |pages|
    ensures server(i, TokenFor(pages, i)) == Ok(pages[i])
  {
    if i > 0 {
      assert server(i, NextToken(pages[i - 1])) == Ok(pages[i]);
    }
  }

  /** If two calls carry the same token, an unchanging bucket is listed round and round from there. */
  lemma {:induction false} RoundAndRound(server: S3Server, pages: seq<S3Page>, end: End, a: nat, b: nat, k: nat)
    requires Timeless(server) && Follows(server, None, Truncated, NextToken, pages, end)
    requires a < b && b + k <= |pages| && TokenFor(pages, a) == TokenFor(pages, b)
    ensures TokenFor(pages, a + k) == TokenFor(pages, b + k)
  {
    if k > 0 {
      RoundAndRound(server, pages, end, a, b, k - 1);
      assert server(a + k - 1, TokenFor(pages, a + k - 1)) == server(b + k - 1, TokenFor(pages, b + k - 1));
      Asked(server, pages, end, a + k - 1);
      Asked(server, pages, end, b + k - 1);
    }
  }

  /**
   * Termination needs fresh tokens: on a listing of an unchanging bucket that ends, no truncated page
   * may send the client back to the start by omitting its token, nor to the token of any earlier page.
   */
  lemma TokensNeverRepeat(server: S3Server, pages: seq<S3Page>, end: End, i: nat, j: nat)
    requires Timeless(server) && Follows(server, None, Truncated, NextToken, pages, end)
    requires i < |pages| && pages[i].isTruncated == Some(true)
    ensures pages[i].nextToken != None
    ensures j < i ==> pages[j].nextToken != pages[i].nextToken
  {
    if pages[i].nextToken == None {
      NoRepeat(server, pages, end, 0, i + 1);
    }
    if j < i && pages[j].nextToken == pages[i].nextToken {
      NoRepeat(server, pages, end, j + 1, i + 1);
    }
  }

  lemma NoRepeat(server: S3Server, pages: seq<S3Page>, end: End, a: nat, b: nat)
    requires Timeless(server) && Follows(server, None, Truncated, NextToken, pages, end)
    requires a < b <= |pages| && Truncated(pages[b - 1])
    ensures TokenFor(pages, a) != TokenFor(pages, b)
  {
    if TokenFor(pages, a) == TokenFor(pages, b) {
      var k := if end.Complete? then |pages| - 1 - b else |pages| - b;
      RoundAndRound(server, pages, end, a, b, k);
      SameAnswer(server, a + k, b + k, TokenFor(pages, a + k));
      Answered(server, pages, end, a + k);
      Answered(server, pages, end, b + k);
    }
  }

  lemma SameAnswer(server: S3Server, m: nat, n: nat, token: Option<string>)
    requires Timeless(server)
    ensures server(m, token) == server(n, token)
  {
  }

  /** A call gets a page, truncated unless it is the last one; the call after the last page gets the error, if any. */
  lemma Answered(server: S3Server, pages: seq<S3Page>, end: End, i: nat)
    requires Follows(server, None, Truncated, NextToken, pages, end)
    requires i < |pages| || (i == |pages| && end.Failed?)
    ensures i < |pages| ==> server(i, TokenFor(pages, i)) == Ok(pages[i])
    ensures i < |pages| && (i + 1 < |pages| || end.Failed?) ==> Truncated(pages[i])
    ensures i + 1 == |pages| && end.Complete? ==> !Truncated(pages[i])
    ensures i == |pages| ==> server(i, TokenFor(pages, i)).Err?
  {
    if i < |pages| {
      Asked(server, pages, end, i);
      if i + 1 < |pages| {
        assert server(i + 1, NextToken(pages[i])) == Ok(pages[i + 1]);
      }
    } else if i > 0 {
      assert server(i, NextToken(pages[i - 1])) == Err(end.reason);
    }
  }

  // ----- Redis: SCAN -----

  /** A batch of keys, and the cursor to go on with; zero means that the scan is over. */
  datatype Batch = Batch(keys: seq<string>, next: nat)

  /** A Redis server may answer the same cursor differently from call to call. */
  type RedisServer = (nat, nat) -> Result<Batch, string>

  function BatchKeys(batches: seq<Batch>): seq<string> {
    if batches == [] then [] else BatchKeys(batches[..|batches| - 1]) + batches[|batches| - 1].keys
  }

  /** The keys of batches are those of one after those of the other. */
  lemma {:induction false} BatchKeysConcat(a: seq<Batch>, b: seq<Batch>)
    ensures BatchKeys(a + b) == BatchKeys(a) + BatchKeys(b)
    ensures |b| == 1 ==> BatchKeys(b) == b[0].keys
  {
    if b == [] {
      assert a + b == a;
    } else {
      var last := |b| - 1;
      BatchKeysConcat(a, b[..last]);
      assert (a + b)[..|a + b| - 1] == a + b[..last];
      assert BatchKeys([]) == [];
    }
  }

  lemma BatchKeysSnoc(batches: seq<Batch>, n: nat)
    requires n < |batches|
    ensures BatchKeys(batches[..n + 1]) == BatchKeys(batches[..n]) + batches[n].keys
  {
    assert batches[..n + 1][..n] == batches[..n];
  }

  /** The keys of the first batches are the first keys. */
  lemma {:induction false} BatchKeysPrefix(batches: seq<Batch>, n: nat)
    requires n <= |batches|
    ensures BatchKeys(batches[..n]) <= BatchKeys(batches)
  {
    if n == |batches| {
      assert batches[..n] == batches;
    } else {
      var before := batches[..|batches| - 1];
      BatchKeysPrefix(before, n);
      assert before[..n] == batches[..n];
    }
  }

  datatype ScanError<E> = ClientNotReady | Redis(reason: string) | Callback(error: E)

  /** The eager form: all keys of all batches in order, or an error; the scan is over when the cursor is zero again. */
  method Scan(ready: bool, server: RedisServer, ghost batches: seq<Batch>, ghost end: End)
    returns (r: Result<seq<string>, ScanError<string>>)
    requires batches != [] ==> server(0, 0) == Ok(batches[0])
    requires forall i | 0 <= i < |batches| - 1 :: batches[i].next != 0
    requires forall i, j | 0 <= i < j < |batches| && j == i + 1 :: server(j, batches[i].next) == Ok(batches[j])
    requires end.Complete? ==> batches != [] && batches[|batches| - 1].next == 0
    requires end.Failed? ==>
      && (batches != [] ==> batches[|batches| - 1].next != 0)
      && server(|batches|, if batches == [] then 0 else batches[|batches| - 1].next) == Err(end.reason)
    ensures r == if !ready then Err(ClientNotReady)
                 else if end.Complete? then Ok(BatchKeys(batches)) else Err(Redis(end.reason))
  {
    if !ready {
      return Err(ClientNotReady);
    }
    var cursor: nat := 0;
    var keys: seq<string> := [];
    var n := 0;
    while true
      invariant 0 <= n <= |batches| && keys == BatchKeys(batches[..n])
      invariant cursor == if n == 0 then 0 else batches[n - 1].next
      invariant n == |batches| ==> end.Failed?
      decreases |batches| - n
    {
      assert 0 < n < |batches| ==> server(n, batches[n - 1].next) == Ok(batches[n]);
      assert n + 1 < |batches| ==> server(n + 1, batches[n].next) == Ok(batches[n + 1]);
      var reply := server(n, cursor);
      if reply.Err? {
        return Err(Redis(reply.error));
      }
      var batch := reply.value;
      BatchKeysSnoc(batches, n);
      keys := keys + batch.keys;
      n := n + 1;
      cursor := batch.next;
      if cursor == 0 {
        assert batches[..n] == batches;
        return Ok(keys);
      }
    }
  }

  /**
   * A callback: it remembers the keys it was called with, and may answer each call with an error
   * that depends on everything it has seen.
   */
  class Visitor<E> {
    var seen: seq<string>
    const verdict: seq<string> -> Option<E>

    constructor (verdict: seq<string> -> Option<E>)
      ensures seen == [] && this.verdict == verdict
    {
      seen := [];
      this.verdict := verdict;
    }

    method Visit(key: string) returns (err: Option<E>)
      modifies this
      ensures seen == old(seen) + [key] && err == verdict(seen)
    {
      seen := seen + [key];
      err := verdict(seen);
    }
  }

  /** The callback accepts the first `k` of the keys. */
  ghost predicate Accepts<E>(verdict: seq<string> -> Option<E>, keys: seq<string>, k: nat)
    requires k <= |keys|
  {
    forall i | 0 < i <= k :: verdict(keys[..i]).None?
  }

  /** The callback's k-th call, counted from one, is the first it answers with an error. */
  ghost predicate FirstRejects<E>(verdict: seq<string> -> Option<E>, keys: seq<string>, k: nat) {
    0 < k <= |keys| && Accepts(verdict, keys, k - 1) && verdict(keys[..k]).Some?
  }

  /** One batch of keys: all of them accepted, or the first rejection of the whole scan. */
  method VisitBatch<E>(fn: Visitor<E>, batch: seq<string>, ghost all: seq<string>)
    returns (err: Option<E>)
    requires fn.seen + batch <= all && Accepts(fn.verdict, all, |fn.seen|)
    modifies fn
    ensures err.None? ==> fn.seen == old(fn.seen) + batch && Accepts(fn.verdict, all, |fn.seen|)
    ensures err.Some? ==>
      FirstRejects(fn.verdict, all, |fn.seen|) && fn.seen == all[..|fn.seen|] && err == fn.verdict(fn.seen)
  {
    var i := 0;
    while i < |batch|
      invariant 0 <= i <= |batch|
      invariant fn.seen == old(fn.seen) + batch[..i] && fn.seen <= all
      invariant Accepts(fn.verdict, all, |fn.seen|)
    {
      err := fn.Visit(batch[i]);
      assert all[|old(fn.seen)| + i] == batch[i];
      assert fn.seen == all[..|fn.seen|];
      if err.Some? {
        return;
      }
      i := i + 1;
    }
    err := None;
  }

  /**
   * The streaming form, against the same replies as the eager one: a callback that accepts every
   * key sees exactly what Scan returns, in order; one that first fails on its k-th call has seen
   * exactly the first k keys, and its own error comes back unwrapped.
   */
  method ScanFunc<E>(ready: bool, server: RedisServer, fn: Visitor<E>, ghost batches: seq<Batch>, ghost end: End)
    returns (err: Option<ScanError<E>>)
    requires batches != [] ==> server(0, 0) == Ok(batches[0])
    requires forall i | 0 <= i < |batches| - 1 :: batches[i].next != 0
    requires forall i, j | 0 <= i < j < |batches| && j == i + 1 :: server(j, batches[i].next) == Ok(batches[j])
    requires end.Complete? ==> batches != [] && batches[|batches| - 1].next == 0
    requires end.Failed? ==>
      && (batches != [] ==> batches[|batches| - 1].next != 0)
      && server(|batches|, if batches == [] then 0 else batches[|batches| - 1].next) == Err(end.reason)
    requires fn.seen == []
    modifies fn
    ensures !ready ==> err == Some(ClientNotReady) && fn.seen == []
    ensures ready && Accepts(fn.verdict, BatchKeys(batches), |BatchKeys(batches)|) ==>
      fn.seen == BatchKeys(batches) && err == if end.Complete? then None else Some(Redis(end.reason))
    ensures forall k: nat :: ready && FirstRejects(fn.verdict, BatchKeys(batches), k) ==>
      fn.seen == BatchKeys(batches)[..k] && err == Some(Callback(fn.verdict(BatchKeys(batches)[..k]).value))
  {
    if !ready {
      return Some(ClientNotReady);
    }
    var cursor: nat := 0;
    var n := 0;
    ghost var all := BatchKeys(batches);
    while true
      invariant 0 <= n <= |batches| && fn.seen == BatchKeys(batches[..n]) && fn.seen <= all
      invariant cursor == if n == 0 then 0 else batches[n - 1].next
      invariant n == |batches| ==> end.Failed?
      invariant Accepts(fn.verdict, all, |fn.seen|)
      decreases |batches| - n
    {
      assert 0 < n < |batches| ==> server(n, batches[n - 1].next) == Ok(batches[n]);
      assert n + 1 < |batches| ==> server(n + 1, batches[n].next) == Ok(batches[n + 1]);
      var reply := server(n, cursor);
      if reply.Err? {
        assert batches[..n] == batches;
        return Some(Redis(reply.error));
      }
      var batch := reply.value;
      BatchKeysSnoc(batches, n);
      BatchKeysPrefix(batches, n + 1);
      var verdict := VisitBatch(fn, batch.keys, all);
      if verdict.Some? {
        OnlyOneFirst(fn.verdict, all, |fn.seen|);
        return Some(Callback(verdict.value));
      }
      n := n + 1;
      cursor := batch.next;
      if cursor == 0 {
        assert batches[..n] == batches;
        return None;
      }
    }
  }

  lemma OnlyOneFirst<E>(verdict: seq<string> -> Option<E>, keys: seq<string>, k: nat)
    requires FirstRejects(verdict, keys, k)
    ensures forall j: nat :: FirstRejects(verdict, keys, j) ==> j == k
    ensures !Accepts(verdict, keys, |keys|)
  {
  }

  /** Every callback either accepts all keys or has a first call it rejects, so ScanFunc's contract is complete. */
  lemma {:induction false} AcceptsOrRejects<E>(verdict: seq<string> -> Option<E>, keys: seq<string>, n: nat)
    requires n <= |keys|
    ensures Accepts(verdict, keys, n) || exists k | 0 < k <= n :: FirstRejects(verdict, keys, k)
  {
    if n > 0 {
      AcceptsOrRejects(verdict, keys, n - 1);
      if Accepts(verdict, keys, n - 1) && verdict(keys[..n]).Some? {
        assert FirstRejects(verdict, keys, n);
      }
    }
  }

  /** The refinement in one place: run both forms against the same replies and compare. */
  method ScanFuncRefinesScan(server: RedisServer, ghost batches: seq<Batch>)
    returns (keys: seq<string>, seen: seq<string>)
    requires batches != [] && batches[|batches| - 1].next == 0 && server(0, 0) == Ok(batches[0])
    requires forall i | 0 <= i < |batches| - 1 :: batches[i].next != 0
    requires forall i, j | 0 <= i < j < |batches| && j == i + 1 :: server(j, batches[i].next) == Ok(batches[j])
    ensures keys == seen == BatchKeys(batches)
  {
    var r := Scan(true, server, batches, Complete);
    var visitor := new Visitor<string>(_ => None);
    var err := ScanFunc(true, server, visitor, batches, Complete);
    keys, seen := r.value, visitor.seen;
  }
}
