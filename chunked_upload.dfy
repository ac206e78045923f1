/**
 * Uploading a list of items with size-based chunking: a payload under the safe threshold goes
 * out in one request; a larger one is split into chunks whose size is estimated from the
 * payload, halved whenever the server answers 413 (payload too large), and, as a last resort,
 * a single item that still draws a 413 is dropped and reported as an error.
 *
 * The JSON encoding is abstract: `size(xs)` is the UTF-8 byte count of the encoded list. The
 * server is abstract too: `post(k)` is its answer to the k-th request of the upload.
 */
module ChunkedUpload {
  import opened Wrappers

  /** 90% of the 1 MB request limit of the web server in front of the backend. */
  const DefaultSafeThreshold: int := 900000
  /** The smallest estimated chunk size. */
  const MinChunkSize: int := 10
  /** The smallest chunk size reached by halving after a 413. */
  const MinimumChunkSize: int := 1

  const IntMax: int := 0x7fff_ffff
  const IntMin: int := -0x8000_0000

  /** The server's answer to one POST: accepted, HTTP 413, or any other error. */
  datatype Response = Accepted | PayloadTooLarge(detail: string) | OtherError(detail: string)

  datatype UploadResult = UploadResult(
    totalItems: int,
    chunksUploaded: int,
    totalBytesUploaded: int,
    usedFastPath: bool,
    errors: seq<string>)

  /** What the upload returns, or the error it rethrows. */
  datatype Outcome = Uploaded(result: UploadResult) | Thrown(detail: string)

  function Min(a: int, b: int): int { if a <= b then a else b }
  function Max(a: int, b: int): int { if a >= b then a else b }

  /** Kotlin's `Double.toInt()` on a value that is a whole quotient: clamped to the Int range. */
  function ToInt(x: int): (r: int)
    ensures IntMin <= r <= IntMax
    ensures IntMin <= x <= IntMax ==> r == x
  {
    if x > IntMax then IntMax else if x < IntMin then IntMin else x
  }

  /**
   * `(safeThresholdBytes / bytesPerItem).toInt()` with `bytesPerItem = totalSize / n` as a double,
   * computed exactly: a quotient truncated towards zero, infinity for a zero byte count and NaN
   * (read as 0) for 0 / 0.
   */
  function ChunkEstimate(safe: int, n: nat, total: nat): int
  {
    if n == 0 then 0
    else if total == 0 then (if safe > 0 then IntMax else if safe < 0 then IntMin else 0)
    else if safe >= 0 then ToInt(safe * n / total)
    else ToInt(-((-safe) * n / total))
  }

  /** The starting chunk size: the estimate, at most `maxBatchSize`, then at least MinChunkSize. */
  function InitialChunkSize(safe: int, n: nat, total: nat, maxBatchSize: int): (r: int)
    ensures r >= MinChunkSize
    ensures maxBatchSize >= MinChunkSize ==> r <= maxBatchSize
    ensures r == MinChunkSize || r == maxBatchSize || r == ChunkEstimate(safe, n, total)
  {
    Max(Min(ChunkEstimate(safe, n, total), maxBatchSize), MinChunkSize)
  }

  /** Kotlin's `take`, which refuses a negative count. */
  function Take<T>(xs: seq<T>, n: int): (r: seq<T>)
    requires n >= 0
    ensures |r| == Min(n, |xs|) && r == xs[..|r|]
  {
    if n >= |xs| then xs else xs[..n]
  }

  /** The error recorded for an item dropped after a 413; `detail` is the exception's class and message. */
  function DroppedItemMessage(detail: string): string
  {
    "Failed to upload chunk of 1 item(s): " + detail
  }

  /**
   * The state of the chunk loop: the data not yet handled, the current chunk size, the number of
   * requests made, the chunks the server accepted, the items dropped, the error messages, and
   * the error that ended the loop, if any.
   */
  datatype Loop<T> = Loop(
    remaining: seq<T>,
    itemsPerChunk: int,
    requests: nat,
    sent: seq<seq<T>>,
    dropped: seq<T>,
    errors: seq<string>,
    failure: Option<string>)

  function Start<T>(data: seq<T>, itemsPerChunk: int): Loop<T>
  {
    Loop(data, itemsPerChunk, 0, [], [], [], None)
  }

  /**
   * One pass of the loop: post the next chunk; on acceptance move past it; on a 413 halve the
   * chunk size (floor 1) while the chunk holds more than one item, else drop that one item and
   * record an error; on any other error stop with that error.
   */
  function Step<T>(s: Loop<T>, post: nat -> Response): (r: Loop<T>)
    requires s.remaining != [] && s.itemsPerChunk >= MinimumChunkSize
    ensures r.itemsPerChunk >= MinimumChunkSize
    ensures r.failure.Some?
            || |r.remaining| < |s.remaining|
            || (r.remaining == s.remaining && r.itemsPerChunk < s.itemsPerChunk)
  {
    var chunk := Take(s.remaining, s.itemsPerChunk);
    var next := s.(requests := s.requests + 1);
    match post(s.requests)
    case Accepted =>
      next.(remaining := s.remaining[|chunk|..], sent := s.sent + [chunk])
    case PayloadTooLarge(detail) =>
      if |chunk| > MinimumChunkSize then
        next.(itemsPerChunk := Max(s.itemsPerChunk / 2, MinimumChunkSize))
      else
        next.(remaining := s.remaining[|chunk|..], dropped := s.dropped + chunk,
              errors := s.errors + [DroppedItemMessage(detail)])
    case OtherError(detail) =>
      next.(failure := Some(detail))
  }

  /** The loop run to its end: until no data remains or an error other than a 413 stops it. */
  function Run<T>(s: Loop<T>, post: nat -> Response): Loop<T>
    requires s.itemsPerChunk >= MinimumChunkSize
    decreases if s.failure.None? then 1 else 0, |s.remaining|, s.itemsPerChunk
  {
    if s.remaining == [] || s.failure.Some? then s else Run(Step(s, post), post)
  }

  /** Sum of the byte counts of the accepted chunks. */
  function SentBytes<T>(sent: seq<seq<T>>, size: seq<T> -> nat): nat
  {
    if |sent| == 0 then 0 else SentBytes(sent[..|sent| - 1], size) + size(sent[|sent| - 1])
  }

  function Flatten<T>(chunks: seq<seq<T>>): seq<T>
  {
    if |chunks| == 0 then [] else Flatten(chunks[..|chunks| - 1]) + chunks[|chunks| - 1]
  }

  /** What `uploadInChunks` reports once the loop has ended. */
  function Report<T>(data: seq<T>, s: Loop<T>, size: seq<T> -> nat): Outcome
  {
    if s.failure.Some? then Thrown(s.failure.value)
    else Uploaded(UploadResult(|data|, |s.sent|, SentBytes(s.sent, size), false, s.errors))
  }

  /** `uploadInChunks` as a function of its inputs. */
  function ChunkedOutcome<T>(data: seq<T>, maxBatchSize: int, safe: int, post: nat -> Response,
                             size: seq<T> -> nat): Outcome
  {
    Report(data, Run(Start(data, InitialChunkSize(safe, |data|, size(data), maxBatchSize)), post), size)
  }

  /** `uploadWithSizeBasedChunking` as a function of its inputs. */
  function SizeBasedOutcome<T>(data: seq<T>, maxBatchSize: int, safe: int, post: nat -> Response,
                               size: seq<T> -> nat): Outcome
  {
    if |data| == 0 then Uploaded(UploadResult(0, 0, 0, true, []))
    else if size(data) < safe then
      match post(0)
      case Accepted => Uploaded(UploadResult(|data|, 1, size(data), true, []))
      case PayloadTooLarge(detail) => Thrown(detail)
      case OtherError(detail) => Thrown(detail)
    else ChunkedOutcome(data, maxBatchSize, safe, post, size)
  }

  /**
   * What the loop keeps: every item of `data` is accepted, dropped or still remaining; one error
   * per dropped item; every accepted chunk holds between 1 and `bound` items, `bound` being the
   * starting chunk size, which the chunk size never exceeds.
   */
  ghost predicate Accounted<T>(s: Loop<T>, data: seq<T>, bound: int)
  {
    && multiset(Flatten(s.sent)) + multiset(s.dropped) + multiset(s.remaining) == multiset(data)
    && |s.errors| == |s.dropped|
    && MinimumChunkSize <= s.itemsPerChunk <= bound
    && (forall i :: 0 <= i < |s.sent| ==> 1 <= |s.sent[i]| <= bound)
  }

  lemma FlattenAppend<T>(chunks: seq<seq<T>>, c: seq<T>)
    ensures Flatten(chunks + [c]) == Flatten(chunks) + c
  {
    assert (chunks + [c])[..|chunks|] == chunks;
  }

  lemma SentBytesAppend<T>(sent: seq<seq<T>>, c: seq<T>, size: seq<T> -> nat)
    ensures SentBytes(sent + [c], size) == SentBytes(sent, size) + size(c)
  {
    assert (sent + [c])[..|sent|] == sent;
  }

  /** Moving an accepted chunk from the remaining data to the sent chunks loses no item. */
  lemma AcceptAccounted<T>(s: Loop<T>, chunk: seq<T>, rest: seq<T>, data: seq<T>, bound: int)
    requires Accounted(s, data, bound) && s.remaining == chunk + rest && 1 <= |chunk| <= s.itemsPerChunk
    ensures Accounted(s.(requests := s.requests + 1, remaining := rest, sent := s.sent + [chunk]), data, bound)
  {
    FlattenAppend(s.sent, chunk);
    assert multiset(s.remaining) == multiset(chunk) + multiset(rest);
    assert forall i :: 0 <= i < |s.sent| ==> (s.sent + [chunk])[i] == s.sent[i];
  }

  /** Dropping a one-item chunk with an error message loses no item either. */
  lemma DropAccounted<T>(s: Loop<T>, chunk: seq<T>, rest: seq<T>, message: string, data: seq<T>, bound: int)
    requires Accounted(s, data, bound) && s.remaining == chunk + rest && |chunk| == 1
    ensures Accounted(s.(requests := s.requests + 1, remaining := rest, dropped := s.dropped + chunk,
                         errors := s.errors + [message]), data, bound)
  {
    assert multiset(s.remaining) == multiset(chunk) + multiset(rest);
  }

  /** A pass of the loop loses no item and keeps the chunk sizes within the bound. */
  lemma StepAccounted<T>(s: Loop<T>, data: seq<T>, bound: int, post: nat -> Response)
    requires s.remaining != [] && Accounted(s, data, bound)
    ensures Accounted(Step(s, post), data, bound)
  {
    var chunk := Take(s.remaining, s.itemsPerChunk);
    var rest := s.remaining[|chunk|..];
    assert s.remaining == chunk + rest;
    match post(s.requests)
    case Accepted =>
      AcceptAccounted(s, chunk, rest, data, bound);
    case PayloadTooLarge(detail) =>
      if |chunk| <= MinimumChunkSize {
        DropAccounted(s, chunk, rest, DroppedItemMessage(detail), data, bound);
      }
    case OtherError(detail) =>
  }

  /**
   * Run to its end, the loop has lost no item and either handled all the data or stopped on an
   * error with data left over.
   */
  lemma {:induction false} RunAccounted<T>(s: Loop<T>, data: seq<T>, bound: int, post: nat -> Response)
    requires Accounted(s, data, bound)
    requires s.failure.Some? ==> s.remaining != []
    ensures Accounted(Run(s, post), data, bound)
    ensures Run(s, post).failure.None? <==> Run(s, post).remaining == []
    decreases if s.failure.None? then 1 else 0, |s.remaining|, s.itemsPerChunk
  {
    if s.remaining != [] && s.failure.None? {
      StepAccounted(s, data, bound, post);
      RunAccounted(Step(s, post), data, bound, post);
    }
  }

  /**
   * When the chunked upload returns, every item was either in an accepted chunk or dropped after
   * a 413 on its own, with one error per dropped item; the chunk count is the number of
   * accepted chunks, each no larger than the starting chunk size.
   */
  lemma ChunkedUploadLosesNothing<T>(data: seq<T>, maxBatchSize: int, safe: int, post: nat -> Response,
                                     size: seq<T> -> nat)
    ensures var start := InitialChunkSize(safe, |data|, size(data), maxBatchSize);
            var f := Run(Start(data, start), post);
            && (multiset(Flatten(f.sent)) + multiset(f.dropped) == multiset(data) <==> f.failure.None?)
            && |f.errors| == |f.dropped|
            && (forall i :: 0 <= i < |f.sent| ==> 1 <= |f.sent[i]| <= start)
            && ChunkedOutcome(data, maxBatchSize, safe, post, size)
               == if f.failure.Some? then Thrown(f.failure.value)
                  else Uploaded(UploadResult(|data|, |f.sent|, SentBytes(f.sent, size), false, f.errors))
  {
    var start := InitialChunkSize(safe, |data|, size(data), maxBatchSize);
    var s := Start(data, start);
    assert Flatten(s.sent) == [];
    RunAccounted(s, data, start, post);
    var f := Run(s, post);
    if f.failure.Some? {
      assert |f.remaining| > 0;
      assert multiset(f.remaining) != multiset{};
    }
  }

  /** Empty data is reported as a fast-path upload of nothing, whatever the server would answer: nothing is posted. */
  lemma EmptyDataSendsNothing<T>(maxBatchSize: int, safe: int, post: nat -> Response, size: seq<T> -> nat)
    ensures SizeBasedOutcome([], maxBatchSize, safe, post, size) == Uploaded(UploadResult(0, 0, 0, true, []))
  {
  }

  /**
   * Under the threshold a non-empty payload goes out in exactly one request: it is reported as
   * one fast-path chunk of all the items if the server accepts it, and any error is rethrown.
   */
  lemma FastPathOneRequest<T>(data: seq<T>, maxBatchSize: int, safe: int, post: nat -> Response, size: seq<T> -> nat)
    requires |data| > 0 && size(data) < safe
    ensures post(0).Accepted? <==>
            SizeBasedOutcome(data, maxBatchSize, safe, post, size) == Uploaded(UploadResult(|data|, 1, size(data), true, []))
    ensures !post(0).Accepted? ==> SizeBasedOutcome(data, maxBatchSize, safe, post, size) == Thrown(post(0).detail)
  {
  }

  /** `uploadInChunks`: the chunk loop over the data. */
  method UploadInChunks<T>(data: seq<T>, maxBatchSize: int, safe: int, post: nat -> Response, size: seq<T> -> nat)
    returns (outcome: Outcome)
    ensures outcome == ChunkedOutcome(data, maxBatchSize, safe, post, size)
  {
    var itemsPerChunk := InitialChunkSize(safe, |data|, size(data), maxBatchSize);
    ghost var start := Start(data, itemsPerChunk);
    var totalBytesUploaded := 0;
    var chunksUploaded := 0;
    var errors := [];
    var remainingData := data;
    var requests := 0;
    ghost var sent := [];
    ghost var dropped := [];
    while remainingData != []
      invariant itemsPerChunk >= MinimumChunkSize
      invariant Run(Loop(remainingData, itemsPerChunk, requests, sent, dropped, errors, None), post) == Run(start, post)
      invariant chunksUploaded == |sent| && totalBytesUploaded == SentBytes(sent, size)
      decreases |remainingData|, itemsPerChunk
    {
      ghost var current := Loop(remainingData, itemsPerChunk, requests, sent, dropped, errors, None);
      var chunk := Take(remainingData, itemsPerChunk);
      var response := post(requests);
      requests := requests + 1;
      match response
      case Accepted =>
        SentBytesAppend(sent, chunk, size);
        totalBytesUploaded := totalBytesUploaded + size(chunk);
        chunksUploaded := chunksUploaded + 1;
        remainingData := remainingData[|chunk|..];
        sent := sent + [chunk];
        assert Step(current, post) == Loop(remainingData, itemsPerChunk, requests, sent, dropped, errors, None);
      case PayloadTooLarge(detail) =>
        if |chunk| > MinimumChunkSize {
          itemsPerChunk := Max(itemsPerChunk / 2, MinimumChunkSize);
          assert Step(current, post) == Loop(remainingData, itemsPerChunk, requests, sent, dropped, errors, None);
        } else {
          errors := errors + [DroppedItemMessage(detail)];
          remainingData := remainingData[|chunk|..];
          dropped := dropped + chunk;
          assert Step(current, post) == Loop(remainingData, itemsPerChunk, requests, sent, dropped, errors, None);
        }
      case OtherError(detail) =>
        assert Step(current, post) == current.(requests := requests, failure := Some(detail));
        return Thrown(detail);
    }
    outcome := Uploaded(UploadResult(|data|, chunksUploaded, totalBytesUploaded, false, errors));
  }

  /** `uploadWithSizeBasedChunking`: nothing for empty data, one request under the threshold, else chunks. */
  method UploadWithSizeBasedChunking<T>(data: seq<T>, maxBatchSize: int, safe: int, post: nat -> Response,
                                        size: seq<T> -> nat)
    returns (outcome: Outcome)
    ensures outcome == SizeBasedOutcome(data, maxBatchSize, safe, post, size)
  {
    if |data| == 0 {
      return Uploaded(UploadResult(0, 0, 0, true, []));
    }
    var sizeBytes := size(data);
    if sizeBytes < safe {
      var response := post(0);
      if response.Accepted? {
        return Uploaded(UploadResult(|data|, 1, sizeBytes, true, []));
      }
      return Thrown(response.detail);
    }
    outcome := UploadInChunks(data, maxBatchSize, safe, post, size);
  }
}
