/** Reading a source blob: `AzureBlobHTTPImageInputStreamClient`, which answers
    the HEAD and ranged GET requests of a windowed stream from the blob, and
    `AzureBlobStreamFactory`, which chooses between that windowed stream and
    a stream over the whole blob. `blob` is what the storage service answers
    for the blob: its properties and contents, or a failure status. */
module SourceStream {
  import opened Wrappers
  import opened JavaStrings
  import opened BlobStore
  import opened Failures

  // The HTTP client

  const StatusOk := 200
  const StatusPartialContent := 206

  datatype Response = Response(status: int, headers: map<string, string>, body: seq<Byte>)

  /** An inclusive byte range, as in an HTTP Range header. */
  datatype Range = Range(start: int, end: int)

  /** `sendHEADRequest`: 200 with the blob's size as Content-Length and
      byte ranges accepted; failures mapped by status. */
  function SendHead(blob: Result<Blob, int>): (r: Result<Response, Error>)
    ensures r.Failure? <==> blob.Failure?
    ensures r.Failure? ==> r.error == FromStatus(blob.error)
    ensures r.Success? ==> r.value.status == StatusOk && r.value.body == []
    ensures r.Success? ==> "Content-Length" in r.value.headers && "Accept-Ranges" in r.value.headers
    ensures r.Success? ==> r.value.headers["Accept-Ranges"] == "bytes"
    ensures r.Success? ==> forall c :: c in r.value.headers["Content-Length"] ==> IsDigit(c)
  {
    match blob
    case Failure(status) => Failure(FromStatus(status))
    case Success(b) =>
      var length := NatToString(b.Size());
      assert forall i :: 0 <= i < |length| ==> IsDigit(length[i]);
      Success(Response(StatusOk, map["Content-Length" := length, "Accept-Ranges" := "bytes"], []))
  }

  /** A reader of the HEAD response recovers the blob's exact size. */
  lemma ContentLengthIsBlobSize(b: Blob)
    ensures SendHead(Success(b)).Success?
    ensures ParseNat(SendHead(Success(b)).value.headers["Content-Length"]) == Some(|b.data|)
  {
    NatToStringRoundTrip(|b.data|);
  }

  /** The byte count of an inclusive range. */
  function RangeLength(range: Range): (n: int)
    ensures range.start + n - 1 == range.end
  {
    range.end - range.start + 1
  }

  /** `sendGETRequest`: a download of `end - start + 1` bytes from `start`,
      answered with 206 and the bytes. The SDK's `BlobRange` rejects a
      negative offset or a non-positive count with an
      IllegalArgumentException, which is not mapped. */
  function SendGet(blob: Result<Blob, int>, range: Range): (r: Result<Response, Error>)
    ensures range.start < 0 || RangeLength(range) <= 0 ==> r == Failure(IllegalArgument)
    ensures r.Success? ==> blob.Success? && 0 <= range.start < |blob.value.data| && RangeLength(range) > 0
    ensures r.Success? ==> r.value.status == StatusPartialContent
    ensures r.Success? && blob.Success? ==> |r.value.body| == if range.end < |blob.value.data| then RangeLength(range)
                                            else |blob.value.data| - range.start
    ensures r.Success? && blob.Success? ==> forall i :: 0 <= i < |r.value.body| ==> r.value.body[i] == blob.value.data[range.start + i]
    ensures r.Failure? && r.error != IllegalArgument ==> IsIOException(r.error)
    ensures range.start >= 0 && RangeLength(range) > 0 && blob.Failure? ==> r == Failure(FromStatus(blob.error))
    ensures blob.Success? && 0 <= range.start < |blob.value.data| && RangeLength(range) > 0 ==> r.Success?
    ensures blob.Success? && range.start >= |blob.value.data| && RangeLength(range) > 0 ==> r == Failure(FromStatus(416))
  {
    var length := RangeLength(range);
    if range.start < 0 || length <= 0 then Failure(IllegalArgument)
    else match blob
      case Failure(status) => Failure(FromStatus(status))
      case Success(b) =>
        match ReadRange(b, range.start, length)
        case Failure(status) => Failure(FromStatus(status))
        case Success(bytes) => Success(Response(StatusPartialContent, map[], bytes))
  }

  /** The range 10-50 of a blob of at least 51 bytes is 41 bytes long and
      starts at byte 10. */
  lemma RangeExample(b: Blob)
    requires |b.data| >= 51
    ensures SendGet(Success(b), Range(10, 50)).Success?
    ensures SendGet(Success(b), Range(10, 50)).value.body == b.data[10..51]
  {
    var body := SendGet(Success(b), Range(10, 50)).value.body;
    assert |body| == 41;
    assert forall i :: 0 <= i < 41 ==> body[i] == b.data[10 + i];
  }

  // The stream factory

  /** `DEFAULT_CHUNK_SIZE`. */
  const DefaultChunkSize := 1024 * 512

  const TwoToThe32 := 0x1_0000_0000
  const TwoToThe31 := 0x8000_0000

  /** Java's `(int)` cast of a `long`: keeps the low 32 bits, read as a signed
      two's-complement value. */
  function ToInt32(x: int): (r: int)
    ensures -TwoToThe31 <= r < TwoToThe31
    ensures (x - r) % TwoToThe32 == 0
    ensures -TwoToThe31 <= x < TwoToThe31 ==> r == x
  {
    var low := x % TwoToThe32;
    if low < TwoToThe31 then low else low - TwoToThe32
  }

  /** The factory's two settings, `None` when unset. The chunk size is the
      value `getLongBytes` parsed. */
  datatype StreamConfig = StreamConfig(chunkingEnabled: Option<bool>, chunkSize: Option<int>)

  /** `isChunkingEnabled`: on unless configured off. */
  function ChunkingEnabled(config: StreamConfig): (r: bool)
    ensures r <==> config.chunkingEnabled != Some(false)
  {
    config.chunkingEnabled.GetOr(true)
  }

  /** `getChunkSize`: the configured size cast to `int`, 512 KiB by default. */
  function ChunkSize(config: StreamConfig): (r: int)
    ensures config.chunkSize.None? ==> r == 524288
    ensures config.chunkSize.Some? ==> (config.chunkSize.value - r) % TwoToThe32 == 0
    ensures -TwoToThe31 <= r < TwoToThe31
  {
    ToInt32(config.chunkSize.GetOr(DefaultChunkSize))
  }

  /** A four-gigabyte chunk size wraps to zero. */
  lemma FourGigabyteChunkWraps()
    ensures ChunkSize(StreamConfig(None, Some(TwoToThe32))) == 0
    ensures ChunkSize(StreamConfig(None, Some(TwoToThe31))) == -TwoToThe31
  {
  }

  datatype SeekableStream =
    | Windowed(size: nat, windowSize: int) // HTTPImageInputStream over the HTTP client
    | WholeBlob(data: seq<Byte>)          // ClosingFileCacheImageInputStream over openInputStream

  /** The outcome of `newSeekableStream`, and whether a partly built stream
      was closed on the way out. */
  datatype StreamOutcome = StreamOutcome(result: Result<SeekableStream, Error>, closedPartial: bool)

  /** `newSeekableStream`. With chunking, storage failures are mapped by
      status, and a failure setting the window size (`acceptsWindow` is the
      stream's own check) closes the stream built so far and is rethrown.
      Without chunking, a failure to open the blob escapes unmapped. */
  function NewSeekableStream(config: StreamConfig, blob: Result<Blob, int>, acceptsWindow: int -> bool)
    : (r: StreamOutcome)
    ensures r.closedPartial ==> ChunkingEnabled(config) && blob.Success? && r.result == Failure(IllegalArgument)
    ensures ChunkingEnabled(config) && blob.Success? && !acceptsWindow(ChunkSize(config)) ==>
      r == StreamOutcome(Failure(IllegalArgument), true)
    ensures ChunkingEnabled(config) && blob.Failure? ==> r == StreamOutcome(Failure(FromStatus(blob.error)), false)
    ensures !ChunkingEnabled(config) && blob.Failure? ==> r == StreamOutcome(Failure(StorageFailure(blob.error)), false)
    ensures r.result.Success? ==> blob.Success?
    ensures r.result.Success? && ChunkingEnabled(config) ==>
      r.result.value == Windowed(|blob.value.data|, ChunkSize(config)) && acceptsWindow(ChunkSize(config))
    ensures r.result.Success? && !ChunkingEnabled(config) ==> r.result.value == WholeBlob(blob.value.data)
    ensures blob.Success? && (!ChunkingEnabled(config) || acceptsWindow(ChunkSize(config))) ==> r.result.Success?
  {
    if ChunkingEnabled(config) then
      match blob
      case Failure(status) => StreamOutcome(Failure(FromStatus(status)), false)
      case Success(b) =>
        var chunkSize := ChunkSize(config);
        if acceptsWindow(chunkSize) then StreamOutcome(Success(Windowed(b.Size(), chunkSize)), false)
        else StreamOutcome(Failure(IllegalArgument), true)
    else
      match blob
      case Failure(status) => StreamOutcome(Failure(StorageFailure(status)), false)
      case Success(b) => StreamOutcome(Success(WholeBlob(b.data)), false)
  }

  /** The two kinds of stream see the same blob: the window stream's size is
      the Content-Length a HEAD request reports, and any in-bounds window it
      fetches holds the bytes the whole-blob stream has at those offsets. */
  lemma ChunkedAndWholeStreamsAgree(chunked: StreamConfig, whole: StreamConfig, b: Blob,
                                    acceptsWindow: int -> bool, range: Range)
    requires ChunkingEnabled(chunked) && acceptsWindow(ChunkSize(chunked))
    requires !ChunkingEnabled(whole)
    requires 0 <= range.start <= range.end < |b.data|
    ensures var w := NewSeekableStream(chunked, Success(b), acceptsWindow).result;
      var d := NewSeekableStream(whole, Success(b), acceptsWindow).result;
      && w.Success? && w.value.Windowed? && d.Success? && d.value.WholeBlob?
      && ParseNat(SendHead(Success(b)).value.headers["Content-Length"]) == Some(w.value.size)
      && w.value.size == |d.value.data|
      && SendGet(Success(b), range).Success?
      && SendGet(Success(b), range).value.body == d.value.data[range.start..range.end + 1]
  {
    ContentLengthIsBlobSize(b);
    InBoundsGetReturnsSlice(b, range);
  }

  /** A GET whose range lies wholly inside the blob returns exactly that
      slice of the blob. */
  lemma InBoundsGetReturnsSlice(b: Blob, range: Range)
    requires 0 <= range.start <= range.end < |b.data|
    ensures SendGet(Success(b), range).Success?
    ensures SendGet(Success(b), range).value.body == b.data[range.start..range.end + 1]
  {
    var body := SendGet(Success(b), range).value.body;
    assert |body| == range.end + 1 - range.start;
    assert forall i :: 0 <= i < |body| ==> body[i] == b.data[range.start + i];
  }

  /** A GET that starts inside the blob but runs past its end still succeeds,
      with the rest of the blob from the range start. */
  lemma OverlongGetIsClipped(b: Blob, range: Range)
    requires 0 <= range.start < |b.data| <= range.end
    ensures SendGet(Success(b), range).Success?
    ensures SendGet(Success(b), range).value.body == b.data[range.start..]
  {
    var body := SendGet(Success(b), range).value.body;
    assert |body| == |b.data| - range.start;
    assert forall i :: 0 <= i < |body| ==> body[i] == b.data[range.start + i];
  }
}
