/** `AzureBlobOutputStream`: a lazily opened sink onto one blob, in one of two
    modes. Direct mode writes the blob in place. Staged mode writes a
    temporary blob which `close` copies to the permanent name only when the
    producer marked the stream complete. Either way, `close` releases the
    permanent (or direct) name from the set of names being uploaded. */
module BlobOutputStream {
  import opened Wrappers
  import opened BlobStore
  import opened Failures
  import CacheNaming

  datatype Observer = Observer(id: nat)

  datatype Headers = Headers(contentType: Option<string>, contentEncoding: Option<string>)

  datatype Mode =
    | Direct
    | Staged(opList: CacheNaming.OperationList, observers: set<Observer>)

  /** The SDK's `BlobOutputStream`, once opened, with the bytes it has taken. */
  datatype Sink = Unopened | Opened(buffer: seq<Byte>)

  /** `target` is the blob the stream writes (the temporary blob in staged
      mode); `blobName` is the name `close` removes from the upload set. */
  datatype Writer = Writer(
    mode: Mode,
    target: string,
    blobName: string,
    headers: Headers,
    sink: Sink,
    complete: bool)

  /** The first constructor: write straight into `name`. */
  function NewDirect(name: string, headers: Headers): (w: Writer)
    ensures w.mode.Direct? && w.target == name && w.blobName == name
    ensures w.sink.Unopened? && !w.complete
  {
    Writer(Direct, name, name, headers, Unopened, false)
  }

  /** The second constructor: write into `temp`, to be promoted to `permanent`. */
  function NewStaged(temp: string, permanent: string, opList: CacheNaming.OperationList,
                     headers: Headers, observers: set<Observer>): (w: Writer)
    ensures w.mode == Staged(opList, observers) && w.target == temp && w.blobName == permanent
    ensures w.sink.Unopened? && !w.complete
  {
    Writer(Staged(opList, observers), temp, permanent, headers, Unopened, false)
  }

  /** `CompletableOutputStream.setComplete`. */
  function SetComplete(w: Writer, complete: bool): Writer {
    w.(complete := complete)
  }

  // Lazy opening

  /** What `getBlobOutputStream(true)` does when asked: open, fail with an
      "already exists" `IllegalArgumentException`, or fail otherwise. */
  datatype OpenAttempt = OpenSucceeds | OpenAlreadyExists | OpenFails

  /** `openOutputStream`: the writer afterwards and whether a stream is open. */
  function OpenOutputStream(w: Writer, attempt: OpenAttempt): (r: Result<(Writer, bool), Error>)
    ensures w.sink.Opened? ==> r == Success((w, true))
    ensures r.Success? ==> (r.value.1 <==> r.value.0.sink.Opened?)
    ensures r.Success? ==> r.value.0 == w || (w.sink.Unopened? && r.value.0 == w.(sink := Opened([])))
    ensures r.Failure? <==> w.sink.Unopened? && attempt == OpenFails
    ensures r.Failure? ==> r.error == IOError
  {
    if w.sink.Opened? then Success((w, true))
    else match attempt
      case OpenSucceeds => Success((w.(sink := Opened([])), true))
      case OpenAlreadyExists => Success((w, false))
      case OpenFails => Failure(IOError)
  }

  /** `write(int)`, `write(byte[])` and `write(byte[], int, int)`. */
  function Write(w: Writer, bytes: seq<Byte>, attempt: OpenAttempt): (r: Result<Writer, Error>)
    ensures w.sink.Opened? ==> r == Success(w.(sink := Opened(w.sink.buffer + bytes)))
    ensures w.sink.Unopened? && attempt == OpenSucceeds ==> r == Success(w.(sink := Opened(bytes)))
    ensures w.sink.Unopened? && attempt == OpenAlreadyExists ==> r == Success(w)
    ensures w.sink.Unopened? && attempt == OpenFails ==> r == Failure(IOError)
  {
    assert [] + bytes == bytes;
    var o :- OpenOutputStream(w, attempt);
    var (w', isOpen) := o;
    if isOpen then Success(w'.(sink := Opened(w'.sink.buffer + bytes))) else Success(w')
  }

  /** `flush`: opens the stream if needed; the bytes are unchanged. */
  function Flush(w: Writer, attempt: OpenAttempt): (r: Result<Writer, Error>)
    ensures r.Success? ==> r.value.mode == w.mode && r.value.complete == w.complete
    ensures r.Success? && r.value.sink.Opened? && w.sink.Opened? ==> r.value.sink == w.sink
    ensures r.Success? && w.sink.Unopened? ==> r.value.sink == Unopened || r.value.sink == Opened([])
    ensures r.Failure? <==> w.sink.Unopened? && attempt == OpenFails
  {
    var o :- OpenOutputStream(w, attempt);
    Success(o.0)
  }

  /** Once open, the stream is never opened again: the open attempt's
      outcome no longer matters. */
  lemma OpenedAtMostOnce(w: Writer, bytes: seq<Byte>, a1: OpenAttempt, a2: OpenAttempt)
    requires w.sink.Opened?
    ensures Write(w, bytes, a1) == Write(w, bytes, a2)
    ensures Flush(w, a1) == Flush(w, a2) == Success(w)
  {
  }

  function Concat(chunks: seq<seq<Byte>>): seq<Byte> {
    if |chunks| == 0 then [] else Concat(chunks[..|chunks| - 1]) + chunks[|chunks| - 1]
  }

  /** A run of writes, each allowed its own open attempt. */
  function WriteAll(w: Writer, chunks: seq<seq<Byte>>, attempts: seq<OpenAttempt>): Result<Writer, Error>
    requires |attempts| == |chunks|
  {
    if |chunks| == 0 then Success(w)
    else
      var w' :- WriteAll(w, chunks[..|chunks| - 1], attempts[..|chunks| - 1]);
      Write(w', chunks[|chunks| - 1], attempts[|chunks| - 1])
  }

  /** After the first successful open, every byte written is kept, in order,
      and nothing else about the writer changes. */
  lemma {:induction false} WritesAccumulate(w: Writer, chunks: seq<seq<Byte>>, attempts: seq<OpenAttempt>)
    requires |attempts| == |chunks|
    requires w.sink.Opened?
    ensures WriteAll(w, chunks, attempts) == Success(w.(sink := Opened(w.sink.buffer + Concat(chunks))))
  {
    if |chunks| > 0 {
      WritesAccumulate(w, chunks[..|chunks| - 1], attempts[..|chunks| - 1]);
      assert w.sink.buffer + Concat(chunks)
          == w.sink.buffer + Concat(chunks[..|chunks| - 1]) + chunks[|chunks| - 1];
    } else {
      assert w.sink.buffer + Concat(chunks) == w.sink.buffer;
    }
  }

  // Closing

  /** How a storage failure is classified: the `BlobAlreadyExists` error code
      (or an `IOException` whose message mentions it), or anything else. */
  datatype ErrorKind = AlreadyExistsError | OtherError

  /** The backend calls `close` makes, in order. */
  datatype CloseStep = Commit | Copy | SetHeaders | DeleteTemp

  /** A backend failure injected at one step of `close`. */
  datatype Fault = NoFault | FailAt(step: CloseStep, kind: ErrorKind)

  datatype Closed = Closed(
    store: Store,
    uploading: set<string>,
    notified: set<(Observer, CacheNaming.OperationList)>,
    error: Option<Error>)

  /** The blob the SDK commits when the open stream is closed. */
  function Committed(w: Writer, now: int): Blob
    requires w.sink.Opened?
  {
    Blob(None, now, None, w.sink.buffer)
  }

  /** The blob a copy creates at its destination. */
  function CopyOf(source: Blob, now: int): Blob {
    Blob(None, now, source.contentType, source.data)
  }

  function FailureAt(fault: Fault, step: CloseStep): Option<ErrorKind> {
    if fault.FailAt? && fault.step == step then Some(fault.kind) else None
  }

  datatype Progress = Progress(store: Store, notified: set<(Observer, CacheNaming.OperationList)>, failure: Option<ErrorKind>)

  /** The staged branch of `close`, after the stream itself was closed: copy
      the temporary blob into place when complete and set the headers (on the
      temporary blob), then delete the temporary blob and notify observers. */
  function StagedFinish(w: Writer, store: Store, now: int, fault: Fault): Progress
    requires w.mode.Staged?
  {
    var copied :=
      if !w.complete then Progress(store, {}, None)
      else if FailureAt(fault, Copy).Some? then Progress(store, {}, FailureAt(fault, Copy))
      else if w.target !in store then Progress(store, {}, Some(OtherError)) // the copy source is missing
      else
        var s := store[w.blobName := CopyOf(store[w.target], now)];
        if FailureAt(fault, SetHeaders).Some? then Progress(s, {}, FailureAt(fault, SetHeaders))
        else Progress(s[w.target := s[w.target].(contentType := w.headers.contentType)], {}, None);
    if copied.failure.Some? then copied
    else if FailureAt(fault, DeleteTemp).Some? then Progress(copied.store, {}, FailureAt(fault, DeleteTemp))
    else Progress(copied.store - {w.target}, set o | o in w.mode.observers :: (o, w.mode.opList), None)
  }

  /** The `try` block of `close`. */
  function CloseBody(w: Writer, store: Store, now: int, fault: Fault): Progress {
    if w.sink.Opened? && FailureAt(fault, Commit).Some? then Progress(store, {}, FailureAt(fault, Commit))
    else
      var s := if w.sink.Opened? then store[w.target := Committed(w, now)] else store;
      if w.mode.Direct? then Progress(s, {}, None) else StagedFinish(w, s, now, fault)
  }

  /** `close`: a `BlobAlreadyExists` failure is swallowed, any other becomes an
      `IOException`, and in every case the name leaves the upload set. */
  function Close(w: Writer, store: Store, uploading: set<string>, now: int, fault: Fault): (r: Closed)
    ensures r.uploading == uploading - {w.blobName}
    ensures r.error.Some? ==> r.error == Some(IOError)
    ensures r.notified != {} ==> w.mode.Staged? && r.error.None?
    ensures w.mode.Direct? ==> r.notified == {}
    ensures w.mode.Direct? ==> forall n :: n in store ==> n in r.store
    ensures w.mode.Direct? ==> forall n :: n in r.store ==> n in store || (n == w.target && w.sink.Opened?)
    ensures w.mode.Direct? ==> forall n :: n in store && n != w.target ==> r.store[n] == store[n]
  {
    var p := CloseBody(w, store, now, fault);
    var error := match p.failure
      case Some(OtherError) => Some(IOError)
      case _ => None;
    Closed(p.store, uploading - {w.blobName}, p.notified, error)
  }

  /** Whether `close` reaches a step at all. */
  predicate Reaches(w: Writer, step: CloseStep) {
    match step
    case Commit => w.sink.Opened?
    case Copy => w.mode.Staged? && w.complete
    case SetHeaders => w.mode.Staged? && w.complete
    case DeleteTemp => w.mode.Staged?
  }

  /** A failure at a step `close` reaches is swallowed exactly when it is a
      `BlobAlreadyExists` conflict; any other surfaces as an `IOException`. */
  lemma CloseErrorClassification(w: Writer, store: Store, uploading: set<string>, now: int, fault: Fault)
    requires w.sink.Opened?
    requires fault.FailAt? && Reaches(w, fault.step)
    ensures var r := Close(w, store, uploading, now, fault);
      r.error == (if fault.kind == OtherError then Some(IOError) else None)
      && r.uploading == uploading - {w.blobName}
  {
  }

  /** Staged close of a completed stream: the permanent blob holds the bytes
      written, the temporary blob is gone, and every observer hears of it. */
  lemma StagedCompleteClose(w: Writer, store: Store, uploading: set<string>, now: int)
    requires w.mode.Staged? && w.complete && w.sink.Opened?
    requires w.target != w.blobName
    ensures var r := Close(w, store, uploading, now, NoFault);
      && r.store == store[w.blobName := Blob(None, now, None, w.sink.buffer)] - {w.target}
      && (forall o :: o in w.mode.observers ==> (o, w.mode.opList) in r.notified)
      && r.error.None?
  {
    var s1 := store[w.target := Committed(w, now)];
    var s2 := s1[w.blobName := CopyOf(s1[w.target], now)];
    var s3 := s2[w.target := s2[w.target].(contentType := w.headers.contentType)];
    assert s3 - {w.target} == store[w.blobName := Blob(None, now, None, w.sink.buffer)] - {w.target};
  }

  /** Staged close of an incomplete stream: the temporary blob is deleted, the
      permanent name is neither created nor changed, and observers are still
      notified. */
  lemma StagedIncompleteClose(w: Writer, store: Store, uploading: set<string>, now: int)
    requires w.mode.Staged? && !w.complete
    requires w.target != w.blobName
    ensures var r := Close(w, store, uploading, now, NoFault);
      && w.target !in r.store
      && (forall n :: n != w.target ==> (n in r.store <==> n in store))
      && (forall n :: n in r.store ==> r.store[n] == store[n])
      && (forall o :: o in w.mode.observers ==> (o, w.mode.opList) in r.notified)
      && r.error.None?
  {
  }

  /** Direct close commits what was written and does nothing else. */
  lemma DirectClose(w: Writer, store: Store, uploading: set<string>, now: int)
    requires w.mode.Direct? && w.sink.Opened?
    ensures Close(w, store, uploading, now, NoFault)
         == Closed(store[w.target := Blob(None, now, None, w.sink.buffer)], uploading - {w.blobName}, {}, None)
  {
  }
}
