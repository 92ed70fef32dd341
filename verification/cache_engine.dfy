/** `AzureBlobStorageCache`: the info and variant cache over one container,
    with the container modelled as a `Store`, the clock as `now` (epoch
    milliseconds) and the set of names being uploaded as `uploading`. */
module BlobStorageCache {
  import opened Wrappers
  import opened JavaStrings
  import opened BlobStore
  import opened Failures
  import opened CacheNaming
  import opened Validity
  import W = BlobOutputStream

  /** The configured blob name prefix and the variant cache TTL in seconds. */
  datatype Settings = Settings(prefix: Option<string>, ttlSeconds: int)

  datatype Cache = Cache(store: Store, uploading: set<string>)

  // Eviction. Each operation lists the blobs under a prefix and deletes the
  // selected ones one by one; a storage failure on any deletion aborts the
  // walk with an IOException, keeping the deletions already made. `failing`
  // names the blobs whose deletion fails. The listing is fetched page by page
  // while it is consumed, so it can fail too: `listFault == Some(k)` means
  // fetching more names fails once `k` names have been yielded.

  /** Whether a listing fault cuts short a listing of `count` names. */
  predicate ListingFails(listFault: Option<nat>, count: nat)
  {
    listFault.Some? && listFault.value < count
  }

  method DeleteListed(store: Store, listPrefix: string, selected: (string, Blob) -> bool, failing: set<string>,
                      listFault: Option<nat>)
    returns (r: Store, error: Option<Error>)
    ensures forall n :: n in r ==> n in store && r[n] == store[n]
    ensures forall n :: n in store && !(listPrefix <= n && selected(n, store[n])) ==> n in r
    ensures error.None? ==> forall n :: n in store && listPrefix <= n && selected(n, store[n]) ==> n !in r
    ensures error.Some? ==> error == Some(IOError)
    ensures error.Some? ==>
      || ListingFails(listFault, |Listed(store, listPrefix)|)
      || exists n :: n in failing && n in r && listPrefix <= n && selected(n, store[n])
    ensures ListingFails(listFault, |Listed(store, listPrefix)|) ==> error == Some(IOError)
    ensures listFault == Some(0) && Listed(store, listPrefix) != {} ==> r == store
    ensures !ListingFails(listFault, |Listed(store, listPrefix)|)
            && (forall n :: n in failing && n in store && listPrefix <= n ==> !selected(n, store[n]))
            ==> error.None?
  {
    var remaining := Listed(store, listPrefix);
    var yielded: nat := 0;
    r := store;
    error := None;
    while remaining != {}
      invariant remaining <= Listed(store, listPrefix)
      invariant yielded + |remaining| == |Listed(store, listPrefix)|
      invariant yielded == 0 ==> r == store
      invariant forall n :: n in r ==> n in store && r[n] == store[n]
      invariant forall n :: n in store && !(listPrefix <= n && selected(n, store[n])) ==> n in r
      invariant forall n :: n in remaining ==> n in r
      invariant forall n :: n in store && listPrefix <= n && selected(n, store[n]) && n !in remaining ==> n !in r
      invariant !ListingFails(listFault, yielded)
      decreases remaining
    {
      if listFault == Some(yielded) {
        error := Some(IOError);
        return;
      }
      var n :| n in remaining;
      remaining := remaining - {n};
      yielded := yielded + 1;
      if selected(n, store[n]) {
        if n in failing {
          error := Some(IOError);
          return;
        }
        r := r - {n};
      }
    }
  }

  /** `purge`: every blob under the prefix goes; nothing outside it is touched,
      even when the walk is cut short. */
  method Purge(store: Store, settings: Settings, failing: set<string>, listFault: Option<nat>)
    returns (r: Store, error: Option<Error>)
    ensures var prefix := BlobNamePrefix(settings.prefix);
      && (forall n :: n in r ==> n in store && r[n] == store[n])
      && (forall n :: n in store && !(prefix <= n) ==> n in r)
      && (error.None? ==> forall n :: n in store && prefix <= n ==> n !in r)
      && (error.Some? ==> error == Some(IOError))
      && (ListingFails(listFault, |Listed(store, prefix)|) ==> error == Some(IOError))
  {
    r, error := DeleteListed(store, BlobNamePrefix(settings.prefix), (n: string, b: Blob) => true, failing, listFault);
  }

  /** `evictInvalid`: exactly the stale blobs under the prefix go. */
  method EvictInvalid(store: Store, settings: Settings, now: int, failing: set<string>, listFault: Option<nat>)
    returns (r: Store, error: Option<Error>)
    ensures var prefix := BlobNamePrefix(settings.prefix);
      && (forall n :: n in r ==> n in store && r[n] == store[n])
      && (forall n :: n in store && !(prefix <= n) ==> n in r)
      && (forall n :: n in store && IsValid(store[n], settings.ttlSeconds, now) ==> n in r)
      && (error.None? ==> forall n :: n in store && prefix <= n && !IsValid(store[n], settings.ttlSeconds, now) ==> n !in r)
      && (error.Some? ==> error == Some(IOError))
      && (ListingFails(listFault, |Listed(store, prefix)|) ==> error == Some(IOError))
  {
    r, error := DeleteListed(store, BlobNamePrefix(settings.prefix),
                             (n: string, b: Blob) => !IsValid(b, settings.ttlSeconds, now), failing, listFault);
  }

  /** `evictInfos`: exactly the `.json` blobs under the prefix go. */
  method EvictInfos(store: Store, settings: Settings, failing: set<string>, listFault: Option<nat>)
    returns (r: Store, error: Option<Error>)
    ensures var prefix := BlobNamePrefix(settings.prefix);
      && (forall n :: n in r ==> n in store && r[n] == store[n])
      && (forall n :: n in store && !(prefix <= n && EndsWith(n, InfoExtension)) ==> n in r)
      && (error.None? ==> forall n :: n in store && prefix <= n && EndsWith(n, InfoExtension) ==> n !in r)
      && (error.Some? ==> error == Some(IOError))
      && (ListingFails(listFault, |Listed(store, prefix)|) ==> error == Some(IOError))
  {
    r, error := DeleteListed(store, BlobNamePrefix(settings.prefix),
                             (n: string, b: Blob) => EndsWith(n, InfoExtension), failing, listFault);
  }

  /** `evict(Identifier)`: the info blob, then every blob under
      `<prefix>image/<md5(identifier)>`. Variants of identifiers with another
      digest survive. */
  method EvictIdentifier(store: Store, settings: Settings, md5: Hash, identifier: string, failing: set<string>,
                         listFault: Option<nat>)
    returns (r: Store, error: Option<Error>)
    ensures var prefix := BlobNamePrefix(settings.prefix);
      var info := InfoName(prefix, md5, identifier);
      var images := IdentifierImagePrefix(prefix, md5, identifier);
      && (forall n :: n in r ==> n in store && r[n] == store[n])
      && (forall n :: n in store && n != info && !(images <= n) ==> n in r)
      && (error.None? ==> info !in r && forall n :: n in store && images <= n ==> n !in r)
      && (error.Some? ==> error == Some(IOError))
      && (ListingFails(listFault, |Listed(store - {info}, images)|) ==> error == Some(IOError))
    ensures IsMd5(md5) ==> forall ops: OperationList ::
      (VariantName(BlobNamePrefix(settings.prefix), md5, ops) in store && md5(ops.identifier) != md5(identifier))
      ==> VariantName(BlobNamePrefix(settings.prefix), md5, ops) in r
    ensures IsMd5(md5) && error.None? ==> forall ops: OperationList ::
      ops.identifier == identifier ==> VariantName(BlobNamePrefix(settings.prefix), md5, ops) !in r
  {
    var prefix := BlobNamePrefix(settings.prefix);
    var info := InfoName(prefix, md5, identifier);
    var images := IdentifierImagePrefix(prefix, md5, identifier);
    if info in failing {
      r, error := store, Some(IOError);
    } else {
      r, error := DeleteListed(store - {info}, images, (n: string, b: Blob) => true, failing, listFault);
    }
    forall ops | IsMd5(md5) ensures VariantName(prefix, md5, ops) != info {
      InfoAndVariantNamesDisjoint(prefix, md5, identifier, identifier, ops);
    }
    forall ops | IsMd5(md5) ensures images <= VariantName(prefix, md5, ops) <==> md5(identifier) == md5(ops.identifier) {
      VariantUnderIdentifierPrefix(prefix, md5, identifier, ops);
    }
  }

  /** `evict(OperationList)`: deletes the one variant blob, if present. */
  function EvictVariant(store: Store, settings: Settings, md5: Hash, ops: OperationList, failing: set<string>)
    : (r: Result<Store, Error>)
    ensures var name := VariantName(BlobNamePrefix(settings.prefix), md5, ops);
      && (r.Success? <==> name !in failing)
      && (r.Success? ==> name !in r.value && forall n :: n in store && n != name ==> n in r.value && r.value[n] == store[n])
      && (r.Success? ==> forall n :: n in r.value ==> n in store)
      && (r.Failure? ==> r.error == IOError)
  {
    var name := VariantName(BlobNamePrefix(settings.prefix), md5, ops);
    if name in failing then Failure(IOError) else Success(store - {name})
  }

  // Reads. A stale blob reads as absent and is scheduled for asynchronous
  // deletion (`purgeAsync`): the result carries the names so scheduled.

  /** The parts of an `Info` the cache touches; `content` stands for the rest. */
  datatype Info = Info(content: string, serializationTimestamp: Option<int>)

  datatype Fetched<T> = Fetched(result: Result<Option<T>, Error>, scheduled: set<string>)

  /** `fetchInfo`. `fromJson` is `Info.fromJSON` (`None`: unparseable, an
      IOException); `fault` is a status with which the properties request fails. */
  function FetchInfo(c: Cache, settings: Settings, md5: Hash, identifier: string, now: int,
                     fromJson: seq<Byte> -> Option<Info>, fault: Option<int>): (r: Fetched<Info>)
    ensures var name := InfoName(BlobNamePrefix(settings.prefix), md5, identifier);
      && (r.result.Success? && r.result.value.Some? ==>
            && fault.None? && name in c.store && IsValid(c.store[name], settings.ttlSeconds, now)
            && r.result.value.value.serializationTimestamp.Some?)
      && (fault.None? && name !in c.store ==> r == Fetched(Success(None), {}))
      && (fault == Some(404) ==> r == Fetched(Success(None), {}))
      && (r.scheduled != {} <==> fault.None? && name in c.store && !IsValid(c.store[name], settings.ttlSeconds, now))
      && (r.scheduled != {} ==> r == Fetched(Success(None), {name}))
      && (r.result.Failure? ==> r.result.error == IOError)
    ensures fault.Some? && fault.value != 404 ==> r == Fetched(Failure(IOError), {})
    ensures var name := InfoName(BlobNamePrefix(settings.prefix), md5, identifier);
      fault.None? && name in c.store && IsValid(c.store[name], settings.ttlSeconds, now) ==>
        && r.scheduled == {}
        && (fromJson(c.store[name].data).None? ==> r.result == Failure(IOError))
        && (fromJson(c.store[name].data).Some? ==>
              var i := fromJson(c.store[name].data).value;
              r.result == Success(Some(if i.serializationTimestamp.None?
                                       then i.(serializationTimestamp := Some(c.store[name].lastModified)) else i)))
  {
    var name := InfoName(BlobNamePrefix(settings.prefix), md5, identifier);
    if fault.Some? then
      if fault.value == 404 then Fetched(Success(None), {}) else Fetched(Failure(IOError), {})
    else if name !in c.store then Fetched(Success(None), {})
    else
      var blob := c.store[name];
      if !IsValid(blob, settings.ttlSeconds, now) then Fetched(Success(None), {name})
      else match fromJson(blob.data)
        case None => Fetched(Failure(IOError), {})
        case Some(info) =>
          var stamped := if info.serializationTimestamp.None?
                         then info.(serializationTimestamp := Some(blob.lastModified)) else info;
          Fetched(Success(Some(stamped)), {})
  }

  datatype VariantRead = VariantRead(data: seq<Byte>, lastModified: int)

  /** `newVariantImageInputStream`: the stream (as the blob's bytes) and the
      last-modified time it stores into the `StatResult`. Any storage failure
      becomes an IOException. */
  function NewVariantImageInputStream(c: Cache, settings: Settings, md5: Hash, ops: OperationList, now: int,
                                      fault: Option<int>): (r: Fetched<VariantRead>)
    ensures var name := VariantName(BlobNamePrefix(settings.prefix), md5, ops);
      && (fault.Some? <==> r.result.Failure?)
      && (r.result.Failure? ==> r.result.error == IOError)
      && (r.result.Success? && r.result.value.Some? ==>
            name in c.store && IsValid(c.store[name], settings.ttlSeconds, now)
            && r.result.value.value == VariantRead(c.store[name].data, c.store[name].lastModified))
      && (fault.None? && name in c.store && IsValid(c.store[name], settings.ttlSeconds, now) ==> r.result.value.Some?)
      && (r.scheduled != {} <==> fault.None? && name in c.store && !IsValid(c.store[name], settings.ttlSeconds, now))
      && (r.scheduled != {} ==> r == Fetched(Success(None), {name}))
  {
    var name := VariantName(BlobNamePrefix(settings.prefix), md5, ops);
    if fault.Some? then Fetched(Failure(IOError), {})
    else if name !in c.store then Fetched(Success(None), {})
    else if !IsValid(c.store[name], settings.ttlSeconds, now) then Fetched(Success(None), {name})
    else Fetched(Success(Some(VariantRead(c.store[name].data, c.store[name].lastModified))), {})
  }

  // Writes, deduplicated through `uploading`. The source checks and then adds
  // in two steps; this sequential model makes them one.

  const JsonHeaders := W.Headers(Some("application/json"), Some("UTF-8"))

  /** `put(Identifier, String)` with the text already encoded: when no other
      upload of the info blob is in flight, a direct writer writes the bytes
      and is closed. */
  function Put(c: Cache, settings: Settings, md5: Hash, identifier: string, json: seq<Byte>, now: int,
               attempt: W.OpenAttempt, fault: W.Fault): (r: (Cache, Option<Error>))
    ensures var name := InfoName(BlobNamePrefix(settings.prefix), md5, identifier);
      && (name in c.uploading ==> r == (c, None))
      && r.0.uploading == c.uploading
      && (forall n :: n != name ==> (n in r.0.store <==> n in c.store))
      && (forall n :: n != name && n in c.store ==> r.0.store[n] == c.store[n])
      && (name !in c.uploading && attempt == W.OpenSucceeds && fault == W.NoFault ==>
            r.0.store == c.store[name := Blob(None, now, None, json)] && r.1.None?)
      && (r.1.Some? ==> r.1 == Some(IOError))
      && (attempt != W.OpenSucceeds ==> r.0.store == c.store)
  {
    var name := InfoName(BlobNamePrefix(settings.prefix), md5, identifier);
    if name in c.uploading then (c, None)
    else
      var w := W.NewDirect(name, JsonHeaders);
      var written := W.Write(w, json, attempt);
      var w' := if written.Success? then written.value else w;
      var closed := W.Close(w', c.store, c.uploading + {name}, now, fault);
      assert (c.uploading + {name}) - {name} == c.uploading;
      (Cache(closed.store, closed.uploading), if written.Failure? then Some(written.error) else closed.error)
  }

  /** `put(Identifier, Info)` followed by `fetchInfo` gives the info back, with
      the serialization timestamp filled in from the write time when the info
      had none. */
  lemma PutThenFetchInfo(c: Cache, settings: Settings, md5: Hash, identifier: string, info: Info,
                         toJson: Info -> seq<Byte>, fromJson: seq<Byte> -> Option<Info>, now: int, later: int)
    requires InfoName(BlobNamePrefix(settings.prefix), md5, identifier) !in c.uploading
    requires fromJson(toJson(info)) == Some(info)
    requires IsValid(Blob(None, now, None, toJson(info)), settings.ttlSeconds, later)
    ensures var (c', error) := Put(c, settings, md5, identifier, toJson(info), now, W.OpenSucceeds, W.NoFault);
      && error.None?
      && FetchInfo(c', settings, md5, identifier, later, fromJson, None).result
         == Success(Some(if info.serializationTimestamp.Some? then info else info.(serializationTimestamp := Some(now))))
  {
  }

  datatype VariantSink = NullSink | BlobSink(writer: W.Writer)

  /** `newVariantImageOutputStream`: a staged writer onto a temporary blob when
      no other upload of the variant is in flight, else a null sink. */
  function NewVariantImageOutputStream(c: Cache, settings: Settings, md5: Hash, ops: OperationList,
                                       threadName: string, observers: set<W.Observer>): (r: (Cache, VariantSink))
    ensures var name := VariantName(BlobNamePrefix(settings.prefix), md5, ops);
      && (r.1.NullSink? <==> name in c.uploading)
      && (r.1.NullSink? ==> r.0 == c)
      && (r.1.BlobSink? ==>
            && r.0 == c.(uploading := c.uploading + {name})
            && r.1.writer.mode == W.Staged(ops, observers)
            && r.1.writer.blobName == name
            && r.1.writer.target == TempName(BlobNamePrefix(settings.prefix), md5, ops, threadName)
            && r.1.writer.target != name
            && r.1.writer.sink.Unopened? && !r.1.writer.complete)
  {
    var prefix := BlobNamePrefix(settings.prefix);
    var name := VariantName(prefix, md5, ops);
    if name in c.uploading then (c, NullSink)
    else
      var headers := W.Headers(Some(ops.outputMediaType), None);
      var w := W.NewStaged(TempName(prefix, md5, ops, threadName), name, ops, headers, observers);
      (c.(uploading := c.uploading + {name}), BlobSink(w))
  }

  /** While one writer of a variant is open, a second request for the same
      variant gets a null sink and changes nothing. */
  lemma ConcurrentVariantWriteDeduplicated(c: Cache, settings: Settings, md5: Hash, ops: OperationList,
                                           t1: string, t2: string, observers: set<W.Observer>)
    requires VariantName(BlobNamePrefix(settings.prefix), md5, ops) !in c.uploading
    ensures var (c1, first) := NewVariantImageOutputStream(c, settings, md5, ops, t1, observers);
      var (c2, second) := NewVariantImageOutputStream(c1, settings, md5, ops, t2, observers);
      first.BlobSink? && second.NullSink? && c2 == c1
  {
  }

  /** A variant written in full, marked complete and closed is readable under
      its permanent name with exactly the bytes written; the temporary blob is
      gone and the upload set is as before. */
  lemma VariantWriteThenRead(c: Cache, settings: Settings, md5: Hash, ops: OperationList, threadName: string,
                             observers: set<W.Observer>, bytes: seq<Byte>, now: int, later: int)
    requires VariantName(BlobNamePrefix(settings.prefix), md5, ops) !in c.uploading
    requires IsValid(Blob(None, now, None, bytes), settings.ttlSeconds, later)
    ensures var (c1, sink) := NewVariantImageOutputStream(c, settings, md5, ops, threadName, observers);
      && sink.BlobSink?
      && var written := W.Write(sink.writer, bytes, W.OpenSucceeds);
      && written.Success?
      && var closed := W.Close(W.SetComplete(written.value, true), c1.store, c1.uploading, now, W.NoFault);
      && closed.error.None?
      && closed.uploading == c.uploading
      && TempName(BlobNamePrefix(settings.prefix), md5, ops, threadName) !in closed.store
      && NewVariantImageInputStream(Cache(closed.store, closed.uploading), settings, md5, ops, later, None).result
         == Success(Some(VariantRead(bytes, now)))
  {
    var prefix := BlobNamePrefix(settings.prefix);
    var name := VariantName(prefix, md5, ops);
    var (c1, sink) := NewVariantImageOutputStream(c, settings, md5, ops, threadName, observers);
    var written := W.Write(sink.writer, bytes, W.OpenSucceeds);
    var w := W.SetComplete(written.value, true);
    assert w.sink.buffer == bytes;
    W.StagedCompleteClose(w, c1.store, c1.uploading, now);
    assert (c.uploading + {name}) - {name} == c.uploading;
  }
}
