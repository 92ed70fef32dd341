/** `AzureBlobStorageSource`: resolves an identifier to a blob, once per
    instance, and serves its metadata, format guesses and contents. The
    instance's memoised fields are explicit state; the lookup strategy,
    the delegate and the configuration are its environment. */
module BlobStorageSource {
  import opened Wrappers
  import opened JavaStrings
  import opened BlobStore
  import opened Failures
  import opened Clients
  import opened SourceBlobInfo
  import opened SourceClientFactory
  import opened FormatIterator
  import opened SourceStream

  datatype LookupStrategy = BasicLookup | DelegateLookup

  /** What invoking the `azureblobstoragesource_blob_info` delegate method
      gives: no delegate script, a `DelegateException`, or a hash (`None`
      for nil) whose values may themselves be nil. */
  datatype DelegateOutcome =
    | NoDelegateScript
    | DelegateFails
    | DelegateReturns(hash: Option<map<string, Option<string>>>)

  datatype Environment = Environment(strategy: LookupStrategy, delegate: DelegateOutcome, config: SourceConfig)

  /** A `BlobClient`: the container client and the blob name it points at. */
  datatype BlobRef = BlobRef(container: ContainerClient, blobName: Option<string>)

  datatype SourceState = SourceState(
    identifier: string,
    blobInfo: Option<BlobInfo>,
    blobClient: Option<BlobRef>,
    formatIterator: Option<Iterator>)

  /** What every reachable state satisfies: a blob client and a format
      iterator exist only once the blob info does, and the client points at
      the blob the info names. */
  predicate Consistent(s: SourceState) {
    && (s.blobClient.Some? ==> s.blobInfo.Some? && s.blobClient.value.blobName == s.blobInfo.value.blobName)
    && (s.formatIterator.Some? ==> s.blobInfo.Some?)
  }

  function Initial(identifier: string): (s: SourceState)
    ensures s.identifier == identifier
    ensures s.blobInfo.None? && s.blobClient.None? && s.formatIterator.None?
    ensures Consistent(s)
  {
    SourceState(identifier, None, None, None)
  }

  function Field(hash: map<string, Option<string>>, key: string): Option<string> {
    if key in hash then hash[key] else None
  }

  /** `getBlobInfoUsingDelegateStrategy`, with the `DelegateException` wrapped
      in an IOException as `getBlobInfo` does. */
  function BlobInfoFromDelegate(outcome: DelegateOutcome): (r: Result<BlobInfo, Error>)
    ensures r.Success? <==>
      outcome.DelegateReturns? && outcome.hash.Some? && "container" in outcome.hash.value && "name" in outcome.hash.value
    ensures outcome == NoDelegateScript ==> r == Failure(NoSuchFile)
    ensures outcome == DelegateFails ==> r == Failure(IOError)
    ensures outcome.DelegateReturns? && (outcome.hash.None? || outcome.hash.value == map[]) ==> r == Failure(NoSuchFile)
    ensures outcome.DelegateReturns? && outcome.hash.Some? && outcome.hash.value != map[] && r.Failure? ==>
      r.error == IllegalArgument
    ensures r.Success? ==> var hash := outcome.hash.value;
      r.value == BlobInfo(Field(hash, "endpoint"), Field(hash, "account_name"), Field(hash, "account_key"),
                          hash["container"], hash["name"])
  {
    match outcome
    case NoDelegateScript => Failure(NoSuchFile)
    case DelegateFails => Failure(IOError)
    case DelegateReturns(None) => Failure(NoSuchFile)
    case DelegateReturns(Some(hash)) =>
      if hash == map[] then Failure(NoSuchFile)
      else if "container" in hash && "name" in hash then
        Success(BlobInfo(Field(hash, "endpoint"), Field(hash, "account_name"), Field(hash, "account_key"),
                         hash["container"], hash["name"]))
      else Failure(IllegalArgument)
  }

  /** `getBlobInfo`: worked out on the first successful call and remembered. */
  function GetBlobInfo(s: SourceState, env: Environment): (r: (SourceState, Result<BlobInfo, Error>))
    ensures s.blobInfo.Some? ==> r == (s, Success(s.blobInfo.value))
    ensures r.1.Success? ==> r.0 == s.(blobInfo := Some(r.1.value))
    ensures r.1.Failure? ==> r.0 == s
    ensures s.blobInfo.None? && env.strategy == BasicLookup ==> r.1 == Success(FromName(s.identifier))
    ensures s.blobInfo.None? && env.strategy == DelegateLookup ==> r.1 == BlobInfoFromDelegate(env.delegate)
    ensures Consistent(s) ==> Consistent(r.0)
  {
    if s.blobInfo.Some? then (s, Success(s.blobInfo.value))
    else
      var info := match env.strategy
        case BasicLookup => Success(FromName(s.identifier))
        case DelegateLookup => BlobInfoFromDelegate(env.delegate);
      if info.Success? then (s.(blobInfo := Some(info.value)), info) else (s, info)
  }

  /** Once known, the blob info no longer depends on the environment: the
      strategy and the delegate are consulted at most once. */
  lemma BlobInfoMemoised(s: SourceState, e1: Environment, e2: Environment)
    requires GetBlobInfo(s, e1).1.Success?
    ensures var (s1, info) := GetBlobInfo(s, e1);
      GetBlobInfo(s1, e2) == (s1, info)
  {
  }

  /** `getBlobClient`: built from the blob info and remembered. */
  function GetBlobClient(s: SourceState, env: Environment): (r: (SourceState, Result<BlobRef, Error>))
    ensures s.blobClient.Some? ==> r == (s, Success(s.blobClient.value))
    ensures r.1.Success? ==> r.0.blobClient == Some(r.1.value)
    ensures s.blobClient.None? && r.1.Success? ==> r.0.blobInfo.Some? && r.1.value.blobName == r.0.blobInfo.value.blobName
    ensures Consistent(s) ==> Consistent(r.0)
    ensures s.blobClient.None? && r.1.Success? ==>
      Success(r.1.value.container) == NewContainerClient(r.0.blobInfo, env.config)
    ensures r.0.identifier == s.identifier && r.0.formatIterator == s.formatIterator
    ensures s.blobInfo.Some? ==> r.0.blobInfo == s.blobInfo
  {
    if s.blobClient.Some? then (s, Success(s.blobClient.value))
    else
      var (s1, info) := GetBlobInfo(s, env);
      match info
      case Failure(e) => (s1, Failure(e))
      case Success(b) =>
        match NewContainerClient(Some(b), env.config)
        case Failure(e) => (s1, Failure(e))
        case Success(container) =>
          var client := BlobRef(container, b.blobName);
          (s1.(blobClient := Some(client)), Success(client))
  }

  /** `stat`: the blob's last-modified time, with storage failures mapped by
      status. `blob` is what the properties request gets. */
  function Stat(s: SourceState, env: Environment, blob: Result<Blob, int>): (r: (SourceState, Result<int, Error>))
    ensures r.0 == GetBlobClient(s, env).0
    ensures GetBlobClient(s, env).1.Failure? ==> r.1 == Failure(GetBlobClient(s, env).1.error)
    ensures GetBlobClient(s, env).1.Success? && blob.Failure? ==> r.1 == Failure(FromStatus(blob.error))
    ensures r.1.Success? ==> blob.Success? && r.1.value == blob.value.lastModified
  {
    var (s1, client) := GetBlobClient(s, env);
    match client
    case Failure(e) => (s1, Failure(e))
    case Success(_) =>
      match blob
      case Failure(status) => (s1, Failure(FromStatus(status)))
      case Success(b) => (s1, Success(b.lastModified))
  }

  /** A missing blob is a NoSuchFileException and a forbidden one an
      AccessDeniedException; nothing else is. */
  lemma StatErrorMapping(s: SourceState, env: Environment, status: int)
    requires GetBlobClient(s, env).1.Success?
    ensures Stat(s, env, Failure(status)).1 == Failure(NoSuchFile) <==> status == 404
    ensures Stat(s, env, Failure(status)).1 == Failure(AccessDenied) <==> status == 403
    ensures IsIOException(Stat(s, env, Failure(status)).1.error)
  {
  }

  /** `getFormatIterator`: built over the blob name and the identifier and
      remembered. An IOException while resolving the blob leaves no iterator
      (`null`); any other exception propagates. */
  function GetFormatIterator(s: SourceState, env: Environment): (r: (SourceState, Result<Option<Iterator>, Error>))
    ensures s.formatIterator.Some? ==> r == (s, Success(s.formatIterator))
    ensures r.1.Failure? ==> !IsIOException(r.1.error)
    ensures r.1.Success? ==> r.0.formatIterator == r.1.value
    ensures s.formatIterator.None? && r.1.Success? && r.1.value.Some? ==>
      r.0.blobInfo.Some? && r.1.value.value == NewIterator(r.0.blobInfo.value.blobName, s.identifier)
    ensures Consistent(s) ==> Consistent(r.0)
    ensures s.formatIterator.None? && GetBlobClient(s, env).1.Failure? ==>
      (IsIOException(GetBlobClient(s, env).1.error) <==> r.1 == Success(None))
    ensures Consistent(s) && s.formatIterator.None? && GetBlobClient(s, env).1.Success? ==>
      r.1.Success? && r.1.value.Some?
  {
    if s.formatIterator.Some? then (s, Success(s.formatIterator))
    else
      var (s1, client) := GetBlobClient(s, env);
      var (s2, info) := if client.Success? then GetBlobInfo(s1, env) else (s1, Failure(client.error));
      match info
      case Failure(e) => if IsIOException(e) then (s2, Success(None)) else (s2, Failure(e))
      case Success(b) =>
        var it := NewIterator(b.blobName, s2.identifier);
        (s2.(formatIterator := Some(it)), Success(Some(it)))
  }

  /** `setIdentifier`: the new identifier, and the format iterator reset. */
  function SetIdentifier(s: SourceState, identifier: string): (r: SourceState)
    ensures r.identifier == identifier && r.formatIterator.None?
    ensures r.blobInfo == s.blobInfo && r.blobClient == s.blobClient
    ensures Consistent(s) ==> Consistent(r)
  {
    s.(identifier := identifier, formatIterator := None)
  }

  /** After `setIdentifier`, the next iterator is built afresh for the new
      identifier, but over the blob info and blob client already resolved
      for the old one. */
  lemma SetIdentifierRebuildsIterator(s: SourceState, env: Environment, identifier: string)
    requires Consistent(s) && s.blobClient.Some?
    ensures var (s1, it) := GetFormatIterator(SetIdentifier(s, identifier), env);
      && it == Success(Some(NewIterator(s.blobInfo.value.blobName, identifier)))
      && s1.blobInfo == s.blobInfo && s1.blobClient == s.blobClient
  {
  }

  /** The basic strategy uses the identifier as the blob name and takes
      everything else from the configuration. */
  lemma BasicLookupUsesIdentifier(identifier: string, env: Environment)
    requires env.strategy == BasicLookup
    ensures var (s1, client) := GetBlobClient(Initial(identifier), env);
      client.Success? <==> NewContainerClient(None, env.config).Success?
    ensures var (s1, client) := GetBlobClient(Initial(identifier), env);
      client.Success? ==> client.value.blobName == Some(identifier)
    ensures var (s1, client) := GetBlobClient(Initial(identifier), env);
      client.Success? ==> Success(client.value.container) == NewContainerClient(None, env.config)
  {
    NoBlobInfoIsNameOnly(identifier, env.config);
  }

  /** `newInputStream`: a stream over the resolved blob. */
  function NewInputStream(s: SourceState, env: Environment, streams: StreamConfig, blob: Result<Blob, int>,
                          acceptsWindow: int -> bool): (r: (SourceState, Result<SeekableStream, Error>))
    ensures r.0 == GetBlobClient(s, env).0
    ensures GetBlobClient(s, env).1.Failure? ==> r.1 == Failure(GetBlobClient(s, env).1.error)
    ensures GetBlobClient(s, env).1.Success? ==> r.1 == NewSeekableStream(streams, blob, acceptsWindow).result
  {
    var (s1, client) := GetBlobClient(s, env);
    match client
    case Failure(e) => (s1, Failure(e))
    case Success(_) => (s1, NewSeekableStream(streams, blob, acceptsWindow).result)
  }
}
