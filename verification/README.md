# Azure Blob Storage plugin for Galia, modelled in Dafny

This project models the core of the Galia Azure Blob Storage plugin and proves
properties of that model. The plugin has two halves.

- **`AzureBlobStorageCache`** keeps two kinds of blob in one container, both under a configurable name prefix:
  - derivative ("variant") images;
  - serialized image infos.

  It covers:
  - naming: `info/<md5>.json` and `image/<md5>/<md5>[.ext]`;
  - the TTL freshness rule;
  - prefix-scoped eviction and purging;
  - reads that treat stale blobs as missing and schedule them for deletion;
  - writes deduplicated through the set of names currently being uploaded;
  - `AzureBlobOutputStream`, a lazily opened writer. It either writes a blob in place, or writes a temporary blob that is promoted on a completed close.
- **`AzureBlobStorageSource`** resolves an image identifier to a blob and serves the blob's metadata, format guesses and bytes. It resolves the blob either directly or through a delegate script's `BlobInfo`. It covers:
  - the two `ContainerClientFactory` fallback chains;
  - `BlobFormatIterator`, which makes four format guesses in a fixed order;
  - the ranged-request HTTP client;
  - the stream factory, which chooses between a chunked stream and a whole-blob stream.

Modelling choices:
- The storage container is a `map<string, Blob>` (`BlobStore.Store`).
- Times are milliseconds since the epoch, so truncation to the second is explicit.
- Everything the plugin gets from its host or from the Azure SDK is a parameter:
  - `StringUtils.md5`;
  - the format detectors;
  - `Info` JSON parsing;
  - storage failures, given as status codes or as the set of names whose deletion fails.
- The memoised fields of a source instance are explicit state (`BlobStorageSource.SourceState`).
- Java exceptions are one closed datatype (`Failures.Error`).

Behaviours of the code worth knowing:
- Variants are stored under `image/`.
- A staged close applies the destination headers to the temporary blob after the copy, so the headers are lost with it.
- Observers are notified only when every step of a staged close succeeds, and that includes an incomplete close. A swallowed `BlobAlreadyExists` skips the notification.
- The format iterator catches only `IOException`. A storage failure in the Content-Type or byte step escapes `next`.
- The Content-Type step only checks that the header is non-null and non-empty. Any further judgement belongs to the media-type oracle.

Modules, one per file:
- `Wrappers`, `JavaStrings`, `Failures`, `BlobStore`: shared vocabulary.
- `CacheNaming`, `Validity`, `BlobOutputStream`, `BlobStorageCache`: the cache.
- `Clients`, `CacheClientFactory`, `SourceClientFactory`: the client factories.
- `SourceBlobInfo`, `FormatIterator`, `SourceStream`, `BlobStorageSource`: the source.
- `PluginKeys`: `getPluginConfigKeys` for both plugins.

In the table below, paths are relative to the repository root. The cache
files are `src/main/java/is/galia/plugin/azurestorage/cache/…` and the source
files are `…/azurestorage/source/…`.

## Model

| member | source | states |
|---|---|---|
| Failures.FromStatus | src/main/java/is/galia/plugin/azurestorage/source/AzureBlobStorageSource.java:200-209 | 403 becomes AccessDeniedException and 404 NoSuchFileException (each in both directions); every status becomes some IOException |
| BlobStore.ReadRange | src/main/java/is/galia/plugin/azurestorage/source/AzureBlobHTTPImageInputStreamClient.java:80-87 | a ranged download succeeds iff it starts inside the blob; it returns min(count, remaining) bytes, each equal to the blob's byte at offset + i |
| CacheNaming.BlobNamePrefix | src/main/java/is/galia/plugin/azurestorage/cache/AzureBlobStorageCache.java:143-150 | the prefix is empty iff the setting is unset, blank or "/"; otherwise it ends in exactly one slash, its body is a prefix of the setting, and only slashes were stripped |
| CacheNaming.PrefixIgnoresTrailingSlash | src/main/java/is/galia/plugin/azurestorage/cache/AzureBlobStorageCache.java:146-149 | "p" and "p/" configure the same prefix |
| CacheNaming.PrefixIdempotent | src/main/java/is/galia/plugin/azurestorage/cache/AzureBlobStorageCache.java:143-150 | normalising a normalised prefix changes nothing, except for "/" (which only a run of slashes produces) |
| CacheNaming.InfoName | src/main/java/is/galia/plugin/azurestorage/cache/AzureBlobStorageCache.java:118-121 | an info name starts with the prefix, continues with `info/` and ends with `.json` |
| CacheNaming.InfoNameRoundTrip | src/main/java/is/galia/plugin/azurestorage/cache/AzureBlobStorageCache.java:118-121 | the identifier's digest can be read back out of its info name |
| CacheNaming.InfoNamesFollowDigests | src/main/java/is/galia/plugin/azurestorage/cache/AzureBlobStorageCache.java:118-121 | two identifiers share an info blob iff their digests are equal |
| CacheNaming.VariantName | src/main/java/is/galia/plugin/azurestorage/cache/AzureBlobStorageCache.java:127-137 | a variant name lies under `<prefix>image/<md5(identifier)>/` and ends with the operation list's digest and extension |
| CacheNaming.VariantNameRoundTrip | src/main/java/is/galia/plugin/azurestorage/cache/AzureBlobStorageCache.java:127-137 | for a 32-hex-digit hash, parsing a variant name gives back both digests and the extension |
| CacheNaming.VariantExtensionIffEncode | src/main/java/is/galia/plugin/azurestorage/cache/AzureBlobStorageCache.java:130-134 | a variant name has an extension iff the operation list has an Encode, and then the extension is "." plus the format's preferred extension |
| CacheNaming.VariantUnderIdentifierPrefix | src/main/java/is/galia/plugin/azurestorage/cache/AzureBlobStorageCache.java:234-238 | a variant is listed under an identifier's image prefix iff its identifier has the same digest, even though the prefix has no trailing slash |
| CacheNaming.InfoAndVariantNamesDisjoint | src/main/java/is/galia/plugin/azurestorage/cache/AzureBlobStorageCache.java:118-137 | no info name equals a variant name, and no info blob falls under an image prefix |
| CacheNaming.TempName | src/main/java/is/galia/plugin/azurestorage/cache/AzureBlobStorageCache.java:152-158 | the temporary name strictly extends the permanent variant name and ends in `.tmp` |
| Validity.TruncateToSeconds | src/main/java/is/galia/plugin/azurestorage/cache/AzureBlobStorageCache.java:110 | truncation to the second yields the whole second at or below the instant |
| Validity.EarliestValidInstant | src/main/java/is/galia/plugin/azurestorage/cache/AzureBlobStorageCache.java:106-112 | there is no bound (Instant.MIN) iff the TTL is not positive; otherwise the bound is a whole second within one second below now - TTL |
| Validity.ValidIffYoungerThanTtl | src/main/java/is/galia/plugin/azurestorage/cache/AzureBlobStorageCache.java:168-185 | a blob is valid iff the TTL is not positive or its reference time is less than TTL seconds before the truncated clock |
| Validity.NoExpiryWithoutTtl | src/main/java/is/galia/plugin/azurestorage/cache/AzureBlobStorageCache.java:109-111 | with a TTL of zero or less, every blob is valid |
| Validity.AccessTimeTakesPrecedence | src/main/java/is/galia/plugin/azurestorage/cache/AzureBlobStorageCache.java:168-174 | once a last-accessed time is present, the last-modified time no longer matters |
| Validity.ValidityDecays | src/main/java/is/galia/plugin/azurestorage/cache/AzureBlobStorageCache.java:168-185 | a blob valid at some time was valid at every earlier time |
| Validity.ClockReadToTheSecond | src/main/java/is/galia/plugin/azurestorage/cache/AzureBlobStorageCache.java:110 | validity depends on the clock only to the second |
| Validity.ThreeHundredSecondExample | src/main/java/is/galia/plugin/azurestorage/cache/AzureBlobStorageCache.java:168-174 | TTL 300 s: last modified 400 s ago with no access time is stale; accessed 100 s ago is fresh |
| BlobOutputStream.NewDirect | src/main/java/is/galia/plugin/azurestorage/cache/AzureBlobOutputStream.java:59-66 | the first constructor writes in place and releases the same name it writes |
| BlobOutputStream.NewStaged | src/main/java/is/galia/plugin/azurestorage/cache/AzureBlobOutputStream.java:86-100 | the second constructor writes the temporary blob and releases the permanent name |
| BlobOutputStream.OpenOutputStream | src/main/java/is/galia/plugin/azurestorage/cache/AzureBlobOutputStream.java:144-162 | an open stream is reused; an "already exists" failure leaves it closed without error; any other failure is an IOException and happens only on a first open |
| BlobOutputStream.Write | src/main/java/is/galia/plugin/azurestorage/cache/AzureBlobOutputStream.java:171-190 | bytes are appended once the stream is open, dropped silently after an "already exists" open, and an IOException on any other open failure |
| BlobOutputStream.Flush | src/main/java/is/galia/plugin/azurestorage/cache/AzureBlobOutputStream.java:164-169 | flushing may open the stream but never changes the bytes, the mode or the completion flag |
| BlobOutputStream.OpenedAtMostOnce | src/main/java/is/galia/plugin/azurestorage/cache/AzureBlobOutputStream.java:144-147 | once open, write and flush ignore what opening would do |
| BlobOutputStream.WritesAccumulate | src/main/java/is/galia/plugin/azurestorage/cache/AzureBlobOutputStream.java:178-190 | a run of writes on an open stream keeps every byte, in order (proved by induction) |
| BlobOutputStream.Close | src/main/java/is/galia/plugin/azurestorage/cache/AzureBlobOutputStream.java:102-142 | close always removes the name from the upload set; the only error it raises is an IOException; only a staged close that raises nothing notifies; a direct close only ever creates or replaces its own blob |
| BlobOutputStream.CloseErrorClassification | src/main/java/is/galia/plugin/azurestorage/cache/AzureBlobOutputStream.java:121-134 | a failure at any step close reaches is swallowed iff it is a BlobAlreadyExists conflict, and the name is released either way |
| BlobOutputStream.StagedCompleteClose | src/main/java/is/galia/plugin/azurestorage/cache/AzureBlobOutputStream.java:108-120 | a completed staged close leaves the written bytes under the permanent name, removes the temporary blob and notifies every observer |
| BlobOutputStream.StagedIncompleteClose | src/main/java/is/galia/plugin/azurestorage/cache/AzureBlobOutputStream.java:108-120 | an incomplete staged close removes the temporary blob, leaves every other blob as it was, and still notifies the observers |
| BlobOutputStream.DirectClose | src/main/java/is/galia/plugin/azurestorage/cache/AzureBlobOutputStream.java:102-142 | a direct close commits the bytes written to the target and nothing else |
| Clients.JoinEndpoint | src/main/java/is/galia/plugin/azurestorage/cache/ContainerClientFactory.java:102-105 | the joined endpoint ends in "/" + account, and its base is the configured endpoint with only trailing slashes removed |
| Clients.CredentialFor | src/main/java/is/galia/plugin/azurestorage/cache/ContainerClientFactory.java:59-70 | the default credential chain is used iff the key is blank; otherwise a shared key for the resolved account |
| Clients.ContainerNameSetting | src/main/java/is/galia/plugin/azurestorage/cache/ContainerClientFactory.java:92-97 | a configured container name is "" iff unset or blank; otherwise it is the setting lower-cased character by character, with no upper-case letter left |
| Clients.ContainerNameCaseInsensitive | src/main/java/is/galia/plugin/azurestorage/cache/ContainerClientFactory.java:92-97 | configuring a name or its lower-case form selects the same container |
| Clients.EndpointSetting | src/main/java/is/galia/plugin/azurestorage/cache/ContainerClientFactory.java:99-107 | a configured endpoint counts iff non-blank, and then it is joined with the configured account name |
| CacheClientFactory.NewServiceClient | src/main/java/is/galia/plugin/azurestorage/cache/ContainerClientFactory.java:51-80 | it fails (IllegalArgumentException) iff the account name is unset or blank; otherwise the endpoint is the configured one joined with the account, else the public one |
| CacheClientFactory.NewContainerClient | src/main/java/is/galia/plugin/azurestorage/cache/ContainerClientFactory.java:46-49 | the container client pairs the service client with the lower-cased configured container |
| CacheClientFactory.CredentialIffKey | src/main/java/is/galia/plugin/azurestorage/cache/ContainerClientFactory.java:59-70 | with an account set, the key alone decides the credential: an unset key counts as blank |
| BlobStorageCache.DeleteListed | src/main/java/is/galia/plugin/azurestorage/cache/AzureBlobStorageCache.java:276-292 | the listing-and-deleting walk never creates or changes a blob and keeps every unselected or unprefixed one; without error it has deleted all selected ones; it fails only with an IOException, and only when the listing is cut short or some selected failing blob remains; a listing cut short always fails, and one that fails before its first name deletes nothing |
| BlobStorageCache.Purge | src/main/java/is/galia/plugin/azurestorage/cache/AzureBlobStorageCache.java:276-292 | purge never touches a blob outside the prefix and, without error, leaves nothing inside it; any failure, including a listing cut short, is an IOException |
| BlobStorageCache.EvictInvalid | src/main/java/is/galia/plugin/azurestorage/cache/AzureBlobStorageCache.java:253-273 | valid blobs and blobs outside the prefix survive; without error, no invalid blob under the prefix does; any failure, including a listing cut short, is an IOException |
| BlobStorageCache.EvictInfos | src/main/java/is/galia/plugin/azurestorage/cache/AzureBlobStorageCache.java:298-318 | only `.json` blobs under the prefix can go, and without error all of them have gone; nothing else changes; any failure, including a listing cut short, is an IOException |
| BlobStorageCache.EvictIdentifier | src/main/java/is/galia/plugin/azurestorage/cache/AzureBlobStorageCache.java:223-250 | only the info blob and the blobs under the identifier's image prefix may go; variants of identifiers with another digest survive; without error, the info and all the identifier's variants are gone; any failure, including a listing of the image prefix cut short, is an IOException |
| BlobStorageCache.EvictVariant | src/main/java/is/galia/plugin/azurestorage/cache/AzureBlobStorageCache.java:435-444 | exactly the one variant blob is deleted; a storage failure is an IOException |
| BlobStorageCache.FetchInfo | src/main/java/is/galia/plugin/azurestorage/cache/AzureBlobStorageCache.java:321-354 | missing or 404 gives empty; any other storage failure is an IOException; a stale blob gives empty and is scheduled for deletion (iff stale); a present, valid blob gives its parsed info, with the blob's last-modified time as the serialization timestamp when it had none, or an IOException when it does not parse |
| BlobStorageCache.NewVariantImageInputStream | src/main/java/is/galia/plugin/azurestorage/cache/AzureBlobStorageCache.java:384-412 | a stream is returned iff the variant is present and valid, with its bytes and last-modified time; a stale variant is scheduled for deletion; storage failures are IOExceptions |
| BlobStorageCache.Put | src/main/java/is/galia/plugin/azurestorage/cache/AzureBlobStorageCache.java:357-378 | a put while the info is being uploaded does nothing; a put never touches another blob and leaves the upload set as it found it; a clean put stores the bytes under the info name; an open that does not succeed stores nothing; every failure is an IOException |
| BlobStorageCache.PutThenFetchInfo | src/main/java/is/galia/plugin/azurestorage/cache/AzureBlobStorageCache.java:321-378 | put then fetchInfo returns the info, with the write time as its serialization timestamp when it had none |
| BlobStorageCache.NewVariantImageOutputStream | src/main/java/is/galia/plugin/azurestorage/cache/AzureBlobStorageCache.java:414-432 | a null sink is returned iff the variant is already being uploaded; otherwise the name is claimed and a staged writer onto a distinct temporary blob is returned |
| BlobStorageCache.ConcurrentVariantWriteDeduplicated | src/main/java/is/galia/plugin/azurestorage/cache/AzureBlobStorageCache.java:417-431 | of two requests for the same variant, only the first gets a writer, and the second changes nothing |
| BlobStorageCache.VariantWriteThenRead | src/main/java/is/galia/plugin/azurestorage/cache/AzureBlobStorageCache.java:384-432 | a variant written, marked complete and closed reads back with exactly the bytes written; its temporary blob is gone and the upload set is restored |
| PluginKeys.CacheKeyClaims | src/main/java/is/galia/plugin/azurestorage/config/Key.java:21-25 | a `cache.AzureBlobStorageCache.*` key contains the cache class name and not the source class name |
| PluginKeys.SourceKeyClaims | src/main/java/is/galia/plugin/azurestorage/config/Key.java:27-33 | a `source.AzureBlobStorageSource.*` key contains the source class name and not the cache class name |
| PluginKeys.CacheClaimsItsKeys | src/main/java/is/galia/plugin/azurestorage/cache/AzureBlobStorageCache.java:198-203 | the cache claims exactly its five keys |
| PluginKeys.SourceClaimsItsKeys | src/main/java/is/galia/plugin/azurestorage/source/AzureBlobStorageSource.java:168-173 | the source claims exactly its seven keys |
| SourceBlobInfo.FromName | src/main/java/is/galia/plugin/azurestorage/source/BlobInfo.java:25-27 | the one-argument constructor sets only the blob name |
| SourceBlobInfo.ToStringHidesCredentials | src/main/java/is/galia/plugin/azurestorage/source/BlobInfo.java:30-40 | toString depends on the account name and key only through whether they are set |
| SourceBlobInfo.ToStringShowsAccountNamePresence | src/main/java/is/galia/plugin/azurestorage/source/BlobInfo.java:33-34 | setting the account name changes toString |
| SourceBlobInfo.ToStringShowsAccountKeyPresence | src/main/java/is/galia/plugin/azurestorage/source/BlobInfo.java:35-36 | setting the account key changes toString |
| SourceClientFactory.NewServiceClient | src/main/java/is/galia/plugin/azurestorage/source/ContainerClientFactory.java:70-117 | it fails iff neither the BlobInfo nor the configuration gives a non-blank account; each setting is the BlobInfo value if non-blank, else the configured one; the endpoint is the BlobInfo's, else the configured one joined with the configured account, else the public endpoint of the resolved account |
| SourceClientFactory.NewContainerClient | src/main/java/is/galia/plugin/azurestorage/source/ContainerClientFactory.java:53-64 | a container name from the BlobInfo is used as given; otherwise the configured one is lower-cased |
| SourceClientFactory.BlobInfoOverridesConfiguration | src/main/java/is/galia/plugin/azurestorage/source/ContainerClientFactory.java:58-117 | a BlobInfo with every setting present makes the configuration irrelevant |
| SourceClientFactory.NoBlobInfoIsNameOnly | src/main/java/is/galia/plugin/azurestorage/source/ContainerClientFactory.java:53-68 | the no-argument form equals the form with a name-only BlobInfo |
| SourceClientFactory.ConfiguredEndpointKeepsConfiguredAccount | src/main/java/is/galia/plugin/azurestorage/source/ContainerClientFactory.java:136-144 | a configured endpoint ends with the configured account name, even when the BlobInfo supplies the account |
| FormatIterator.NewIterator | src/main/java/is/galia/plugin/azurestorage/source/BlobFormatIterator.java:107-121 | a new iterator has run no checker and has a next guess |
| FormatIterator.Successor | src/main/java/is/galia/plugin/azurestorage/source/BlobFormatIterator.java:125-135 | each step moves exactly one place along the fixed order |
| FormatIterator.CheckContentType | src/main/java/is/galia/plugin/azurestorage/source/BlobFormatIterator.java:66-75 | the guess comes from the Content-Type when it is set and non-empty, and is unknown otherwise; it fails iff the properties request fails, and then with the storage failure itself |
| FormatIterator.CheckBytes | src/main/java/is/galia/plugin/azurestorage/source/BlobFormatIterator.java:80-97 | the guess comes from the first min(readLength, size) bytes; a detector IOException gives unknown; a failed download, including one on an empty blob, escapes |
| FormatIterator.Next | src/main/java/is/galia/plugin/azurestorage/source/BlobFormatIterator.java:124-144 | next fails with NoSuchElementException iff the iterator is exhausted; otherwise it advances exactly one step; no IOException ever escapes |
| FormatIterator.FirstTwoGuessesSendNoRequest | src/main/java/is/galia/plugin/azurestorage/source/BlobFormatIterator.java:125-128 | the name and identifier guesses never fail and do not depend on the storage service |
| FormatIterator.Drain | src/main/java/is/galia/plugin/azurestorage/source/BlobFormatIterator.java:116-144 | from any position there are exactly 4 - rank calls before hasNext turns false, and none of them is NoSuchElementException |
| FormatIterator.FourGuessesThenExhausted | src/main/java/is/galia/plugin/azurestorage/source/BlobFormatIterator.java:116-144 | on a non-empty blob, a fresh iterator yields name, identifier, Content-Type and byte guesses, in that order, all successful (proved step by step) |
| FormatIterator.ExhaustedStaysExhausted | src/main/java/is/galia/plugin/azurestorage/source/BlobFormatIterator.java:133-135 | after the fourth guess, every next fails and leaves the iterator unchanged |
| SourceStream.SendHead | src/main/java/is/galia/plugin/azurestorage/source/AzureBlobHTTPImageInputStreamClient.java:56-75 | HEAD answers 200 with a decimal Content-Length and "Accept-Ranges: bytes", and fails iff the properties request fails, mapped by status |
| SourceStream.ContentLengthIsBlobSize | src/main/java/is/galia/plugin/azurestorage/source/AzureBlobHTTPImageInputStreamClient.java:61-62 | parsing the Content-Length header gives back the blob's exact size |
| SourceStream.SendGet | src/main/java/is/galia/plugin/azurestorage/source/AzureBlobHTTPImageInputStreamClient.java:78-102 | GET asks for end - start + 1 bytes. With a non-negative start and a non-empty range it answers 206 iff the range starts inside the blob, with the blob's bytes from the start, clipped at the end of the blob. A start at or past the end fails with 416 mapped to an IOException. A negative start or an empty range is an IllegalArgumentException. Storage failures are mapped by status |
| SourceStream.RangeExample | src/main/java/is/galia/plugin/azurestorage/source/AzureBlobHTTPImageInputStreamClient.java:79-80 | the range 10-50 reads the 41 bytes 10..50 |
| SourceStream.ToInt32 | src/main/java/is/galia/plugin/azurestorage/source/AzureBlobStreamFactory.java:99 | the `(int)` cast gives the 32-bit value congruent to its argument modulo 2^32, and is the identity within range |
| SourceStream.ChunkingEnabled | src/main/java/is/galia/plugin/azurestorage/source/AzureBlobStreamFactory.java:93-96 | chunking is on unless it is configured off |
| SourceStream.ChunkSize | src/main/java/is/galia/plugin/azurestorage/source/AzureBlobStreamFactory.java:98-101 | the chunk size is 524288 when unset; otherwise it is the configured size wrapped to 32 bits |
| SourceStream.FourGigabyteChunkWraps | src/main/java/is/galia/plugin/azurestorage/source/AzureBlobStreamFactory.java:98-101 | a 4 GiB chunk size becomes 0 and a 2 GiB one becomes -2^31 |
| SourceStream.NewSeekableStream | src/main/java/is/galia/plugin/azurestorage/source/AzureBlobStreamFactory.java:52-91 | chunked: a window stream over the blob size, storage failures mapped by status, and a rejected window size gives an IllegalArgumentException after closing the partial stream, which is closed in no other case; unchunked: a whole-blob stream, with open failures escaping unmapped |
| SourceStream.ChunkedAndWholeStreamsAgree | src/main/java/is/galia/plugin/azurestorage/source/AzureBlobStreamFactory.java:52-91 | the window stream's size is the Content-Length a HEAD reports, and an in-bounds window it fetches holds the bytes the whole-blob stream has at those offsets |
| SourceStream.InBoundsGetReturnsSlice | src/main/java/is/galia/plugin/azurestorage/source/AzureBlobHTTPImageInputStreamClient.java:78-91 | a GET whose range lies wholly inside the blob returns exactly that slice |
| SourceStream.OverlongGetIsClipped | src/main/java/is/galia/plugin/azurestorage/source/AzureBlobHTTPImageInputStreamClient.java:78-91 | a GET that starts inside the blob but ends past it succeeds with the rest of the blob |
| BlobStorageSource.BlobInfoFromDelegate | src/main/java/is/galia/plugin/azurestorage/source/AzureBlobStorageSource.java:138-158 | the delegate result is used iff it is a hash with both "container" and "name"; no script or a nil or empty hash gives NoSuchFileException; a delegate error gives IOException; a missing key gives IllegalArgumentException |
| BlobStorageSource.GetBlobInfo | src/main/java/is/galia/plugin/azurestorage/source/AzureBlobStorageSource.java:112-132 | a known info is returned unchanged; otherwise the basic strategy names the blob after the identifier and the delegate strategy asks the delegate; only success is remembered |
| BlobStorageSource.BlobInfoMemoised | src/main/java/is/galia/plugin/azurestorage/source/AzureBlobStorageSource.java:112-132 | after one success, the environment no longer matters |
| BlobStorageSource.GetBlobClient | src/main/java/is/galia/plugin/azurestorage/source/AzureBlobStorageSource.java:102-110 | a new client comes from the container-client factory and the blob info's name, and is remembered |
| BlobStorageSource.Stat | src/main/java/is/galia/plugin/azurestorage/source/AzureBlobStorageSource.java:193-210 | stat returns the last-modified time; client failures pass through; storage failures are mapped by status |
| BlobStorageSource.StatErrorMapping | src/main/java/is/galia/plugin/azurestorage/source/AzureBlobStorageSource.java:200-209 | stat's failure is NoSuchFileException iff 404 and AccessDeniedException iff 403, and always an IOException |
| BlobStorageSource.GetFormatIterator | src/main/java/is/galia/plugin/azurestorage/source/AzureBlobStorageSource.java:213-224 | a resolved blob yields a remembered iterator over its name and the identifier; an IOException yields null; any other error propagates |
| BlobStorageSource.SetIdentifier | src/main/java/is/galia/plugin/azurestorage/source/AzureBlobStorageSource.java:232-235 | the identifier changes and the iterator is reset, while the resolved blob info and client are kept |
| BlobStorageSource.SetIdentifierRebuildsIterator | src/main/java/is/galia/plugin/azurestorage/source/AzureBlobStorageSource.java:160-162 | after setIdentifier, the next iterator uses the new identifier over the blob resolved for the old one |
| BlobStorageSource.BasicLookupUsesIdentifier | src/main/java/is/galia/plugin/azurestorage/source/AzureBlobStorageSource.java:126-128 | the basic strategy resolves the identifier as the blob name in the configured container |
| BlobStorageSource.NewInputStream | src/main/java/is/galia/plugin/azurestorage/source/AzureBlobStorageSource.java:227-229 | the input stream is the stream factory's over the resolved blob; client failures pass through |

## Left out

- I/O, the Azure SDK and the host are parameters:
  - `StringUtils.md5` is a hash function; properties that need it assume 32 lower-case hex digits (`CacheNaming.IsMd5`);
  - `Info.fromJSON`/`toJSON` and the format detectors are function parameters;
  - the storage service's answers are `Result` values or sets of failing names.
- Concurrency: `uploadingNames` is a concurrent set, and its check-then-add is two steps. The model is sequential and makes it one step.
- `purgeAsync` runs on a virtual thread. The model returns the set of names scheduled for deletion instead of deleting them.
- The process-wide cached container client (`getContainerClient`) is left out: the model operates on the container directly.
- `getReference` of the HTTP client returns the SDK-built blob URL. URLs are not modelled.
- `HTTPImageInputStream` and `ClosingFileCacheImageInputStream` are host classes. They are reduced to `Windowed(size, windowSize)` and `WholeBlob(data)`; the window-size check is the `acceptsWindow` parameter, and its failure is assumed to be an IllegalArgumentException.
- `getLongBytes` parsing of sizes such as "512K" is left out: the chunk size is the parsed long. `DEFAULT_CHUNK_CACHE_SIZE` is declared but unused in the source.
- `LookupStrategy.from` and the delegate invocation are left out: the strategy and the delegate's outcome are parameters. `DelegateMethod` only names the delegate method.
- `String.toLowerCase` is modelled on ASCII letters only. Unicode and locale case mapping are left out.
- `OutputStreamWriter` is left out: `put` receives the info already encoded as bytes.
- Logging, `Stopwatch`, `getPluginName` and the empty lifecycle hooks are left out.
- SDK behaviours are assumptions:
  - a ranged download starting at or beyond the end of a blob fails with status 416, so the byte checker fails on an empty blob;
  - `BlobRange` rejects a negative offset or a non-positive count with an IllegalArgumentException;
  - a promotion copy from a missing temporary blob fails with an error other than BlobAlreadyExists.
- The message test for "already exists" when opening, and for `BlobAlreadyExists` when closing, is reduced to the `OpenAttempt` and `ErrorKind` parameters.
- Java `Instant` and `OffsetDateTime` values are integer milliseconds since the epoch.
- Listing blobs by prefix is an assumption about the SDK: `listBlobs` is taken to yield exactly the stored names that start with the prefix (`BlobStore.Listed`), each once. A storage failure while fetching a further page is the `listFault` parameter (the listing fails once a given number of names has been yielded); the 30-second listing timeout is left out, as clocks are.
- The promotion copy is treated as finished before the temporary blob is deleted. The source starts it with `beginCopy` and never waits on the returned poller; an asynchronous copy still pending when the temporary blob goes is not modelled.
- The clock is read once per call. `evictInvalid`, `fetchInfo` and `newVariantImageInputStream` read `Instant.now()` inside each `isValid` call, so during an eviction walk each blob is judged against its own reading. The model judges every blob against one `now`.
- The Content-Type header's value is not modelled beyond being absent, empty or non-empty.
