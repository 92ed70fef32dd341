/** The blob container as the plugin sees it: a map from blob names to blob
    properties and contents. Times are milliseconds since the epoch. */
module BlobStore {
  import opened Wrappers

  newtype Byte = x: int | 0 <= x < 256

  datatype Blob = Blob(
    lastAccessed: Option<int>,  // present only when access tracking is enabled on the account
    lastModified: int,
    contentType: Option<string>,
    data: seq<Byte>)
  {
    function Size(): nat { |data| }
  }

  type Store = map<string, Blob>

  /** The names `listBlobs` returns for a name prefix. */
  function Listed(store: Store, prefix: string): (names: set<string>)
    ensures forall n :: n in names <==> n in store && prefix <= n
  {
    set n | n in store && prefix <= n
  }

  /** A ranged download of `count` bytes from `offset`: the bytes that exist in
      that range, or status 416 when the range starts at or beyond the end. */
  function ReadRange(b: Blob, offset: nat, count: nat): (r: Result<seq<Byte>, int>)
    ensures r.Success? <==> offset < |b.data|
    ensures r.Success? ==> |r.value| == if offset + count <= |b.data| then count else |b.data| - offset
    ensures r.Success? ==> forall i :: 0 <= i < |r.value| ==> r.value[i] == b.data[offset + i]
  {
    if offset < |b.data| then
      var end := if offset + count <= |b.data| then offset + count else |b.data|;
      Success(b.data[offset..end])
    else
      Failure(416)
  }
}
