/** `BlobFormatIterator`: four format guesses, in a fixed order — from the
    blob name's extension, from the identifier's extension, from the blob's
    Content-Type, and from the blob's first bytes. */
module FormatIterator {
  import opened Wrappers
  import opened BlobStore
  import opened Failures

  datatype Format = Unknown | Known(name: string)

  /** The checker the iterator last ran. */
  datatype Checker = NoChecker | NameChecker | IdentifierChecker | ContentTypeChecker | ByteChecker

  /** Position in the fixed order. */
  function Rank(c: Checker): nat {
    match c
    case NoChecker => 0
    case NameChecker => 1
    case IdentifierChecker => 2
    case ContentTypeChecker => 3
    case ByteChecker => 4
  }

  const CheckerCount := 4

  /** The host's format detectors: by file name, by identifier, by media type,
      and by magic bytes (`None` when the detector throws an IOException), and
      `FormatDetector.RECOMMENDED_READ_LENGTH`. */
  datatype Probes = Probes(
    byName: Option<string> -> Format,
    byIdentifier: string -> Format,
    byMediaType: string -> Format,
    byMagic: seq<Byte> -> Option<Format>,
    readLength: nat)

  datatype Iterator = Iterator(blobName: Option<string>, identifier: string, checker: Checker)

  function NewIterator(blobName: Option<string>, identifier: string): (it: Iterator)
    ensures it.checker == NoChecker && HasNext(it)
  {
    Iterator(blobName, identifier, NoChecker)
  }

  /** `hasNext`: true until the byte checker has run. */
  predicate HasNext(it: Iterator) {
    it.checker != ByteChecker
  }

  /** The checker `next` runs after `c`. */
  function Successor(c: Checker): (s: Checker)
    requires c != ByteChecker
    ensures Rank(s) == Rank(c) + 1
  {
    match c
    case NoChecker => NameChecker
    case NameChecker => IdentifierChecker
    case IdentifierChecker => ContentTypeChecker
    case ContentTypeChecker => ByteChecker
  }

  /** The Content-Type checker: the header's format, or unknown when it is
      absent or empty. The properties request's failure is a storage
      exception, which the iterator does not catch. */
  function CheckContentType(probes: Probes, blob: Result<Blob, int>): (r: Result<Format, Error>)
    ensures r.Failure? <==> blob.Failure?
    ensures r.Failure? ==> r.error == StorageFailure(blob.error)
    ensures r.Success? && (blob.value.contentType.None? || blob.value.contentType.value == "") ==> r.value == Unknown
    ensures r.Success? && blob.value.contentType.Some? && blob.value.contentType.value != "" ==>
      r.value == probes.byMediaType(blob.value.contentType.value)
  {
    match blob
    case Failure(status) => Failure(StorageFailure(status))
    case Success(b) =>
      if b.contentType.None? || b.contentType.value == "" then Success(Unknown)
      else Success(probes.byMediaType(b.contentType.value))
  }

  /** The byte checker: a ranged download of the first `readLength` bytes,
      then magic-byte detection. A failed download is a storage exception
      and escapes; a detector IOException yields unknown. */
  function CheckBytes(probes: Probes, blob: Result<Blob, int>): (r: Result<Format, Error>)
    ensures r.Failure? <==> blob.Failure? || |blob.value.data| == 0
    ensures r.Failure? ==> r.error.StorageFailure?
    ensures r.Success? ==>
      var head := blob.value.data[..if probes.readLength <= |blob.value.data| then probes.readLength else |blob.value.data|];
      r.value == probes.byMagic(head).GetOr(Unknown)
  {
    match blob
    case Failure(status) => Failure(StorageFailure(status))
    case Success(b) =>
      match ReadRange(b, 0, probes.readLength)
      case Failure(status) => Failure(StorageFailure(status))
      case Success(head) =>
        assert head == b.data[..|head|];
        Success(probes.byMagic(head).GetOr(Unknown))
  }

  /** `next`: advances to the next checker and runs it. `blob` is what the
      storage service answers for the blob (its properties and contents, or
      a failure status). */
  function Next(it: Iterator, probes: Probes, blob: Result<Blob, int>): (r: (Iterator, Result<Format, Error>))
    ensures !HasNext(it) <==> r.1 == Failure(NoSuchElement)
    ensures !HasNext(it) ==> r.0 == it
    ensures HasNext(it) ==> r.0 == it.(checker := Successor(it.checker))
    ensures r.1.Failure? && HasNext(it) ==> r.1.error.StorageFailure?
    ensures r.1.Failure? ==> !IsIOException(r.1.error)
  {
    match it.checker
    case NoChecker => (it.(checker := NameChecker), Success(probes.byName(it.blobName)))
    case NameChecker => (it.(checker := IdentifierChecker), Success(probes.byIdentifier(it.identifier)))
    case IdentifierChecker => (it.(checker := ContentTypeChecker), CheckContentType(probes, blob))
    case ContentTypeChecker => (it.(checker := ByteChecker), CheckBytes(probes, blob))
    case ByteChecker => (it, Failure(NoSuchElement))
  }

  /** The first two guesses send no request: what the storage service would
      answer makes no difference to them. */
  lemma FirstTwoGuessesSendNoRequest(it: Iterator, probes: Probes, a: Result<Blob, int>, b: Result<Blob, int>)
    requires Rank(it.checker) < 2
    ensures Next(it, probes, a) == Next(it, probes, b)
    ensures Next(it, probes, a).1.Success?
  {
  }

  /** The calls a caller makes until `hasNext` turns false, and their results. */
  function Drain(it: Iterator, probes: Probes, blob: Result<Blob, int>): (results: seq<Result<Format, Error>>)
    ensures |results| == CheckerCount - Rank(it.checker)
    ensures forall i :: 0 <= i < |results| ==> results[i] != Failure(NoSuchElement)
    decreases CheckerCount - Rank(it.checker)
  {
    if !HasNext(it) then []
    else
      var (next, result) := Next(it, probes, blob);
      [result] + Drain(next, probes, blob)
  }

  /** A fresh iterator yields exactly four guesses, in the documented order,
      and then reports exhaustion. */
  lemma {:induction false} FourGuessesThenExhausted(blobName: Option<string>, identifier: string, probes: Probes, b: Blob)
    requires |b.data| > 0
    ensures var it := NewIterator(blobName, identifier);
      var results := Drain(it, probes, Success(b));
      && |results| == 4
      && results[0] == Success(probes.byName(blobName))
      && results[1] == Success(probes.byIdentifier(identifier))
      && results[2] == CheckContentType(probes, Success(b))
      && results[3] == CheckBytes(probes, Success(b))
      && (forall i :: 0 <= i < 4 ==> results[i].Success?)
  {
    var it0 := NewIterator(blobName, identifier);
    var it1 := it0.(checker := NameChecker);
    var it2 := it1.(checker := IdentifierChecker);
    var it3 := it2.(checker := ContentTypeChecker);
    var it4 := it3.(checker := ByteChecker);
    assert Drain(it4, probes, Success(b)) == [];
    assert Drain(it3, probes, Success(b)) == [CheckBytes(probes, Success(b))];
    assert Drain(it2, probes, Success(b)) == [CheckContentType(probes, Success(b)), CheckBytes(probes, Success(b))];
  }

  /** After the four guesses, `next` fails with NoSuchElementException and
      leaves the iterator as it is, however often it is called. */
  lemma ExhaustedStaysExhausted(it: Iterator, probes: Probes, blob: Result<Blob, int>)
    requires !HasNext(it)
    ensures Next(it, probes, blob) == (it, Failure(NoSuchElement))
  {
  }
}
