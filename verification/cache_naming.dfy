/** How `AzureBlobStorageCache` names its blobs: a normalised prefix, then
    `info/<md5(identifier)>.json` for infos and
    `image/<md5(identifier)>/<md5(operation list)>[.<extension>]` for variants. */
module CacheNaming {
  import opened Wrappers
  import opened JavaStrings

  const InfoExtension := ".json"
  const InfoFolder := "info/"
  const ImageFolder := "image/"
  const TempSuffix := ".tmp"
  const DigestLength := 32

  /** `StringUtils.md5`, supplied by the host. */
  type Hash = string -> string

  predicate IsHexDigest(h: string) {
    |h| == DigestLength && forall i :: 0 <= i < |h| ==> h[i] in "0123456789abcdef"
  }

  /** The host hash yields 32 lowercase hex characters for every input. */
  ghost predicate IsMd5(md5: Hash) {
    forall s :: IsHexDigest(md5(s))
  }

  /** The parts of an `OperationList` the cache looks at: the identifier, the
      list's string form, the preferred extension of the `Encode` operation's
      format when the list has one, and the output format's media type. */
  datatype OperationList = OperationList(
    identifier: string,
    description: string,
    encodeExtension: Option<string>,
    outputMediaType: string)

  /** `getBlobNamePrefix`, from the configured prefix. */
  function BlobNamePrefix(configured: Option<string>): (r: string)
    ensures r == "" <==> configured.None? || IsBlank(configured.value) || configured.value == "/"
    ensures r != "" ==> r[|r| - 1] == '/' && (|r| == 1 || r[|r| - 2] != '/')
    ensures r != "" ==> r[..|r| - 1] <= configured.value
    ensures r != "" ==> forall i :: |r| - 1 <= i < |configured.value| ==> configured.value[i] == '/'
  {
    match configured
    case None => ""
    case Some(p) =>
      if IsBlank(p) || p == "/" then ""
      else
        var r := StripEnd(p, '/') + "/";
        assert r[..|r| - 1] == StripEnd(p, '/');
        assert !IsBlank(r) by { assert !IsWhitespace(r[|r| - 1]); }
        r
  }

  /** "cats" and "cats/" name the same prefix. ("/" is the exception: it
      normalises to "" while "//" normalises to "/".) */
  lemma PrefixIgnoresTrailingSlash(s: string)
    requires !IsBlank(s) && s != "/"
    ensures BlobNamePrefix(Some(s + "/")) == BlobNamePrefix(Some(s))
  {
    var t := s + "/";
    assert |s| > 0;
    assert t[..|t| - 1] == s;
    assert !IsBlank(t) by { assert !IsWhitespace(t[|t| - 1]); }
    assert t != "/" by { assert t[0] == s[0]; assert |t| > 1; }
    calc {
      BlobNamePrefix(Some(t));
      StripEnd(t, '/') + "/";
      { assert t[|t| - 1] == '/'; }
      StripEnd(s, '/') + "/";
    }
  }

  /** Normalising a normalised prefix changes nothing, except that a prefix
      made of two or more slashes normalises to "/", which in turn normalises
      to "". */
  lemma PrefixIdempotent(configured: Option<string>)
    ensures var r := BlobNamePrefix(configured);
      r != "/" ==> BlobNamePrefix(Some(r)) == r
  {
    var r := BlobNamePrefix(configured);
    if r != "" && r != "/" {
      assert !IsBlank(r) by { assert !IsWhitespace(r[|r| - 1]); }
      assert r[..|r| - 1] + "/" == r;
      assert StripEnd(r, '/') == r[..|r| - 1];
    }
  }

  // Info blobs

  /** `getBlobName(Identifier)`. */
  function InfoName(prefix: string, md5: Hash, identifier: string): (r: string)
    ensures prefix <= r && EndsWith(r, InfoExtension)
    ensures |r| == |prefix| + |InfoFolder| + |md5(identifier)| + |InfoExtension|
    ensures r[|prefix|..|prefix| + |InfoFolder|] == InfoFolder
  {
    var r := prefix + InfoFolder + md5(identifier) + InfoExtension;
    assert r[|r| - |InfoExtension|..] == InfoExtension;
    r
  }

  /** Reads the digest back out of an info blob name. */
  function InfoDigest(prefix: string, name: string): Option<string> {
    if |name| >= |prefix| + |InfoFolder| + |InfoExtension| && prefix <= name
      && name[|prefix|..|prefix| + |InfoFolder|] == InfoFolder && EndsWith(name, InfoExtension)
    then Some(name[|prefix| + |InfoFolder|..|name| - |InfoExtension|])
    else None
  }

  lemma InfoNameRoundTrip(prefix: string, md5: Hash, identifier: string)
    ensures InfoDigest(prefix, InfoName(prefix, md5, identifier)) == Some(md5(identifier))
  {
    var name := InfoName(prefix, md5, identifier);
    assert name[|prefix| + |InfoFolder|..|name| - |InfoExtension|] == md5(identifier);
  }

  /** Two identifiers share an info blob exactly when their digests agree. */
  lemma InfoNamesFollowDigests(prefix: string, md5: Hash, a: string, b: string)
    ensures InfoName(prefix, md5, a) == InfoName(prefix, md5, b) <==> md5(a) == md5(b)
  {
    InfoNameRoundTrip(prefix, md5, a);
    InfoNameRoundTrip(prefix, md5, b);
  }

  // Variant blobs

  function Extension(ops: OperationList): string {
    match ops.encodeExtension
    case Some(e) => "." + e
    case None => ""
  }

  /** The listing prefix `evict(Identifier)` uses: `<prefix>image/<md5(identifier)>`. */
  function IdentifierImagePrefix(prefix: string, md5: Hash, identifier: string): string {
    prefix + ImageFolder + md5(identifier)
  }

  /** `getBlobName(OperationList)`. Variants live under `image/`. */
  function VariantName(prefix: string, md5: Hash, ops: OperationList): (r: string)
    ensures IdentifierImagePrefix(prefix, md5, ops.identifier) + "/" <= r
    ensures EndsWith(r, md5(ops.description) + Extension(ops))
  {
    var r := prefix + ImageFolder + md5(ops.identifier) + "/" + md5(ops.description) + Extension(ops);
    assert r[|r| - |md5(ops.description) + Extension(ops)|..] == md5(ops.description) + Extension(ops);
    r
  }

  datatype VariantParts = VariantParts(identifierDigest: string, operationsDigest: string, extension: string)

  /** Splits a variant blob name into its two digests and its extension. */
  function ParseVariantName(prefix: string, name: string): Option<VariantParts> {
    var p := |prefix|;
    if |name| >= p + |ImageFolder| + 2 * DigestLength + 1 && prefix <= name
      && name[p..p + |ImageFolder|] == ImageFolder && name[p + |ImageFolder| + DigestLength] == '/'
    then Some(VariantParts(
      name[p + |ImageFolder|..p + |ImageFolder| + DigestLength],
      name[p + |ImageFolder| + DigestLength + 1..p + |ImageFolder| + 2 * DigestLength + 1],
      name[p + |ImageFolder| + 2 * DigestLength + 1..]))
    else None
  }

  lemma VariantNameRoundTrip(prefix: string, md5: Hash, ops: OperationList)
    requires IsMd5(md5)
    ensures ParseVariantName(prefix, VariantName(prefix, md5, ops))
         == Some(VariantParts(md5(ops.identifier), md5(ops.description), Extension(ops)))
  {
    assert IsHexDigest(md5(ops.identifier)) && IsHexDigest(md5(ops.description));
    var name := VariantName(prefix, md5, ops);
    var p := |prefix|;
    assert name[p..p + |ImageFolder|] == ImageFolder;
    assert name[p + |ImageFolder|..p + |ImageFolder| + DigestLength] == md5(ops.identifier);
    assert name[p + |ImageFolder| + DigestLength + 1..p + |ImageFolder| + 2 * DigestLength + 1] == md5(ops.description);
    assert name[p + |ImageFolder| + 2 * DigestLength + 1..] == Extension(ops);
  }

  /** A variant name carries an extension if and only if the operation list has
      an `Encode`, and then it is "." followed by the format's preferred extension. */
  lemma VariantExtensionIffEncode(prefix: string, md5: Hash, ops: OperationList)
    requires IsMd5(md5)
    ensures var parts := ParseVariantName(prefix, VariantName(prefix, md5, ops));
      parts.Some?
      && (parts.value.extension == "" <==> ops.encodeExtension.None?)
      && (ops.encodeExtension.Some? ==> parts.value.extension == "." + ops.encodeExtension.value)
  {
    VariantNameRoundTrip(prefix, md5, ops);
  }

  /** A variant blob falls under an identifier's listing prefix exactly when
      it was made from an identifier with the same digest. */
  lemma VariantUnderIdentifierPrefix(prefix: string, md5: Hash, identifier: string, ops: OperationList)
    requires IsMd5(md5)
    ensures IdentifierImagePrefix(prefix, md5, identifier) <= VariantName(prefix, md5, ops)
        <==> md5(identifier) == md5(ops.identifier)
  {
    assert IsHexDigest(md5(identifier)) && IsHexDigest(md5(ops.identifier));
    var name := VariantName(prefix, md5, ops);
    var lp := IdentifierImagePrefix(prefix, md5, identifier);
    var p := |prefix| + |ImageFolder|;
    assert name[p..p + DigestLength] == md5(ops.identifier);
    if lp <= name {
      assert lp[p..p + DigestLength] == md5(identifier);
      assert name[p..p + DigestLength] == lp[p..p + DigestLength];
    }
  }

  /** Info and variant names never coincide, and no info blob lies under an
      identifier's image prefix. */
  lemma InfoAndVariantNamesDisjoint(prefix: string, md5: Hash, identifier: string, other: string, ops: OperationList)
    ensures InfoName(prefix, md5, identifier) != VariantName(prefix, md5, ops)
    ensures !(IdentifierImagePrefix(prefix, md5, other) <= InfoName(prefix, md5, identifier))
  {
    var info := InfoName(prefix, md5, identifier);
    var variant := VariantName(prefix, md5, ops);
    assert info[|prefix| + 1] == 'n';
    assert variant[|prefix| + 1] == 'm';
    assert IdentifierImagePrefix(prefix, md5, other)[|prefix| + 1] == 'm';
  }

  // Temporary blobs

  /** `getTempObjectName`: the permanent variant name followed by
      `_<thread name>.tmp`. */
  function TempName(prefix: string, md5: Hash, ops: OperationList, threadName: string): (r: string)
    ensures VariantName(prefix, md5, ops) <= r
    ensures |r| > |VariantName(prefix, md5, ops)|
    ensures EndsWith(r, TempSuffix)
  {
    var r := VariantName(prefix, md5, ops) + "_" + threadName + TempSuffix;
    assert r[|r| - |TempSuffix|..] == TempSuffix;
    r
  }
}
