/** `BlobInfo`: where a source image lives. Every field may be null (`None`). */
module SourceBlobInfo {
  import opened Wrappers
  import opened JavaStrings

  datatype BlobInfo = BlobInfo(
    endpoint: Option<string>,
    accountName: Option<string>,
    accountKey: Option<string>,
    containerName: Option<string>,
    blobName: Option<string>)

  /** The one-argument constructor: only the blob name is known. */
  function FromName(blobName: string): (b: BlobInfo)
    ensures b.blobName == Some(blobName)
    ensures b.endpoint.None? && b.accountName.None? && b.accountKey.None? && b.containerName.None?
  {
    BlobInfo(None, None, None, None, Some(blobName))
  }

  const MaskText := "******"

  /** A credential field as `toString` shows it: masked when set. */
  function Mask(s: Option<string>): string {
    if s.Some? then MaskText else "null"
  }

  /** `toString`. */
  function ToString(b: BlobInfo): string {
    "[endpoint: " + Render(b.endpoint) + "] "
      + "[accountName: " + Mask(b.accountName) + "] "
      + "[accountKey: " + Mask(b.accountKey) + "] "
      + "[container: " + Render(b.containerName) + "] "
      + "[name: " + Render(b.blobName) + "]"
  }

  /** The text depends on the account name and key only through whether they
      are set: their values never reach it. */
  lemma ToStringHidesCredentials(b: BlobInfo, accountName: Option<string>, accountKey: Option<string>)
    requires accountName.Some? == b.accountName.Some? && accountKey.Some? == b.accountKey.Some?
    ensures ToString(b.(accountName := accountName, accountKey := accountKey)) == ToString(b)
  {
  }

  /** Whether the account name is set does show. */
  lemma ToStringShowsAccountNamePresence(b: BlobInfo, accountName: string)
    requires b.accountName.None?
    ensures ToString(b.(accountName := Some(accountName))) != ToString(b)
  {
    var head := "[endpoint: " + Render(b.endpoint) + "] " + "[accountName: ";
    var masked := ToString(b.(accountName := Some(accountName)));
    var plain := ToString(b);
    assert masked[..|head|] == head && masked[|head|] == '*';
    assert plain[..|head|] == head && plain[|head|] == 'n';
  }

  /** Whether the account key is set does show. */
  lemma ToStringShowsAccountKeyPresence(b: BlobInfo, accountKey: string)
    requires b.accountKey.None?
    ensures ToString(b.(accountKey := Some(accountKey))) != ToString(b)
  {
    var head := "[endpoint: " + Render(b.endpoint) + "] " + "[accountName: " + Mask(b.accountName) + "] "
      + "[accountKey: ";
    var masked := ToString(b.(accountKey := Some(accountKey)));
    var plain := ToString(b);
    assert masked[..|head|] == head && masked[|head|] == '*';
    assert plain[..|head|] == head && plain[|head|] == 'n';
  }
}
