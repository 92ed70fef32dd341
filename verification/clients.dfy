/** What a container-client factory decides: the endpoint, the credential and
    the container. Building the SDK objects from these is left to the SDK. */
module Clients {
  import opened Wrappers
  import JavaStrings

  datatype Credential =
    | DefaultCredential                                  // DefaultAzureCredential
    | SharedKey(accountName: string, accountKey: string) // StorageSharedKeyCredential

  datatype ServiceClient = ServiceClient(endpoint: string, credential: Credential)

  datatype ContainerClient = ContainerClient(service: ServiceClient, containerName: string)

  /** The public Azure endpoint of an account. */
  function DefaultEndpoint(accountName: string): string {
    "https://" + accountName + ".blob.core.windows.net/"
  }

  /** A configured endpoint joined with an account name:
      `stripEnd(endpoint, "/") + "/" + accountName`. */
  function JoinEndpoint(endpoint: string, accountName: string): (r: string)
    ensures JavaStrings.EndsWith(r, "/" + accountName)
    ensures var base := r[..|r| - |accountName| - 1];
      base <= endpoint && (|base| == 0 || base[|base| - 1] != '/')
      && forall i :: |base| <= i < |endpoint| ==> endpoint[i] == '/'
  {
    var base := JavaStrings.StripEnd(endpoint, '/');
    var r := base + "/" + accountName;
    assert r[..|r| - |accountName| - 1] == base;
    assert r[|r| - |"/" + accountName|..] == "/" + accountName;
    r
  }

  /** The credential choice: a blank key means the default credential chain,
      anything else a shared key for the resolved account. */
  function CredentialFor(accountName: string, accountKey: string): (c: Credential)
    ensures c.DefaultCredential? <==> JavaStrings.IsBlank(accountKey)
    ensures c.SharedKey? ==> c.accountName == accountName && c.accountKey == accountKey
  {
    if JavaStrings.IsBlank(accountKey) then DefaultCredential else SharedKey(accountName, accountKey)
  }

  /** The configured container name: lower-cased (all letters in a container
      name must be lower case), or "" when blank or unset. */
  function ContainerNameSetting(configured: Option<string>): (r: string)
    ensures r == "" <==> JavaStrings.IsNullOrBlank(configured)
    ensures r != "" ==> |r| == |configured.value|
    ensures r != "" ==> forall i :: 0 <= i < |r| ==> r[i] == JavaStrings.ToLowerChar(configured.value[i])
    ensures forall i :: 0 <= i < |r| ==> !('A' <= r[i] <= 'Z')
  {
    var name := configured.GetOr("");
    if JavaStrings.IsBlank(name) then "" else JavaStrings.ToLower(name)
  }

  /** Configuring a container name in upper or lower case selects the same container. */
  lemma ContainerNameCaseInsensitive(name: string)
    ensures ContainerNameSetting(Some(name)) == ContainerNameSetting(Some(JavaStrings.ToLower(name)))
  {
    var lower := JavaStrings.ToLower(name);
    assert JavaStrings.IsBlank(lower) == JavaStrings.IsBlank(name) by {
      forall i | 0 <= i < |name| ensures JavaStrings.IsWhitespace(lower[i]) == JavaStrings.IsWhitespace(name[i]) {
        assert lower[i] == JavaStrings.ToLowerChar(name[i]);
      }
    }
    assert JavaStrings.ToLower(lower) == lower by {
      forall i | 0 <= i < |lower| ensures JavaStrings.ToLower(lower)[i] == lower[i] {
        assert lower[i] == JavaStrings.ToLowerChar(name[i]);
      }
    }
  }

  /** `getConfiguredEndpoint`: a non-blank configured endpoint joined with the
      configured account name, else nothing. */
  function EndpointSetting(configured: Option<string>, configuredAccountName: string): (r: Option<string>)
    ensures r.None? <==> JavaStrings.IsNullOrBlank(configured)
    ensures r.Some? ==> r.value == JoinEndpoint(configured.value, configuredAccountName)
  {
    var endpoint := configured.GetOr("");
    if JavaStrings.IsBlank(endpoint) then None else Some(JoinEndpoint(endpoint, configuredAccountName))
  }
}
