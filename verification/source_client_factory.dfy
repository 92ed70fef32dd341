/** The source's `ContainerClientFactory`: each setting is taken from the
    request's `BlobInfo` when it carries a non-blank value, else from the
    application configuration, and the endpoint finally from the public
    Azure endpoint of the account. */
module SourceClientFactory {
  import opened Wrappers
  import opened JavaStrings
  import opened Failures
  import opened Clients
  import opened SourceBlobInfo

  datatype SourceConfig = SourceConfig(
    accountName: Option<string>,
    accountKey: Option<string>,
    containerName: Option<string>,
    endpoint: Option<string>)

  /** A `BlobInfo` field when it is set and not blank. */
  function Given(info: Option<BlobInfo>, field: BlobInfo -> Option<string>): Option<string> {
    if info.Some? && !IsNullOrBlank(field(info.value)) then field(info.value) else None
  }

  function AccountNameOf(b: BlobInfo): Option<string> { b.accountName }
  function AccountKeyOf(b: BlobInfo): Option<string> { b.accountKey }
  function EndpointOf(b: BlobInfo): Option<string> { b.endpoint }
  function ContainerNameOf(b: BlobInfo): Option<string> { b.containerName }

  /** `newServiceClient(BlobInfo)`; `None` stands for the no-argument form. */
  function NewServiceClient(info: Option<BlobInfo>, config: SourceConfig): (r: Result<ServiceClient, Error>)
    ensures r.Failure? <==> Given(info, AccountNameOf).None? && IsNullOrBlank(config.accountName)
    ensures r.Failure? ==> r.error == IllegalArgument
    ensures r.Success? ==>
      var accountName := Given(info, AccountNameOf).GetOr(config.accountName.GetOr(""));
      var accountKey := Given(info, AccountKeyOf).GetOr(config.accountKey.GetOr(""));
      && !IsBlank(accountName)
      && r.value.credential == CredentialFor(accountName, accountKey)
      && (Given(info, EndpointOf).Some? ==> r.value.endpoint == Given(info, EndpointOf).value)
      && (Given(info, EndpointOf).None? && !IsNullOrBlank(config.endpoint) ==>
            r.value.endpoint == JoinEndpoint(config.endpoint.value, config.accountName.GetOr("")))
      && (Given(info, EndpointOf).None? && IsNullOrBlank(config.endpoint) ==>
            r.value.endpoint == DefaultEndpoint(accountName))
  {
    var accountName := Given(info, AccountNameOf).GetOr(config.accountName.GetOr(""));
    if IsBlank(accountName) then Failure(IllegalArgument)
    else
      var accountKey := Given(info, AccountKeyOf).GetOr(config.accountKey.GetOr(""));
      var endpoint := match Given(info, EndpointOf)
        case Some(e) => e
        case None =>
          match EndpointSetting(config.endpoint, config.accountName.GetOr(""))
          case Some(e) => e
          case None => DefaultEndpoint(accountName);
      Success(ServiceClient(endpoint, CredentialFor(accountName, accountKey)))
  }

  /** `newContainerClient(BlobInfo)`; `None` stands for the no-argument form.
      A container name from the `BlobInfo` is used as given; the configured
      one is lower-cased. */
  function NewContainerClient(info: Option<BlobInfo>, config: SourceConfig): (r: Result<ContainerClient, Error>)
    ensures r.Failure? <==> NewServiceClient(info, config).Failure?
    ensures r.Success? ==> Success(r.value.service) == NewServiceClient(info, config)
    ensures r.Success? && Given(info, ContainerNameOf).Some? ==> r.value.containerName == info.value.containerName.value
    ensures r.Success? && Given(info, ContainerNameOf).None? ==> r.value.containerName == ContainerNameSetting(config.containerName)
  {
    var service :- NewServiceClient(info, config);
    var containerName := Given(info, ContainerNameOf).GetOr(ContainerNameSetting(config.containerName));
    Success(ContainerClient(service, containerName))
  }

  /** A `BlobInfo` that sets everything makes the configuration irrelevant. */
  lemma BlobInfoOverridesConfiguration(info: BlobInfo, c1: SourceConfig, c2: SourceConfig)
    requires !IsNullOrBlank(info.accountName) && !IsNullOrBlank(info.accountKey)
    requires !IsNullOrBlank(info.endpoint) && !IsNullOrBlank(info.containerName)
    ensures NewContainerClient(Some(info), c1).Success?
    ensures NewContainerClient(Some(info), c1) == NewContainerClient(Some(info), c2)
  {
  }

  /** The no-argument form behaves as a `BlobInfo` carrying only a blob name. */
  lemma NoBlobInfoIsNameOnly(blobName: string, config: SourceConfig)
    ensures NewContainerClient(None, config) == NewContainerClient(Some(FromName(blobName)), config)
  {
  }

  /** With the account from the `BlobInfo` but the endpoint from the
      configuration, the endpoint ends in the configured account name, not
      the `BlobInfo`'s. */
  lemma ConfiguredEndpointKeepsConfiguredAccount(info: BlobInfo, config: SourceConfig, configuredName: string)
    requires !IsNullOrBlank(info.accountName) && IsNullOrBlank(info.endpoint)
    requires !IsNullOrBlank(config.endpoint) && config.accountName == Some(configuredName)
    ensures NewServiceClient(Some(info), config).Success?
    ensures EndsWith(NewServiceClient(Some(info), config).value.endpoint, "/" + configuredName)
  {
  }
}
