/** The cache's `ContainerClientFactory`: account, key, endpoint and container
    all come from the application configuration. A configuration value is
    `None` when the key is unset. */
module CacheClientFactory {
  import opened Wrappers
  import opened JavaStrings
  import opened Failures
  import opened Clients

  datatype CacheConfig = CacheConfig(
    accountName: Option<string>,
    accountKey: Option<string>,
    containerName: Option<string>,
    endpoint: Option<string>)

  /** `newServiceClient`: fails when the account name is blank or unset; the
      endpoint falls back to the public one. The account name appended to a
      configured endpoint is read without a default, so an unset one would
      be appended as the text "null" (a case the guard above rules out). */
  function NewServiceClient(config: CacheConfig): (r: Result<ServiceClient, Error>)
    ensures r.Failure? <==> IsNullOrBlank(config.accountName)
    ensures r.Failure? ==> r.error == IllegalArgument
    ensures r.Success? ==> r.value.credential == CredentialFor(config.accountName.value, config.accountKey.GetOr(""))
    ensures r.Success? && IsNullOrBlank(config.endpoint) ==> r.value.endpoint == DefaultEndpoint(config.accountName.value)
    ensures r.Success? && !IsNullOrBlank(config.endpoint) ==>
      r.value.endpoint == JoinEndpoint(config.endpoint.value, config.accountName.value)
  {
    var accountName := config.accountName.GetOr("");
    if IsBlank(accountName) then Failure(IllegalArgument)
    else
      var endpoint := match EndpointSetting(config.endpoint, Render(config.accountName))
        case Some(e) => e
        case None => DefaultEndpoint(accountName);
      Success(ServiceClient(endpoint, CredentialFor(accountName, config.accountKey.GetOr(""))))
  }

  /** `newContainerClient`. */
  function NewContainerClient(config: CacheConfig): (r: Result<ContainerClient, Error>)
    ensures r.Failure? <==> IsNullOrBlank(config.accountName)
    ensures r.Success? ==> r.value.containerName == ContainerNameSetting(config.containerName)
    ensures r.Success? ==> Success(r.value.service) == NewServiceClient(config)
  {
    var service :- NewServiceClient(config);
    Success(ContainerClient(service, ContainerNameSetting(config.containerName)))
  }

  /** The key decides the credential alone; an unset key counts as blank. */
  lemma CredentialIffKey(config: CacheConfig)
    requires !IsNullOrBlank(config.accountName)
    ensures NewContainerClient(config).Success?
    ensures NewContainerClient(config).value.service.credential.DefaultCredential? <==> IsNullOrBlank(config.accountKey)
    ensures NewContainerClient(config).value.service.credential.SharedKey? ==>
      NewContainerClient(config).value.service.credential == SharedKey(config.accountName.value, config.accountKey.value)
  {
  }
}
