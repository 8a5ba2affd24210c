/**
 * The blocking bridge of cloud_runtimes/core/configuration.py: three `*_sync`
 * forms, each one call to its async counterpart with the same arguments,
 * returning that call's result with no error handling of its own.
 */
module ConfigurationRuntime {
  import opened Wrappers
  import opened Exceptions
  import opened Common
  import opened CoreTypes
  import opened Async

  /**
   * A configuration provider, given by what its abstract async methods do when
   * run: get_configuration(store_name, app_id, keys, metadata),
   * save_configuration(request) and delete_configuration(request).
   */
  datatype ConfigurationRuntimes = ConfigurationRuntimes(
    getConfigurationImpl: (string, string, seq<string>, Option<Metadata>) -> Result<seq<ConfigurationItem>, Failure>,
    saveConfigurationImpl: SaveConfigurationRequest -> Result<(), Failure>,
    deleteConfigurationImpl: ConfigurationRequestItem -> Result<(), Failure>)
  {
    function GetConfiguration(storeName: string, appId: string, keys: seq<string>,
                              metadata: Option<Metadata> := None): Coroutine<seq<ConfigurationItem>>
    {
      Coroutine(() => getConfigurationImpl(storeName, appId, keys, metadata))
    }

    function SaveConfiguration(request: SaveConfigurationRequest): Coroutine<()> {
      Coroutine(() => saveConfigurationImpl(request))
    }

    function DeleteConfiguration(request: ConfigurationRequestItem): Coroutine<()> {
      Coroutine(() => deleteConfigurationImpl(request))
    }

    /** get_configuration_sync: the four arguments reach the provider unchanged; its item list or failure comes back unchanged. */
    function GetConfigurationSync(storeName: string, appId: string, keys: seq<string>,
                                  metadata: Option<Metadata> := None): (r: Result<seq<ConfigurationItem>, Failure>)
      ensures r == getConfigurationImpl(storeName, appId, keys, metadata)
    {
      Run(GetConfiguration(storeName, appId, keys, metadata))
    }

    /** save_configuration_sync: the same request object reaches the provider; its outcome comes back unchanged. */
    function SaveConfigurationSync(request: SaveConfigurationRequest): (r: Result<(), Failure>)
      ensures r == saveConfigurationImpl(request)
    {
      Run(SaveConfiguration(request))
    }

    /** delete_configuration_sync: the same request object reaches the provider; its outcome comes back unchanged. */
    function DeleteConfigurationSync(request: ConfigurationRequestItem): (r: Result<(), Failure>)
      ensures r == deleteConfigurationImpl(request)
    {
      Run(DeleteConfiguration(request))
    }
  }

  /** Each blocking form returns what running its async form returns, failure included. */
  lemma SyncAgreesWithAsync(p: ConfigurationRuntimes, storeName: string, appId: string, keys: seq<string>,
                            metadata: Option<Metadata>, save: SaveConfigurationRequest,
                            delete: ConfigurationRequestItem)
    ensures p.GetConfigurationSync(storeName, appId, keys, metadata)
         == Run(p.GetConfiguration(storeName, appId, keys, metadata))
    ensures p.SaveConfigurationSync(save) == Run(p.SaveConfiguration(save))
    ensures p.DeleteConfigurationSync(delete) == Run(p.DeleteConfiguration(delete))
  {
  }

  /** Omitting metadata passes None in both forms. */
  lemma SyncDefaultsMatchAsync(p: ConfigurationRuntimes, storeName: string, appId: string, keys: seq<string>)
    ensures p.GetConfigurationSync(storeName, appId, keys) == Run(p.GetConfiguration(storeName, appId, keys))
    ensures p.GetConfigurationSync(storeName, appId, keys) == p.getConfigurationImpl(storeName, appId, keys, None)
  {
  }
}
