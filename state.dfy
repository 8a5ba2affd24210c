/**
 * The blocking bridge of cloud_runtimes/core/state.py. A StateRuntimes
 * provider supplies the abstract async operations; each `*_sync` form runs
 * the async form with the same arguments, in the same order, to completion
 * and returns its result, with no error handling of its own.
 */
module StateRuntime {
  import opened Wrappers
  import opened Values
  import opened Exceptions
  import opened Common
  import opened Async

  /**
   * A state provider, given by what its abstract async methods do when run:
   * get_state(store_name, key, options, metadata),
   * save_state(store_name, key, value, etag, options, metadata) and
   * delete_state(store_name, key, etag, options, metadata).
   */
  datatype StateRuntimes = StateRuntimes(
    getStateImpl: (string, string, Option<StateOptions>, Option<Metadata>) -> Result<State<Bytes>, Failure>,
    saveStateImpl: (string, string, Value, Option<string>, Option<StateOptions>, Option<Metadata>) -> Result<(), Failure>,
    deleteStateImpl: (string, string, Option<string>, Option<StateOptions>, Option<Metadata>) -> Result<(), Failure>)
  {
    /** Calling the async get_state: a coroutine over the provider's implementation. */
    function GetState(storeName: string, key: string, options: Option<StateOptions> := None,
                      metadata: Option<Metadata> := None): Coroutine<State<Bytes>>
    {
      Coroutine(() => getStateImpl(storeName, key, options, metadata))
    }

    function SaveState(storeName: string, key: string, value: Value, etag: Option<string> := None,
                       options: Option<StateOptions> := None, metadata: Option<Metadata> := None): Coroutine<()>
    {
      Coroutine(() => saveStateImpl(storeName, key, value, etag, options, metadata))
    }

    function DeleteState(storeName: string, key: string, etag: Option<string> := None,
                         options: Option<StateOptions> := None, metadata: Option<Metadata> := None): Coroutine<()>
    {
      Coroutine(() => deleteStateImpl(storeName, key, etag, options, metadata))
    }

    /** get_state_sync: the provider sees exactly these four arguments, and its outcome comes back unchanged. */
    function GetStateSync(storeName: string, key: string, options: Option<StateOptions> := None,
                          metadata: Option<Metadata> := None): (r: Result<State<Bytes>, Failure>)
      ensures r == getStateImpl(storeName, key, options, metadata)
    {
      Run(GetState(storeName, key, options, metadata))
    }

    /** save_state_sync: all six arguments reach the provider unchanged, and so does its outcome. */
    function SaveStateSync(storeName: string, key: string, value: Value, etag: Option<string> := None,
                           options: Option<StateOptions> := None, metadata: Option<Metadata> := None): (r: Result<(), Failure>)
      ensures r == saveStateImpl(storeName, key, value, etag, options, metadata)
    {
      Run(SaveState(storeName, key, value, etag, options, metadata))
    }

    /** delete_state_sync: all five arguments reach the provider unchanged, and so does its outcome. */
    function DeleteStateSync(storeName: string, key: string, etag: Option<string> := None,
                             options: Option<StateOptions> := None, metadata: Option<Metadata> := None): (r: Result<(), Failure>)
      ensures r == deleteStateImpl(storeName, key, etag, options, metadata)
    {
      Run(DeleteState(storeName, key, etag, options, metadata))
    }
  }

  /** Each blocking form returns what running its async form returns, failure included. */
  lemma SyncAgreesWithAsync(p: StateRuntimes, storeName: string, key: string, value: Value,
                            etag: Option<string>, options: Option<StateOptions>, metadata: Option<Metadata>)
    ensures p.GetStateSync(storeName, key, options, metadata) == Run(p.GetState(storeName, key, options, metadata))
    ensures p.SaveStateSync(storeName, key, value, etag, options, metadata)
         == Run(p.SaveState(storeName, key, value, etag, options, metadata))
    ensures p.DeleteStateSync(storeName, key, etag, options, metadata)
         == Run(p.DeleteState(storeName, key, etag, options, metadata))
  {
  }

  /** The declared defaults of the blocking and async forms agree: omitting etag, options and metadata passes None for each. */
  lemma SyncDefaultsMatchAsync(p: StateRuntimes, storeName: string, key: string, value: Value)
    ensures p.GetStateSync(storeName, key) == Run(p.GetState(storeName, key))
    ensures p.GetStateSync(storeName, key) == p.getStateImpl(storeName, key, None, None)
    ensures p.SaveStateSync(storeName, key, value) == Run(p.SaveState(storeName, key, value))
    ensures p.SaveStateSync(storeName, key, value) == p.saveStateImpl(storeName, key, value, None, None, None)
    ensures p.DeleteStateSync(storeName, key) == Run(p.DeleteState(storeName, key))
    ensures p.DeleteStateSync(storeName, key) == p.deleteStateImpl(storeName, key, None, None, None)
  {
  }

  /** A provider whose get_state raises TimeoutException makes get_state_sync raise the same exception. */
  lemma TimeoutSurfacesUnchanged(p: StateRuntimes, storeName: string, key: string, message: string,
                                 details: Option<Details>)
    requires p.getStateImpl(storeName, key, None, None) == Err(Raised(NewKindException(Timeout, message, details)))
    ensures p.GetStateSync(storeName, key).Err?
    ensures p.GetStateSync(storeName, key).error.Kind() == Some(Timeout)
    ensures p.GetStateSync(storeName, key).error.Message() == Display(ERROR_CODE_TIMEOUT, message)
    ensures p.GetStateSync(storeName, key).error.exception.details == details.GetOr(map[])
  {
  }
}
