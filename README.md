# Cloud Runtimes client core, in Dafny

This project models the parts of the Python Cloud Runtimes SDK that actually
do something. Almost everything else in the SDK is abstract interfaces.

- **The capability facade** `CloudRuntimesClient` (`client.dfy`).
  - The constructor falls back to `http://localhost:3500` and `30.0` when the
    endpoint or timeout is missing or falsy. It keeps the extra keyword options
    as given.
  - The client has sixteen capability slots, all unbound after construction.
  - Sixteen read-only accessors each read exactly one slot. An accessor returns
    the bound provider, or fails with `NotImplementedError("<X> runtime not implemented")`.
    That failure is `Failure.Unbound`. It is a separate constructor from every
    taxonomy exception, and its text is never the text of any taxonomy exception.
  - `close`, `__aenter__` and `__aexit__` are modelled as methods.
- **The error taxonomy** (`exceptions.dfy`).
  - The base exception keeps code and message as given. Its details become an
    empty map when absent.
  - Its text is `CloudRuntimes error [code]: message`.
  - Eight subclasses each pin one code, and these codes equal the eight
    `ERROR_CODE_*` constants.
  - The codes are pairwise distinct and decode back to their kinds.
  - When a code contains no `]`, the text determines both the code and the
    message. With a `]` in the code, two different exceptions can have the same
    text.
- **The common contract types** (`common.dfy`).
  - The integer enums `StateConsistency`, `StateConcurrency` and
    `OperationType`. Decoding is defined exactly on 0..2 and is the inverse of
    encoding in both directions.
  - The string enums `HTTPVerb`, `ContentType` and `Status`. Lookup by value
    inverts the value function, so the strings are pairwise distinct.
  - The records `State`, `StateOptions`, `Response` and `ETag`, with their
    defaults.
- **The blocking bridge** (`state.dfy`, `configuration.dfy`, `invocation.dfy`,
  `pubsub.dfy`, `async.dfy`).
  - A provider is a datatype. Its function fields say what each abstract async
    method does when it runs, returning a value or a `Failure`.
  - Calling an async method builds a `Coroutine` that captures the call.
  - `Run` models `asyncio.run`: it returns the coroutine's value, or re-raises
    its failure.
  - Each `*_sync` form is `Run` of its async form. It is proved to hand the
    provider exactly its own arguments, in the same order, and to return the
    provider's outcome unchanged, failure included. The declared defaults of the
    sync and async forms agree.

`types_core.dfy` declares the request records from `cloud_runtimes/types/core.py`
that the bridge passes through. `wrappers.dfy` holds `Option`/`Result` and
opaque stand-ins for Python `Any`, `type` and `bytes`.

Facts about the code that shape the model:

- Resource errors and not-found errors are separate kinds, one per subclass,
  so there are eight kinds.
- The code has no bind operation. A slot is a plain attribute, so here it is a
  public field.
- `close` releases nothing: it is a no-op.
- Absent metadata stays `None`. The model does not merge it with an empty map.

## Model

| member | source | states |
|---|---|---|
| Exceptions.ConstantsMatchSubclasses | cloud_runtimes/exceptions.py:30-94 | the code each subclass pins equals its ERROR_CODE_* constant |
| Exceptions.KindOfCodeInverts | cloud_runtimes/exceptions.py:87-94 | decoding a kind's code gives back that kind |
| Exceptions.KindOfCodeExact | cloud_runtimes/exceptions.py:87-94 | a string decodes to kind k if and only if it is k's code |
| Exceptions.CodeInjective | cloud_runtimes/exceptions.py:87-94 | the eight codes are pairwise distinct |
| Exceptions.DetailsOrEmpty | cloud_runtimes/exceptions.py:26 | absent details become the empty map; supplied details are kept (an empty map stays empty) |
| Exceptions.NewException | cloud_runtimes/exceptions.py:11-27 | the base exception keeps any code and the message exactly, and its details are the supplied map or empty |
| Exceptions.NewKindException | cloud_runtimes/exceptions.py:30-83 | a subclass exception has its own class, its pinned code, and the message and details forwarded unchanged; it is well formed |
| Exceptions.WellFormedKindMatchesCode | cloud_runtimes/exceptions.py:11-83 | in every exception a constructor can build, a subclass exception's code decodes to its class, and the text of a subclass exception identifies its kind |
| Exceptions.KindOfAgreesWithCode | cloud_runtimes/exceptions.py:30-83 | the code of a subclass exception decodes to the class it was raised as |
| Exceptions.ParseDisplayInverts | cloud_runtimes/exceptions.py:27 | the text `CloudRuntimes error [code]: message` parses back to code and message when the code has no `]` |
| Exceptions.DisplayInjective | cloud_runtimes/exceptions.py:27 | for codes without `]`, equal texts mean equal codes and equal messages |
| Exceptions.KindTextIdentifiesKind | cloud_runtimes/exceptions.py:27-83 | two subclass exceptions with the same text have the same kind and the same message |
| Exceptions.DisplayAmbiguousWithBracket | cloud_runtimes/exceptions.py:11-27 | the base class accepts any code, and a code containing `]: ` makes two different exceptions print the same text |
| Common.RecordDefaults | cloud_runtimes/types/common.py:14-30 | State leaves etag and metadata absent by default; Response leaves metadata and error absent by default |
| Common.StateOptionsAxesIndependent | cloud_runtimes/types/common.py:40-45 | every combination of the two optional axes is a StateOptions value that reads back unchanged; both axes are absent by default |
| Common.ConsistencyRoundTrip | cloud_runtimes/types/common.py:48-53 | UNDEFINED=0, EVENTUAL=1, STRONG=2: decoding is defined exactly on 0..2 and inverts encoding in both directions |
| Common.ConcurrencyRoundTrip | cloud_runtimes/types/common.py:56-61 | UNDEFINED=0, FIRST_WRITE=1, LAST_WRITE=2, with the same round trip |
| Common.OperationRoundTrip | cloud_runtimes/types/common.py:64-69 | UNDEFINED=0, UPSERT=1, DELETE=2, with the same round trip |
| Common.VerbRoundTrip | cloud_runtimes/types/common.py:76-85 | looking a verb up by its value gives it back, and only that value decodes to it |
| Common.VerbValueInjective | cloud_runtimes/types/common.py:76-85 | the seven verb strings are pairwise distinct |
| Common.ContentTypeRoundTrip | cloud_runtimes/types/common.py:88-98 | looking a content type up by its value gives it back, and only that value decodes to it |
| Common.ContentTypeValueInjective | cloud_runtimes/types/common.py:88-98 | the eight content type strings are pairwise distinct |
| Common.StatusRoundTrip | cloud_runtimes/types/common.py:102-110 | looking a status up by its value gives it back, and only that value decodes to it |
| Common.StatusValueInjective | cloud_runtimes/types/common.py:102-110 | the six status strings are pairwise distinct |
| StateRuntime.StateRuntimes.GetStateSync | cloud_runtimes/core/state.py:188-197 | the provider's get_state receives (store_name, key, options, metadata) in that order; its state or its failure is returned unchanged |
| StateRuntime.StateRuntimes.SaveStateSync | cloud_runtimes/core/state.py:199-212 | save_state receives all six arguments unchanged and in order; its outcome is returned unchanged |
| StateRuntime.StateRuntimes.DeleteStateSync | cloud_runtimes/core/state.py:214-226 | delete_state receives all five arguments unchanged and in order; its outcome is returned unchanged |
| StateRuntime.SyncAgreesWithAsync | cloud_runtimes/core/state.py:188-226 | each blocking form equals running its async form with the same arguments, failure included |
| StateRuntime.SyncDefaultsMatchAsync | cloud_runtimes/core/state.py:117-226 | omitting etag, options and metadata gives the same call in both forms, with None for each |
| StateRuntime.TimeoutSurfacesUnchanged | cloud_runtimes/core/state.py:188-197 | a TimeoutException from get_state comes out of get_state_sync with the same kind, text and details |
| ConfigurationRuntime.ConfigurationRuntimes.GetConfigurationSync | cloud_runtimes/core/configuration.py:147-158 | get_configuration receives its four arguments unchanged; its item list or failure is returned unchanged |
| ConfigurationRuntime.ConfigurationRuntimes.SaveConfigurationSync | cloud_runtimes/core/configuration.py:160-163 | save_configuration receives the same request; its outcome is returned unchanged |
| ConfigurationRuntime.ConfigurationRuntimes.DeleteConfigurationSync | cloud_runtimes/core/configuration.py:165-168 | delete_configuration receives the same request; its outcome is returned unchanged |
| ConfigurationRuntime.SyncAgreesWithAsync | cloud_runtimes/core/configuration.py:147-168 | each blocking form equals running its async form with the same arguments, failure included |
| ConfigurationRuntime.SyncDefaultsMatchAsync | cloud_runtimes/core/configuration.py:20-158 | omitting metadata passes None in both forms |
| InvocationRuntime.InvocationRuntimes.InvokeMethodSync | cloud_runtimes/core/invocation.py:116-128 | invoke_method receives (app_id, method_name, data, http_extension, metadata) in order; its bytes or failure are returned unchanged |
| InvocationRuntime.InvocationRuntimes.InvokeMethodWithRequestSync | cloud_runtimes/core/invocation.py:130-135 | invoke_method_with_request receives the same request; its response or failure is returned unchanged |
| InvocationRuntime.InvocationRuntimes.InvokeMethodTypedSync | cloud_runtimes/core/invocation.py:137-152 | invoke_method_typed receives all six arguments, response_type included, in order; its outcome is returned unchanged |
| InvocationRuntime.SyncAgreesWithAsync | cloud_runtimes/core/invocation.py:116-152 | each blocking form equals running its async form with the same arguments, failure included |
| InvocationRuntime.SyncDefaultsMatchAsync | cloud_runtimes/core/invocation.py:21-128 | omitting data, http_extension and metadata passes None for each in both forms |
| PubSubRuntime.PubSubRuntimes.PublishEventSync | cloud_runtimes/core/pubsub.py:99-110 | publish_event receives its four arguments unchanged; its message id or failure is returned unchanged |
| PubSubRuntime.PubSubRuntimes.PublishEventFromCustomContentSync | cloud_runtimes/core/pubsub.py:112-125 | publish_event_from_custom_content receives its four arguments unchanged; its outcome is returned unchanged |
| PubSubRuntime.SyncAgreesWithAsync | cloud_runtimes/core/pubsub.py:99-125 | each blocking form equals running its async form with the same arguments, failure included |
| PubSubRuntime.SyncDefaultsMatchAsync | cloud_runtimes/core/pubsub.py:19-125 | omitting metadata passes None in both forms |
| Client.CapabilityNameRoundTrip | cloud_runtimes/client.py:80-193 | the sixteen capability names in the accessor messages decode back to their capabilities |
| Client.UnboundFailure | cloud_runtimes/client.py:80-193 | an unbound accessor raises NotImplementedError, which has no taxonomy kind, with the text `<X> runtime not implemented` |
| Client.UnboundMessageIdentifiesCapability | cloud_runtimes/client.py:80-193 | different capabilities fail with different messages |
| Client.UnboundTextIsNoExceptionText | cloud_runtimes/client.py:83-84 | the text of an unbound failure is never the text of any CloudRuntimesException |
| Client.EndpointOrDefault | cloud_runtimes/client.py:52 | None or "" gives `http://localhost:3500`; any other endpoint is kept; the result is never empty |
| Client.TimeoutOrDefault | cloud_runtimes/client.py:53 | None or 0 gives 30.0; any other timeout is kept; the result is never zero |
| Client.SettingsFallbackIdempotent | cloud_runtimes/client.py:52-53 | resolving an already resolved endpoint or timeout changes nothing |
| Client.CloudRuntimesClient.constructor | cloud_runtimes/client.py:39-78 | endpoint and timeout are the resolved settings, config equals the keyword options verbatim, and all sixteen slots are unbound |
| Client.CloudRuntimesClient.Invocation | cloud_runtimes/client.py:80-85 | reads only its slot: the bound provider exactly, or the Invocation unbound failure |
| Client.CloudRuntimesClient.State | cloud_runtimes/client.py:87-92 | reads only its slot: the bound provider exactly, or the State unbound failure |
| Client.CloudRuntimesClient.Configuration | cloud_runtimes/client.py:94-99 | reads only its slot: the bound provider exactly, or the Configuration unbound failure |
| Client.CloudRuntimesClient.PubSub | cloud_runtimes/client.py:101-106 | reads only its slot: the bound provider exactly, or the PubSub unbound failure |
| Client.CloudRuntimesClient.Secrets | cloud_runtimes/client.py:108-113 | reads only its slot: the bound provider exactly, or the Secrets unbound failure |
| Client.CloudRuntimesClient.Binding | cloud_runtimes/client.py:115-120 | reads only its slot: the bound provider exactly, or the Binding unbound failure |
| Client.CloudRuntimesClient.Database | cloud_runtimes/client.py:123-128 | reads only its slot: the bound provider exactly, or the Database unbound failure |
| Client.CloudRuntimesClient.File | cloud_runtimes/client.py:130-135 | reads only its slot: the bound provider exactly, or the File unbound failure |
| Client.CloudRuntimesClient.Lock | cloud_runtimes/client.py:137-142 | reads only its slot: the bound provider exactly, or the Lock unbound failure |
| Client.CloudRuntimesClient.Telemetry | cloud_runtimes/client.py:144-149 | reads only its slot: the bound provider exactly, or the Telemetry unbound failure |
| Client.CloudRuntimesClient.Redis | cloud_runtimes/client.py:152-157 | reads only its slot: the bound provider exactly, or the Redis unbound failure |
| Client.CloudRuntimesClient.Sql | cloud_runtimes/client.py:159-164 | reads only its slot: the bound provider exactly, or the SQL unbound failure |
| Client.CloudRuntimesClient.S3 | cloud_runtimes/client.py:166-171 | reads only its slot: the bound provider exactly, or the S3 unbound failure |
| Client.CloudRuntimesClient.Email | cloud_runtimes/client.py:174-179 | reads only its slot: the bound provider exactly, or the Email unbound failure |
| Client.CloudRuntimesClient.Sms | cloud_runtimes/client.py:181-186 | reads only its slot: the bound provider exactly, or the SMS unbound failure |
| Client.CloudRuntimesClient.Encryption | cloud_runtimes/client.py:188-193 | reads only its slot: the bound provider exactly, or the Encryption unbound failure |
| Client.AccessFailsExactlyWhenUnbound | cloud_runtimes/client.py:80-193 | for every capability, its accessor fails exactly when the slot is unbound, and then with that capability's unbound failure |
| Client.FreshClientAccessorsAllFail | verify_complete.py:57-74 | on a client with no slot bound, all sixteen accessors raise NotImplementedError |
| Client.CloudRuntimesClient.Close | cloud_runtimes/client.py:195-198 | close changes nothing, so it can be called any number of times |
| Client.CloudRuntimesClient.AEnter | cloud_runtimes/client.py:200-202 | `__aenter__` returns the same client |
| Client.CloudRuntimesClient.AExit | cloud_runtimes/client.py:204-206 | `__aexit__` only calls close: nothing changes, and the in-flight exception is not suppressed |

## Left out

- The other twelve capability interfaces are not modelled. These are secrets, binding, database, file, lock, telemetry, Redis, SQL, S3, email, SMS and encryption.
  - Their methods are abstract, so their behaviour belongs to providers the core cannot see.
  - The facade only stores and returns their providers, so they appear here as opaque types.
- Some abstract async methods of the four bridge interfaces have no blocking form, and the model leaves them out:
  - state: `get_state_with_request`, `get_state_typed`, `get_bulk_state`, `get_bulk_state_with_request`, `save_bulk_state`, `delete_state_with_request`, `execute_state_transaction`
  - configuration: `get_configuration_with_group`, `get_configuration_with_group_and_label`, `get_configuration_with_request`, `subscribe_configuration`, `unsubscribe_configuration`
  - invocation: `register_method`, `register_server`
  - pubsub: `publish_event_with_request`, `subscribe_events`, `unsubscribe_events`
  - Like the source, the model defines no blocking form for any of them.
- No ETag compare-and-swap, per-item bulk errors, atomic transactions or idempotent unsubscribe. No code implements them: those methods are abstract.
- `asyncio.run` is modelled only as driving one coroutine to completion. The model leaves out:
  - creating and tearing down the event loop;
  - the RuntimeError that `asyncio.run` raises inside a running loop.
- `close`, `__aenter__` and `__aexit__` are modelled as ordinary methods, without the async context-manager protocol.
- The timeout is a `real`. IEEE floating point is not modelled: NaN, negative zero and rounding.
- A provider can raise any Python exception. The model only covers the taxonomy exceptions and NotImplementedError. The bridge passes any failure through unchanged either way.
- `details or {}` builds a new dict when the given one is empty. With values instead of references, dict identity and aliasing are not modelled.
- Python does not check the type of a provider put into a slot. The model types each slot with its capability's provider.
- A provider is a value of pure, total functions. The model therefore does not capture:
  - how many times a bridge calls the provider. The source calls the async method exactly once per blocking call; a bridge that retried would satisfy the same contract;
  - side effects of a provider, or any call order between providers;
  - defaults of a Python override. An override of `get_state` may declare its own defaults, while `get_state_sync` passes `None` explicitly. So `p.get_state(s, k)` and `p.get_state_sync(s, k)` can make different calls. In the model the async defaults are the ones declared on the abstract methods, so each `SyncDefaultsMatchAsync` lemma only says that the declared defaults agree;
  - a provider that implements an abstract method as a plain `def`. `asyncio.run` then raises ValueError, because it is handed a value that is not a coroutine;
  - a provider whose class overrides the `*_sync` methods themselves.
- `StateConsistency`, `StateConcurrency` and `OperationType` are separate datatypes. In Python their members are `IntEnum`s, so they compare equal to their integers and to each other across enums (`StateConsistency.EVENTUAL == StateConcurrency.FIRST_WRITE` is true). The model compares them only through their value functions.
- `CloudRuntimesException` is a datatype whose class and code are independent fields. Values that no constructor builds, a subclass with a foreign code, can be written down; `KindOf` reads the class, not the code. `WellFormed` names the values the constructors build.
- The records of `cloud_runtimes/types/core.py` appear only as the plain datatypes the bridge passes through. Nothing is proved about them.
