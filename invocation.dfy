/**
 * The blocking bridge of cloud_runtimes/core/invocation.py: three `*_sync`
 * forms, each one call to its async counterpart with the same arguments in
 * the same order, returning that call's result with no error handling.
 */
module InvocationRuntime {
  import opened Wrappers
  import opened Values
  import opened Exceptions
  import opened Common
  import opened CoreTypes
  import opened Async

  /**
   * An invocation provider, given by what its abstract async methods do when
   * run: invoke_method(app_id, method_name, data, http_extension, metadata),
   * invoke_method_with_request(request) and
   * invoke_method_typed(app_id, method_name, data, response_type, http_extension, metadata).
   */
  datatype InvocationRuntimes = InvocationRuntimes(
    invokeMethodImpl: (string, string, Option<Bytes>, Option<HttpExtension>, Option<Metadata>) -> Result<Bytes, Failure>,
    invokeMethodWithRequestImpl: InvokeMethodRequest -> Result<InvokeMethodResponse, Failure>,
    invokeMethodTypedImpl: (string, string, Value, PyType, Option<HttpExtension>, Option<Metadata>) -> Result<Value, Failure>)
  {
    function InvokeMethod(appId: string, methodName: string, data: Option<Bytes> := None,
                          httpExtension: Option<HttpExtension> := None,
                          metadata: Option<Metadata> := None): Coroutine<Bytes>
    {
      Coroutine(() => invokeMethodImpl(appId, methodName, data, httpExtension, metadata))
    }

    function InvokeMethodWithRequest(request: InvokeMethodRequest): Coroutine<InvokeMethodResponse> {
      Coroutine(() => invokeMethodWithRequestImpl(request))
    }

    function InvokeMethodTyped(appId: string, methodName: string, data: Value, responseType: PyType,
                               httpExtension: Option<HttpExtension> := None,
                               metadata: Option<Metadata> := None): Coroutine<Value>
    {
      Coroutine(() => invokeMethodTypedImpl(appId, methodName, data, responseType, httpExtension, metadata))
    }

    /** invoke_method_sync: the five arguments reach the provider in order; its bytes or failure come back unchanged. */
    function InvokeMethodSync(appId: string, methodName: string, data: Option<Bytes> := None,
                              httpExtension: Option<HttpExtension> := None,
                              metadata: Option<Metadata> := None): (r: Result<Bytes, Failure>)
      ensures r == invokeMethodImpl(appId, methodName, data, httpExtension, metadata)
    {
      Run(InvokeMethod(appId, methodName, data, httpExtension, metadata))
    }

    /** invoke_method_with_request_sync: the same request reaches the provider; its response or failure comes back unchanged. */
    function InvokeMethodWithRequestSync(request: InvokeMethodRequest): (r: Result<InvokeMethodResponse, Failure>)
      ensures r == invokeMethodWithRequestImpl(request)
    {
      Run(InvokeMethodWithRequest(request))
    }

    /** invoke_method_typed_sync: all six arguments, response_type included, reach the provider in order. */
    function InvokeMethodTypedSync(appId: string, methodName: string, data: Value, responseType: PyType,
                                   httpExtension: Option<HttpExtension> := None,
                                   metadata: Option<Metadata> := None): (r: Result<Value, Failure>)
      ensures r == invokeMethodTypedImpl(appId, methodName, data, responseType, httpExtension, metadata)
    {
      Run(InvokeMethodTyped(appId, methodName, data, responseType, httpExtension, metadata))
    }
  }

  /** Each blocking form returns what running its async form returns, failure included. */
  lemma SyncAgreesWithAsync(p: InvocationRuntimes, appId: string, methodName: string, data: Option<Bytes>,
                            httpExtension: Option<HttpExtension>, metadata: Option<Metadata>,
                            request: InvokeMethodRequest, typedData: Value, responseType: PyType)
    ensures p.InvokeMethodSync(appId, methodName, data, httpExtension, metadata)
         == Run(p.InvokeMethod(appId, methodName, data, httpExtension, metadata))
    ensures p.InvokeMethodWithRequestSync(request) == Run(p.InvokeMethodWithRequest(request))
    ensures p.InvokeMethodTypedSync(appId, methodName, typedData, responseType, httpExtension, metadata)
         == Run(p.InvokeMethodTyped(appId, methodName, typedData, responseType, httpExtension, metadata))
  {
  }

  /** data, http_extension and metadata default to None identically in the blocking and async invoke_method. */
  lemma SyncDefaultsMatchAsync(p: InvocationRuntimes, appId: string, methodName: string)
    ensures p.InvokeMethodSync(appId, methodName) == Run(p.InvokeMethod(appId, methodName))
    ensures p.InvokeMethodSync(appId, methodName) == p.invokeMethodImpl(appId, methodName, None, None, None)
  {
  }
}
