/**
 * The request and response records of cloud_runtimes/types/core.py that the
 * blocking bridge passes through. They carry no behaviour: every optional
 * field defaults to absent.
 */
module CoreTypes {
  import opened Wrappers
  import opened Values
  import opened Common

  /** Additional HTTP fields of an invocation. */
  datatype HttpExtension = HttpExtension(
    verb: Option<string> := None,
    querystring: Option<string> := None,
    headers: Option<Metadata> := None)

  datatype InvokeMethodRequest = InvokeMethodRequest(
    appId: string,
    methodName: string,
    data: Option<Bytes> := None,
    contentType: Option<string> := None,
    httpVerb: Option<string> := None,
    metadata: Option<Metadata> := None)

  datatype InvokeMethodResponse = InvokeMethodResponse(
    data: Option<Bytes> := None,
    contentType: Option<string> := None,
    metadata: Option<Metadata> := None)

  datatype ConfigurationRequestItem = ConfigurationRequestItem(
    storeName: string,
    appId: string,
    keys: seq<string>,
    group: Option<string> := None,
    configLabel: Option<string> := None,  // `label` (a Dafny keyword)
    metadata: Option<Metadata> := None)

  datatype ConfigurationItem = ConfigurationItem(
    key: string,
    value: Value,
    version: Option<string> := None,
    metadata: Option<Metadata> := None)

  datatype SaveConfigurationRequest = SaveConfigurationRequest(
    storeName: string,
    appId: string,
    items: seq<ConfigurationSaveItem>,
    metadata: Option<Metadata> := None)

  datatype ConfigurationSaveItem = ConfigurationSaveItem(
    key: string,
    value: Value,
    group: Option<string> := None,
    configLabel: Option<string> := None,  // `label` (a Dafny keyword)
    metadata: Option<Metadata> := None)
}
