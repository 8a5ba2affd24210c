/**
 * The blocking bridge of cloud_runtimes/core/pubsub.py: two `*_sync` forms,
 * each one call to its async counterpart with the same arguments, returning
 * the message id (or the failure) unchanged.
 */
module PubSubRuntime {
  import opened Wrappers
  import opened Values
  import opened Exceptions
  import opened Common
  import opened Async

  /**
   * A pub/sub provider, given by what its abstract async methods do when run:
   * publish_event(pubsub_name, topic_name, data, metadata) and
   * publish_event_from_custom_content(pubsub_name, topic_name, data, metadata).
   */
  datatype PubSubRuntimes = PubSubRuntimes(
    publishEventImpl: (string, string, Bytes, Option<Metadata>) -> Result<string, Failure>,
    publishEventFromCustomContentImpl: (string, string, Value, Option<Metadata>) -> Result<string, Failure>)
  {
    function PublishEvent(pubsubName: string, topicName: string, data: Bytes,
                          metadata: Option<Metadata> := None): Coroutine<string>
    {
      Coroutine(() => publishEventImpl(pubsubName, topicName, data, metadata))
    }

    function PublishEventFromCustomContent(pubsubName: string, topicName: string, data: Value,
                                           metadata: Option<Metadata> := None): Coroutine<string>
    {
      Coroutine(() => publishEventFromCustomContentImpl(pubsubName, topicName, data, metadata))
    }

    /** publish_event_sync: the four arguments reach the provider unchanged; its message id or failure comes back unchanged. */
    function PublishEventSync(pubsubName: string, topicName: string, data: Bytes,
                              metadata: Option<Metadata> := None): (r: Result<string, Failure>)
      ensures r == publishEventImpl(pubsubName, topicName, data, metadata)
    {
      Run(PublishEvent(pubsubName, topicName, data, metadata))
    }

    /** publish_event_from_custom_content_sync: the four arguments reach the provider unchanged, and so does its outcome. */
    function PublishEventFromCustomContentSync(pubsubName: string, topicName: string, data: Value,
                                               metadata: Option<Metadata> := None): (r: Result<string, Failure>)
      ensures r == publishEventFromCustomContentImpl(pubsubName, topicName, data, metadata)
    {
      Run(PublishEventFromCustomContent(pubsubName, topicName, data, metadata))
    }
  }

  /** Each blocking form returns what running its async form returns, failure included. */
  lemma SyncAgreesWithAsync(p: PubSubRuntimes, pubsubName: string, topicName: string, data: Bytes,
                            content: Value, metadata: Option<Metadata>)
    ensures p.PublishEventSync(pubsubName, topicName, data, metadata)
         == Run(p.PublishEvent(pubsubName, topicName, data, metadata))
    ensures p.PublishEventFromCustomContentSync(pubsubName, topicName, content, metadata)
         == Run(p.PublishEventFromCustomContent(pubsubName, topicName, content, metadata))
  {
  }

  /** Omitting metadata passes None in both the blocking and async forms. */
  lemma SyncDefaultsMatchAsync(p: PubSubRuntimes, pubsubName: string, topicName: string, data: Bytes, content: Value)
    ensures p.PublishEventSync(pubsubName, topicName, data) == Run(p.PublishEvent(pubsubName, topicName, data))
    ensures p.PublishEventSync(pubsubName, topicName, data) == p.publishEventImpl(pubsubName, topicName, data, None)
    ensures p.PublishEventFromCustomContentSync(pubsubName, topicName, content)
         == Run(p.PublishEventFromCustomContent(pubsubName, topicName, content))
    ensures p.PublishEventFromCustomContentSync(pubsubName, topicName, content)
         == p.publishEventFromCustomContentImpl(pubsubName, topicName, content, None)
  {
  }
}
