/**
  The check applied to Kafka connection settings before a consumer is created for them,
  and by the connection-test endpoint.
 */
module ConnectionValidation {
  import opened Wrappers
  import opened Entities

  /** A Java string or list that is present and not empty. */
  predicate Filled<T>(x: Option<seq<T>>) {
    x.Some? && |x.value| > 0
  }

  /**
    validateConnectionDetails: the guards in order (null settings, then brokers, topic and
    consumer group id, each null or empty).
   */
  function ValidateConnectionDetails(details: Option<KafkaConnectionDetails>): (valid: bool)
    ensures details.None? ==> !valid
    ensures details.Some? && (details.value.kafkaBrokers.None? || details.value.kafkaBrokers.value == []) ==> !valid
    ensures details.Some? && (details.value.topic.None? || details.value.topic.value == []) ==> !valid
    ensures details.Some? && (details.value.consumerGroupId.None? || details.value.consumerGroupId.value == []) ==> !valid
    ensures valid <==>
      (details.Some? && Filled(details.value.kafkaBrokers) && Filled(details.value.topic)
       && Filled(details.value.consumerGroupId))
  {
    if details.None? then false
    else if details.value.kafkaBrokers.None? || details.value.kafkaBrokers.value == [] then false
    else if details.value.topic.None? || details.value.topic.value == [] then false
    else if details.value.consumerGroupId.None? || details.value.consumerGroupId.value == [] then false
    else true
  }

  /**
    Only brokers, topic and consumer group id are consulted: settings that agree on those
    are judged alike, whatever their name, security protocol, certificate, credentials,
    field mappings or patterns.
   */
  lemma OnlyThreeSettingsMatter(a: KafkaConnectionDetails, b: KafkaConnectionDetails)
    requires a.kafkaBrokers == b.kafkaBrokers && a.topic == b.topic && a.consumerGroupId == b.consumerGroupId
    ensures ValidateConnectionDetails(Some(a)) == ValidateConnectionDetails(Some(b))
  {
  }
}
