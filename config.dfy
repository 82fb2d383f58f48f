/**
 * Per-pipeline Kafka settings (common-kafka/src/config.rs).
 *
 * `InboundConfig` and `FulfillmentConfig` are two structs with the same five fields behind
 * the `KafkaConfigTrait` accessors; here they are one record type, the accessors are its
 * field selectors, and each `new()` is a constant of that type.
 */
module KafkaConfig {
  import opened Types

  datatype KafkaConfig = KafkaConfig(
    brokers: string,
    topic: string,
    groupId: string,
    timeoutMs: u64,
    maxRetries: u32)

  const LOCAL_BROKERS: string := "localhost:9092"
  const DEFAULT_TIMEOUT_MS: u64 := 5000
  const DEFAULT_MAX_RETRIES: u32 := 5

  /** `InboundConfig::new()`. */
  function InboundConfig(): (c: KafkaConfig)
    ensures c.brokers == "localhost:9092" && c.topic == "INBOUND" && c.groupId == "INBOUND_GROUP"
    ensures c.timeoutMs == 5000 && c.maxRetries == 5
  {
    KafkaConfig(LOCAL_BROKERS, "INBOUND", "INBOUND_GROUP", DEFAULT_TIMEOUT_MS, DEFAULT_MAX_RETRIES)
  }

  /** `FulfillmentConfig::new()`. */
  function FulfillmentConfig(): (c: KafkaConfig)
    ensures c.brokers == "localhost:9092" && c.topic == "FULFILLMENT" && c.groupId == "FULFILLMENT_GROUP"
    ensures c.timeoutMs == 5000 && c.maxRetries == 5
  {
    KafkaConfig(LOCAL_BROKERS, "FULFILLMENT", "FULFILLMENT_GROUP", DEFAULT_TIMEOUT_MS, DEFAULT_MAX_RETRIES)
  }

  /**
   * The two presets share brokers, timeout and retry budget and differ in exactly the
   * destination: topic and consumer group.
   */
  lemma PresetsDifferOnlyInDestination()
    ensures FulfillmentConfig() == InboundConfig().(topic := "FULFILLMENT", groupId := "FULFILLMENT_GROUP")
    ensures InboundConfig().topic != FulfillmentConfig().topic
    ensures InboundConfig().groupId != FulfillmentConfig().groupId
  {
    assert "INBOUND"[0] != "FULFILLMENT"[0];
    assert "INBOUND_GROUP"[0] != "FULFILLMENT_GROUP"[0];
  }
}
