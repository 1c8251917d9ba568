/** The configuration rows and wire records the core reads. */
module Entities {
  import opened Wrappers
  import opened JavaLang
  import opened Json

  /**
    One row of the field configuration of an API (ApiMetadataField): the target field
    name, the dot path into the message, the key status ("Mandatory" or "Custom"), the
    message type the field is restricted to (null or empty: any), and the date pattern
    used for RequestTime and ResponseTime.
   */
  datatype FieldDef = FieldDef(
    field: Option<string>,
    path: Option<string>,
    keyStatus: Option<string>,
    messageType: Option<string>,
    datePattern: Option<string>)

  /** The HTTP metadata block of an audit log. */
  datatype ApiMetadata = ApiMetadata(
    clientIp: Option<string>,
    userAgent: Option<string>,
    contentType: Option<string>,
    contentLength: Option<Int64>,
    httpMethod: Option<string>,
    endpoint: Option<string>,
    responseStatus: Option<Int32>,
    processingTimeMs: Option<Int64>)

  /**
    An audit log as published on the audit topic and read back by the typed processor.
    The timestamp is nanoseconds on the local time line; the payload is whatever JSON
    value the request or response body was.
   */
  datatype ApiAuditLog = ApiAuditLog(
    logId: Option<string>,
    apiName: Option<string>,
    requestId: Option<string>,
    timestamp: Option<int>,
    logType: Option<string>,
    metadata: Option<ApiMetadata>,
    payload: Json)

  /**
    The connection settings of a Kafka data source; `fields` holds the API-name mappings,
    each a JSON object or a null entry.
   */
  datatype KafkaConnectionDetails = KafkaConnectionDetails(
    kafkaBrokers: Option<seq<string>>,
    connectionName: Option<string>,
    topic: Option<string>,
    consumerGroupId: Option<string>,
    securityProtocol: Option<string>,
    certificate: Option<string>,
    userName: Option<string>,
    password: Option<string>,
    fields: Option<seq<Option<map<string, Json>>>>,
    patterns: Option<map<string, string>>)
}
