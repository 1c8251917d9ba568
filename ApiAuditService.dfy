/**
  The producer side of the audit trail: an HTTP exchange becomes a REQUEST and a RESPONSE
  audit log, keyed by the request id, on the audit topic.
 */
module AuditPublishing {
  import opened Wrappers
  import opened JavaLang
  import opened Json
  import opened Entities

  const AuditTopic: string := "api_audit_zak_logs"

  /**
    The parts of an HttpServletRequest the service reads. Headers are looked up by the
    exact name; `contentLength` is what getContentLengthLong returns (-1 when unknown).
   */
  datatype HttpRequest = HttpRequest(
    headers: map<string, string>,
    contentType: Option<string>,
    contentLength: Int64,
    httpMethod: Option<string>,
    requestUri: Option<string>,
    remoteAddr: Option<string>)

  /** A computation that either yields a value or throws. */
  datatype Attempt<T> = Ok(value: T) | Threw

  /** One record handed to the Kafka template. */
  datatype AuditMessage = AuditMessage(topic: string, key: Option<string>, log: ApiAuditLog)

  function Header(request: HttpRequest, name: string): Option<string> {
    if name in request.headers then Some(request.headers[name]) else None
  }

  /**
    getClientIpAddress: a non-empty X-Forwarded-For wins with its first comma-separated
    element trimmed; it throws when that header splits into nothing (only commas). Else a
    non-empty X-Real-IP verbatim; else the remote address.
   */
  function ClientIpAddress(request: HttpRequest): (ip: Attempt<Option<string>>)
    ensures var xff := Header(request, "X-Forwarded-For");
      xff.Some? && xff.value != [] ==>
        (ip.Threw? <==> forall i :: 0 <= i < |xff.value| ==> xff.value[i] == ',')
        && (ip.Ok? ==> ip.value == Some(Trim(TakeUntil(xff.value, ','))))
    ensures var xff := Header(request, "X-Forwarded-For"); var realIp := Header(request, "X-Real-IP");
      (xff.None? || xff.value == []) ==>
        ip == Ok(if realIp.Some? && realIp.value != [] then realIp else request.remoteAddr)
  {
    var xForwardedFor := Header(request, "X-Forwarded-For");
    if xForwardedFor.Some? && xForwardedFor.value != [] then
      var parts := Split(xForwardedFor.value, ',');
      SplitEmptyIff(xForwardedFor.value, ',');
      if parts == [] then Threw
      else
        SplitHead(xForwardedFor.value, ',');
        Ok(Some(Trim(parts[0])))
    else
      var xRealIp := Header(request, "X-Real-IP");
      if xRealIp.Some? && xRealIp.value != [] then Ok(xRealIp) else Ok(request.remoteAddr)
  }

  /** The metadata common to both logs, with the response fields given. */
  function Metadata(request: HttpRequest, responseStatus: Option<Int32>, processingTimeMs: Option<Int64>)
    : (md: Attempt<ApiMetadata>)
    ensures md.Ok? <==> ClientIpAddress(request).Ok?
    ensures md.Ok? ==>
      md.value.clientIp == ClientIpAddress(request).value && md.value.userAgent == Header(request, "User-Agent")
      && md.value.contentType == request.contentType && md.value.contentLength == Some(request.contentLength)
      && md.value.httpMethod == request.httpMethod && md.value.endpoint == request.requestUri
      && md.value.responseStatus == responseStatus && md.value.processingTimeMs == processingTimeMs
  {
    match ClientIpAddress(request)
    case Threw => Threw
    case Ok(ip) =>
      Ok(ApiMetadata(ip, Header(request, "User-Agent"), request.contentType, Some(request.contentLength),
                     request.httpMethod, request.requestUri, responseStatus, processingTimeMs))
  }

  /** createRequestMetadata: no response status and no processing time. */
  function RequestMetadata(request: HttpRequest): (md: Attempt<ApiMetadata>)
    ensures md.Ok? ==> md.value.responseStatus.None? && md.value.processingTimeMs.None?
  {
    Metadata(request, None, None)
  }

  /** createResponseMetadata: the status and processing time passed in. */
  function ResponseMetadata(request: HttpRequest, responseStatus: Option<Int32>, processingTimeMs: Option<Int64>)
    : (md: Attempt<ApiMetadata>)
    ensures md.Ok? ==> md.value.responseStatus == responseStatus && md.value.processingTimeMs == processingTimeMs
  {
    Metadata(request, responseStatus, processingTimeMs)
  }

  /**
    The five-argument ApiAuditLog constructor; the fresh UUID and the current time that
    the no-argument constructor draws are parameters here.
   */
  function NewAuditLog(apiName: Option<string>, requestId: Option<string>, logType: string, metadata: ApiMetadata,
                       payload: Json, logId: string, now: int): ApiAuditLog
  {
    ApiAuditLog(Some(logId), apiName, requestId, Some(now), Some(logType), Some(metadata), payload)
  }

  /** sendRequestAuditLog: the REQUEST log sent to the audit topic, or nothing when building it threw. */
  function RequestAuditMessage(apiName: Option<string>, requestId: Option<string>, payload: Json,
                               request: HttpRequest, logId: string, now: int): (m: Option<AuditMessage>)
    ensures m.Some? <==> ClientIpAddress(request).Ok?
    ensures m.Some? ==>
      (m.value.topic == AuditTopic && m.value.key == requestId
       && m.value.log.logType == Some("REQUEST") && m.value.log.requestId == requestId)
  {
    match RequestMetadata(request)
    case Threw => None
    case Ok(md) => Some(AuditMessage(AuditTopic, requestId, NewAuditLog(apiName, requestId, "REQUEST", md, payload, logId, now)))
  }

  /** sendResponseAuditLog: the RESPONSE log sent to the audit topic, or nothing when building it threw. */
  function ResponseAuditMessage(apiName: Option<string>, requestId: Option<string>, payload: Json,
                                request: HttpRequest, responseStatus: Option<Int32>, processingTimeMs: Option<Int64>,
                                logId: string, now: int): (m: Option<AuditMessage>)
    ensures m.Some? <==> ClientIpAddress(request).Ok?
    ensures m.Some? ==>
      (m.value.topic == AuditTopic && m.value.key == requestId
       && m.value.log.logType == Some("RESPONSE") && m.value.log.requestId == requestId)
  {
    match ResponseMetadata(request, responseStatus, processingTimeMs)
    case Threw => None
    case Ok(md) =>
      Some(AuditMessage(AuditTopic, requestId, NewAuditLog(apiName, requestId, "RESPONSE", md, payload, logId, now)))
  }

  /**
    For one exchange, the REQUEST and the RESPONSE log are sent together or not at all,
    under the same key. Each log draws its own id and clock reading; apart from those, they
    differ only in the log type and the two response fields of the metadata.
   */
  lemma ResponseLogMirrorsRequestLog(apiName: Option<string>, requestId: Option<string>, payload: Json,
                                     request: HttpRequest, responseStatus: Option<Int32>,
                                     processingTimeMs: Option<Int64>,
                                     requestLogId: string, requestNow: int, responseLogId: string, responseNow: int)
    ensures var rq := RequestAuditMessage(apiName, requestId, payload, request, requestLogId, requestNow);
      var rs := ResponseAuditMessage(apiName, requestId, payload, request, responseStatus, processingTimeMs,
                                     responseLogId, responseNow);
      rq.Some? == rs.Some?
      && (rq.Some? ==>
            rq.value.key == rs.value.key == requestId
            && rs.value.log == rq.value.log.(logId := Some(responseLogId), timestamp := Some(responseNow),
                 logType := Some("RESPONSE"),
                 metadata := Some(rq.value.log.metadata.value.(responseStatus := responseStatus,
                                                              processingTimeMs := processingTimeMs))))
  {
  }

  /** A forwarded-for header of commas only makes the request unauditable: nothing is sent. */
  lemma CommasOnlyForwardedForSendsNothing(apiName: Option<string>, requestId: Option<string>, payload: Json,
                                           request: HttpRequest, logId: string, now: int)
    requires "X-Forwarded-For" in request.headers
    requires var xff := request.headers["X-Forwarded-For"]; |xff| > 0 && forall i :: 0 <= i < |xff| ==> xff[i] == ','
    ensures RequestAuditMessage(apiName, requestId, payload, request, logId, now).None?
  {
  }
}
