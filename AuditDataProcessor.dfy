/**
  The typed correlator: audit logs of the fixed ApiAuditLog shape are correlated by
  request_id. Host and resource path come from the log's metadata, status and times from
  the payload. A null metadata or a null request id makes a step fail part-way, exactly
  where the Java code would throw; the exception is caught by the message handler.
 */
module TypedProcessing {
  import opened Wrappers
  import opened JavaLang
  import opened Json
  import opened AuditModel
  import opened Entities
  import opened FieldExtraction
  import opened Correlation

  /** The collaborators the processor calls but whose code is not part of this model. */
  datatype TypedEnv = TypedEnv(
    readValue: string -> Option<ApiAuditLog>,      // ObjectMapper.readValue, None when it throws
    parseDate: DateParser,
    writeValueAsString: Json -> Option<string>,    // None when serialisation throws
    render: Json -> string)                        // toString of a deserialised map, list or double

  const UnknownStatus: string := "UNKNOWN"

  /** The serialised payload, or "{}" when serialisation fails. */
  function Serialized(env: TypedEnv, payload: Json): string {
    env.writeValueAsString(payload).GetOr("{}")
  }

  /** Object.toString() of a deserialised JSON value. */
  function PayloadText(env: TypedEnv, v: Json): string {
    match v
    case JString(s) => s
    case JNumber(n) => IntToText(n)
    case JBool(b) => if b then "true" else "false"
    case _ => env.render(v)
  }

  /** payloadMap.get(key) when the payload is a map; None for a missing key or a JSON null. */
  function PayloadMember(payload: Json, key: string): Option<Json> {
    if payload.JObject? && key in payload.members && !payload.members[key].JNull?
    then Some(payload.members[key]) else None
  }

  /**
    extractTimeFromPayload: the payload's processed_date parsed with the default pattern,
    falling back to the current time when the payload is not a map, the key is missing or
    null, or the text does not parse.
   */
  function TimeFromPayload(env: TypedEnv, payload: Json, now: DateTime): (t: DateTime)
    ensures PayloadMember(payload, "processed_date").None? ==> t == now
    ensures PayloadMember(payload, "processed_date").Some? ==>
      var parsed := env.parseDate(PayloadText(env, PayloadMember(payload, "processed_date").value), DefaultDatePattern);
      t == if parsed.Some? then parsed.value else now
  {
    match PayloadMember(payload, "processed_date")
    case None => now
    case Some(v) =>
      match env.parseDate(PayloadText(env, v), DefaultDatePattern)
      case Some(t) => t
      case None => now
  }

  /**
    extractStatusFromPayload: the text of the payload's status (a string as it is, any other
    value through toString), or "UNKNOWN" when the payload is not a map or its status is
    missing or null.
   */
  function StatusFromPayload(env: TypedEnv, payload: Json): (status: string)
    ensures !payload.JObject? ==> status == UnknownStatus
    ensures payload.JObject? && "status" !in payload.members ==> status == UnknownStatus
    ensures forall s :: PayloadMember(payload, "status") == Some(JString(s)) ==> status == s
    ensures PayloadMember(payload, "status").None? ==> status == UnknownStatus
    ensures PayloadMember(payload, "status").Some? ==> status == PayloadText(env, PayloadMember(payload, "status").value)
  {
    match PayloadMember(payload, "status")
    case None => UnknownStatus
    case Some(v) => PayloadText(env, v)
  }

  /**
    createParsedDataFromRequest on values: None when the metadata or the request id is
    null (the step throws before anything is stored); otherwise a record seeded with the
    request id carrying the API name, the client IP as host, the endpoint as resource
    path, the serialised payload and the payload's time.
   */
  function RequestRecord(env: TypedEnv, log: ApiAuditLog, now: DateTime): (r: Option<AuditRecord>)
    ensures r.Some? <==> log.metadata.Some? && log.requestId.Some?
    ensures r.Some? ==>
      var v := r.value;
      v.apiName == log.apiName && v.host == log.metadata.value.clientIp
      && v.resourcePath == log.metadata.value.endpoint
      && v.requestPayload == Some(Serialized(env, log.payload))
      && v.requestTime == Some(TimeFromPayload(env, log.payload, now))
      && v.correlationId == v.parentId == v.transactionId == v.uniqueTransactionId == log.requestId
      && v.responsePayload.None? && v.responseTime.None? && v.status.None? && v.statusCode.None?
      && v.customFields == []
      && !v.isComplete && v.indexedAt == now && v.id.None?
  {
    if log.metadata.None? || log.requestId.None? then None
    else
      Some(Seeded(log.requestId, now).(
        apiName := log.apiName,
        host := log.metadata.value.clientIp,
        resourcePath := log.metadata.value.endpoint,
        requestPayload := Some(Serialized(env, log.payload)),
        requestTime := Some(TimeFromPayload(env, log.payload, now))))
  }

  /**
    updateParsedDataFromResponse on values: response payload, response time and status
    are set, then the status code from the metadata; with a null metadata the step throws
    after the first three, so the status code keeps its value.
   */
  function ResponseFilled(env: TypedEnv, r: AuditRecord, log: ApiAuditLog, now: DateTime): (r': AuditRecord)
    ensures r'.responsePayload == Some(Serialized(env, log.payload))
    ensures r'.responseTime == Some(TimeFromPayload(env, log.payload, now))
    ensures r'.status == Some(StatusFromPayload(env, log.payload))
    ensures r'.statusCode == if log.metadata.Some? then log.metadata.value.responseStatus else r.statusCode
    ensures r' == r.(responsePayload := r'.responsePayload, responseTime := r'.responseTime,
                     status := r'.status, statusCode := r'.statusCode)
  {
    var partial := r.(responsePayload := Some(Serialized(env, log.payload)),
                      responseTime := Some(TimeFromPayload(env, log.payload, now)),
                      status := Some(StatusFromPayload(env, log.payload)));
    if log.metadata.None? then partial
    else partial.(statusCode := log.metadata.value.responseStatus)
  }

  /** processAuditMessage on the correlator state. */
  function OnAuditMessage(env: TypedEnv, s: CorrelatorState, message: string, now: DateTime): CorrelatorState {
    match env.readValue(message)
    case None => s
    case Some(log) =>
      if log.logType == Some("REQUEST") then
        match RequestRecord(env, log, now)
        case None => s
        case Some(r) => Park(s, log.requestId.value, r)
      else if log.logType == Some("RESPONSE") then
        if log.requestId.None? then s
        else
          var id := log.requestId.value;
          if id in s.pendingRequests then
            var filled := ResponseFilled(env, s.pendingRequests[id], log, now);
            if log.metadata.None? then s.(pendingRequests := s.pendingRequests[id := filled])
            else Settle(s, id, filled.(isComplete := true))
          else if log.metadata.None? then s
          else ParkOrphan(s, id, ResponseFilled(env, Seeded(Some(id), now), log, now).(isComplete := false))
      else s
  }

  // ---------------------------------------------------------------------------
  // Properties of the specification
  // ---------------------------------------------------------------------------

  /** Only an exact "REQUEST" or "RESPONSE" log changes anything; there is no single path. */
  lemma OtherLogTypesIgnored(env: TypedEnv, s: CorrelatorState, message: string, now: DateTime)
    requires env.readValue(message).None?
          || (env.readValue(message).value.logType != Some("REQUEST")
              && env.readValue(message).value.logType != Some("RESPONSE"))
    ensures OnAuditMessage(env, s, message, now) == s
  {
  }

  /** A REQUEST with null metadata is stored nowhere and arms no timer. */
  lemma RequestWithoutMetadataIsLost(env: TypedEnv, s: CorrelatorState, message: string, now: DateTime)
    requires env.readValue(message).Some? && env.readValue(message).value.logType == Some("REQUEST")
    requires env.readValue(message).value.metadata.None?
    ensures OnAuditMessage(env, s, message, now) == s
  {
  }

  /** A complete REQUEST is parked under its id, overwriting, with its timer armed. */
  lemma RequestIsParked(env: TypedEnv, s: CorrelatorState, message: string, now: DateTime)
    requires env.readValue(message).Some? && env.readValue(message).value.logType == Some("REQUEST")
    requires env.readValue(message).value.metadata.Some? && env.readValue(message).value.requestId.Some?
    ensures var log := env.readValue(message).value; var id := log.requestId.value;
      var s' := OnAuditMessage(env, s, message, now);
      s'.pendingRequests == s.pendingRequests[id := RequestRecord(env, log, now).value]
      && s'.pendingRequests[id].host == log.metadata.value.clientIp
      && s'.pendingRequests[id].resourcePath == log.metadata.value.endpoint
      && s'.completedTransactions == s.completedTransactions && s'.indexed == s.indexed
      && s'.scheduledTimeouts == s.scheduledTimeouts + multiset{id}
  {
  }

  /**
    A RESPONSE with metadata whose id is pending completes the transaction: the pending
    record, with the response side filled in and the status code of the metadata, is
    emitted once as complete and the id is no longer pending.
   */
  lemma MatchedResponseSettles(env: TypedEnv, s: CorrelatorState, message: string, now: DateTime)
    requires env.readValue(message).Some? && env.readValue(message).value.logType == Some("RESPONSE")
    requires env.readValue(message).value.requestId.Some? && env.readValue(message).value.metadata.Some?
    requires env.readValue(message).value.requestId.value in s.pendingRequests
    ensures var log := env.readValue(message).value; var id := log.requestId.value;
      var s' := OnAuditMessage(env, s, message, now);
      var merged := s'.indexed[|s.indexed|];
      s'.indexed == s.indexed + [merged]
      && merged.isComplete && merged.statusCode == log.metadata.value.responseStatus
      && merged.status == Some(StatusFromPayload(env, log.payload))
      && merged.requestPayload == s.pendingRequests[id].requestPayload
      && merged.host == s.pendingRequests[id].host
      && s'.pendingRequests == s.pendingRequests - {id}
      && s'.completedTransactions == s.completedTransactions
      && s'.scheduledTimeouts == s.scheduledTimeouts
  {
  }

  /**
    A RESPONSE with null metadata whose id is pending fails part-way: nothing is emitted,
    the id stays pending, and its record keeps the response payload, time and status it
    was given before the failure, still incomplete; when its timer fires it is emitted as
    such.
   */
  lemma ResponseWithoutMetadataLeavesPartialRecord(env: TypedEnv, s: CorrelatorState, message: string,
                                                   now: DateTime)
    requires env.readValue(message).Some? && env.readValue(message).value.logType == Some("RESPONSE")
    requires env.readValue(message).value.requestId.Some? && env.readValue(message).value.metadata.None?
    requires env.readValue(message).value.requestId.value in s.pendingRequests
    requires env.readValue(message).value.requestId.value in s.scheduledTimeouts
    ensures var log := env.readValue(message).value; var id := log.requestId.value;
      var s' := OnAuditMessage(env, s, message, now);
      var partial := s'.pendingRequests[id];
      s'.indexed == s.indexed && id in s'.pendingRequests
      && partial.responsePayload == Some(Serialized(env, log.payload))
      && partial.statusCode == s.pendingRequests[id].statusCode
      && partial.isComplete == s.pendingRequests[id].isComplete
      && OnTimeout(s', id).indexed == s.indexed + [partial.(isComplete := false)]
  {
  }

  /**
    A RESPONSE with no pending id is parked as an orphan holding only the response side
    (no API name, host, path or request payload), incomplete, with the marked timer
    armed; a REQUEST of the same id arriving next is parked beside it, not merged.
   */
  lemma OrphanHoldsOnlyResponseSide(env: TypedEnv, s: CorrelatorState, response: string, request: string,
                                    now1: DateTime, now2: DateTime)
    requires env.readValue(response).Some? && env.readValue(response).value.logType == Some("RESPONSE")
    requires env.readValue(response).value.requestId.Some? && env.readValue(response).value.metadata.Some?
    requires env.readValue(response).value.requestId.value !in s.pendingRequests
    requires env.readValue(request).Some? && env.readValue(request).value.logType == Some("REQUEST")
    requires env.readValue(request).value.metadata.Some?
    requires env.readValue(request).value.requestId == env.readValue(response).value.requestId
    ensures var id := env.readValue(response).value.requestId.value;
      var s1 := OnAuditMessage(env, s, response, now1);
      var s2 := OnAuditMessage(env, s1, request, now2);
      var orphan := s1.completedTransactions[id];
      orphan.apiName.None? && orphan.host.None? && orphan.resourcePath.None? && orphan.requestPayload.None?
      && orphan.responsePayload.Some? && !orphan.isComplete
      && s1.scheduledTimeouts == s.scheduledTimeouts + multiset{id + OrphanMarker}
      && s1.indexed == s.indexed
      && s2.completedTransactions[id] == orphan
      && s2.pendingRequests[id] == RequestRecord(env, env.readValue(request).value, now2).value
      && s2.indexed == s.indexed
  {
  }

  /** Every audit message keeps each parked record's timer armed, as long as ids avoid the marker. */
  lemma AuditMessageKeepsCover(env: TypedEnv, s: CorrelatorState, message: string, now: DateTime)
    requires Covered(s) && CleanIds(s)
    requires env.readValue(message).Some? && env.readValue(message).value.requestId.Some? ==>
      !Occurs(env.readValue(message).value.requestId.value, OrphanMarker)
    ensures Covered(OnAuditMessage(env, s, message, now)) && CleanIds(OnAuditMessage(env, s, message, now))
  {
    match env.readValue(message)
    case None =>
    case Some(log) =>
      if log.logType == Some("REQUEST") {
        if RequestRecord(env, log, now).Some? {
          ParkKeepsCover(s, log.requestId.value, RequestRecord(env, log, now).value);
        }
      } else if log.logType == Some("RESPONSE") && log.requestId.Some? {
        var id := log.requestId.value;
        if id in s.pendingRequests {
          var filled := ResponseFilled(env, s.pendingRequests[id], log, now);
          if log.metadata.None? {
            RepairPendingKeepsCover(s, id, filled);
          } else {
            SettleKeepsCover(s, id, filled.(isComplete := true));
          }
        } else if log.metadata.Some? {
          ParkOrphanKeepsCover(s, id, ResponseFilled(env, Seeded(Some(id), now), log, now).(isComplete := false));
        }
      }
  }

  // ---------------------------------------------------------------------------
  // The processor
  // ---------------------------------------------------------------------------

  /**
    AuditDataProcessor: the same state as the dynamic processor, each handler one atomic
    step proved to move it as OnAuditMessage, Expire and OnCleanup say.
   */
  class AuditDataProcessor {
    const env: TypedEnv
    const cleanupIntervalMinutes: int
    var pendingRequests: map<string, ParsedAuditData>
    var completedTransactions: map<string, ParsedAuditData>
    var indexed: seq<AuditRecord>
    var scheduledTimeouts: multiset<string>

    /** No record object is shared between two pending ids, or between the two maps. */
    ghost predicate Valid()
      reads this
    {
      (forall a, b :: a in pendingRequests && b in pendingRequests && a != b ==>
         pendingRequests[a] != pendingRequests[b])
      && (forall a, b :: a in pendingRequests && b in completedTransactions ==>
            pendingRequests[a] != completedTransactions[b])
    }

    /** The processor's state as a value. */
    function View(): CorrelatorState
      reads this, pendingRequests.Values, completedTransactions.Values
    {
      CorrelatorState(Snapshots(pendingRequests), Snapshots(completedTransactions), indexed, scheduledTimeouts)
    }

    constructor (env: TypedEnv, cleanupIntervalMinutes: int)
      ensures Valid() && View() == Initial
      ensures this.env == env && this.cleanupIntervalMinutes == cleanupIntervalMinutes
    {
      this.env := env;
      this.cleanupIntervalMinutes := cleanupIntervalMinutes;
      pendingRequests, completedTransactions := map[], map[];
      indexed, scheduledTimeouts := [], multiset{};
    }

    /** processAuditMessage: parse, then dispatch on the exact log type. */
    method ProcessAuditMessage(message: string, now: DateTime)
      requires Valid()
      modifies this, pendingRequests.Values
      ensures Valid() && View() == OnAuditMessage(env, old(View()), message, now)
    {
      var parsed := env.readValue(message);
      if parsed.None? {
        return;
      }
      var auditLog := parsed.value;
      if auditLog.logType == Some("REQUEST") {
        ProcessRequest(auditLog, now);
      } else if auditLog.logType == Some("RESPONSE") {
        ProcessResponse(auditLog, now);
      }
    }

    /** processRequest: build the record, park it under the request id, arm its timer. */
    method ProcessRequest(requestLog: ApiAuditLog, now: DateTime)
      requires Valid()
      modifies this
      ensures Valid()
      ensures View() == match RequestRecord(env, requestLog, now)
                        case None => old(View())
                        case Some(r) => Park(old(View()), requestLog.requestId.value, r)
    {
      var parsedData := CreateParsedDataFromRequest(requestLog, now);
      if parsedData == null || requestLog.requestId.None? {
        return;
      }
      StorePending(requestLog.requestId.value, parsedData);
    }

    /** The put into pendingRequests and the timer of processRequest. */
    method StorePending(requestId: string, parsedData: ParsedAuditData)
      requires Valid()
      requires forall a :: a in pendingRequests ==> pendingRequests[a] != parsedData
      requires forall b :: b in completedTransactions ==> completedTransactions[b] != parsedData
      modifies this
      ensures Valid()
      ensures View() == Park(old(View()), requestId, parsedData.Snapshot())
    {
      ghost var pending0 := pendingRequests;
      pendingRequests := pendingRequests[requestId := parsedData];
      ScheduleTimeoutProcessing(requestId);
      assert Snapshots(pendingRequests) == Snapshots(pending0)[requestId := parsedData.Snapshot()];
    }

    /** processResponse: complete the pending record of the id, or park an orphan. */
    method ProcessResponse(responseLog: ApiAuditLog, now: DateTime)
      requires Valid()
      modifies this, pendingRequests.Values
      ensures Valid()
      ensures var s := old(View());
        View() == if responseLog.requestId.None? then s
                  else
                    var id := responseLog.requestId.value;
                    if id in s.pendingRequests then
                      var filled := ResponseFilled(env, s.pendingRequests[id], responseLog, now);
                      if responseLog.metadata.None? then s.(pendingRequests := s.pendingRequests[id := filled])
                      else Settle(s, id, filled.(isComplete := true))
                    else if responseLog.metadata.None? then s
                    else ParkOrphan(s, id, ResponseFilled(env, Seeded(Some(id), now), responseLog, now)
                                             .(isComplete := false))
    {
      if responseLog.requestId.None? {
        return;
      }
      var requestId := responseLog.requestId.value;
      if requestId in pendingRequests {
        var pendingData := pendingRequests[requestId];
        var completed := CompleteTransaction(pendingData, responseLog, now);
        if !completed {
          SnapshotsKept(pendingRequests - {requestId});
          SnapshotsKept(completedTransactions);
          assert Snapshots(pendingRequests)
              == old(Snapshots(pendingRequests))[requestId := pendingData.Snapshot()];
          return;
        }
        pendingRequests := pendingRequests - {requestId};
        ghost var rest := pendingRequests;
        SnapshotsKept(rest);
        SnapshotsKept(completedTransactions);
        assert old(Snapshots(rest)) == old(Snapshots(pendingRequests)) - {requestId};
      } else {
        HandleOrphanedResponse(responseLog, now);
      }
    }

    /** handleOrphanedResponse: a fresh record with only the response side, parked as an orphan. */
    method HandleOrphanedResponse(responseLog: ApiAuditLog, now: DateTime)
      requires Valid() && responseLog.requestId.Some?
      modifies this
      ensures Valid()
      ensures View() == if responseLog.metadata.None? then old(View())
                        else ParkOrphan(old(View()), responseLog.requestId.value,
                               ResponseFilled(env, Seeded(responseLog.requestId, now), responseLog, now)
                                 .(isComplete := false))
    {
      var requestId := responseLog.requestId.value;
      var orphanedData, updated := NewOrphan(responseLog, now);
      if !updated {
        return;
      }
      StoreOrphan(requestId, orphanedData);
    }

    /** The fresh record handleOrphanedResponse builds from the response alone. */
    method NewOrphan(responseLog: ApiAuditLog, now: DateTime)
      returns (orphanedData: ParsedAuditData, updated: bool)
      requires responseLog.requestId.Some?
      ensures fresh(orphanedData)
      ensures updated <==> responseLog.metadata.Some?
      ensures updated ==> orphanedData.Snapshot()
                          == ResponseFilled(env, Seeded(responseLog.requestId, now), responseLog, now).(isComplete := false)
    {
      orphanedData := new ParsedAuditData(responseLog.requestId, now);
      updated := UpdateParsedDataFromResponse(orphanedData, responseLog, now);
      if updated {
        orphanedData.SetIsComplete(false);
      }
    }

    /** The put into completedTransactions and the marked timer of handleOrphanedResponse. */
    method StoreOrphan(requestId: string, orphanedData: ParsedAuditData)
      requires Valid()
      requires forall a :: a in pendingRequests ==> pendingRequests[a] != orphanedData
      modifies this
      ensures Valid()
      ensures View() == ParkOrphan(old(View()), requestId, orphanedData.Snapshot())
    {
      ghost var completed0 := completedTransactions;
      completedTransactions := completedTransactions[requestId := orphanedData];
      ScheduleTimeoutProcessing(requestId + OrphanMarker);
      assert Snapshots(completedTransactions) == Snapshots(completed0)[requestId := orphanedData.Snapshot()];
    }

    /**
      completeTransaction: fill in the response side, mark complete, emit. `completed` is
      false when the update failed part-way (null metadata): the record keeps what was
      set before the failure and nothing is emitted.
     */
    method CompleteTransaction(parsedData: ParsedAuditData, responseLog: ApiAuditLog, now: DateTime)
      returns (completed: bool)
      modifies this, parsedData
      ensures completed <==> responseLog.metadata.Some?
      ensures var filled := ResponseFilled(env, old(parsedData.Snapshot()), responseLog, now);
        parsedData.Snapshot() == if completed then filled.(isComplete := true) else filled
      ensures indexed == if completed then old(indexed) + [parsedData.Snapshot()] else old(indexed)
      ensures pendingRequests == old(pendingRequests) && completedTransactions == old(completedTransactions)
      ensures scheduledTimeouts == old(scheduledTimeouts)
    {
      completed := UpdateParsedDataFromResponse(parsedData, responseLog, now);
      if !completed {
        return;
      }
      parsedData.SetIsComplete(true);
      SendToElasticsearch(parsedData);
    }

    /** createParsedDataFromRequest: null when the metadata is null (the step throws). */
    method CreateParsedDataFromRequest(requestLog: ApiAuditLog, now: DateTime) returns (parsedData: ParsedAuditData?)
      ensures parsedData == null <==> requestLog.metadata.None?
      ensures parsedData != null ==> fresh(parsedData)
      ensures parsedData != null && requestLog.requestId.Some? ==>
        Some(parsedData.Snapshot()) == RequestRecord(env, requestLog, now)
    {
      var data := new ParsedAuditData(requestLog.requestId, now);
      data.SetApiName(requestLog.apiName);
      if requestLog.metadata.None? {
        return null;
      }
      data.SetHost(requestLog.metadata.value.clientIp);
      data.SetResourcePath(requestLog.metadata.value.endpoint);
      data.SetRequestPayload(Some(Serialized(env, requestLog.payload)));
      data.SetRequestTime(Some(TimeFromPayload(env, requestLog.payload, now)));
      parsedData := data;
    }

    /**
      updateParsedDataFromResponse: response payload, time and status, then the status
      code from the metadata; `updated` is false when the metadata is null and the step
      throws before the status code.
     */
    method UpdateParsedDataFromResponse(parsedData: ParsedAuditData, responseLog: ApiAuditLog, now: DateTime)
      returns (updated: bool)
      modifies parsedData
      ensures updated <==> responseLog.metadata.Some?
      ensures parsedData.Snapshot() == ResponseFilled(env, old(parsedData.Snapshot()), responseLog, now)
    {
      parsedData.SetResponsePayload(Some(Serialized(env, responseLog.payload)));
      parsedData.SetResponseTime(Some(TimeFromPayload(env, responseLog.payload, now)));
      parsedData.SetStatus(Some(StatusFromPayload(env, responseLog.payload)));
      if responseLog.metadata.None? {
        return false;
      }
      parsedData.SetStatusCode(responseLog.metadata.value.responseStatus);
      updated := true;
    }

    /** sendToElasticsearch: the record's current value is handed to the index. */
    method SendToElasticsearch(parsedData: ParsedAuditData)
      modifies this
      ensures indexed == old(indexed) + [parsedData.Snapshot()]
      ensures pendingRequests == old(pendingRequests) && completedTransactions == old(completedTransactions)
      ensures scheduledTimeouts == old(scheduledTimeouts)
    {
      indexed := indexed + [parsedData.Snapshot()];
    }

    /** scheduleTimeoutProcessing: arm one timer for the key. */
    method ScheduleTimeoutProcessing(key: string)
      modifies this
      ensures scheduledTimeouts == old(scheduledTimeouts) + multiset{key}
      ensures pendingRequests == old(pendingRequests) && completedTransactions == old(completedTransactions)
      ensures indexed == old(indexed)
    {
      scheduledTimeouts := scheduledTimeouts + multiset{key};
    }

    /** The scheduled task: one armed timer for the key elapses and processTimeout runs. */
    method TimeoutElapsed(key: string)
      requires Valid() && key in scheduledTimeouts
      modifies this, pendingRequests.Values
      ensures Valid() && View() == OnTimeout(old(View()), key)
    {
      scheduledTimeouts := scheduledTimeouts - multiset{key};
      assert View() == old(View()).(scheduledTimeouts := old(View()).scheduledTimeouts - multiset{key});
      ProcessTimeout(key);
    }

    /** processTimeout. */
    method ProcessTimeout(requestId: string)
      requires Valid()
      modifies this, pendingRequests.Values
      ensures Valid() && View() == Expire(old(View()), requestId)
    {
      if requestId in pendingRequests {
        ExpirePending(requestId);
      } else if EndsWith(requestId, OrphanMarker) {
        var actualRequestId := RemoveAll(requestId, OrphanMarker);
        if actualRequestId in completedTransactions {
          ExpireOrphan(actualRequestId);
        }
      }
    }

    /** The pending branch of processTimeout: the record is emitted incomplete and removed. */
    method ExpirePending(requestId: string)
      requires Valid() && requestId in pendingRequests
      modifies this, pendingRequests.Values
      ensures Valid()
      ensures View() == Settle(old(View()), requestId, old(View()).pendingRequests[requestId].(isComplete := false))
    {
      var pendingData := pendingRequests[requestId];
      pendingData.SetIsComplete(false);
      SendToElasticsearch(pendingData);
      pendingRequests := pendingRequests - {requestId};
      ghost var rest := pendingRequests;
      SnapshotsKept(rest);
      SnapshotsKept(completedTransactions);
      assert old(Snapshots(rest)) == old(Snapshots(pendingRequests)) - {requestId};
    }

    /** The orphan branch of processTimeout: the orphan is emitted as it is and removed. */
    method ExpireOrphan(actualRequestId: string)
      requires Valid() && actualRequestId in completedTransactions
      modifies this
      ensures Valid()
      ensures View() == Emit(old(View()), old(View()).completedTransactions[actualRequestId])
                          .(completedTransactions := old(View()).completedTransactions - {actualRequestId})
    {
      var orphanedData := completedTransactions[actualRequestId];
      SendToElasticsearch(orphanedData);
      completedTransactions := completedTransactions - {actualRequestId};
      assert Snapshots(completedTransactions) == old(Snapshots(completedTransactions)) - {actualRequestId};
    }

    /** cleanupOldTransactions: drop the orphans stamped before now minus the interval. */
    method CleanupOldTransactions(now: DateTime)
      requires Valid()
      modifies this
      ensures Valid() && View() == OnCleanup(old(View()), now, cleanupIntervalMinutes)
    {
      var cutoff := Cutoff(now, cleanupIntervalMinutes);
      completedTransactions := map id | id in completedTransactions
                                        && !(completedTransactions[id].indexedAt < cutoff)
                                      :: completedTransactions[id];
    }
  }
}
