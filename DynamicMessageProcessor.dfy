/**
  The dynamic correlator: messages of any JSON shape, enriched upstream with the API name,
  are turned into audit records by the field configuration of that API and correlated by
  request_id into REQUEST/RESPONSE pairs.
 */
module DynamicProcessing {
  import opened Wrappers
  import opened JavaLang
  import opened Json
  import opened AuditModel
  import opened Entities
  import opened FieldExtraction
  import opened Correlation

  /** The collaborators the processor calls but whose code is not part of this model. */
  datatype Env = Env(
    readTree: string -> Option<Json>,                 // ObjectMapper.readTree, None when it throws
    fieldConfiguration: string -> seq<FieldDef>,      // the field configuration of an API, [] if unknown
    parseDate: DateParser,
    writeValueAsString: Json -> Option<string>)       // None when serialisation throws

  const RequestType: string := "REQUEST"
  const ResponseType: string := "RESPONSE"
  const SingleType: string := "SINGLE"

  /** The serialised message, or "{}" when serialisation fails. */
  function Serialized(env: Env, node: Json): string {
    env.writeValueAsString(node).GetOr("{}")
  }

  /**
    createParsedDataFromMessage on values: a record seeded with the id and named after the
    API, filled by the field configuration for the given message type, whose request
    payload is then the serialised message whatever the configuration wrote there.
   */
  function CreatedRecord(env: Env, node: Json, apiName: string, fields: seq<FieldDef>, id: string,
                         messageType: string, now: DateTime): (r: AuditRecord)
    ensures r.requestPayload == Some(Serialized(env, node))
    ensures r.customFields == CustomEntries(node, fields, messageType)
    ensures r.indexedAt == now && !r.isComplete && r.id.None?
  {
    var seeded := Seeded(Some(id), now).(apiName := Some(apiName));
    CustomFieldsCollected(env.parseDate, seeded, node, fields, messageType);
    ApplyFieldsBookkeeping(env.parseDate, seeded, node, fields, messageType);
    ApplyFields(env.parseDate, seeded, node, fields, messageType)
      .(requestPayload := Some(Serialized(env, node)))
  }

  /**
    updateParsedDataFromResponse on values: the RESPONSE-side fields are extracted into
    the record, then the response payload is the serialised response.
   */
  function ResponseMerged(env: Env, r: AuditRecord, node: Json, fields: seq<FieldDef>): (r': AuditRecord)
    ensures r'.responsePayload == Some(Serialized(env, node))
    ensures r'.customFields == r.customFields + CustomEntries(node, fields, ResponseType)
    ensures r'.id == r.id && r'.indexedAt == r.indexedAt && r'.isComplete == r.isComplete
  {
    CustomFieldsCollected(env.parseDate, r, node, fields, ResponseType);
    ApplyFieldsBookkeeping(env.parseDate, r, node, fields, ResponseType);
    ApplyFields(env.parseDate, r, node, fields, ResponseType)
      .(responsePayload := Some(Serialized(env, node)))
  }

  /** What processMessage learns from a message before it dispatches on the log type. */
  datatype Route =
    | Dropped
    | Routed(logType: Option<string>, apiName: string, fields: seq<FieldDef>, id: string, node: Json)

  /**
    The guards of processMessage: an unparsable message, one without extractedApiName,
    one whose API has no field configuration, and one without request_id are dropped.
   */
  function RouteOf(env: Env, message: string): Route {
    match env.readTree(message)
    case None => Dropped
    case Some(node) =>
      match PathValue(node, Some("extractedApiName"))
      case None => Dropped
      case Some(apiName) =>
        var fields := env.fieldConfiguration(apiName);
        if fields == [] then Dropped
        else match PathValue(node, Some("request_id"))
          case None => Dropped
          case Some(id) => Routed(PathValue(node, Some("log_type")), apiName, fields, id, node)
  }

  /** The dispatch of processMessage on log_type, for a message that passed the guards. */
  function OnRouted(env: Env, s: CorrelatorState, logType: Option<string>, apiName: string, fields: seq<FieldDef>,
                    id: string, node: Json, now: DateTime): CorrelatorState
  {
    if logType == Some(RequestType) then
      Park(s, id, CreatedRecord(env, node, apiName, fields, id, RequestType, now))
    else if logType == Some(ResponseType) then
      if id in s.pendingRequests then
        Settle(s, id, ResponseMerged(env, s.pendingRequests[id], node, fields).(isComplete := true))
      else
        ParkOrphan(s, id, CreatedRecord(env, node, apiName, fields, id, ResponseType, now).(isComplete := false))
    else
      Emit(s, CreatedRecord(env, node, apiName, fields, id, SingleType, now).(isComplete := true))
  }

  /** processMessage on the correlator state. */
  function OnMessage(env: Env, s: CorrelatorState, message: string, now: DateTime): CorrelatorState {
    match RouteOf(env, message)
    case Dropped => s
    case Routed(logType, apiName, fields, id, node) => OnRouted(env, s, logType, apiName, fields, id, node, now)
  }

  // ---------------------------------------------------------------------------
  // Properties of the specification
  // ---------------------------------------------------------------------------

  /**
    A message leaves the state exactly as it was if and only if it is unparsable, has no
    extractedApiName, has an API without field configuration, or has no request_id:
    every routed message arms a timer or emits a record.
   */
  lemma UnchangedIffDropped(env: Env, s: CorrelatorState, message: string, now: DateTime)
    ensures OnMessage(env, s, message, now) == s <==>
      (env.readTree(message).None?
       || PathValue(env.readTree(message).value, Some("extractedApiName")).None?
       || env.fieldConfiguration(PathValue(env.readTree(message).value, Some("extractedApiName")).value) == []
       || PathValue(env.readTree(message).value, Some("request_id")).None?)
  {
    var s' := OnMessage(env, s, message, now);
    if RouteOf(env, message).Routed? {
      assert |s'.scheduledTimeouts| == |s.scheduledTimeouts| + 1 || |s'.indexed| == |s.indexed| + 1;
    }
  }

  /** A REQUEST parks a fresh record under its id, overwriting, and arms a timer for the id. */
  lemma RequestIsParked(env: Env, s: CorrelatorState, message: string, now: DateTime)
    requires RouteOf(env, message).Routed? && RouteOf(env, message).logType == Some("REQUEST")
    ensures var rt := RouteOf(env, message); var s' := OnMessage(env, s, message, now);
      s'.pendingRequests == s.pendingRequests[rt.id := CreatedRecord(env, rt.node, rt.apiName, rt.fields, rt.id, "REQUEST", now)]
      && !s'.pendingRequests[rt.id].isComplete
      && s'.completedTransactions == s.completedTransactions && s'.indexed == s.indexed
      && s'.scheduledTimeouts == s.scheduledTimeouts + multiset{rt.id}
  {
  }

  /**
    Any log type other than exactly "REQUEST" or "RESPONSE" (missing, lower case, ...)
    takes the single path: one complete record is emitted and nothing else changes.
   */
  lemma OtherLogTypeEmitsSingle(env: Env, s: CorrelatorState, message: string, now: DateTime)
    requires RouteOf(env, message).Routed?
    requires RouteOf(env, message).logType != Some("REQUEST") && RouteOf(env, message).logType != Some("RESPONSE")
    ensures var rt := RouteOf(env, message); var s' := OnMessage(env, s, message, now);
      s'.indexed == s.indexed + [CreatedRecord(env, rt.node, rt.apiName, rt.fields, rt.id, "SINGLE", now).(isComplete := true)]
      && s'.indexed[|s.indexed|].isComplete
      && s'.pendingRequests == s.pendingRequests && s'.completedTransactions == s.completedTransactions
      && s'.scheduledTimeouts == s.scheduledTimeouts
  {
  }

  /**
    A RESPONSE whose id is pending completes it: the pending record, with the response
    fields and payload merged in and marked complete, is emitted once and the id is no
    longer pending.
   */
  lemma MatchedResponseSettles(env: Env, s: CorrelatorState, message: string, now: DateTime)
    requires RouteOf(env, message).Routed? && RouteOf(env, message).logType == Some("RESPONSE")
    requires RouteOf(env, message).id in s.pendingRequests
    ensures var rt := RouteOf(env, message); var s' := OnMessage(env, s, message, now);
      var merged := s'.indexed[|s.indexed|];
      s'.indexed == s.indexed + [merged]
      && merged == ResponseMerged(env, s.pendingRequests[rt.id], rt.node, rt.fields).(isComplete := true)
      && merged.responsePayload == Some(Serialized(env, rt.node))
      && merged.isComplete && merged.indexedAt == s.pendingRequests[rt.id].indexedAt
      && s'.pendingRequests == s.pendingRequests - {rt.id}
      && s'.completedTransactions == s.completedTransactions
      && s'.scheduledTimeouts == s.scheduledTimeouts
  {
  }

  /**
    A RESPONSE with no pending id is parked as an incomplete orphan, overwriting any earlier
    one; its raw message goes to the request payload; nothing is emitted and the marked
    timer is armed.
   */
  lemma UnmatchedResponseIsOrphaned(env: Env, s: CorrelatorState, message: string, now: DateTime)
    requires RouteOf(env, message).Routed? && RouteOf(env, message).logType == Some("RESPONSE")
    requires RouteOf(env, message).id !in s.pendingRequests
    ensures var rt := RouteOf(env, message); var s' := OnMessage(env, s, message, now);
      rt.id in s'.completedTransactions
      && s'.completedTransactions[rt.id].requestPayload == Some(Serialized(env, rt.node))
      && !s'.completedTransactions[rt.id].isComplete
      && s'.completedTransactions == s.completedTransactions[rt.id := s'.completedTransactions[rt.id]]
      && s'.pendingRequests == s.pendingRequests && s'.indexed == s.indexed
      && s'.scheduledTimeouts == s.scheduledTimeouts + multiset{rt.id + OrphanMarker}
  {
  }

  /**
    A REQUEST, its RESPONSE, then the REQUEST's timer: exactly one complete record is
    indexed and every other part of the state is as it was before the REQUEST.
   */
  lemma RequestResponseTimeoutRoundTrip(env: Env, s: CorrelatorState, request: string, response: string,
                                        now1: DateTime, now2: DateTime)
    requires RouteOf(env, request).Routed? && RouteOf(env, request).logType == Some("REQUEST")
    requires RouteOf(env, response).Routed? && RouteOf(env, response).logType == Some("RESPONSE")
    requires RouteOf(env, request).id == RouteOf(env, response).id
    requires RouteOf(env, request).id !in s.pendingRequests
    requires !EndsWith(RouteOf(env, request).id, OrphanMarker)
    ensures var rq := RouteOf(env, request); var rs := RouteOf(env, response);
      var s1 := OnMessage(env, s, request, now1);
      var s2 := OnMessage(env, s1, response, now2);
      rq.id in s2.scheduledTimeouts
      && OnTimeout(s2, rq.id) == s.(indexed := s.indexed + [
           ResponseMerged(env, CreatedRecord(env, rq.node, rq.apiName, rq.fields, rq.id, "REQUEST", now1),
                          rs.node, rs.fields).(isComplete := true)])
  {
    var rq := RouteOf(env, request);
    var rs := RouteOf(env, response);
    var id := rq.id;
    var created := CreatedRecord(env, rq.node, rq.apiName, rq.fields, id, RequestType, now1);
    var merged := ResponseMerged(env, created, rs.node, rs.fields).(isComplete := true);
    var s1 := OnMessage(env, s, request, now1);
    assert s1 == Park(s, id, created);
    var s2 := OnMessage(env, s1, response, now2);
    assert s2 == Settle(s1, id, merged);
    assert s2.pendingRequests == s.pendingRequests;
    assert s2.scheduledTimeouts - multiset{id} == s.scheduledTimeouts;
    assert OnTimeout(s2, id) == s2.(scheduledTimeouts := s.scheduledTimeouts);
  }

  /**
    An orphaned RESPONSE followed by the REQUEST of the same id is not merged: the orphan
    stays parked, the REQUEST is parked beside it and nothing is emitted.
   */
  lemma OrphanThenRequestNotMerged(env: Env, s: CorrelatorState, response: string, request: string,
                                   now1: DateTime, now2: DateTime)
    requires RouteOf(env, response).Routed? && RouteOf(env, response).logType == Some("RESPONSE")
    requires RouteOf(env, request).Routed? && RouteOf(env, request).logType == Some("REQUEST")
    requires RouteOf(env, request).id == RouteOf(env, response).id
    requires RouteOf(env, response).id !in s.pendingRequests
    ensures var rq := RouteOf(env, request); var rs := RouteOf(env, response);
      var s2 := OnMessage(env, OnMessage(env, s, response, now1), request, now2);
      s2.indexed == s.indexed
      && s2.completedTransactions[rs.id]
           == CreatedRecord(env, rs.node, rs.apiName, rs.fields, rs.id, "RESPONSE", now1).(isComplete := false)
      && s2.pendingRequests[rq.id] == CreatedRecord(env, rq.node, rq.apiName, rq.fields, rq.id, "REQUEST", now2)
  {
  }

  /** Every message keeps each parked record's timer armed, as long as ids avoid the marker. */
  lemma MessageKeepsCover(env: Env, s: CorrelatorState, message: string, now: DateTime)
    requires Covered(s) && CleanIds(s)
    requires RouteOf(env, message).Routed? ==> !Occurs(RouteOf(env, message).id, OrphanMarker)
    ensures Covered(OnMessage(env, s, message, now)) && CleanIds(OnMessage(env, s, message, now))
  {
    match RouteOf(env, message)
    case Dropped =>
    case Routed(logType, apiName, fields, id, node) =>
      if logType == Some(RequestType) {
        ParkKeepsCover(s, id, CreatedRecord(env, node, apiName, fields, id, RequestType, now));
      } else if logType == Some(ResponseType) {
        if id in s.pendingRequests {
          SettleKeepsCover(s, id, ResponseMerged(env, s.pendingRequests[id], node, fields).(isComplete := true));
        } else {
          ParkOrphanKeepsCover(s, id, CreatedRecord(env, node, apiName, fields, id, ResponseType, now).(isComplete := false));
        }
      } else {
        EmitKeepsCover(s, CreatedRecord(env, node, apiName, fields, id, SingleType, now).(isComplete := true));
      }
  }

  // ---------------------------------------------------------------------------
  // The processor
  // ---------------------------------------------------------------------------

  /**
    DynamicMessageProcessor: the two maps hold the live record objects, `indexed` is what
    was handed to the index, `scheduledTimeouts` the armed timers. Each handler runs as
    one atomic step and is proved to move the state as OnMessage, Expire and OnCleanup say.
   */
  class DynamicMessageProcessor {
    const env: Env
    const cleanupIntervalMinutes: int
    var pendingRequests: map<string, ParsedAuditData>
    var completedTransactions: map<string, ParsedAuditData>
    var indexed: seq<AuditRecord>
    var scheduledTimeouts: multiset<string>

    /** No record object is shared between two pending ids, or between the two maps. */
    ghost predicate Valid()
      reads this
    {
      (forall a, b :: a in pendingRequests && b in pendingRequests && a != b ==>
         pendingRequests[a] != pendingRequests[b])
      && (forall a, b :: a in pendingRequests && b in completedTransactions ==>
            pendingRequests[a] != completedTransactions[b])
    }

    /** The processor's state as a value. */
    function View(): CorrelatorState
      reads this, pendingRequests.Values, completedTransactions.Values
    {
      CorrelatorState(Snapshots(pendingRequests), Snapshots(completedTransactions), indexed, scheduledTimeouts)
    }

    constructor (env: Env, cleanupIntervalMinutes: int)
      ensures Valid() && View() == Initial
      ensures this.env == env && this.cleanupIntervalMinutes == cleanupIntervalMinutes
    {
      this.env := env;
      this.cleanupIntervalMinutes := cleanupIntervalMinutes;
      pendingRequests, completedTransactions := map[], map[];
      indexed, scheduledTimeouts := [], multiset{};
    }

    /** processMessage: the guards, then the dispatch on log_type. */
    method ProcessMessage(message: string, now: DateTime)
      requires Valid()
      modifies this, pendingRequests.Values
      ensures Valid() && View() == OnMessage(env, old(View()), message, now)
    {
      var route := Guard(message);
      if route.Routed? {
        Dispatch(route.node, route.logType, route.apiName, route.fields, route.id, now);
      }
    }

    /**
      The guards of processMessage, in the source's order: parse, extractedApiName, the
      field configuration, then request_id (log_type is read just before it).
     */
    method Guard(message: string) returns (route: Route)
      ensures route == RouteOf(env, message)
    {
      var parsed := env.readTree(message);
      if parsed.None? {
        return Dropped;
      }
      var messageNode := parsed.value;
      var extractedApiName := ExtractFieldByPath(messageNode, Some("extractedApiName"));
      if extractedApiName.None? {
        return Dropped;
      }
      var fieldConfig := env.fieldConfiguration(extractedApiName.value);
      if fieldConfig == [] {
        return Dropped;
      }
      var logType := ExtractFieldByPath(messageNode, Some("log_type"));
      var correlationId := ExtractFieldByPath(messageNode, Some("request_id"));
      if correlationId.None? {
        return Dropped;
      }
      route := Routed(logType, extractedApiName.value, fieldConfig, correlationId.value, messageNode);
    }

    /** The branch of processMessage on the exact log type. */
    method Dispatch(messageNode: Json, logType: Option<string>, apiName: string, fieldConfig: seq<FieldDef>,
                    correlationId: string, now: DateTime)
      requires Valid()
      modifies this, pendingRequests.Values
      ensures Valid()
      ensures View() == OnRouted(env, old(View()), logType, apiName, fieldConfig, correlationId, messageNode, now)
    {
      if logType == Some(RequestType) {
        ProcessRequest(messageNode, apiName, fieldConfig, correlationId, now);
      } else if logType == Some(ResponseType) {
        ProcessResponse(messageNode, apiName, fieldConfig, correlationId, now);
      } else {
        ProcessSingleMessage(messageNode, apiName, fieldConfig, correlationId, now);
      }
    }

    /** processRequest: park a new record under the id and arm its timer. */
    method ProcessRequest(messageNode: Json, apiName: string, fieldConfig: seq<FieldDef>,
                          correlationId: string, now: DateTime)
      requires Valid()
      modifies this
      ensures Valid()
      ensures View() == Park(old(View()), correlationId,
                             CreatedRecord(env, messageNode, apiName, fieldConfig, correlationId, RequestType, now))
    {
      var parsedData := CreateParsedDataFromMessage(messageNode, apiName, fieldConfig, correlationId, RequestType, now);
      StorePending(correlationId, parsedData);
    }

    /** The put into pendingRequests and the timer of processRequest. */
    method StorePending(correlationId: string, parsedData: ParsedAuditData)
      requires Valid()
      requires forall a :: a in pendingRequests ==> pendingRequests[a] != parsedData
      requires forall b :: b in completedTransactions ==> completedTransactions[b] != parsedData
      modifies this
      ensures Valid()
      ensures View() == Park(old(View()), correlationId, parsedData.Snapshot())
    {
      ghost var pending0 := pendingRequests;
      pendingRequests := pendingRequests[correlationId := parsedData];
      ScheduleTimeoutProcessing(correlationId);
      assert Snapshots(pendingRequests) == Snapshots(pending0)[correlationId := parsedData.Snapshot()];
    }

    /** processResponse: complete the pending record of the id, or park an orphan. */
    method ProcessResponse(messageNode: Json, apiName: string, fieldConfig: seq<FieldDef>,
                           correlationId: string, now: DateTime)
      requires Valid()
      modifies this, pendingRequests.Values
      ensures Valid()
      ensures var s := old(View());
        View() == if correlationId in s.pendingRequests then
                    Settle(s, correlationId,
                           ResponseMerged(env, s.pendingRequests[correlationId], messageNode, fieldConfig)
                             .(isComplete := true))
                  else
                    ParkOrphan(s, correlationId,
                               CreatedRecord(env, messageNode, apiName, fieldConfig, correlationId, ResponseType, now)
                                 .(isComplete := false))
    {
      if correlationId in pendingRequests {
        var pendingData := pendingRequests[correlationId];
        CompleteTransaction(pendingData, messageNode, fieldConfig);
        pendingRequests := pendingRequests - {correlationId};
        ghost var rest := pendingRequests;
        SnapshotsKept(rest);
        SnapshotsKept(completedTransactions);
        assert old(Snapshots(rest)) == old(Snapshots(pendingRequests)) - {correlationId};
      } else {
        HandleOrphanedResponse(messageNode, apiName, fieldConfig, correlationId, now);
      }
    }

    /** processSingleMessage: a complete record is emitted at once; nothing is parked. */
    method ProcessSingleMessage(messageNode: Json, apiName: string, fieldConfig: seq<FieldDef>,
                                correlationId: string, now: DateTime)
      requires Valid()
      modifies this
      ensures Valid()
      ensures View() == Emit(old(View()),
        CreatedRecord(env, messageNode, apiName, fieldConfig, correlationId, SingleType, now).(isComplete := true))
    {
      var parsedData := CreateParsedDataFromMessage(messageNode, apiName, fieldConfig, correlationId, SingleType, now);
      parsedData.SetIsComplete(true);
      SendToElasticsearch(parsedData);
      SnapshotsKept(pendingRequests);
      SnapshotsKept(completedTransactions);
    }

    /** handleOrphanedResponse: park an incomplete record and arm the marked timer. */
    method HandleOrphanedResponse(messageNode: Json, apiName: string, fieldConfig: seq<FieldDef>,
                                  correlationId: string, now: DateTime)
      requires Valid()
      modifies this
      ensures Valid()
      ensures View() == ParkOrphan(old(View()), correlationId,
        CreatedRecord(env, messageNode, apiName, fieldConfig, correlationId, ResponseType, now).(isComplete := false))
    {
      var orphanedData := CreateParsedDataFromMessage(messageNode, apiName, fieldConfig, correlationId, ResponseType, now);
      orphanedData.SetIsComplete(false);
      StoreOrphan(correlationId, orphanedData);
    }

    /** The put into completedTransactions and the marked timer of handleOrphanedResponse. */
    method StoreOrphan(correlationId: string, orphanedData: ParsedAuditData)
      requires Valid()
      requires forall a :: a in pendingRequests ==> pendingRequests[a] != orphanedData
      modifies this
      ensures Valid()
      ensures View() == ParkOrphan(old(View()), correlationId, orphanedData.Snapshot())
    {
      ghost var completed0 := completedTransactions;
      completedTransactions := completedTransactions[correlationId := orphanedData];
      ScheduleTimeoutProcessing(correlationId + OrphanMarker);
      assert Snapshots(completedTransactions) == Snapshots(completed0)[correlationId := orphanedData.Snapshot()];
    }

    /** completeTransaction: merge the response into the record, mark it complete, emit it. */
    method CompleteTransaction(parsedData: ParsedAuditData, responseNode: Json, fieldConfig: seq<FieldDef>)
      modifies this, parsedData
      ensures parsedData.Snapshot()
           == ResponseMerged(env, old(parsedData.Snapshot()), responseNode, fieldConfig).(isComplete := true)
      ensures indexed == old(indexed) + [parsedData.Snapshot()]
      ensures pendingRequests == old(pendingRequests) && completedTransactions == old(completedTransactions)
      ensures scheduledTimeouts == old(scheduledTimeouts)
    {
      UpdateParsedDataFromResponse(parsedData, responseNode, fieldConfig);
      parsedData.SetIsComplete(true);
      SendToElasticsearch(parsedData);
    }

    /** createParsedDataFromMessage: a new record object built from the message. */
    method CreateParsedDataFromMessage(messageNode: Json, apiName: string, fieldConfig: seq<FieldDef>,
                                       correlationId: string, messageType: string, now: DateTime)
      returns (parsedData: ParsedAuditData)
      ensures fresh(parsedData)
      ensures parsedData.Snapshot()
           == CreatedRecord(env, messageNode, apiName, fieldConfig, correlationId, messageType, now)
    {
      parsedData := new ParsedAuditData(Some(correlationId), now);
      parsedData.SetApiName(Some(apiName));
      ExtractFieldsFromMessage(messageNode, parsedData, fieldConfig, messageType, env.parseDate);
      parsedData.SetRequestPayload(Some(Serialized(env, messageNode)));
    }

    /** updateParsedDataFromResponse: RESPONSE-side fields, then the response payload. */
    method UpdateParsedDataFromResponse(parsedData: ParsedAuditData, responseNode: Json, fieldConfig: seq<FieldDef>)
      modifies parsedData
      ensures parsedData.Snapshot() == ResponseMerged(env, old(parsedData.Snapshot()), responseNode, fieldConfig)
    {
      ExtractFieldsFromMessage(responseNode, parsedData, fieldConfig, ResponseType, env.parseDate);
      parsedData.SetResponsePayload(Some(Serialized(env, responseNode)));
    }

    /** sendToElasticsearch: the record's current value is handed to the index. */
    method SendToElasticsearch(parsedData: ParsedAuditData)
      modifies this
      ensures indexed == old(indexed) + [parsedData.Snapshot()]
      ensures pendingRequests == old(pendingRequests) && completedTransactions == old(completedTransactions)
      ensures scheduledTimeouts == old(scheduledTimeouts)
    {
      indexed := indexed + [parsedData.Snapshot()];
    }

    /** scheduleTimeoutProcessing: arm one timer for the key. */
    method ScheduleTimeoutProcessing(key: string)
      modifies this
      ensures scheduledTimeouts == old(scheduledTimeouts) + multiset{key}
      ensures pendingRequests == old(pendingRequests) && completedTransactions == old(completedTransactions)
      ensures indexed == old(indexed)
    {
      scheduledTimeouts := scheduledTimeouts + multiset{key};
    }

    /** The scheduled task: one armed timer for the key elapses and processTimeout runs. */
    method TimeoutElapsed(key: string)
      requires Valid() && key in scheduledTimeouts
      modifies this, pendingRequests.Values
      ensures Valid() && View() == OnTimeout(old(View()), key)
    {
      scheduledTimeouts := scheduledTimeouts - multiset{key};
      assert View() == old(View()).(scheduledTimeouts := old(View()).scheduledTimeouts - multiset{key});
      ProcessTimeout(key);
    }

    /** processTimeout. */
    method ProcessTimeout(correlationId: string)
      requires Valid()
      modifies this, pendingRequests.Values
      ensures Valid() && View() == Expire(old(View()), correlationId)
    {
      if correlationId in pendingRequests {
        ExpirePending(correlationId);
      } else if EndsWith(correlationId, OrphanMarker) {
        var actualCorrelationId := RemoveAll(correlationId, OrphanMarker);
        if actualCorrelationId in completedTransactions {
          ExpireOrphan(actualCorrelationId);
        }
      }
    }

    /** The pending branch of processTimeout: the record is emitted incomplete and removed. */
    method ExpirePending(correlationId: string)
      requires Valid() && correlationId in pendingRequests
      modifies this, pendingRequests.Values
      ensures Valid()
      ensures View() == Settle(old(View()), correlationId, old(View()).pendingRequests[correlationId].(isComplete := false))
    {
      var pendingData := pendingRequests[correlationId];
      pendingData.SetIsComplete(false);
      SendToElasticsearch(pendingData);
      pendingRequests := pendingRequests - {correlationId};
      ghost var rest := pendingRequests;
      SnapshotsKept(rest);
      SnapshotsKept(completedTransactions);
      assert old(Snapshots(rest)) == old(Snapshots(pendingRequests)) - {correlationId};
    }

    /** The orphan branch of processTimeout: the orphan is emitted as it is and removed. */
    method ExpireOrphan(actualCorrelationId: string)
      requires Valid() && actualCorrelationId in completedTransactions
      modifies this
      ensures Valid()
      ensures View() == Emit(old(View()), old(View()).completedTransactions[actualCorrelationId])
                          .(completedTransactions := old(View()).completedTransactions - {actualCorrelationId})
    {
      var orphanedData := completedTransactions[actualCorrelationId];
      SendToElasticsearch(orphanedData);
      completedTransactions := completedTransactions - {actualCorrelationId};
      assert Snapshots(completedTransactions) == old(Snapshots(completedTransactions)) - {actualCorrelationId};
    }

    /** cleanupOldTransactions: drop the orphans stamped before now minus the interval. */
    method CleanupOldTransactions(now: DateTime)
      requires Valid()
      modifies this
      ensures Valid() && View() == OnCleanup(old(View()), now, cleanupIntervalMinutes)
    {
      var cutoff := Cutoff(now, cleanupIntervalMinutes);
      completedTransactions := map id | id in completedTransactions
                                        && !(completedTransactions[id].indexedAt < cutoff)
                                      :: completedTransactions[id];
    }
  }
}
