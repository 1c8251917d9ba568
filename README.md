# Kafka audit-log parser: a Dafny model of the correlators

This project models the core of a service that consumes API audit logs from Kafka and
indexes them. The service correlates each REQUEST with its RESPONSE by request id and
emits one audit record per transaction. Records that never meet their partner are emitted
by timeout handlers, and old orphans are dropped by a periodic cleanup. The model covers:

- **the audit record** (`AuditModel`, ParsedAuditData). It is a mutable object with two
  constructors and one setter per field. The processors keep these objects in their maps.
  `Snapshot()` gives an object's value as an `AuditRecord` datatype.
- **the dynamic correlator** (`DynamicProcessing`, DynamicMessageProcessor). It handles
  messages of any shape, enriched upstream with `extractedApiName`. A schema-driven field
  extractor (`FieldExtraction`) turns each message into a record:
  - the field configuration of the API is walked in order;
  - each definition is filtered by key status and by message-type affinity;
  - its dot path is resolved in the message (`Json.ExtractFieldByPath`);
  - the value goes through the fixed name switch (Mandatory) or onto the custom-field list
    (Custom).
  `ParseDateTime` uses the field's own date pattern when one is given, the default
  `yyyy-MM-dd'T'HH:mm:ss` otherwise. The date parser itself is a function parameter.
- **the typed correlator** (`TypedProcessing`, AuditDataProcessor). It is the same state
  machine over the fixed ApiAuditLog shape. Host and path come from the metadata; status
  (default `"UNKNOWN"`) and times come from the payload. A null metadata or request id
  makes a step fail part-way, as the code does.
- **the shared state machine** (`Correlation`):
  - the pending-request map and the orphan map;
  - the output log of indexed records;
  - the multiset of armed timers;
  - the timeout and cleanup handlers;
  - the invariant that every parked record has an armed timer.
- **the retrying forwarder** (`Forwarding`, KafkaMessageForwarder) and its policy
  (`Retry`, RetryConfig). Broker acknowledgements and sleep interruptions are oracles
  indexed by attempt.
- **message enrichment** (`Enrichment`, the message-side part of
  DynamicKafkaConsumerManager). It discovers the API name and adds `connectionName` and
  `extractedApiName` to the message, or wraps the message.
- **the connection-settings validator** (`ConnectionValidation`).
- **the audit-log producer** (`AuditPublishing`, ApiAuditService): client-IP selection,
  the metadata builders and the two audit logs.

Each processor class holds its state in fields: two `map<string, ParsedAuditData>`, the
`indexed` output log and the armed timers. Its handlers are methods proved to move
`View()` exactly as the value-level functions `OnMessage`, `OnAuditMessage`, `Expire`,
`OnTimeout` and `OnCleanup` say. The properties are proved as lemmas about those
functions.

Timers are explicit events. Arming a timer adds its key to `scheduledTimeouts`. The
`TimeoutElapsed` event consumes one armed occurrence and runs processTimeout.

Three behaviours of the code worth knowing:
- `KafkaMessageForwarder.forwardMessage` catches every failed send and an interrupted
  back-off, and only logs them. The one exit by exception is a negative back-off:
  `Thread.sleep` then throws `IllegalArgumentException` from inside the catch block
  (src/main/java/com/example/kafkaparsing/service/KafkaMessageForwarder.java:49-57).
  The model's outcome `SleepRejected` records this, and
  `Forwarding.NegativeBackoffEscapes` proves when it happens.
- The timeout handler strips the orphan marker with `replace`, which removes every
  occurrence. An orphan whose id itself contains `_orphaned` is therefore never expired
  (`Correlation.MarkedOrphanIdIsStranded`). The cover invariant is proved for ids without
  the marker.
- `ApiMetadataField` has no message type and `ParsedAuditData` has no custom-field list.
  The dynamic processor nevertheless uses both, so the model adds `FieldDef.messageType`
  and `AuditRecord.customFields`.

## Model

| member | source | states |
|---|---|---|
| AuditModel.ParsedAuditData.Empty | src/main/java/com/example/kafkaparsing/model/ParsedAuditData.java:81-84 | a new record is stamped with the clock reading, is not complete, and has every other field null |
| AuditModel.ParsedAuditData.constructor | src/main/java/com/example/kafkaparsing/model/ParsedAuditData.java:86-92 | correlation, parent, transaction and unique-transaction id are all the id given; the rest is as for the no-argument constructor |
| AuditModel.ParsedAuditData.SetId | src/main/java/com/example/kafkaparsing/model/ParsedAuditData.java:99-101 | replaces the id and nothing else |
| AuditModel.ParsedAuditData.SetApiName | src/main/java/com/example/kafkaparsing/model/ParsedAuditData.java:107-109 | replaces the API name and nothing else |
| AuditModel.ParsedAuditData.SetCorrelationId | src/main/java/com/example/kafkaparsing/model/ParsedAuditData.java:115-117 | replaces the correlation id and nothing else |
| AuditModel.ParsedAuditData.SetHost | src/main/java/com/example/kafkaparsing/model/ParsedAuditData.java:123-125 | replaces the host and nothing else |
| AuditModel.ParsedAuditData.SetParentId | src/main/java/com/example/kafkaparsing/model/ParsedAuditData.java:131-133 | replaces the parent id and nothing else |
| AuditModel.ParsedAuditData.SetRequestPayload | src/main/java/com/example/kafkaparsing/model/ParsedAuditData.java:139-141 | replaces the request payload and nothing else |
| AuditModel.ParsedAuditData.SetRequestTime | src/main/java/com/example/kafkaparsing/model/ParsedAuditData.java:147-149 | replaces the request time and nothing else |
| AuditModel.ParsedAuditData.SetResourcePath | src/main/java/com/example/kafkaparsing/model/ParsedAuditData.java:155-157 | replaces the resource path and nothing else |
| AuditModel.ParsedAuditData.SetResponsePayload | src/main/java/com/example/kafkaparsing/model/ParsedAuditData.java:163-165 | replaces the response payload and nothing else |
| AuditModel.ParsedAuditData.SetResponseTime | src/main/java/com/example/kafkaparsing/model/ParsedAuditData.java:171-173 | replaces the response time and nothing else |
| AuditModel.ParsedAuditData.SetStatus | src/main/java/com/example/kafkaparsing/model/ParsedAuditData.java:179-181 | replaces the status and nothing else |
| AuditModel.ParsedAuditData.SetStatusCode | src/main/java/com/example/kafkaparsing/model/ParsedAuditData.java:187-189 | replaces the status code and nothing else |
| AuditModel.ParsedAuditData.SetTransactionId | src/main/java/com/example/kafkaparsing/model/ParsedAuditData.java:195-197 | replaces the transaction id and nothing else |
| AuditModel.ParsedAuditData.SetUniqueTransactionId | src/main/java/com/example/kafkaparsing/model/ParsedAuditData.java:203-205 | replaces the unique transaction id and nothing else |
| AuditModel.ParsedAuditData.SetIndexedAt | src/main/java/com/example/kafkaparsing/model/ParsedAuditData.java:211-213 | replaces the indexing stamp and nothing else |
| AuditModel.ParsedAuditData.SetIsComplete | src/main/java/com/example/kafkaparsing/model/ParsedAuditData.java:219-221 | replaces the completion flag and nothing else |
| AuditModel.ParsedAuditData.AddCustomField | src/main/java/com/example/kafkaparsing/service/DynamicMessageProcessor.java:344 | appends exactly one (name, value) pair to the custom-field list and changes nothing else |
| AuditModel.ParsedAuditData.EnsureDocumentId | src/main/java/com/example/kafkaparsing/service/ElasticsearchService.java:208-210 | an id already set is kept; a null id becomes the generated one; nothing else changes |
| JavaLang.SplitEmptyIff | src/main/java/com/example/kafkaparsing/service/ApiAuditService.java:95 | `split` returns an empty array exactly when the string is non-empty and made only of separators |
| JavaLang.SplitHead | src/main/java/com/example/kafkaparsing/service/ApiAuditService.java:95 | when `split` returns anything, its first element is the text before the first separator |
| JavaLang.SplitOfJoin | src/main/java/com/example/kafkaparsing/service/DynamicMessageProcessor.java:362 | splitting non-empty, separator-free pieces joined by the separator gives the pieces back |
| JavaLang.Trim | src/main/java/com/example/kafkaparsing/service/ApiAuditService.java:95 | the result is a slice of the input that drops only characters at or below U+0020, from the start and from the end, and neither starts nor ends with one |
| JavaLang.Split | src/main/java/com/example/kafkaparsing/service/DynamicMessageProcessor.java:362 | defines `split` with a one-character separator: `[s]` when the separator does not occur, otherwise the pieces with the trailing empty ones dropped |
| JavaLang.ParseInt | src/main/java/com/example/kafkaparsing/service/DynamicMessageProcessor.java:411 | defines `Integer.parseInt`: an optional sign and at least one decimal digit whose value fits in 32 bits, and otherwise no value (NumberFormatException) |
| JavaLang.EqualsIgnoreCase | src/main/java/com/example/kafkaparsing/service/DynamicMessageProcessor.java:314 | defines `equalsIgnoreCase`: equal lengths and equal characters after ASCII case folding |
| JavaLang.EndsWith | src/main/java/com/example/kafkaparsing/service/DynamicMessageProcessor.java:507 | defines `endsWith`: the last characters of the text are the suffix |
| JavaLang.ParseIntRoundTrip | src/main/java/com/example/kafkaparsing/service/DynamicMessageProcessor.java:411 | `Integer.parseInt` reads back the decimal text of every 32-bit integer |
| JavaLang.RemoveAll | src/main/java/com/example/kafkaparsing/service/DynamicMessageProcessor.java:509 | `replace(target, "")` removes non-overlapping occurrences left to right and never lengthens the text |
| JavaLang.RemoveAllOfAppended | src/main/java/com/example/kafkaparsing/service/DynamicMessageProcessor.java:509 | removing every marker occurrence from `id + marker` gives back `id` when `id` has no marker |
| Json.PathValue | src/main/java/com/example/kafkaparsing/service/DynamicMessageProcessor.java:356-375 | defines the lookup: a null or empty path, a missing step or a JSON null at the end give no value; otherwise the `asText` of the node reached by the dot-separated segments |
| Json.ExtractFieldByPath | src/main/java/com/example/kafkaparsing/service/DynamicMessageProcessor.java:356-375 | the segment loop returns the path lookup: none for a null or empty path, a missing step or a JSON null, otherwise the asText of the node reached |
| Json.ResolveAppend | src/main/java/com/example/kafkaparsing/service/DynamicMessageProcessor.java:364-367 | walking two segment lists in a row is walking the first, then the second from where it ended |
| Json.PathOfSegments | src/main/java/com/example/kafkaparsing/service/DynamicKafkaConsumerManager.java:292-311 | a path written as non-empty, dot-free segments joined by dots looks up exactly those segments in turn |
| Json.KeyPath | src/main/java/com/example/kafkaparsing/service/DynamicKafkaConsumerManager.java:273-281 | a path that is one dot-free key looks up that key in the root |
| Json.DotsOnlyPathNamesRoot | src/main/java/com/example/kafkaparsing/service/DynamicMessageProcessor.java:362-368 | a path made only of dots splits into no segment, so it yields the root's own text |
| FieldExtraction.ParseDateTime | src/main/java/com/example/kafkaparsing/service/DynamicMessageProcessor.java:447-464 | defines parseDateTime: the configured pattern when it is non-empty, otherwise yyyy-MM-dd'T'HH:mm:ss; unparsable text gives no value |
| FieldExtraction.TargetNamed | src/main/java/com/example/kafkaparsing/service/DynamicMessageProcessor.java:384-437 | the switch selects a canonical field only for a name equal to that field's name |
| FieldExtraction.TargetNamedComplete | src/main/java/com/example/kafkaparsing/service/DynamicMessageProcessor.java:384-435 | every one of the thirteen canonical names is recognised and selects its own field |
| FieldExtraction.SetField | src/main/java/com/example/kafkaparsing/service/DynamicMessageProcessor.java:380-442 | an unknown name changes nothing; a text field takes the value; a non-integer status code and an unparsable date change nothing; id, stamp, flag and custom fields are never touched |
| FieldExtraction.ApplyField | src/main/java/com/example/kafkaparsing/service/DynamicMessageProcessor.java:260-296 | one definition appends exactly its custom entry; anything but an applicable Mandatory definition changes nothing else; a definition restricted to another message type changes nothing; an applicable Mandatory definition sets its target from the resolved text (SetField), and one whose field name is null or whose path does not resolve changes nothing |
| FieldExtraction.MandatoryUpdate | src/main/java/com/example/kafkaparsing/service/DynamicMessageProcessor.java:305-333 | defines extractMandatoryField on values: skipped for another message type or a null path or field name, unchanged when the path does not resolve, otherwise SetField with the resolved text |
| FieldExtraction.CustomUpdate | src/main/java/com/example/kafkaparsing/service/DynamicMessageProcessor.java:338-351 | defines extractCustomField on values: appends (name, resolved text) when the name and path are present and the path resolves, otherwise unchanged |
| FieldExtraction.ApplyFields | src/main/java/com/example/kafkaparsing/service/DynamicMessageProcessor.java:252-300 | defines extractFieldsFromMessage on values: the definitions applied one after another in configuration order |
| FieldExtraction.BadMandatoryPathIsInert | src/main/java/com/example/kafkaparsing/service/DynamicMessageProcessor.java:322-331 | a Mandatory definition whose path is null, empty, missing or a JSON null can be dropped from the configuration without changing the result |
| FieldExtraction.ApplyFieldsAppend | src/main/java/com/example/kafkaparsing/service/DynamicMessageProcessor.java:252-300 | extraction over `a + b` is extraction over `a`, then over `b` |
| FieldExtraction.SkippedFieldIsInert | src/main/java/com/example/kafkaparsing/service/DynamicMessageProcessor.java:310-319 | a definition whose affinity names another message type can be removed from the configuration without effect |
| FieldExtraction.UnknownStatusIsInert | src/main/java/com/example/kafkaparsing/service/DynamicMessageProcessor.java:260-296 | a definition whose key status is neither Mandatory nor Custom can be removed without effect |
| FieldExtraction.ApplyFieldsBookkeeping | src/main/java/com/example/kafkaparsing/service/DynamicMessageProcessor.java:252-300 | extraction never changes the document id, the indexing stamp or the completion flag |
| FieldExtraction.CustomFieldsCollected | src/main/java/com/example/kafkaparsing/service/DynamicMessageProcessor.java:338-351 | the custom-field list after extraction is the old list followed by one entry per applicable Custom definition whose path resolves, in configuration order, duplicates kept |
| FieldExtraction.SetFieldValue | src/main/java/com/example/kafkaparsing/service/DynamicMessageProcessor.java:380-442 | the switch over the setters moves the record as SetField says |
| FieldExtraction.ExtractMandatoryField | src/main/java/com/example/kafkaparsing/service/DynamicMessageProcessor.java:305-333 | moves the record as MandatoryUpdate: unchanged for another message type, a null field name or a path that does not resolve, and otherwise exactly SetField of the resolved text |
| FieldExtraction.ExtractCustomField | src/main/java/com/example/kafkaparsing/service/DynamicMessageProcessor.java:338-351 | the null checks, the lookup and the append move the record as CustomUpdate says |
| FieldExtraction.ExtractFieldsFromMessage | src/main/java/com/example/kafkaparsing/service/DynamicMessageProcessor.java:252-300 | the loop over the configuration leaves the record as ApplyFields over the whole configuration |
| Correlation.Park | src/main/java/com/example/kafkaparsing/service/DynamicMessageProcessor.java:130-133 | defines the request store: the record goes into pendingRequests at its id, replacing any earlier one, and one timer for the id is armed |
| Correlation.ParkOrphan | src/main/java/com/example/kafkaparsing/service/DynamicMessageProcessor.java:182-185 | defines the orphan store: the record goes into completedTransactions at its id and one timer for the id with `_orphaned` appended is armed |
| Correlation.Emit | src/main/java/com/example/kafkaparsing/service/DynamicMessageProcessor.java:470-478 | defines indexing: the record is appended to the indexed log and nothing else changes |
| Correlation.Settle | src/main/java/com/example/kafkaparsing/service/DynamicMessageProcessor.java:144-151 | defines settling a pending id: its record is indexed and the id leaves pendingRequests |
| Correlation.Expire | src/main/java/com/example/kafkaparsing/service/DynamicMessageProcessor.java:498-518 | defines processTimeout: a pending id is indexed marked incomplete and removed; otherwise a key ending in `_orphaned`, whose id after replace-all names an orphan, indexes and removes that orphan; otherwise nothing changes |
| Correlation.OnTimeout | src/main/java/com/example/kafkaparsing/service/DynamicMessageProcessor.java:483-493 | defines a timer firing: one armed occurrence of the key is consumed, then the state moves as Expire |
| Correlation.OnCleanup | src/main/java/com/example/kafkaparsing/service/DynamicMessageProcessor.java:524-537 | exactly the orphans stamped strictly before now minus the interval are dropped, without being emitted; pending requests, output and timers are unchanged |
| Correlation.TimeoutAfterMatchIsNoop | src/main/java/com/example/kafkaparsing/service/DynamicMessageProcessor.java:498-518 | a timer whose key is neither pending nor marked only disarms itself |
| Correlation.PendingTimeoutEmitsIncomplete | src/main/java/com/example/kafkaparsing/service/DynamicMessageProcessor.java:500-506 | a pending request whose timer fires is emitted once as incomplete and leaves the pending map |
| Correlation.OrphanTimeoutEmitsOrphan | src/main/java/com/example/kafkaparsing/service/DynamicMessageProcessor.java:507-516 | the marked timer of an orphan whose id has no marker emits that orphan and removes it |
| Correlation.MarkedOrphanIdIsStranded | src/main/java/com/example/kafkaparsing/service/DynamicMessageProcessor.java:509 | the orphan stored under "a_orphaned" gets timer "a_orphaned_orphaned", which looks for "a": the orphan is neither emitted nor removed |
| Correlation.CoveredArmsEveryRecord | src/main/java/com/example/kafkaparsing/service/DynamicMessageProcessor.java:483-493 | under the cover invariant each pending request has its timer armed and each orphan its marked timer |
| Correlation.InitialCovered | src/main/java/com/example/kafkaparsing/service/DynamicMessageProcessor.java:54-56 | a fresh processor satisfies the cover invariant |
| Correlation.ParkKeepsCover | src/main/java/com/example/kafkaparsing/service/DynamicMessageProcessor.java:126-136 | parking a request with its timer keeps the cover invariant |
| Correlation.ParkOrphanKeepsCover | src/main/java/com/example/kafkaparsing/service/DynamicMessageProcessor.java:177-187 | parking an orphan with its marked timer keeps the cover invariant, for a marker-free id |
| Correlation.SettleKeepsCover | src/main/java/com/example/kafkaparsing/service/DynamicMessageProcessor.java:144-151 | completing a pending request keeps the cover invariant |
| Correlation.EmitKeepsCover | src/main/java/com/example/kafkaparsing/service/DynamicMessageProcessor.java:162-172 | emitting a single message keeps the cover invariant |
| Correlation.RepairPendingKeepsCover | src/main/java/com/example/kafkaparsing/service/AuditDataProcessor.java:192-209 | changing the value of a pending record in place keeps the cover invariant |
| Correlation.TimeoutKeepsCover | src/main/java/com/example/kafkaparsing/service/DynamicMessageProcessor.java:498-518 | a timeout event keeps the cover invariant |
| Correlation.CleanupKeepsCover | src/main/java/com/example/kafkaparsing/service/DynamicMessageProcessor.java:524-537 | cleanup keeps the cover invariant |
| DynamicProcessing.CreatedRecord | src/main/java/com/example/kafkaparsing/service/DynamicMessageProcessor.java:206-227 | a new record holds the serialised message as request payload and the custom entries of the configuration, is stamped now, is incomplete and has no document id |
| DynamicProcessing.ResponseMerged | src/main/java/com/example/kafkaparsing/service/DynamicMessageProcessor.java:232-245 | the response payload is the serialised response; the response's custom entries are appended; id, stamp and flag are kept |
| DynamicProcessing.RouteOf | src/main/java/com/example/kafkaparsing/service/DynamicMessageProcessor.java:79-106 | defines the guards: an unparsable message, or one without extractedApiName, without a field configuration for its API or without request_id, is dropped; otherwise the log type, API name, fields, id and tree are passed on |
| DynamicProcessing.OnRouted | src/main/java/com/example/kafkaparsing/service/DynamicMessageProcessor.java:108-116 | defines the dispatch: exact `REQUEST` parks a new record; exact `RESPONSE` settles the pending record or stores an orphan; any other type indexes a complete SINGLE record |
| DynamicProcessing.OnMessage | src/main/java/com/example/kafkaparsing/service/DynamicMessageProcessor.java:73-121 | defines processMessage on the state: a dropped message changes nothing and a routed one moves the state as OnRouted |
| DynamicProcessing.UnchangedIffDropped | src/main/java/com/example/kafkaparsing/service/DynamicMessageProcessor.java:82-106 | a message leaves the state unchanged exactly when it is unparsable, lacks extractedApiName, names an API without configuration, or lacks request_id |
| DynamicProcessing.RequestIsParked | src/main/java/com/example/kafkaparsing/service/DynamicMessageProcessor.java:126-136 | a REQUEST stores a new incomplete record under its id, overwriting, arms a timer for the id and changes nothing else |
| DynamicProcessing.OtherLogTypeEmitsSingle | src/main/java/com/example/kafkaparsing/service/DynamicMessageProcessor.java:162-172 | any log type other than exactly REQUEST or RESPONSE emits one complete record and changes nothing else |
| DynamicProcessing.MatchedResponseSettles | src/main/java/com/example/kafkaparsing/service/DynamicMessageProcessor.java:144-151 | a RESPONSE whose id is pending emits the merged record once, complete, with the response payload, and removes the id from the pending map |
| DynamicProcessing.UnmatchedResponseIsOrphaned | src/main/java/com/example/kafkaparsing/service/DynamicMessageProcessor.java:177-187 | a RESPONSE with no pending id stores an incomplete orphan (raw message as request payload), overwriting, emits nothing and arms the marked timer |
| DynamicProcessing.RequestResponseTimeoutRoundTrip | src/main/java/com/example/kafkaparsing/service/DynamicMessageProcessor.java:126-157 | REQUEST, RESPONSE, then the REQUEST's timer: exactly one complete merged record is emitted and everything else is back as before |
| DynamicProcessing.OrphanThenRequestNotMerged | src/main/java/com/example/kafkaparsing/service/DynamicMessageProcessor.java:126-136 | an orphaned RESPONSE followed by its REQUEST is not merged: both stay parked side by side and nothing is emitted |
| DynamicProcessing.MessageKeepsCover | src/main/java/com/example/kafkaparsing/service/DynamicMessageProcessor.java:73-121 | every message keeps each parked record's timer armed, for marker-free ids |
| DynamicProcessing.DynamicMessageProcessor.constructor | src/main/java/com/example/kafkaparsing/service/DynamicMessageProcessor.java:54-56 | a new processor has empty maps, no output and no timers |
| DynamicProcessing.DynamicMessageProcessor.ProcessMessage | src/main/java/com/example/kafkaparsing/service/DynamicMessageProcessor.java:73-121 | the handler moves the state as OnMessage |
| DynamicProcessing.DynamicMessageProcessor.Guard | src/main/java/com/example/kafkaparsing/service/DynamicMessageProcessor.java:79-106 | the guards in the source's order yield exactly RouteOf: dropped on an unparsable message, a missing extractedApiName, an empty field configuration or a missing request_id |
| DynamicProcessing.DynamicMessageProcessor.Dispatch | src/main/java/com/example/kafkaparsing/service/DynamicMessageProcessor.java:108-116 | a routed message goes to the request, response or single-message path by its log type, and the state moves as OnRouted |
| DynamicProcessing.DynamicMessageProcessor.ProcessRequest | src/main/java/com/example/kafkaparsing/service/DynamicMessageProcessor.java:126-136 | parks the created record and arms its timer |
| DynamicProcessing.DynamicMessageProcessor.StorePending | src/main/java/com/example/kafkaparsing/service/DynamicMessageProcessor.java:130-133 | the put into the pending map and the timer; the orphan map and the emitted records are unchanged |
| DynamicProcessing.DynamicMessageProcessor.ProcessResponse | src/main/java/com/example/kafkaparsing/service/DynamicMessageProcessor.java:141-157 | settles a pending id with the merged record, or parks an orphan |
| DynamicProcessing.DynamicMessageProcessor.ProcessSingleMessage | src/main/java/com/example/kafkaparsing/service/DynamicMessageProcessor.java:162-172 | emits the created record marked complete |
| DynamicProcessing.DynamicMessageProcessor.HandleOrphanedResponse | src/main/java/com/example/kafkaparsing/service/DynamicMessageProcessor.java:177-187 | parks a fresh incomplete record as an orphan with its marked timer |
| DynamicProcessing.DynamicMessageProcessor.StoreOrphan | src/main/java/com/example/kafkaparsing/service/DynamicMessageProcessor.java:182-185 | the put into the orphan map and the marked timer |
| DynamicProcessing.DynamicMessageProcessor.CompleteTransaction | src/main/java/com/example/kafkaparsing/service/DynamicMessageProcessor.java:192-200 | merges the response, marks complete and emits the record; the maps and timers are unchanged |
| DynamicProcessing.DynamicMessageProcessor.CreateParsedDataFromMessage | src/main/java/com/example/kafkaparsing/service/DynamicMessageProcessor.java:206-227 | returns a fresh object holding CreatedRecord |
| DynamicProcessing.DynamicMessageProcessor.UpdateParsedDataFromResponse | src/main/java/com/example/kafkaparsing/service/DynamicMessageProcessor.java:232-245 | moves the record as ResponseMerged |
| DynamicProcessing.DynamicMessageProcessor.SendToElasticsearch | src/main/java/com/example/kafkaparsing/service/DynamicMessageProcessor.java:470-478 | appends the record's current value to the output and changes nothing else |
| DynamicProcessing.DynamicMessageProcessor.ScheduleTimeoutProcessing | src/main/java/com/example/kafkaparsing/service/DynamicMessageProcessor.java:483-493 | arms one more timer for the key and changes nothing else |
| DynamicProcessing.DynamicMessageProcessor.TimeoutElapsed | src/main/java/com/example/kafkaparsing/service/DynamicMessageProcessor.java:483-493 | one armed timer elapses and the state moves as OnTimeout |
| DynamicProcessing.DynamicMessageProcessor.ProcessTimeout | src/main/java/com/example/kafkaparsing/service/DynamicMessageProcessor.java:498-518 | the state moves as Expire |
| DynamicProcessing.DynamicMessageProcessor.ExpirePending | src/main/java/com/example/kafkaparsing/service/DynamicMessageProcessor.java:499-506 | a pending request at its timeout is emitted marked incomplete and leaves the pending map; the orphan map is untouched |
| DynamicProcessing.DynamicMessageProcessor.ExpireOrphan | src/main/java/com/example/kafkaparsing/service/DynamicMessageProcessor.java:509-516 | an orphan at its timeout is emitted as it stands and leaves the orphan map; the pending map is untouched |
| DynamicProcessing.DynamicMessageProcessor.CleanupOldTransactions | src/main/java/com/example/kafkaparsing/service/DynamicMessageProcessor.java:524-537 | the state moves as OnCleanup |
| TypedProcessing.TimeFromPayload | src/main/java/com/example/kafkaparsing/service/AuditDataProcessor.java:214-228 | the payload's processed_date parsed with the default pattern, or now when the payload is not a map, the key is missing or null, or the text does not parse |
| TypedProcessing.StatusFromPayload | src/main/java/com/example/kafkaparsing/service/AuditDataProcessor.java:233-247 | "UNKNOWN" when the payload is not a map or its status is missing or a JSON null; otherwise the status's text: a string verbatim, any other value through its toString |
| TypedProcessing.RequestRecord | src/main/java/com/example/kafkaparsing/service/AuditDataProcessor.java:166-187 | a record exists exactly when metadata and request id are present; it carries the API name, client IP as host, endpoint as path, serialised payload and payload time, seeded ids, and no response side (no response payload, response time, status or status code) and no custom fields |
| TypedProcessing.ResponseFilled | src/main/java/com/example/kafkaparsing/service/AuditDataProcessor.java:192-209 | sets response payload, response time and status; sets the status code from the metadata only when the metadata is present; changes nothing else |
| TypedProcessing.OnAuditMessage | src/main/java/com/example/kafkaparsing/service/AuditDataProcessor.java:65-83 | defines processAuditMessage on the state: REQUEST parks RequestRecord; RESPONSE settles, partially updates or stores an orphan; a parse failure, another type or a thrown step changes nothing |
| TypedProcessing.OtherLogTypesIgnored | src/main/java/com/example/kafkaparsing/service/AuditDataProcessor.java:65-83 | a parse failure or any log type other than exactly REQUEST or RESPONSE changes nothing |
| TypedProcessing.RequestWithoutMetadataIsLost | src/main/java/com/example/kafkaparsing/service/AuditDataProcessor.java:166-172 | a REQUEST with null metadata is stored nowhere and arms no timer |
| TypedProcessing.RequestIsParked | src/main/java/com/example/kafkaparsing/service/AuditDataProcessor.java:89-103 | a complete REQUEST is stored under its id, overwriting, with client IP as host and endpoint as path, and its timer is armed |
| TypedProcessing.MatchedResponseSettles | src/main/java/com/example/kafkaparsing/service/AuditDataProcessor.java:115-123 | a RESPONSE for a pending id emits the merged record once, complete, with the metadata's status code, and removes the id |
| TypedProcessing.ResponseWithoutMetadataLeavesPartialRecord | src/main/java/com/example/kafkaparsing/service/AuditDataProcessor.java:192-209 | a RESPONSE with null metadata emits nothing and leaves the pending record holding the response payload but not the status code; its timeout emits it incomplete |
| TypedProcessing.OrphanHoldsOnlyResponseSide | src/main/java/com/example/kafkaparsing/service/AuditDataProcessor.java:135-148 | an unmatched RESPONSE parks an incomplete orphan with only response fields and the marked timer; a later REQUEST is parked beside it, not merged |
| TypedProcessing.AuditMessageKeepsCover | src/main/java/com/example/kafkaparsing/service/AuditDataProcessor.java:65-83 | every audit message keeps each parked record's timer armed, for marker-free ids |
| TypedProcessing.AuditDataProcessor.constructor | src/main/java/com/example/kafkaparsing/service/AuditDataProcessor.java:46-47 | a new processor has empty maps, no output and no timers |
| TypedProcessing.AuditDataProcessor.ProcessAuditMessage | src/main/java/com/example/kafkaparsing/service/AuditDataProcessor.java:65-83 | the handler moves the state as OnAuditMessage |
| TypedProcessing.AuditDataProcessor.ProcessRequest | src/main/java/com/example/kafkaparsing/service/AuditDataProcessor.java:89-103 | parks the request record, or changes nothing when building it fails |
| TypedProcessing.AuditDataProcessor.StorePending | src/main/java/com/example/kafkaparsing/service/AuditDataProcessor.java:96-99 | the put into the pending map and the timer |
| TypedProcessing.AuditDataProcessor.ProcessResponse | src/main/java/com/example/kafkaparsing/service/AuditDataProcessor.java:109-129 | settles, partially updates, or parks an orphan, as OnAuditMessage's RESPONSE branch says |
| TypedProcessing.AuditDataProcessor.HandleOrphanedResponse | src/main/java/com/example/kafkaparsing/service/AuditDataProcessor.java:135-148 | parks the response-only record as an orphan, or changes nothing when the metadata is null |
| TypedProcessing.AuditDataProcessor.NewOrphan | src/main/java/com/example/kafkaparsing/service/AuditDataProcessor.java:136-140 | the new record holds only the response side, marked incomplete, and the update succeeds exactly when the metadata is present |
| TypedProcessing.AuditDataProcessor.StoreOrphan | src/main/java/com/example/kafkaparsing/service/AuditDataProcessor.java:142-145 | the put into the orphan map and the marked timer |
| TypedProcessing.AuditDataProcessor.CompleteTransaction | src/main/java/com/example/kafkaparsing/service/AuditDataProcessor.java:153-161 | completes and emits exactly when the metadata is present; otherwise leaves the partial update and emits nothing |
| TypedProcessing.AuditDataProcessor.CreateParsedDataFromRequest | src/main/java/com/example/kafkaparsing/service/AuditDataProcessor.java:166-187 | no record when the metadata is null; otherwise a fresh object holding RequestRecord |
| TypedProcessing.AuditDataProcessor.UpdateParsedDataFromResponse | src/main/java/com/example/kafkaparsing/service/AuditDataProcessor.java:192-209 | moves the record as ResponseFilled and reports whether the metadata was present |
| TypedProcessing.AuditDataProcessor.SendToElasticsearch | src/main/java/com/example/kafkaparsing/service/AuditDataProcessor.java:253-261 | appends the record's current value to the output and changes nothing else |
| TypedProcessing.AuditDataProcessor.ScheduleTimeoutProcessing | src/main/java/com/example/kafkaparsing/service/AuditDataProcessor.java:266-276 | arms one more timer for the key and changes nothing else |
| TypedProcessing.AuditDataProcessor.TimeoutElapsed | src/main/java/com/example/kafkaparsing/service/AuditDataProcessor.java:266-276 | one armed timer elapses and the state moves as OnTimeout |
| TypedProcessing.AuditDataProcessor.ProcessTimeout | src/main/java/com/example/kafkaparsing/service/AuditDataProcessor.java:282-302 | the state moves as Expire |
| TypedProcessing.AuditDataProcessor.ExpirePending | src/main/java/com/example/kafkaparsing/service/AuditDataProcessor.java:283-290 | a pending request at its timeout is emitted marked incomplete and leaves the pending map; the orphan map is untouched |
| TypedProcessing.AuditDataProcessor.ExpireOrphan | src/main/java/com/example/kafkaparsing/service/AuditDataProcessor.java:293-300 | an orphan at its timeout is emitted as it stands and leaves the orphan map; the pending map is untouched |
| TypedProcessing.AuditDataProcessor.CleanupOldTransactions | src/main/java/com/example/kafkaparsing/service/AuditDataProcessor.java:307-321 | the state moves as OnCleanup |
| Retry.RetryConfig.constructor | src/main/java/com/example/kafkaparsing/model/RetryConfig.java:7-14 | the defaults are 3 attempts and 1000 ms |
| Retry.RetryConfig.WithValues | src/main/java/com/example/kafkaparsing/model/RetryConfig.java:16-19 | stores both values as given, with no validation |
| Retry.RetryConfig.SetMaxAttempts | src/main/java/com/example/kafkaparsing/model/RetryConfig.java:26-28 | replaces the attempt limit only |
| Retry.RetryConfig.SetBackoffMs | src/main/java/com/example/kafkaparsing/model/RetryConfig.java:34-36 | replaces the back-off only |
| Forwarding.Run | src/main/java/com/example/kafkaparsing/service/KafkaMessageForwarder.java:33-60 | defines the retry loop from a given attempt: stop on the first acknowledged send, at the attempt limit, on an interrupted back-off, or on a rejected negative back-off |
| Forwarding.Forward | src/main/java/com/example/kafkaparsing/service/KafkaMessageForwarder.java:22-66 | defines one forwardMessage call: the retry loop from the first attempt |
| Forwarding.RunShape | src/main/java/com/example/kafkaparsing/service/KafkaMessageForwarder.java:33-60 | from any attempt: sends never exceed the limit (none when it is at most 0); every send before the last failed; Delivered exactly when the last send succeeded; a sleep follows each failed send except the last of the budget; an interrupted or rejected sleep ends the loop |
| Forwarding.ForwardShape | src/main/java/com/example/kafkaparsing/service/KafkaMessageForwarder.java:22-66 | the same shape for a whole call |
| Forwarding.FirstSuccessStops | src/main/java/com/example/kafkaparsing/service/KafkaMessageForwarder.java:37-40 | with the first acknowledged send at attempt k and no interruption, the call makes exactly k + 1 sends and k sleeps |
| Forwarding.AllFailuresExhaust | src/main/java/com/example/kafkaparsing/service/KafkaMessageForwarder.java:43-58 | when every send fails and no sleep is interrupted, there are maxAttempts sends and maxAttempts - 1 sleeps |
| Forwarding.NegativeBackoffEscapes | src/main/java/com/example/kafkaparsing/service/KafkaMessageForwarder.java:49-57 | a negative back-off makes the first retry's sleep throw out of the method after one send |
| Forwarding.ForwardMessage | src/main/java/com/example/kafkaparsing/service/KafkaMessageForwarder.java:22-66 | the loop's sends, sleeps and outcome are those of Forward under the effective limits (3 and 1000 for a null config); every send is the same key and value to raw-data-topic_kafka; every sleep asks for the back-off |
| Forwarding.ForwardMessageWithDefaults | src/main/java/com/example/kafkaparsing/service/KafkaMessageForwarder.java:71-73 | the overload makes one to three sends and at most two one-second sleeps, and never throws |
| Enrichment.CastText | src/main/java/com/example/kafkaparsing/service/DynamicKafkaConsumerManager.java:262-263 | a cast yields text exactly for a string member and null exactly for a missing or JSON-null member |
| Enrichment.FallbackApiName | src/main/java/com/example/kafkaparsing/service/DynamicKafkaConsumerManager.java:273-281 | the first present of api_name, apiName and API_NAME, in that order, and none only when all three are none |
| Enrichment.ExtractApiNameFromMessage | src/main/java/com/example/kafkaparsing/service/DynamicKafkaConsumerManager.java:258-288 | the early-return loop and the fallbacks compute ApiNameOf |
| Enrichment.SearchMapping | src/main/java/com/example/kafkaparsing/service/DynamicKafkaConsumerManager.java:260-271 | defines the scan of the configured rows: the first row mapping APIName decides the name, a null row or non-string member throws, and no mapping leaves it undecided |
| Enrichment.ApiNameOf | src/main/java/com/example/kafkaparsing/service/DynamicKafkaConsumerManager.java:257-287 | defines extractApiNameFromMessage: the mapped name, no name after a throw, or the fallback keys when nothing maps |
| Enrichment.FirstMappingDecides | src/main/java/com/example/kafkaparsing/service/DynamicKafkaConsumerManager.java:260-269 | the first row mapping APIName with a string path decides the name, even when that path finds nothing |
| Enrichment.WithoutMappingFallsBack | src/main/java/com/example/kafkaparsing/service/DynamicKafkaConsumerManager.java:273-281 | with no APIName mapping among well-typed rows, or no rows at all, the name is the first fallback key present |
| Enrichment.NoMappingSearch | src/main/java/com/example/kafkaparsing/service/DynamicKafkaConsumerManager.java:261-271 | the row loop over well-typed rows without an APIName mapping finishes without a decision |
| Enrichment.AddConnectionNameToMessage | src/main/java/com/example/kafkaparsing/service/DynamicKafkaConsumerManager.java:209-253 | the method returns EnrichedMessage: the annotated tree, else the plain wrapper, else the original text |
| Enrichment.ObjectKeepsItsMembers | src/main/java/com/example/kafkaparsing/service/DynamicKafkaConsumerManager.java:218-226 | an object keeps its other members; connectionName is put, overwriting; extractedApiName is put only when a name was found |
| Enrichment.EnrichedMessage | src/main/java/com/example/kafkaparsing/service/DynamicKafkaConsumerManager.java:209-252 | defines addConnectionNameToMessage: the annotated object or wrapper when the message parses, otherwise the plain wrapper, otherwise the original text |
| Enrichment.NonObjectIsWrapped | src/main/java/com/example/kafkaparsing/service/DynamicKafkaConsumerManager.java:227-237 | any other JSON value becomes {originalMessage, connectionName[, extractedApiName]} |
| Enrichment.UnparsableMessageIsDropped | src/main/java/com/example/kafkaparsing/service/DynamicKafkaConsumerManager.java:239-246 | an unparsable message is wrapped without extractedApiName, so the dynamic processor drops it and changes nothing |
| Enrichment.FoundNameIsCarried | src/main/java/com/example/kafkaparsing/service/DynamicKafkaConsumerManager.java:218-224 | a name found in a parsable message is what the annotated tree's extractedApiName path yields |
| ConnectionValidation.ValidateConnectionDetails | src/main/java/com/example/kafkaparsing/service/DataSourceConnectionService.java:55-77 | null settings, or a null or empty broker list, topic or consumer group id, are invalid; valid exactly when all three are present and non-empty |
| ConnectionValidation.OnlyThreeSettingsMatter | src/main/java/com/example/kafkaparsing/service/DataSourceConnectionService.java:55-77 | settings that agree on brokers, topic and group id are judged alike, whatever else they hold |
| AuditPublishing.ClientIpAddress | src/main/java/com/example/kafkaparsing/service/ApiAuditService.java:92-104 | a non-empty X-Forwarded-For gives its first comma-separated element trimmed, and throws exactly when it is only commas; else a non-empty X-Real-IP verbatim; else the remote address |
| AuditPublishing.Metadata | src/main/java/com/example/kafkaparsing/service/ApiAuditService.java:60-87 | the metadata exists exactly when the client IP could be computed, and carries the request's headers, content type, length, method and URI with the response fields given |
| AuditPublishing.RequestMetadata | src/main/java/com/example/kafkaparsing/service/ApiAuditService.java:60-71 | request metadata has no response status and no processing time |
| AuditPublishing.ResponseMetadata | src/main/java/com/example/kafkaparsing/service/ApiAuditService.java:76-87 | response metadata carries the status and processing time passed in |
| AuditPublishing.RequestAuditMessage | src/main/java/com/example/kafkaparsing/service/ApiAuditService.java:27-38 | a REQUEST log is sent, keyed by the request id, to api_audit_zak_logs, exactly when the metadata could be built |
| AuditPublishing.ResponseAuditMessage | src/main/java/com/example/kafkaparsing/service/ApiAuditService.java:43-55 | a RESPONSE log is sent, keyed by the request id, to api_audit_zak_logs, exactly when the metadata could be built |
| AuditPublishing.ResponseLogMirrorsRequestLog | src/main/java/com/example/kafkaparsing/service/ApiAuditService.java:27-55 | for one exchange both logs are sent or neither, under the same key; each has its own log id and timestamp, and otherwise they differ only in the log type and the two response fields of the metadata |
| AuditPublishing.CommasOnlyForwardedForSendsNothing | src/main/java/com/example/kafkaparsing/service/ApiAuditService.java:33-37 | an X-Forwarded-For made only of commas means no REQUEST log is sent |

## Left out

- Threads, executors, `Thread.sleep` of the timeout tasks and `@Scheduled`: each handler is one atomic step. A timeout is an explicit event on an armed key. The timeout duration is not modelled. The get-then-remove races between handlers and timers are not modelled.
- Jackson: parsing, `readValue` and `writeValueAsString` are function parameters returning `None` when they throw. JSON objects are maps, so member order and duplicate names are not modelled. `toString` of deserialised maps, lists and floating-point numbers is the `render` parameter.
- Date and time: `LocalDateTime.parse` with a pattern is a parameter. The clock is a `now` parameter, read once per event. A timestamp is an integer count of nanoseconds.
- Elasticsearch: indexing appends the record's value at that moment to `indexed`. The document-id assignment is modelled only by `EnsureDocumentId`; the recorded value is the one before that assignment. The HTTP call and its failure, which is only logged, are not modelled.
- Kafka plumbing: listener containers, consumer factories, the start and stop of consumers, and the actual `send` calls. The forwarder's broker and interruption behaviour are oracles. `Forwarding.ForwardMessage` does not model the interrupt flag it sets on the thread, or the log lines it writes.
- The schema provider (the JPA repositories and `ApiMetadataService`) is a function from API name to field definitions, empty when the API is unknown. `connectionName` and `connectionDetails` reach the dynamic processor only for logging and are not parameters of the model.
- The `datatype` column of the field configuration is never read by setFieldValue, and the model drops it.
- Header lookup uses the exact header name. The case-insensitive lookup of servlet containers is not modelled.
- A null Kafka record value (a tombstone) is not modelled; messages are strings.
- `equalsIgnoreCase` folds the ASCII letters only. Java's full Unicode case folding is not modelled.
- `ApiAuditLog` takes an `ApiRequestMetadata` while `ApiAuditService` builds an `ApiMetadata`. Both are the one `ApiMetadata` datatype here, since the two share their fields.
- Logging, console formatting and `getStatistics` are left out. So are the controllers, the GRN demo models and the pure data holders beyond the fields the core reads.
- `Json.ExtractFieldByPath` models both `extractFieldByPath` methods (src/main/java/com/example/kafkaparsing/service/DynamicMessageProcessor.java:356-375 and src/main/java/com/example/kafkaparsing/service/DynamicKafkaConsumerManager.java:292-311), whose code is the same.
- The cover invariant (`Correlation.Covered`) is proved only for ids that do not contain `_orphaned`; `Correlation.MarkedOrphanIdIsStranded` shows why.
- JavaLang.ParseInt: accepts only the ASCII digits `0`-`9`. `Integer.parseInt` also accepts every other Unicode decimal digit (full-width or Arabic-Indic digits, say); such a status code stays unparsed in the model.
- TypedProcessing.AuditDataProcessor.CreateParsedDataFromRequest: states the record's value only when the request id is present. A record without an id is never stored, because the put into the pending map then throws.
