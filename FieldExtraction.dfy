/**
  The schema-driven field extractor of the dynamic processor: a list of field definitions
  is walked in order; each definition is filtered by key status and message-type affinity,
  its dot path is resolved in the message, and the value is either assigned through the
  fixed name switch (Mandatory) or appended to the custom-field array (Custom).
 */
module FieldExtraction {
  import opened Wrappers
  import opened JavaLang
  import opened Json
  import opened AuditModel
  import opened Entities

  /** LocalDateTime.parse(text, ofPattern(pattern)); None when the pattern or the text is rejected. */
  type DateParser = (string, string) -> Option<DateTime>

  const DefaultDatePattern: string := "yyyy-MM-dd'T'HH:mm:ss"

  /** parseDateTime: the field's own pattern when it is non-empty, the default pattern otherwise. */
  function ParseDateTime(parse: DateParser, text: string, pattern: Option<string>): Option<DateTime> {
    if pattern.Some? && pattern.value != [] then parse(text, pattern.value)
    else parse(text, DefaultDatePattern)
  }

  /** The canonical field names setFieldValue knows. */
  datatype Target =
    | APIName | CorrelationID | Host | ParentID | RequestPayload | ResourcePath
    | ResponsePayload | Status | StatusCode | TransactionID | UniqueTransactionID
    | RequestTime | ResponseTime
  {
    /** The case label of the switch. */
    function Name(): string {
      match this
      case APIName => "APIName"
      case CorrelationID => "CorrelationID"
      case Host => "Host"
      case ParentID => "ParentID"
      case RequestPayload => "RequestPayload"
      case ResourcePath => "ResourcePath"
      case ResponsePayload => "ResponsePayload"
      case Status => "Status"
      case StatusCode => "StatusCode"
      case TransactionID => "TransactionID"
      case UniqueTransactionID => "UniqueTransactionID"
      case RequestTime => "RequestTime"
      case ResponseTime => "ResponseTime"
    }

    /** The targets that take the extracted text as it is. */
    predicate IsText() {
      !(this.StatusCode? || this.RequestTime? || this.ResponseTime?)
    }
  }

  /** The switch of setFieldValue: which canonical field a configured name selects, if any. */
  function TargetNamed(name: string): (t: Option<Target>)
    ensures t.Some? ==> t.value.Name() == name
  {
    if name == "APIName" then Some(APIName)
    else if name == "CorrelationID" then Some(CorrelationID)
    else if name == "Host" then Some(Host)
    else if name == "ParentID" then Some(ParentID)
    else if name == "RequestPayload" then Some(RequestPayload)
    else if name == "ResourcePath" then Some(ResourcePath)
    else if name == "ResponsePayload" then Some(ResponsePayload)
    else if name == "Status" then Some(Status)
    else if name == "StatusCode" then Some(StatusCode)
    else if name == "TransactionID" then Some(TransactionID)
    else if name == "UniqueTransactionID" then Some(UniqueTransactionID)
    else if name == "RequestTime" then Some(RequestTime)
    else if name == "ResponseTime" then Some(ResponseTime)
    else None
  }

  /** Every canonical name is recognised by the switch, and selects its own field. */
  lemma TargetNamedComplete(t: Target)
    ensures TargetNamed(t.Name()) == Some(t)
  {
  }

  /** The current value of a text target of a record. */
  function TextOf(r: AuditRecord, t: Target): Option<string>
    requires t.IsText()
  {
    match t
    case APIName => r.apiName
    case CorrelationID => r.correlationId
    case Host => r.host
    case ParentID => r.parentId
    case RequestPayload => r.requestPayload
    case ResourcePath => r.resourcePath
    case ResponsePayload => r.responsePayload
    case Status => r.status
    case TransactionID => r.transactionId
    case UniqueTransactionID => r.uniqueTransactionId
  }

  /**
    setFieldValue on values: a text target takes the value and every other text target
    keeps its own; StatusCode is set only when the value parses as a 32-bit integer;
    RequestTime and ResponseTime only when the date parses; an unknown name changes
    nothing; the id, the stamp, the completion flag and the custom fields never change.
   */
  function SetField(r: AuditRecord, name: string, value: string, pattern: Option<string>,
                    parse: DateParser): (r': AuditRecord)
    ensures TargetNamed(name).None? ==> r' == r
    ensures forall t: Target :: t.IsText() ==>
      TextOf(r', t) == if TargetNamed(name) == Some(t) then Some(value) else TextOf(r, t)
    ensures r'.statusCode ==
      if name == StatusCode.Name() && ParseInt(value).Some? then ParseInt(value) else r.statusCode
    ensures r'.requestTime ==
      if name == RequestTime.Name() && ParseDateTime(parse, value, pattern).Some?
      then ParseDateTime(parse, value, pattern) else r.requestTime
    ensures r'.responseTime ==
      if name == ResponseTime.Name() && ParseDateTime(parse, value, pattern).Some?
      then ParseDateTime(parse, value, pattern) else r.responseTime
    ensures r'.id == r.id && r'.indexedAt == r.indexedAt && r'.isComplete == r.isComplete
    ensures r'.customFields == r.customFields
  {
    match TargetNamed(name)
    case None => r
    case Some(t) =>
      match t
      case APIName => r.(apiName := Some(value))
      case CorrelationID => r.(correlationId := Some(value))
      case Host => r.(host := Some(value))
      case ParentID => r.(parentId := Some(value))
      case RequestPayload => r.(requestPayload := Some(value))
      case ResourcePath => r.(resourcePath := Some(value))
      case ResponsePayload => r.(responsePayload := Some(value))
      case Status => r.(status := Some(value))
      case StatusCode =>
        var code := ParseInt(value);
        if code.Some? then r.(statusCode := code) else r
      case TransactionID => r.(transactionId := Some(value))
      case UniqueTransactionID => r.(uniqueTransactionId := Some(value))
      case RequestTime =>
        var time := ParseDateTime(parse, value, pattern);
        if time.Some? then r.(requestTime := time) else r
      case ResponseTime =>
        var time := ParseDateTime(parse, value, pattern);
        if time.Some? then r.(responseTime := time) else r
  }

  /** The affinity test: no restriction, or the same message type ignoring ASCII case. */
  predicate Applies(affinity: Option<string>, messageType: string) {
    affinity.None? || affinity.value == [] || EqualsIgnoreCase(affinity.value, messageType)
  }

  /** extractMandatoryField on values. */
  function MandatoryUpdate(parse: DateParser, r: AuditRecord, node: Json, f: FieldDef,
                           messageType: string): AuditRecord
  {
    if !Applies(f.messageType, messageType) || f.path.None? || f.field.None? then r
    else match PathValue(node, f.path)
      case None => r
      case Some(v) => SetField(r, f.field.value, v, f.datePattern, parse)
  }

  /** extractCustomField on values. */
  function CustomUpdate(r: AuditRecord, node: Json, name: Option<string>, path: Option<string>): AuditRecord {
    if path.None? || name.None? then r
    else match PathValue(node, path)
      case None => r
      case Some(v) => r.(customFields := r.customFields + [(name.value, v)])
  }

  /** The custom-field entry one definition contributes to a message of the given type. */
  function CustomEntry(node: Json, f: FieldDef, messageType: string): seq<(string, string)> {
    if f.keyStatus == Some("Custom") && Applies(f.messageType, messageType)
       && f.field.Some? && f.path.Some? && PathValue(node, f.path).Some?
    then [(f.field.value, PathValue(node, f.path).value)]
    else []
  }

  /** The custom-field entries of a whole configuration, in configuration order. */
  function CustomEntries(node: Json, fields: seq<FieldDef>, messageType: string): seq<(string, string)>
    decreases |fields|
  {
    if fields == [] then []
    else CustomEntry(node, fields[0], messageType) + CustomEntries(node, fields[1..], messageType)
  }

  /**
    One step of extractFieldsFromMessage. A Custom definition only ever appends its entry;
    any definition other than an applicable Mandatory one changes nothing else; a
    definition restricted to another message type is skipped whatever its status. An
    applicable Mandatory definition whose path resolves sets its target from the resolved
    text, and one whose path is null, empty, missing or a JSON null changes nothing.
   */
  function ApplyField(parse: DateParser, r: AuditRecord, node: Json, f: FieldDef,
                      messageType: string): (r': AuditRecord)
    ensures r'.customFields == r.customFields + CustomEntry(node, f, messageType)
    ensures f.keyStatus != Some("Mandatory") ==> r' == r.(customFields := r'.customFields)
    ensures !Applies(f.messageType, messageType) ==> r' == r
    ensures f.keyStatus == Some("Mandatory") && (f.field.None? || PathValue(node, f.path).None?) ==> r' == r
    ensures f.keyStatus == Some("Mandatory") && Applies(f.messageType, messageType)
            && f.field.Some? && PathValue(node, f.path).Some?
            ==> r' == SetField(r, f.field.value, PathValue(node, f.path).value, f.datePattern, parse)
    ensures r'.id == r.id && r'.indexedAt == r.indexedAt && r'.isComplete == r.isComplete
  {
    if f.keyStatus == Some("Mandatory") then MandatoryUpdate(parse, r, node, f, messageType)
    else if f.keyStatus == Some("Custom") && Applies(f.messageType, messageType)
    then CustomUpdate(r, node, f.field, f.path)
    else r
  }

  /** extractFieldsFromMessage on values: the definitions applied in order. */
  function ApplyFields(parse: DateParser, r: AuditRecord, node: Json, fields: seq<FieldDef>,
                       messageType: string): AuditRecord
    decreases |fields|
  {
    if fields == [] then r
    else ApplyField(parse, ApplyFields(parse, r, node, fields[..|fields| - 1], messageType),
                    node, fields[|fields| - 1], messageType)
  }

  /** Applying `a + b` is applying `a`, then `b` to the result. */
  lemma {:induction false} ApplyFieldsAppend(parse: DateParser, r: AuditRecord, node: Json,
                                            a: seq<FieldDef>, b: seq<FieldDef>, messageType: string)
    ensures ApplyFields(parse, r, node, a + b, messageType)
         == ApplyFields(parse, ApplyFields(parse, r, node, a, messageType), node, b, messageType)
    decreases |b|
  {
    if b == [] {
      assert a + b == a;
    } else {
      assert (a + b)[..|a + b| - 1] == a + b[..|b| - 1];
      assert (a + b)[|a + b| - 1] == b[|b| - 1];
      ApplyFieldsAppend(parse, r, node, a, b[..|b| - 1], messageType);
    }
  }

  /** A definition whose affinity names another message type can be dropped from the list. */
  lemma SkippedFieldIsInert(parse: DateParser, r: AuditRecord, node: Json, a: seq<FieldDef>,
                            f: FieldDef, b: seq<FieldDef>, messageType: string)
    requires !Applies(f.messageType, messageType)
    ensures ApplyFields(parse, r, node, a + [f] + b, messageType)
         == ApplyFields(parse, r, node, a + b, messageType)
  {
    ApplyFieldsAppend(parse, r, node, a + [f], b, messageType);
    ApplyFieldsAppend(parse, r, node, a, b, messageType);
    assert (a + [f])[..|a + [f]| - 1] == a;
  }

  /**
    A Mandatory definition whose path does not resolve (null, empty, a missing step or a
    JSON null) can be dropped: one bad definition does not disturb the others.
   */
  lemma BadMandatoryPathIsInert(parse: DateParser, r: AuditRecord, node: Json, a: seq<FieldDef>,
                                f: FieldDef, b: seq<FieldDef>, messageType: string)
    requires f.keyStatus == Some("Mandatory") && PathValue(node, f.path).None?
    ensures ApplyFields(parse, r, node, a + [f] + b, messageType)
         == ApplyFields(parse, r, node, a + b, messageType)
  {
    ApplyFieldsAppend(parse, r, node, a + [f], b, messageType);
    ApplyFieldsAppend(parse, r, node, a, b, messageType);
    assert (a + [f])[..|a + [f]| - 1] == a;
  }

  /** A definition with a key status other than Mandatory or Custom can be dropped. */
  lemma UnknownStatusIsInert(parse: DateParser, r: AuditRecord, node: Json, a: seq<FieldDef>,
                             f: FieldDef, b: seq<FieldDef>, messageType: string)
    requires f.keyStatus != Some("Mandatory") && f.keyStatus != Some("Custom")
    ensures ApplyFields(parse, r, node, a + [f] + b, messageType)
         == ApplyFields(parse, r, node, a + b, messageType)
  {
    ApplyFieldsAppend(parse, r, node, a + [f], b, messageType);
    ApplyFieldsAppend(parse, r, node, a, b, messageType);
    assert (a + [f])[..|a + [f]| - 1] == a;
  }

  /** Extraction never touches the id, the stamp or the completion flag. */
  lemma {:induction false} ApplyFieldsBookkeeping(parse: DateParser, r: AuditRecord, node: Json,
                                                 fields: seq<FieldDef>, messageType: string)
    ensures var r' := ApplyFields(parse, r, node, fields, messageType);
      r'.id == r.id && r'.indexedAt == r.indexedAt && r'.isComplete == r.isComplete
    decreases |fields|
  {
    if fields != [] {
      ApplyFieldsBookkeeping(parse, r, node, fields[..|fields| - 1], messageType);
    }
  }

  lemma {:induction false} CustomEntriesSnoc(node: Json, fields: seq<FieldDef>, messageType: string)
    requires fields != []
    ensures CustomEntries(node, fields, messageType)
         == CustomEntries(node, fields[..|fields| - 1], messageType)
            + CustomEntry(node, fields[|fields| - 1], messageType)
    decreases |fields|
  {
    if |fields| > 1 {
      CustomEntriesSnoc(node, fields[1..], messageType);
      assert fields[1..][..|fields[1..]| - 1] == fields[..|fields| - 1][1..];
    }
  }

  /**
    The custom-field array after extraction is the one before, followed by one entry per
    applicable Custom definition whose path resolves, in configuration order, duplicates
    kept.
   */
  lemma {:induction false} CustomFieldsCollected(parse: DateParser, r: AuditRecord, node: Json,
                                                fields: seq<FieldDef>, messageType: string)
    ensures ApplyFields(parse, r, node, fields, messageType).customFields
         == r.customFields + CustomEntries(node, fields, messageType)
    decreases |fields|
  {
    if fields != [] {
      CustomFieldsCollected(parse, r, node, fields[..|fields| - 1], messageType);
      CustomEntriesSnoc(node, fields, messageType);
    }
  }

  /** setFieldValue: the switch over the canonical names, writing through the setters. */
  method SetFieldValue(parsedData: ParsedAuditData, fieldName: string, value: string,
                       datePattern: Option<string>, parse: DateParser)
    modifies parsedData
    ensures parsedData.Snapshot() == SetField(old(parsedData.Snapshot()), fieldName, value, datePattern, parse)
  {
    match TargetNamed(fieldName)
    case None =>
    case Some(APIName) => parsedData.SetApiName(Some(value));
    case Some(CorrelationID) => parsedData.SetCorrelationId(Some(value));
    case Some(Host) => parsedData.SetHost(Some(value));
    case Some(ParentID) => parsedData.SetParentId(Some(value));
    case Some(RequestPayload) => parsedData.SetRequestPayload(Some(value));
    case Some(ResourcePath) => parsedData.SetResourcePath(Some(value));
    case Some(ResponsePayload) => parsedData.SetResponsePayload(Some(value));
    case Some(Status) => parsedData.SetStatus(Some(value));
    case Some(StatusCode) =>
      var code := ParseInt(value);
      if code.Some? {
        parsedData.SetStatusCode(code);
      }
    case Some(TransactionID) => parsedData.SetTransactionId(Some(value));
    case Some(UniqueTransactionID) => parsedData.SetUniqueTransactionId(Some(value));
    case Some(RequestTime) =>
      var requestTime := ParseDateTime(parse, value, datePattern);
      if requestTime.Some? {
        parsedData.SetRequestTime(requestTime);
      }
    case Some(ResponseTime) =>
      var responseTime := ParseDateTime(parse, value, datePattern);
      if responseTime.Some? {
        parsedData.SetResponseTime(responseTime);
      }
  }

  /** extractMandatoryField: the affinity check, the null checks, the lookup and the switch. */
  method ExtractMandatoryField(messageNode: Json, parsedData: ParsedAuditData, field: FieldDef,
                               messageType: string, parse: DateParser)
    modifies parsedData
    ensures parsedData.Snapshot() == MandatoryUpdate(parse, old(parsedData.Snapshot()), messageNode, field, messageType)
    ensures !Applies(field.messageType, messageType) || field.field.None? || PathValue(messageNode, field.path).None?
            ==> parsedData.Snapshot() == old(parsedData.Snapshot())
    ensures Applies(field.messageType, messageType) && field.field.Some? && PathValue(messageNode, field.path).Some?
            ==> parsedData.Snapshot() == SetField(old(parsedData.Snapshot()), field.field.value,
                                                  PathValue(messageNode, field.path).value, field.datePattern, parse)
  {
    if !Applies(field.messageType, messageType) {
      return;
    }
    if field.path.Some? && field.field.Some? {
      var value := ExtractFieldByPath(messageNode, field.path);
      if value.Some? {
        SetFieldValue(parsedData, field.field.value, value.value, field.datePattern, parse);
      }
    }
  }

  /** extractCustomField: the null checks, the lookup and the append. */
  method ExtractCustomField(messageNode: Json, parsedData: ParsedAuditData, fieldName: Option<string>,
                            jsonPath: Option<string>)
    modifies parsedData
    ensures parsedData.Snapshot() == CustomUpdate(old(parsedData.Snapshot()), messageNode, fieldName, jsonPath)
  {
    if jsonPath.Some? && fieldName.Some? {
      var value := ExtractFieldByPath(messageNode, jsonPath);
      if value.Some? {
        parsedData.AddCustomField(fieldName.value, value.value);
      }
    }
  }

  /** extractFieldsFromMessage: the loop over the configuration, proved to compute ApplyFields. */
  method ExtractFieldsFromMessage(messageNode: Json, parsedData: ParsedAuditData,
                                  fieldConfig: seq<FieldDef>, messageType: string, parse: DateParser)
    modifies parsedData
    ensures parsedData.Snapshot() == ApplyFields(parse, old(parsedData.Snapshot()), messageNode, fieldConfig, messageType)
  {
    var i := 0;
    while i < |fieldConfig|
      invariant 0 <= i <= |fieldConfig|
      invariant parsedData.Snapshot()
             == ApplyFields(parse, old(parsedData.Snapshot()), messageNode, fieldConfig[..i], messageType)
    {
      var field := fieldConfig[i];
      if field.keyStatus == Some("Mandatory") {
        ExtractMandatoryField(messageNode, parsedData, field, messageType, parse);
      } else if field.keyStatus == Some("Custom") {
        if Applies(field.messageType, messageType) {
          ExtractCustomField(messageNode, parsedData, field.field, field.path);
        }
      }
      assert fieldConfig[..i + 1][..i] == fieldConfig[..i];
      i := i + 1;
    }
    assert fieldConfig[..i] == fieldConfig;
  }
}
