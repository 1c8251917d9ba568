/**
  The document indexed into Elasticsearch after correlating a REQUEST with its RESPONSE:
  a mutable object in the processors (ParsedAuditData), and its value (AuditRecord).
 */
module AuditModel {
  import opened Wrappers
  import opened JavaLang

  /** A LocalDateTime, as nanoseconds on one local time line. */
  type DateTime = int

  const NanosPerMinute: int := 60 * 1_000_000_000

  /**
    The value of a ParsedAuditData at one moment. Nullable Java fields are Options;
    customFields is the array of (name, value) pairs the dynamic processor appends to.
   */
  datatype AuditRecord = AuditRecord(
    id: Option<string>,
    apiName: Option<string>,
    correlationId: Option<string>,
    host: Option<string>,
    parentId: Option<string>,
    requestPayload: Option<string>,
    requestTime: Option<DateTime>,
    resourcePath: Option<string>,
    responsePayload: Option<string>,
    responseTime: Option<DateTime>,
    status: Option<string>,
    statusCode: Option<Int32>,
    transactionId: Option<string>,
    uniqueTransactionId: Option<string>,
    indexedAt: DateTime,
    isComplete: bool,
    customFields: seq<(string, string)>)

  /** What the no-argument constructor leaves: stamped with `now`, not complete, all else null. */
  function Blank(now: DateTime): AuditRecord {
    AuditRecord(None, None, None, None, None, None, None, None, None, None, None, None,
                None, None, now, false, [])
  }

  /** What the one-argument constructor leaves: the four identifiers all set to the id given. */
  function Seeded(correlationId: Option<string>, now: DateTime): AuditRecord {
    Blank(now).(correlationId := correlationId, parentId := correlationId,
                transactionId := correlationId, uniqueTransactionId := correlationId)
  }

  class ParsedAuditData {
    var id: Option<string>
    var apiName: Option<string>
    var correlationId: Option<string>
    var host: Option<string>
    var parentId: Option<string>
    var requestPayload: Option<string>
    var requestTime: Option<DateTime>
    var resourcePath: Option<string>
    var responsePayload: Option<string>
    var responseTime: Option<DateTime>
    var status: Option<string>
    var statusCode: Option<Int32>
    var transactionId: Option<string>
    var uniqueTransactionId: Option<string>
    var indexedAt: DateTime
    var isComplete: bool
    var customFields: seq<(string, string)>

    /** The object's current value. */
    function Snapshot(): AuditRecord
      reads this
    {
      AuditRecord(id, apiName, correlationId, host, parentId, requestPayload, requestTime,
                  resourcePath, responsePayload, responseTime, status, statusCode,
                  transactionId, uniqueTransactionId, indexedAt, isComplete, customFields)
    }

    /** new ParsedAuditData(): `now` is the clock reading taken by the constructor. */
    constructor Empty(now: DateTime)
      ensures Snapshot() == Blank(now)
    {
      id, apiName, correlationId, host, parentId := None, None, None, None, None;
      requestPayload, requestTime, resourcePath := None, None, None;
      responsePayload, responseTime, status, statusCode := None, None, None, None;
      transactionId, uniqueTransactionId := None, None;
      indexedAt, isComplete, customFields := now, false, [];
    }

    /** new ParsedAuditData(correlationId). */
    constructor (correlationId: Option<string>, now: DateTime)
      ensures Snapshot() == Seeded(correlationId, now)
    {
      id, apiName, host := None, None, None;
      requestPayload, requestTime, resourcePath := None, None, None;
      responsePayload, responseTime, status, statusCode := None, None, None, None;
      indexedAt, isComplete, customFields := now, false, [];
      this.correlationId := correlationId;
      parentId := correlationId;
      transactionId := correlationId;
      uniqueTransactionId := correlationId;
    }

    method SetId(v: Option<string>)
      modifies this
      ensures Snapshot() == old(Snapshot()).(id := v)
    {
      id := v;
    }

    method SetApiName(v: Option<string>)
      modifies this
      ensures Snapshot() == old(Snapshot()).(apiName := v)
    {
      apiName := v;
    }

    method SetCorrelationId(v: Option<string>)
      modifies this
      ensures Snapshot() == old(Snapshot()).(correlationId := v)
    {
      correlationId := v;
    }

    method SetHost(v: Option<string>)
      modifies this
      ensures Snapshot() == old(Snapshot()).(host := v)
    {
      host := v;
    }

    method SetParentId(v: Option<string>)
      modifies this
      ensures Snapshot() == old(Snapshot()).(parentId := v)
    {
      parentId := v;
    }

    method SetRequestPayload(v: Option<string>)
      modifies this
      ensures Snapshot() == old(Snapshot()).(requestPayload := v)
    {
      requestPayload := v;
    }

    method SetRequestTime(v: Option<DateTime>)
      modifies this
      ensures Snapshot() == old(Snapshot()).(requestTime := v)
    {
      requestTime := v;
    }

    method SetResourcePath(v: Option<string>)
      modifies this
      ensures Snapshot() == old(Snapshot()).(resourcePath := v)
    {
      resourcePath := v;
    }

    method SetResponsePayload(v: Option<string>)
      modifies this
      ensures Snapshot() == old(Snapshot()).(responsePayload := v)
    {
      responsePayload := v;
    }

    method SetResponseTime(v: Option<DateTime>)
      modifies this
      ensures Snapshot() == old(Snapshot()).(responseTime := v)
    {
      responseTime := v;
    }

    method SetStatus(v: Option<string>)
      modifies this
      ensures Snapshot() == old(Snapshot()).(status := v)
    {
      status := v;
    }

    method SetStatusCode(v: Option<Int32>)
      modifies this
      ensures Snapshot() == old(Snapshot()).(statusCode := v)
    {
      statusCode := v;
    }

    method SetTransactionId(v: Option<string>)
      modifies this
      ensures Snapshot() == old(Snapshot()).(transactionId := v)
    {
      transactionId := v;
    }

    method SetUniqueTransactionId(v: Option<string>)
      modifies this
      ensures Snapshot() == old(Snapshot()).(uniqueTransactionId := v)
    {
      uniqueTransactionId := v;
    }

    method SetIndexedAt(v: DateTime)
      modifies this
      ensures Snapshot() == old(Snapshot()).(indexedAt := v)
    {
      indexedAt := v;
    }

    method SetIsComplete(v: bool)
      modifies this
      ensures Snapshot() == old(Snapshot()).(isComplete := v)
    {
      isComplete := v;
    }

    /** Appends one (name, value) pair to the custom-field array. */
    method AddCustomField(name: string, value: string)
      modifies this
      ensures Snapshot() == old(Snapshot()).(customFields := old(customFields) + [(name, value)])
    {
      customFields := customFields + [(name, value)];
    }

    /**
      The document id the indexer uses: an id already set is kept, otherwise the freshly
      generated one (a random UUID in the indexer) is stored.
     */
    method EnsureDocumentId(generated: string)
      modifies this
      ensures Snapshot() == old(Snapshot()).(id := Some(old(id).GetOr(generated)))
      ensures old(id).Some? ==> id == old(id)
    {
      if id.None? {
        id := Some(generated);
      }
    }
  }

  /** The values of a map of record objects. */
  function Snapshots(m: map<string, ParsedAuditData>): map<string, AuditRecord>
    reads m.Values
  {
    map id | id in m :: m[id].Snapshot()
  }

  /** Record objects no step has touched still have the values they had. */
  twostate lemma SnapshotsKept(m: map<string, ParsedAuditData>)
    requires forall id :: id in m ==> old(allocated(m[id])) && unchanged(m[id])
    ensures Snapshots(m) == old(Snapshots(m))
  {
  }
}
