/**
  What the consumer manager does to a message before handing it on: it discovers the API
  name (from a configured "APIName" mapping or from fixed fallback keys) and adds the
  connection name and the API name to the message, wrapping anything that is not a JSON
  object.
 */
module Enrichment {
  import opened Wrappers
  import opened JavaLang
  import opened Json
  import opened Entities
  import Correlation
  import DynamicProcessing

  /** The Jackson calls the manager makes. */
  datatype EnrichEnv = EnrichEnv(
    readTree: string -> Option<Json>,              // None when parsing throws
    writeValueAsString: Json -> Option<string>)    // None when serialisation throws

  /** `(String) map.get(key)` on a deserialised configuration row. */
  datatype Cast = Absent | Text(s: string) | NotText

  function CastText(row: map<string, Json>, key: string): (c: Cast)
    ensures c.Text? <==> key in row && row[key].JString?
    ensures c == Absent <==> key !in row || row[key].JNull?
  {
    if key !in row || row[key].JNull? then Absent
    else if row[key].JString? then Text(row[key].s)
    else NotText
  }

  /**
    How the search through the configured rows ends: no row maps APIName; the first row
    that does decides the name (possibly None); or a null row or a non-string field or
    path throws, which the caller turns into no name.
   */
  datatype Search = NoMapping | Decided(name: Option<string>) | Thrown

  /** The loop over the configured rows, in order. */
  function SearchMapping(node: Json, rows: seq<Option<map<string, Json>>>): Search
    decreases |rows|
  {
    if rows == [] then NoMapping
    else if rows[0].None? then Thrown
    else
      var field := CastText(rows[0].value, "field");
      var path := CastText(rows[0].value, "path");
      if field.NotText? || path.NotText? then Thrown
      else if field == Text("APIName") && path.Text? then Decided(PathValue(node, Some(path.s)))
      else SearchMapping(node, rows[1..])
  }

  /** The fixed fallback keys, tried in order: api_name, apiName, API_NAME. */
  function FallbackApiName(node: Json): (name: Option<string>)
    ensures name.Some? ==>
      (name == PathValue(node, Some("api_name")) || name == PathValue(node, Some("apiName"))
       || name == PathValue(node, Some("API_NAME")))
    ensures name.None? <==>
      (PathValue(node, Some("api_name")).None? && PathValue(node, Some("apiName")).None?
       && PathValue(node, Some("API_NAME")).None?)
    ensures PathValue(node, Some("api_name")).Some? ==> name == PathValue(node, Some("api_name"))
    ensures PathValue(node, Some("api_name")).None? && PathValue(node, Some("apiName")).Some?
            ==> name == PathValue(node, Some("apiName"))
  {
    var first := PathValue(node, Some("api_name"));
    if first.Some? then first
    else
      var second := PathValue(node, Some("apiName"));
      if second.Some? then second else PathValue(node, Some("API_NAME"))
  }

  /** extractApiNameFromMessage as a function of the message tree and the settings. */
  function ApiNameOf(node: Json, details: KafkaConnectionDetails): Option<string> {
    var search := if details.fields.None? then NoMapping else SearchMapping(node, details.fields.value);
    match search
    case NoMapping => FallbackApiName(node)
    case Decided(name) => name
    case Thrown => None
  }

  /** extractApiNameFromMessage: the early-return loop, then the fallbacks. */
  method ExtractApiNameFromMessage(messageNode: Json, details: KafkaConnectionDetails) returns (apiName: Option<string>)
    ensures apiName == ApiNameOf(messageNode, details)
  {
    if details.fields.Some? {
      var rows := details.fields.value;
      var i := 0;
      while i < |rows|
        invariant 0 <= i <= |rows|
        invariant SearchMapping(messageNode, rows) == SearchMapping(messageNode, rows[i..])
      {
        assert rows[i..][1..] == rows[i + 1..];
        if rows[i].None? {
          return None;
        }
        var elasticsearchField := CastText(rows[i].value, "field");
        var jsonPath := CastText(rows[i].value, "path");
        if elasticsearchField.NotText? || jsonPath.NotText? {
          return None;
        }
        if elasticsearchField == Text("APIName") && jsonPath.Text? {
          apiName := ExtractFieldByPath(messageNode, Some(jsonPath.s));
          return;
        }
        i := i + 1;
      }
    }
    apiName := ExtractFieldByPath(messageNode, Some("api_name"));
    if apiName.None? {
      apiName := ExtractFieldByPath(messageNode, Some("apiName"));
    }
    if apiName.None? {
      apiName := ExtractFieldByPath(messageNode, Some("API_NAME"));
    }
  }

  /** ObjectNode.put(name, text): a null text is stored as a JSON null. */
  function TextNode(text: Option<string>): Json {
    if text.None? then JNull else JString(text.value)
  }

  /**
    The tree that is written back for a message that parsed: an object gets
    connectionName (and extractedApiName when a name was found) put into it; any other
    value is wrapped with the original text.
   */
  function AnnotatedNode(node: Json, originalMessage: string, connectionName: Option<string>,
                         apiName: Option<string>): Json
  {
    var base := if node.JObject? then node.members else map["originalMessage" := JString(originalMessage)];
    var named := base["connectionName" := TextNode(connectionName)];
    JObject(if apiName.Some? then named["extractedApiName" := JString(apiName.value)] else named)
  }

  /** The wrapper written when the message does not parse (or its annotation cannot be written). */
  function PlainWrapper(originalMessage: string, connectionName: Option<string>): Json {
    JObject(map["originalMessage" := JString(originalMessage), "connectionName" := TextNode(connectionName)])
  }

  /** addConnectionNameToMessage as a function of the Jackson oracles. */
  function EnrichedMessage(env: EnrichEnv, originalMessage: string, connectionName: Option<string>,
                           details: KafkaConnectionDetails): string
  {
    var annotated := match env.readTree(originalMessage)
      case None => None
      case Some(node) =>
        env.writeValueAsString(AnnotatedNode(node, originalMessage, connectionName, ApiNameOf(node, details)));
    if annotated.Some? then annotated.value
    else env.writeValueAsString(PlainWrapper(originalMessage, connectionName)).GetOr(originalMessage)
  }

  /** addConnectionNameToMessage: put the names into the parsed tree, or wrap the message. */
  method AddConnectionNameToMessage(env: EnrichEnv, originalMessage: string, connectionName: Option<string>,
                                    details: KafkaConnectionDetails) returns (enhanced: string)
    ensures enhanced == EnrichedMessage(env, originalMessage, connectionName, details)
  {
    var parsed := env.readTree(originalMessage);
    if parsed.Some? {
      var jsonNode := parsed.value;
      var apiName := ExtractApiNameFromMessage(jsonNode, details);
      var objectNode: map<string, Json>;
      if jsonNode.JObject? {
        objectNode := jsonNode.members;
      } else {
        objectNode := map["originalMessage" := JString(originalMessage)];
      }
      objectNode := objectNode["connectionName" := TextNode(connectionName)];
      if apiName.Some? {
        objectNode := objectNode["extractedApiName" := JString(apiName.value)];
      }
      var written := env.writeValueAsString(JObject(objectNode));
      if written.Some? {
        return written.value;
      }
    }
    var written := env.writeValueAsString(PlainWrapper(originalMessage, connectionName));
    enhanced := if written.Some? then written.value else originalMessage;
  }

  // ---------------------------------------------------------------------------
  // Properties
  // ---------------------------------------------------------------------------

  /**
    The first row naming APIName with a string path decides the name, even when that
    path finds nothing, as long as every earlier row is a well-typed non-null object.
   */
  lemma {:induction false} FirstMappingDecides(node: Json, rows: seq<Option<map<string, Json>>>, k: nat)
    requires k < |rows| && rows[k].Some?
    requires CastText(rows[k].value, "field") == Text("APIName") && CastText(rows[k].value, "path").Text?
    requires forall i :: 0 <= i < k ==>
      rows[i].Some? && !CastText(rows[i].value, "field").NotText? && !CastText(rows[i].value, "path").NotText?
      && !(CastText(rows[i].value, "field") == Text("APIName") && CastText(rows[i].value, "path").Text?)
    ensures SearchMapping(node, rows) == Decided(PathValue(node, Some(CastText(rows[k].value, "path").s)))
    decreases k
  {
    if k > 0 {
      FirstMappingDecides(node, rows[1..], k - 1);
    }
  }

  /**
    With no APIName mapping among well-typed rows (or no rows at all), the name is the
    first of api_name, apiName and API_NAME that the message has.
   */
  lemma {:induction false} WithoutMappingFallsBack(node: Json, details: KafkaConnectionDetails)
    requires details.fields.Some? ==> forall i :: 0 <= i < |details.fields.value| ==>
      var row := details.fields.value[i];
      row.Some? && !CastText(row.value, "field").NotText? && !CastText(row.value, "path").NotText?
      && !(CastText(row.value, "field") == Text("APIName") && CastText(row.value, "path").Text?)
    ensures ApiNameOf(node, details) == FallbackApiName(node)
  {
    if details.fields.Some? {
      NoMappingSearch(node, details.fields.value);
    }
  }

  lemma {:induction false} NoMappingSearch(node: Json, rows: seq<Option<map<string, Json>>>)
    requires forall i :: 0 <= i < |rows| ==>
      rows[i].Some? && !CastText(rows[i].value, "field").NotText? && !CastText(rows[i].value, "path").NotText?
      && !(CastText(rows[i].value, "field") == Text("APIName") && CastText(rows[i].value, "path").Text?)
    ensures SearchMapping(node, rows) == NoMapping
    decreases |rows|
  {
    if rows != [] {
      NoMappingSearch(node, rows[1..]);
    }
  }

  /**
    An object message keeps every other member; connectionName is put (overwriting), and
    extractedApiName is put only when a name was found, otherwise left as it was.
   */
  lemma ObjectKeepsItsMembers(members: map<string, Json>, originalMessage: string, connectionName: Option<string>,
                              apiName: Option<string>)
    ensures var out := AnnotatedNode(JObject(members), originalMessage, connectionName, apiName).members;
      out.Keys == members.Keys + {"connectionName"} + (if apiName.Some? then {"extractedApiName"} else {})
      && (forall k :: k in members && k != "connectionName" && k != "extractedApiName" ==> out[k] == members[k])
      && out["connectionName"] == TextNode(connectionName)
      && (apiName.Some? ==> out["extractedApiName"] == JString(apiName.value))
      && (apiName.None? && "extractedApiName" in members ==> out["extractedApiName"] == members["extractedApiName"])
  {
  }

  /** Any other JSON value is replaced by a wrapper holding the original text and the names. */
  lemma NonObjectIsWrapped(node: Json, originalMessage: string, connectionName: Option<string>, apiName: Option<string>)
    requires !node.JObject?
    ensures var out := AnnotatedNode(node, originalMessage, connectionName, apiName).members;
      out.Keys == {"originalMessage", "connectionName"} + (if apiName.Some? then {"extractedApiName"} else {})
      && out["originalMessage"] == JString(originalMessage)
  {
  }

  /**
    A message that does not parse reaches the processor wrapped without extractedApiName,
    so the dynamic processor, reading the wrapper back, drops it and changes nothing.
   */
  lemma UnparsableMessageIsDropped(env: EnrichEnv, penv: DynamicProcessing.Env, s: Correlation.CorrelatorState,
                                   originalMessage: string, connectionName: Option<string>,
                                   details: KafkaConnectionDetails, now: int)
    requires env.readTree(originalMessage).None?
    requires env.writeValueAsString(PlainWrapper(originalMessage, connectionName)).Some?
    requires var text := env.writeValueAsString(PlainWrapper(originalMessage, connectionName)).value;
      penv.readTree(text) == Some(PlainWrapper(originalMessage, connectionName))
    ensures var enhanced := EnrichedMessage(env, originalMessage, connectionName, details);
      DynamicProcessing.OnMessage(penv, s, enhanced, now) == s
  {
    KeyPath(PlainWrapper(originalMessage, connectionName), "extractedApiName");
  }

  /** A message the processor can route names its API: a parsable message where one was found. */
  lemma FoundNameIsCarried(env: EnrichEnv, originalMessage: string, connectionName: Option<string>,
                           details: KafkaConnectionDetails)
    requires env.readTree(originalMessage).Some?
    requires ApiNameOf(env.readTree(originalMessage).value, details).Some?
    ensures var node := env.readTree(originalMessage).value;
      var out := AnnotatedNode(node, originalMessage, connectionName, ApiNameOf(node, details));
      PathValue(out, Some("extractedApiName")) == ApiNameOf(node, details)
  {
    var node := env.readTree(originalMessage).value;
    var out := AnnotatedNode(node, originalMessage, connectionName, ApiNameOf(node, details));
    KeyPath(out, "extractedApiName");
  }
}
