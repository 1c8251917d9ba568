/**
  The Jackson tree an inbound message is parsed into, and the dot-separated path lookup
  (extractFieldByPath) that both the consumer manager and the dynamic processor use.
 */
module Json {
  import opened Wrappers
  import opened JavaLang

  /**
    A parsed JSON value. Objects are keyed by member name (Jackson keeps one value per
    name); integral numbers carry their value, every other number the text Jackson
    prints for it.
   */
  datatype Json =
    | JNull
    | JBool(b: bool)
    | JNumber(n: int)
    | JFloat(repr: string)
    | JString(s: string)
    | JArray(items: seq<Json>)
    | JObject(members: map<string, Json>)

  /** JsonNode.asText(): the text of a scalar, "" for an array or an object. */
  function AsText(node: Json): string {
    match node
    case JNull => "null"
    case JBool(b) => if b then "true" else "false"
    case JNumber(n) => IntToText(n)
    case JFloat(repr) => repr
    case JString(s) => s
    case JArray(_) => ""
    case JObject(_) => ""
  }

  /** JsonNode.get(name): the member of an object; None (Java null) on any other node. */
  function Get(node: Json, name: string): Option<Json> {
    if node.JObject? && name in node.members then Some(node.members[name]) else None
  }

  /** The node reached by following `segments` from `node`, None once a step is missing. */
  function Resolve(node: Json, segments: seq<string>): Option<Json>
    decreases |segments|
  {
    if segments == [] then Some(node)
    else match Get(node, segments[0])
      case None => None
      case Some(child) => Resolve(child, segments[1..])
  }

  /**
    What extractFieldByPath returns: None for a null or empty path; otherwise the path is
    split on '.', walked from the root, and the node reached is rendered with asText
    unless it is missing or a JSON null.
   */
  function PathValue(node: Json, path: Option<string>): Option<string> {
    if path.None? || path.value == [] then None
    else match Resolve(node, Split(path.value, '.'))
      case None => None
      case Some(JNull) => None
      case Some(v) => Some(AsText(v))
  }

  /** extractFieldByPath: the segment loop of the source, proved to compute PathValue. */
  method ExtractFieldByPath(node: Json, path: Option<string>) returns (value: Option<string>)
    ensures value == PathValue(node, path)
  {
    if path.None? || path.value == [] {
      return None;
    }
    var pathParts := Split(path.value, '.');
    var current: Option<Json> := Some(node);
    var i := 0;
    while i < |pathParts|
      invariant 0 <= i <= |pathParts|
      invariant current.Some? ==> Resolve(node, pathParts) == Resolve(current.value, pathParts[i..])
      invariant current.None? ==> Resolve(node, pathParts) == None
    {
      if current.None? {
        return None;
      }
      assert pathParts[i..][1..] == pathParts[i + 1..];
      current := Get(current.value, pathParts[i]);
      i := i + 1;
    }
    value := if current.Some? && !current.value.JNull? then Some(AsText(current.value)) else None;
  }

  /** Walking `a + b` is walking `a`, then walking `b` from where `a` ended. */
  lemma {:induction false} ResolveAppend(node: Json, a: seq<string>, b: seq<string>)
    ensures Resolve(node, a + b) ==
      match Resolve(node, a)
      case None => None
      case Some(mid) => Resolve(mid, b)
    decreases |a|
  {
    if a == [] {
      assert a + b == b;
    } else {
      assert (a + b)[0] == a[0] && (a + b)[1..] == a[1..] + b;
      match Get(node, a[0])
      case None =>
      case Some(child) => ResolveAppend(child, a[1..], b);
    }
  }

  /**
    A path written as non-empty, dot-free segments joined by dots (`metadata.client_ip`)
    looks up exactly those segments in turn.
   */
  lemma PathOfSegments(node: Json, segments: seq<string>)
    requires |segments| >= 1
    requires forall i :: 0 <= i < |segments| ==> segments[i] != [] && '.' !in segments[i]
    ensures PathValue(node, Some(Join(segments, '.'))) ==
      match Resolve(node, segments)
      case None => None
      case Some(JNull) => None
      case Some(v) => Some(AsText(v))
  {
    SplitOfJoin(segments, '.');
    assert |Join(segments, '.')| >= |segments[0]|;
  }

  /** A path that is one dot-free key looks that key up in the root. */
  lemma KeyPath(node: Json, key: string)
    requires key != [] && '.' !in key
    ensures PathValue(node, Some(key)) ==
      match Get(node, key)
      case None => None
      case Some(JNull) => None
      case Some(v) => Some(AsText(v))
  {
    assert Split(key, '.') == [key];
    assert Resolve(node, [key]) == match Get(node, key) case None => None case Some(child) => Resolve(child, []);
  }

  /**
    A path made only of dots splits into no segment at all, so it names the root: the
    lookup yields the root's asText ("" for an object).
   */
  lemma DotsOnlyPathNamesRoot(node: Json, path: string)
    requires path != [] && forall i :: 0 <= i < |path| ==> path[i] == '.'
    ensures PathValue(node, Some(path)) == if node.JNull? then None else Some(AsText(node))
  {
    SplitEmptyIff(path, '.');
  }
}
