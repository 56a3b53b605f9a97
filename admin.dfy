/** The admin REST side of the connector: topic create/delete/list/stats and
    connector resolution. HTTP is an oracle from the endpoint requested to the
    response; URL construction and the bearer-token header are not modelled. */
module Admin {

  import opened Wrappers
  import opened Json
  import opened Text

  /** The three resource kinds a connector name is looked up under, in probe order. */
  datatype Kind = FunctionKind | SourceKind | SinkKind

  /** Which of the two per-connector resources is being fetched. */
  datatype Query = StatusQuery | ConfigQuery

  datatype Endpoint =
    | Partitions(topic: string, partitions: int)   // PUT …/{topic}/partitions with body `partitions`
    | TopicPath(topic: string)                      // DELETE …/{topic}
    | Namespace                                     // GET …/persistent/public/default
    | TopicStats(topic: string)                     // GET …/{topic}/stats
    | Functions                                     // GET …/functions/public/default
    | Connector(query: Query, kind: Kind, name: string)
      // GET …/{functions|sources|sinks}/public/default/{name}[/status]

  /** `response.json()` either decodes or raises. */
  datatype Body = Undecodable | Decoded(json: Json)

  datatype Response =
    | Response(status: int, body: Body)
    | RequestFailed                                 // `requests` raised

  type Http = Endpoint -> Response

  const ProbeOrder := [FunctionKind, SourceKind, SinkKind]

  /** The `type` label written into a resolved connector. */
  function KindLabel(k: Kind): string
  {
    match k
    case FunctionKind => "function"
    case SourceKind => "source"
    case SinkKind => "sink"
  }

  predicate HasStatus(r: Response, codes: set<int>)
  {
    r.Response? && r.status in codes
  }

  // ---------------------------------------------------------------- topics

  /** `create_topic` after the connection step: 204 (created) and 409 (already
      exists) both count; any other status or a raised request does not. */
  function CreateTopic(http: Http, topic: string, partitions: int): (ok: bool)
    ensures ok <==> HasStatus(http(Partitions(topic, partitions)), {204, 409})
  {
    match http(Partitions(topic, partitions))
    case RequestFailed => false
    case Response(status, _) => status == 204 || status == 409
  }

  /** `delete_topic`: 204 (deleted) and 404 (not found) both count. */
  function DeleteTopic(http: Http, topic: string): (ok: bool)
    ensures ok <==> HasStatus(http(TopicPath(topic)), {204, 404})
  {
    match http(TopicPath(topic))
    case RequestFailed => false
    case Response(status, _) => status == 204 || status == 404
  }

  /** `list_topics`: the decoded body on exactly 200, `[]` otherwise. */
  function ListTopics(http: Http): (topics: seq<string>)
    ensures var r := http(Namespace);
            HasStatus(r, {200}) && r.body.Decoded? && StringsOf(r.body.json).Some? ==>
              topics == StringsOf(r.body.json).value
    ensures var r := http(Namespace);
            !(HasStatus(r, {200}) && r.body.Decoded? && StringsOf(r.body.json).Some?) ==> topics == []
    ensures topics != [] ==> http(Namespace) == Response(200, Decoded(Strings(topics)))
  {
    match http(Namespace)
    case Response(200, Decoded(j)) =>
      (match StringsOf(j)
       case Some(names) => StringsOfOnlyArrays(j, names); names
       case None => [])
    case _ => []
  }

  /** A 200 answer carrying a written list of topic names lists exactly those names. */
  lemma {:induction false} ListTopicsReadsListing(http: Http, names: seq<string>)
    requires http(Namespace) == Response(200, Decoded(Strings(names)))
    ensures ListTopics(http) == names
  {
    StringsRoundTrip(names);
  }

  /** `get_topic_stats`: the decoded body on exactly 200, `{}` otherwise. */
  function GetTopicStats(http: Http, topic: string): (stats: Json)
    ensures HasStatus(http(TopicStats(topic)), {200}) && http(TopicStats(topic)).body.Decoded? ==>
              stats == http(TopicStats(topic)).body.json
    ensures !(HasStatus(http(TopicStats(topic)), {200}) && http(TopicStats(topic)).body.Decoded?) ==>
              stats == JObj(map[])
  {
    match http(TopicStats(topic))
    case Response(200, Decoded(j)) => j
    case _ => JObj(map[])
  }

  // ------------------------------------------------------ connector lookup

  datatype Probed =
    | Found(kind: Kind, body: Json)   // the first 200 answer, decoded
    | Missing                         // all three answered, none with 200
    | ProbeRaised                     // a request or a decoding raised

  function Decode(k: Kind, b: Body): Probed
  {
    match b
    case Undecodable => ProbeRaised
    case Decoded(j) => Found(k, j)
  }

  /** The cascading lookup of `get_connector_status` / `get_connector_config`:
      function, then source, then sink; the first 200 wins. */
  function Probe(http: Http, q: Query, name: string): Probed
  {
    match http(Connector(q, FunctionKind, name))
    case RequestFailed => ProbeRaised
    case Response(st1, b1) =>
      if st1 == 200 then Decode(FunctionKind, b1)
      else match http(Connector(q, SourceKind, name))
        case RequestFailed => ProbeRaised
        case Response(st2, b2) =>
          if st2 == 200 then Decode(SourceKind, b2)
          else match http(Connector(q, SinkKind, name))
            case RequestFailed => ProbeRaised
            case Response(st3, b3) =>
              if st3 == 200 then Decode(SinkKind, b3) else Missing
  }

  /** Reference definition: try the kinds in the given order and stop at the
      first answer that is a 200 or that raises. */
  function FirstOk(http: Http, q: Query, name: string, kinds: seq<Kind>): Probed
  {
    if kinds == [] then Missing
    else match http(Connector(q, kinds[0], name))
      case RequestFailed => ProbeRaised
      case Response(st, b) => if st == 200 then Decode(kinds[0], b) else FirstOk(http, q, name, kinds[1..])
  }

  /** The hand-unrolled lookup is the ordered search over function, source, sink. */
  lemma ProbeIsFirstOk(http: Http, q: Query, name: string)
    ensures Probe(http, q, name) == FirstOk(http, q, name, ProbeOrder)
  {
    var afterFunction, afterSource := [SourceKind, SinkKind], [SinkKind];
    assert ProbeOrder[0] == FunctionKind && ProbeOrder[1..] == afterFunction;
    assert afterFunction[0] == SourceKind && afterFunction[1..] == afterSource;
    assert afterSource[0] == SinkKind && afterSource[1..] == [];
    assert FirstOk(http, q, name, []) == Missing;
    match http(Connector(q, FunctionKind, name))
    case RequestFailed =>
    case Response(st1, _) =>
      if st1 != 200 {
        assert FirstOk(http, q, name, ProbeOrder) == FirstOk(http, q, name, afterFunction);
        match http(Connector(q, SourceKind, name))
        case RequestFailed =>
        case Response(st2, _) =>
          if st2 != 200 {
            assert FirstOk(http, q, name, afterFunction) == FirstOk(http, q, name, afterSource);
          }
      }
  }

  /** Precedence: a kind is reported only if every kind before it in the probe
      order answered, and answered with something other than 200. */
  lemma ProbePrecedence(http: Http, q: Query, name: string)
    ensures Probe(http, q, name).Found? && Probe(http, q, name).kind != FunctionKind ==>
              !HasStatus(http(Connector(q, FunctionKind, name)), {200}) && http(Connector(q, FunctionKind, name)).Response?
    ensures Probe(http, q, name).Found? && Probe(http, q, name).kind == SinkKind ==>
              !HasStatus(http(Connector(q, SourceKind, name)), {200}) && http(Connector(q, SourceKind, name)).Response?
    ensures Probe(http, q, name).Found? ==>
              http(Connector(q, Probe(http, q, name).kind, name)) == Response(200, Decoded(Probe(http, q, name).body))
    ensures Probe(http, q, name) == Missing <==>
              forall k :: k in ProbeOrder ==> http(Connector(q, k, name)).Response? && !HasStatus(http(Connector(q, k, name)), {200})
  {
  }

  /** The probe stops at the first 200: once the function endpoint answers 200,
      what the source and sink endpoints would answer makes no difference. */
  lemma ProbeStopsAtFirst200(h1: Http, h2: Http, q: Query, name: string)
    requires h1(Connector(q, FunctionKind, name)) == h2(Connector(q, FunctionKind, name))
    requires HasStatus(h1(Connector(q, FunctionKind, name)), {200})
    ensures Probe(h1, q, name) == Probe(h2, q, name)
  {
  }

  /** The dict built from a probe: `{connector_name, <field>, type}` or `{}`. */
  function Descriptor(name: string, field: string, p: Probed): map<string, Json>
  {
    match p
    case Found(k, j) => map["connector_name" := JStr(name), field := j, "type" := JStr(KindLabel(k))]
    case _ => map[]
  }

  /** `get_connector_status`. */
  function GetConnectorStatus(http: Http, name: string): (info: map<string, Json>)
    ensures info == map[] <==> !Probe(http, StatusQuery, name).Found?
    ensures info != map[] ==>
              var p := Probe(http, StatusQuery, name);
              info.Keys == {"connector_name", "status", "type"} && info["connector_name"] == JStr(name)
              && info["status"] == p.body && info["type"] == JStr(KindLabel(p.kind))
  {
    var p := Probe(http, StatusQuery, name);
    var info := Descriptor(name, "status", p);
    assert p.Found? ==> "type" in info;
    info
  }

  /** `get_connector_config`. */
  function GetConnectorConfig(http: Http, name: string): (info: map<string, Json>)
    ensures info == map[] <==> !Probe(http, ConfigQuery, name).Found?
    ensures info != map[] ==>
              var p := Probe(http, ConfigQuery, name);
              info.Keys == {"connector_name", "config", "type"} && info["connector_name"] == JStr(name)
              && info["config"] == p.body && info["type"] == JStr(KindLabel(p.kind))
  {
    var p := Probe(http, ConfigQuery, name);
    var info := Descriptor(name, "config", p);
    assert p.Found? ==> "type" in info;
    info
  }

  // ------------------------------------------------------ classification

  /** `config.get(key, "")` followed by `.lower()`: None when the value is there
      and is not a string (the `.lower()` call raises). */
  function LoweredField(o: map<string, Json>, key: string): Option<string>
  {
    if key !in o then Some("")
    else match o[key]
      case JStr(s) => Some(Lower(s))
      case _ => None
  }

  /** The four indicators for one kind word, over a decoded config. */
  function Indicates(config: Json, word: string, detailsKey: string): Result<bool>
  {
    match config
    case JObj(o) =>
      (match (LoweredField(o, "className"), LoweredField(o, "archive"))
       case (Some(cls), Some(arc)) =>
         Ok(detailsKey in o || word in o || Contains(cls, word) || Contains(arc, word))
       case _ => Raised("AttributeError: field has no attribute 'lower'"))
    case _ => Raised("AttributeError: config has no attribute 'get'")
  }

  /** `_is_connector`. */
  function IsConnector(funcInfo: map<string, Json>, connectorType: string): Result<bool>
  {
    if funcInfo == map[] || "config" !in funcInfo then Ok(false)
    else if connectorType == "source" then Indicates(funcInfo["config"], "source", "sourceDetails")
    else if connectorType == "sink" then Indicates(funcInfo["config"], "sink", "sinkDetails")
    else Ok(false)
  }

  /** A config whose className and archive, when present, are strings. */
  predicate WellTyped(config: Json)
  {
    config.JObj? && LoweredField(config.fields, "className").Some? && LoweredField(config.fields, "archive").Some?
  }

  /** The classifier in full: no config, or a type other than source/sink, is
      never a connector; a well-typed config is a source exactly when one of the
      four source indicators holds (sink symmetric); anything else raises. */
  lemma IsConnectorCases(funcInfo: map<string, Json>, t: string)
    ensures "config" !in funcInfo ==> IsConnector(funcInfo, t) == Ok(false)
    ensures t != "source" && t != "sink" ==> IsConnector(funcInfo, t) == Ok(false)
    ensures "config" in funcInfo && (t == "source" || t == "sink") ==>
              var c := funcInfo["config"];
              (IsConnector(funcInfo, t).Raised? <==> !WellTyped(c))
              && (WellTyped(c) ==>
                   (IsConnector(funcInfo, t) == Ok(true) <==>
                      (t + "Details") in c.fields || t in c.fields
                      || Contains(Lower(GetOr(StrAt(c.fields, "className"), "")), t)
                      || Contains(Lower(GetOr(StrAt(c.fields, "archive"), "")), t)))
  {
    if "config" in funcInfo && (t == "source" || t == "sink") {
      var c := funcInfo["config"];
      assert funcInfo != map[];
      if WellTyped(c) {
        assert t == "source" ==> t + "Details" == "sourceDetails";
        assert t == "sink" ==> t + "Details" == "sinkDetails";
        LoweredFieldIsLower(c.fields, "className");
        LoweredFieldIsLower(c.fields, "archive");
      }
    }
  }

  /** The raw string under `key`, "" when absent, None when not a string. */
  function StrAt(o: map<string, Json>, key: string): Option<string>
  {
    if key !in o then Some("") else if o[key].JStr? then Some(o[key].s) else None
  }

  lemma LoweredFieldIsLower(o: map<string, Json>, key: string)
    requires LoweredField(o, key).Some?
    ensures StrAt(o, key).Some? && LoweredField(o, key) == Some(Lower(StrAt(o, key).value))
  {
  }

  // ------------------------------------------------------ connector listing

  /** A function name counts as a connector of type `t` when its config
      resolves and classifies as `t`. */
  predicate Classified(http: Http, name: string, t: string)
  {
    Verdict(http, name, t) == Ok(true)
  }

  predicate ClassifyRaises(http: Http, name: string, t: string)
  {
    Verdict(http, name, t).Raised?
  }

  /** One step of the loop: `func_info and self._is_connector(func_info, t)`. */
  function Verdict(http: Http, name: string, t: string): Result<bool>
  {
    var info := GetConnectorConfig(http, name);
    if info == map[] then Ok(false) else IsConnector(info, t)
  }

  /** The loop of `list_connectors` as a fold: the names kept, or the exception
      that ended it. */
  function Select(http: Http, names: seq<string>, t: string): Result<seq<string>>
  {
    if names == [] then Ok([])
    else
      match (Verdict(http, names[0], t), Select(http, names[1..], t))
      case (Raised(e), _) => Raised(e)
      case (_, Raised(e)) => Raised(e)
      case (Ok(keep), Ok(rest)) => Ok(if keep then [names[0]] + rest else rest)
  }

  /** Reference definition: the order-preserving sublist of names satisfying Classified. */
  function Filtered(http: Http, names: seq<string>, t: string): seq<string>
  {
    if names == [] then []
    else (if Classified(http, names[0], t) then [names[0]] else []) + Filtered(http, names[1..], t)
  }

  /** `xs` is `ys` with some elements left out, order kept. */
  predicate IsSublist<T(==)>(xs: seq<T>, ys: seq<T>)
  {
    if xs == [] then true
    else if ys == [] then false
    else if xs[0] == ys[0] then IsSublist(xs[1..], ys[1..])
    else IsSublist(xs, ys[1..])
  }

  /** The loop raises exactly when some name's config fails to classify, and
      otherwise keeps exactly the Classified names, in order. */
  lemma SelectIsFilter(http: Http, names: seq<string>, t: string)
    ensures Select(http, names, t).Raised? <==> exists i :: 0 <= i < |names| && ClassifyRaises(http, names[i], t)
    ensures Select(http, names, t).Ok? ==> Select(http, names, t).value == Filtered(http, names, t)
  {
    SelectRaisesIff(http, names, t);
    SelectKeepsFiltered(http, names, t);
  }

  lemma {:induction false} SelectRaisesIff(http: Http, names: seq<string>, t: string)
    ensures Select(http, names, t).Raised? <==> exists i :: 0 <= i < |names| && ClassifyRaises(http, names[i], t)
  {
    if names != [] {
      SelectRaisesIff(http, names[1..], t);
      if exists i :: 0 <= i < |names[1..]| && ClassifyRaises(http, names[1..][i], t) {
        var i :| 0 <= i < |names[1..]| && ClassifyRaises(http, names[1..][i], t);
        assert ClassifyRaises(http, names[i + 1], t);
      }
      if exists i :: 0 <= i < |names| && ClassifyRaises(http, names[i], t) {
        var i :| 0 <= i < |names| && ClassifyRaises(http, names[i], t);
        if i > 0 { assert ClassifyRaises(http, names[1..][i - 1], t); }
      }
    }
  }

  lemma {:induction false} SelectKeepsFiltered(http: Http, names: seq<string>, t: string)
    ensures Select(http, names, t).Ok? ==> Select(http, names, t).value == Filtered(http, names, t)
  {
    if names != [] {
      SelectKeepsFiltered(http, names[1..], t);
    }
  }

  /** Filtered keeps order and keeps a name exactly when it is Classified. */
  lemma FilteredIsSublist(http: Http, names: seq<string>, t: string)
    ensures IsSublist(Filtered(http, names, t), names)
    ensures forall n :: n in Filtered(http, names, t) <==> n in names && Classified(http, n, t)
  {
    FilteredKeepsOrder(http, names, t);
    FilteredMembers(http, names, t);
  }

  lemma {:induction false} FilteredKeepsOrder(http: Http, names: seq<string>, t: string)
    ensures IsSublist(Filtered(http, names, t), names)
  {
    if names != [] {
      FilteredKeepsOrder(http, names[1..], t);
      var rest := Filtered(http, names[1..], t);
      if Classified(http, names[0], t) {
        assert Filtered(http, names, t) == [names[0]] + rest;
        assert ([names[0]] + rest)[1..] == rest;
      } else {
        assert Filtered(http, names, t) == rest;
        SublistOfTail(rest, names);
      }
    }
  }

  lemma {:induction false} FilteredMembers(http: Http, names: seq<string>, t: string)
    ensures forall n :: n in Filtered(http, names, t) <==> n in names && Classified(http, n, t)
  {
    if names != [] {
      FilteredMembers(http, names[1..], t);
      assert names == [names[0]] + names[1..];
    }
  }

  lemma {:induction false} SublistOfTail<T>(xs: seq<T>, ys: seq<T>)
    requires ys != [] && IsSublist(xs, ys[1..])
    ensures IsSublist(xs, ys)
    decreases |ys|, 0
  {
    if xs != [] && xs[0] == ys[0] {
      SublistDropHead(xs, ys[1..]);
    }
  }

  lemma {:induction false} SublistDropHead<T>(xs: seq<T>, ys: seq<T>)
    requires xs != [] && IsSublist(xs, ys)
    ensures IsSublist(xs[1..], ys)
    decreases |ys|, 1
  {
    if xs[0] == ys[0] {
      if xs[1..] != [] { SublistOfTail(xs[1..], ys); }
    } else {
      SublistDropHead(xs, ys[1..]);
      if xs[1..] != [] { SublistOfTail(xs[1..], ys); }
    }
  }

  /** `list_connectors` as the value it returns. */
  function ListConnectorsSpec(http: Http, t: string): seq<string>
  {
    if t != "source" && t != "sink" then []
    else match http(Functions)
      case Response(200, Decoded(j)) =>
        (match StringsOf(j)
         case Some(names) => (match Select(http, names, t) case Ok(kept) => kept case Raised(_) => [])
         case None => [])
      case _ => []
  }

  /** `list_connectors`: the loop over the listed function names, appending each
      one whose config classifies as `connectorType`. */
  method ListConnectors(http: Http, connectorType: string) returns (connectors: seq<string>)
    ensures connectors == ListConnectorsSpec(http, connectorType)
  {
    if connectorType != "source" && connectorType != "sink" {
      return [];
    }
    var response := http(Functions);
    if !(response.Response? && response.status == 200 && response.body.Decoded?) {
      return [];
    }
    var all := StringsOf(response.body.json);
    if all.None? {
      return [];
    }
    var kept := SelectLoop(http, all.value, connectorType);
    connectors := if kept.Ok? then kept.value else [];
  }

  /** The `for` loop of `list_connectors`; an exception raised inside it ends
      the loop and reaches the handler that returns the empty list. */
  method SelectLoop(http: Http, names: seq<string>, connectorType: string) returns (r: Result<seq<string>>)
    ensures r == Select(http, names, connectorType)
  {
    var connectors := [];
    var i := 0;
    assert names[i..] == names;
    assert Prepend([], Select(http, names, connectorType)) == Select(http, names, connectorType) by {
      match Select(http, names, connectorType)
      case Raised(_) =>
      case Ok(rest) => assert [] + rest == rest;
    }
    while i < |names|
      invariant 0 <= i <= |names|
      invariant Select(http, names, connectorType) == Prepend(connectors, Select(http, names[i..], connectorType))
    {
      PrependStep(http, names, i, connectorType, connectors);
      var info := GetConnectorConfig(http, names[i]);
      if info != map[] {
        var verdict := IsConnector(info, connectorType);
        assert verdict == Verdict(http, names[i], connectorType);
        if verdict.Raised? {
          return Raised(verdict.error);
        }
        if verdict.value {
          connectors := connectors + [names[i]];
        }
      }
      i := i + 1;
    }
    assert names[i..] == [] && connectors + [] == connectors;
    return Ok(connectors);
  }

  function Prepend(acc: seq<string>, r: Result<seq<string>>): Result<seq<string>>
  {
    match r
    case Ok(rest) => Ok(acc + rest)
    case Raised(e) => Raised(e)
  }

  /** One turn of the loop, stated on the fold. */
  lemma PrependStep(http: Http, names: seq<string>, i: nat, t: string, acc: seq<string>)
    requires i < |names|
    ensures Prepend(acc, Select(http, names[i..], t)) ==
              match Verdict(http, names[i], t)
              case Raised(e) => Raised(e)
              case Ok(keep) => Prepend(if keep then acc + [names[i]] else acc, Select(http, names[i + 1..], t))
  {
    assert names[i..] != [] && names[i..][0] == names[i] && names[i..][1..] == names[i + 1..];
    match Select(http, names[i + 1..], t)
    case Raised(_) =>
    case Ok(rest) =>
      assert acc + ([names[i]] + rest) == acc + [names[i]] + rest;
  }

  /** What `list_connectors` promises: `[]` for an unknown type whatever the
      cluster answers; otherwise an order-preserving sublist of the listed names,
      each of them Classified. */
  lemma ListConnectorsProperties(http: Http, t: string)
    ensures t != "source" && t != "sink" ==> ListConnectorsSpec(http, t) == []
    ensures var r := ListConnectorsSpec(http, t);
            r != [] ==>
              (&& http(Functions).Response? && http(Functions).status == 200
               && http(Functions).body.Decoded? && StringsOf(http(Functions).body.json).Some?
               && IsSublist(r, StringsOf(http(Functions).body.json).value)
               && forall n :: n in r ==> Classified(http, n, t))
  {
    var r := ListConnectorsSpec(http, t);
    if r != [] {
      var names := StringsOf(http(Functions).body.json).value;
      SelectIsFilter(http, names, t);
      FilteredIsSublist(http, names, t);
    }
  }

  /** The dict `get_all_connectors` returns. */
  datatype ConnectorSummary = ConnectorSummary(
    source: seq<string>,
    sink: seq<string>,
    totalSource: int,
    totalSink: int,
    total: int)

  /** `get_all_connectors`. Its zeroed fallback is never reached, because
      ListConnectors never raises. */
  method GetAllConnectors(http: Http) returns (summary: ConnectorSummary)
    ensures summary.source == ListConnectorsSpec(http, "source")
    ensures summary.sink == ListConnectorsSpec(http, "sink")
    ensures summary.totalSource == |summary.source| && summary.totalSink == |summary.sink|
    ensures summary.total == summary.totalSource + summary.totalSink
  {
    var sourceConnectors := ListConnectors(http, "source");
    var sinkConnectors := ListConnectors(http, "sink");
    summary := ConnectorSummary(
      sourceConnectors, sinkConnectors,
      |sourceConnectors|, |sinkConnectors|, |sourceConnectors| + |sinkConnectors|);
  }
}
