/**
 * The aggregate store: per-backend health and data, the merged list shown by
 * the charts and table, and the `loading` flag, together with the actions that
 * fill them. Each network call is an injected `Network` function from the
 * request URL to the way that request settles.
 */
module AppStore {
  import opened Js
  import ApiUrl

  const DefaultNodeUrl := "http://localhost:3001"
  const DefaultGoUrl := "http://localhost:3002"
  const HealthPath := "/api/health"
  const NodeDataPath := "/api/node/data"
  const GoDataPath := "/api/go/data"

  /** The body recorded for a backend whose health request was rejected. */
  const ServiceUnavailable: Value := Obj(map["error" := Str("Service unavailable")])

  /** What `await res.json()` does with a response body. */
  datatype Body = Parsed(json: Value) | Unparseable

  /** How one `fetch` settles: rejected (DNS, refused connection, ...) or
      resolved with a response of any HTTP status, whose status is never read. */
  datatype Response = NetworkError(message: string) | Responded(body: Body)

  type Network = string -> Response

  /** The health value one backend contributes: the error marker when its fetch
      was rejected (the rejection message is discarded), its parsed body when it
      responded, and a throw when its body is not JSON. */
  function HealthReading(res: Response): (r: Result<Value>)
    ensures r.Threw? <==> res == Responded(Unparseable)
    ensures res.NetworkError? ==> r == Ok(ServiceUnavailable)
    ensures res.Responded? && res.body.Parsed? ==> r == Ok(res.body.json)
  {
    match res
    case NetworkError(_) => Ok(ServiceUnavailable)
    case Responded(Unparseable) => Threw
    case Responded(Parsed(v)) => Ok(v)
  }

  /** `(await (await fetch(url)).json()).data`: throws on a rejected fetch, on a
      body that is not JSON and on a body that is `null`; a JSON body without a
      `data` field gives `undefined`. */
  function ReadData(res: Response): (r: Result<Value>)
    ensures r.Threw? <==> res.NetworkError? || res.body in {Unparseable, Parsed(Null), Parsed(Undefined)}
    ensures r.Ok? && r.value != Undefined ==>
              res.body.json.Obj? && "data" in res.body.json.fields && r.value == res.body.json.fields["data"]
    ensures res.Responded? && res.body.Parsed? && res.body.json.Obj? ==>
              r == Ok(if "data" in res.body.json.fields then res.body.json.fields["data"] else Undefined)
  {
    match res
    case NetworkError(_) => Threw
    case Responded(Unparseable) => Threw
    case Responded(Parsed(v)) => Property(v, "data")
  }

  /** A data slot `updateAllData` can handle: skipped when falsy, spread when iterable. */
  predicate Spreadable(v: Value)
  {
    !Truthy(v) || Iterable(v)
  }

  /** The items a slot contributes to the merge: nothing when falsy, its spread otherwise. */
  function Contribution(v: Value): (r: Result<seq<Value>>)
    ensures r.Ok? <==> Spreadable(v)
    ensures v.Arr? ==> r == Ok(v.elems)
    ensures !Truthy(v) ==> r == Ok([])
  {
    if Truthy(v) then Spread(v) else Ok([])
  }

  /** What `updateAllData` computes from the two slots: Node's items, then Go's,
      or a TypeError when a truthy slot is not iterable. */
  function Merge(nodeData: Value, goData: Value): (r: Result<seq<Value>>)
    ensures r.Ok? <==> Spreadable(nodeData) && Spreadable(goData)
  {
    match (Contribution(nodeData), Contribution(goData))
    case (Ok(n), Ok(g)) => Ok(n + g)
    case _ => Threw
  }

  /** For any two slots `updateAllData` can handle, the merge is what Node's
      slot contributes followed by what Go's contributes: falsy slots (`null`,
      `undefined`, `0`, `false`, `""`) add nothing, arrays their elements and
      strings their characters. */
  lemma MergeConcatenates(nodeData: Value, goData: Value)
    requires Spreadable(nodeData) && Spreadable(goData)
    ensures Merge(nodeData, goData) == Ok(Contribution(nodeData).value + Contribution(goData).value)
  {
  }

  /** `nodeData ?? []` for the slot values the backends are meant to send. */
  function ItemsOrEmpty(v: Value): seq<Value>
  {
    if v.Arr? then v.elems else []
  }

  /** When both slots hold arrays or nothing (`null`, `undefined`), the merge is
      Node's items followed by Go's, and its length is the sum of theirs. */
  lemma MergeOfLists(nodeData: Value, goData: Value)
    requires nodeData.Arr? || nodeData == Null || nodeData == Undefined
    requires goData.Arr? || goData == Null || goData == Undefined
    ensures Merge(nodeData, goData) == Ok(ItemsOrEmpty(nodeData) + ItemsOrEmpty(goData))
    ensures |Merge(nodeData, goData).value| == |ItemsOrEmpty(nodeData)| + |ItemsOrEmpty(goData)|
  {
    assert Contribution(nodeData) == Ok(ItemsOrEmpty(nodeData));
    assert Contribution(goData) == Ok(ItemsOrEmpty(goData));
  }

  /** The value a data fetch leaves in its own slot when the merge it triggers
      can run: `Some(data.data)` when the request, the JSON parse, the `.data`
      read and the spread all succeed, `None` when the catch branch runs. */
  function Accepted(res: Response): (r: Option<Value>)
    ensures r.Some? <==> ReadData(res).Ok? && Spreadable(ReadData(res).value)
    ensures r.Some? ==> r.value == ReadData(res).value
  {
    match ReadData(res)
    case Ok(v) => if Spreadable(v) then Some(v) else None
    case Threw => None
  }

  /** A missing `data` field is stored as `undefined`, not as an empty list, and
      the merge then simply skips that backend. */
  lemma MissingDataFieldStoresUndefined(fields: map<string, Value>)
    requires "data" !in fields
    ensures Accepted(Responded(Parsed(Obj(fields)))) == Some(Undefined)
    ensures forall goData :: Spreadable(goData) ==> Merge(Undefined, goData) == Contribution(goData)
  {
    forall goData | Spreadable(goData)
      ensures Merge(Undefined, goData) == Contribution(goData)
    {
      var items := Contribution(goData).value;
      assert [] + items == items;
    }
  }

  class Store {
    const nodeApiUrl: string
    const goApiUrl: string

    var nodeHealth: Value
    var goHealth: Value
    var nodeData: Value
    var goData: Value
    var allData: seq<Value>
    var loading: bool

    /** Each data slot is one `updateAllData` can merge, so a fetch that fails
        is never blamed on the other backend's slot. */
    ghost predicate Valid()
      reads this
    {
      Spreadable(nodeData) && Spreadable(goData)
    }

    /** `allData` is the merge of the two slots. Only a successful fetch
        re-establishes this; the catch branches of the fetch actions leave
        `allData` as it was. */
    ghost predicate Merged()
      reads this
    {
      Merge(nodeData, goData) == Ok(allData)
    }

    /** Store creation: both base URLs resolved once from the environment, every
        slot `null`, `allData` empty and `loading` already true. */
    constructor (nodeEnv: Option<string>, goEnv: Option<string>)
      ensures nodeApiUrl == ApiUrl.BuildApiUrl(nodeEnv, DefaultNodeUrl)
      ensures goApiUrl == ApiUrl.BuildApiUrl(goEnv, DefaultGoUrl)
      ensures nodeHealth == Null && goHealth == Null
      ensures nodeData == Null && goData == Null
      ensures allData == [] && loading
      ensures Valid() && Merged()
    {
      nodeApiUrl := ApiUrl.BuildApiUrl(nodeEnv, DefaultNodeUrl);
      goApiUrl := ApiUrl.BuildApiUrl(goEnv, DefaultGoUrl);
      nodeHealth, goHealth := Null, Null;
      nodeData, goData := Null, Null;
      allData := [];
      loading := true;
      new;
      var none: seq<Value> := [];
      assert Merge(Null, Null) == Ok(none + none) && none + none == none;
    }

    /** `updateAllData`: rebuilds `allData` from Node's slot then Go's, skipping
        falsy ones. Spreading a truthy value that is not iterable throws, and
        then `allData` is left as it was. */
    method UpdateAllData() returns (threw: bool)
      modifies this`allData
      ensures threw <==> Merge(nodeData, goData).Threw?
      ensures !threw ==> allData == Merge(nodeData, goData).value && Merged()
      ensures threw ==> allData == old(allData)
    {
      var combined: seq<Value> := [];
      if Truthy(nodeData) {
        var items := Spread(nodeData);
        if items.Threw? {
          return true;
        }
        combined := combined + items.value;
      }
      if Truthy(goData) {
        var items := Spread(goData);
        if items.Threw? {
          return true;
        }
        combined := combined + items.value;
      }
      allData := combined;
      return false;
    }

    /** `fetchNodeData`: on success stores `data.data` and recomputes `allData`;
        on any failure stores `[]` and leaves `allData` as it was. Go's slot,
        the health fields and `loading` are untouched. */
    method FetchNodeData(net: Network)
      requires Valid()
      modifies this`nodeData, this`allData
      ensures Valid()
      ensures var accepted := Accepted(net(nodeApiUrl + NodeDataPath));
              if accepted.Some? then
                nodeData == accepted.value && Merged()
              else
                nodeData == Arr([]) && allData == old(allData)
    {
      var response := net(nodeApiUrl + NodeDataPath);
      var data := ReadData(response);
      if data.Threw? {
        nodeData := Arr([]);
        return;
      }
      nodeData := data.value;
      var threw := UpdateAllData();
      if threw {
        nodeData := Arr([]);
      }
    }

    /** `fetchGoData`: the same as `fetchNodeData` for the Go backend's slot. */
    method FetchGoData(net: Network)
      requires Valid()
      modifies this`goData, this`allData
      ensures Valid()
      ensures var accepted := Accepted(net(goApiUrl + GoDataPath));
              if accepted.Some? then
                goData == accepted.value && Merged()
              else
                goData == Arr([]) && allData == old(allData)
    {
      var response := net(goApiUrl + GoDataPath);
      var data := ReadData(response);
      if data.Threw? {
        goData := Arr([]);
        return;
      }
      goData := data.value;
      var threw := UpdateAllData();
      if threw {
        goData := Arr([]);
      }
    }

    /** `fetchAllData`: both data fetches, each completing atomically after its
        own requests settle, in the order given by `nodeFirst`. Each slot ends
        as its own fetch left it; `allData` is the merge of both when both
        succeed, is untouched when both fail, and otherwise depends on the order:
        the one success merges with the other slot as it stood at that moment. */
    method FetchAllData(net: Network, nodeFirst: bool)
      requires Valid()
      modifies this`nodeData, this`goData, this`allData
      ensures Valid()
      ensures var node := Accepted(net(nodeApiUrl + NodeDataPath));
              var go := Accepted(net(goApiUrl + GoDataPath));
              && nodeData == (if node.Some? then node.value else Arr([]))
              && goData == (if go.Some? then go.value else Arr([]))
              && (node.Some? && go.Some? ==> Merged())
              && (node.None? && go.None? ==> allData == old(allData))
              && (node.Some? && go.None? ==>
                    Ok(allData) == Merge(nodeData, if nodeFirst then old(goData) else Arr([])))
              && (node.None? && go.Some? ==>
                    Ok(allData) == Merge(if nodeFirst then Arr([]) else old(nodeData), goData))
    {
      if nodeFirst {
        FetchNodeData(net);
        FetchGoData(net);
      } else {
        FetchGoData(net);
        FetchNodeData(net);
      }
    }

    /** The synchronous start of `fetchHealthStatus`, before its first await. */
    method BeginHealthCheck()
      modifies this`loading
      ensures loading
    {
      loading := true;
    }

    /** The rest of `fetchHealthStatus`, once both health requests have settled:
        a rejected request reads as the "Service unavailable" marker; if either
        body fails to parse, neither health field changes; `loading` is cleared
        whatever happened. */
    method CompleteHealthCheck(nodeRes: Response, goRes: Response)
      modifies this`nodeHealth, this`goHealth, this`loading
      ensures !loading
      ensures var node := HealthReading(nodeRes);
              var go := HealthReading(goRes);
              if node.Ok? && go.Ok? then
                nodeHealth == node.value && goHealth == go.value
              else
                nodeHealth == old(nodeHealth) && goHealth == old(goHealth)
    {
      var nodeHealthData := ServiceUnavailable;
      var goHealthData := ServiceUnavailable;
      var threw := false;
      if nodeRes.Responded? {
        if nodeRes.body.Parsed? {
          nodeHealthData := nodeRes.body.json;
        } else {
          threw := true;
        }
      }
      if !threw && goRes.Responded? {
        if goRes.body.Parsed? {
          goHealthData := goRes.body.json;
        } else {
          threw := true;
        }
      }
      if !threw {
        nodeHealth, goHealth := nodeHealthData, goHealthData;
      }
      loading := false;
    }

    /** `fetchHealthStatus`: raises `loading`, probes both backends' health
        endpoints, records both readings (or neither), and clears `loading`. */
    method FetchHealthStatus(net: Network)
      modifies this`nodeHealth, this`goHealth, this`loading
      ensures !loading
      ensures var node := HealthReading(net(nodeApiUrl + HealthPath));
              var go := HealthReading(net(goApiUrl + HealthPath));
              if node.Ok? && go.Ok? then
                nodeHealth == node.value && goHealth == go.value
              else
                nodeHealth == old(nodeHealth) && goHealth == old(goHealth)
    {
      BeginHealthCheck();
      var nodeRes := net(nodeApiUrl + HealthPath);
      var goRes := net(goApiUrl + HealthPath);
      CompleteHealthCheck(nodeRes, goRes);
    }
  }
}
