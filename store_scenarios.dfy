/**
 * Concrete runs of the store, each proved from the contracts of its actions
 * alone: the environment scenario of the resolver, health isolation and the
 * all-or-nothing health update, a stale `allData` after a failed refresh, and
 * the order dependence of `fetchAllData`.
 */
module StoreScenarios {
  import opened Js
  import opened AppStore
  import ApiUrl

  /** A body of the shape the listing endpoints send: `{data: items}`. */
  function Listing(items: seq<Value>): Value
  {
    Obj(map["data" := Arr(items)])
  }

  /** The network in which `target` answers with `hit` and every other URL with `miss`. */
  function Answering(target: string, hit: Response, miss: Response): Network
  {
    u => if u == target then hit else miss
  }

  /** A Render service name and an explicit https URL, as configured for a deployment. */
  method DeployedEndpoints() returns (nodeUrl: string, goUrl: string)
    ensures nodeUrl == "https://" + "my-node-svc" + ".onrender.com"
    ensures goUrl == "https://go.example.org"
  {
    var s := new Store(Some("my-node-svc"), Some("https://go.example.org"));
    assert '.' !in "my-node-svc";
    assert !ApiUrl.HasScheme("my-node-svc") by {
      assert "my-node-svc"[..7][0] == 'm' && "my-node-svc"[..8][0] == 'm';
    }
    assert ApiUrl.HasScheme("https://go.example.org") by {
      assert "https://go.example.org"[..8] == "https://";
    }
    nodeUrl, goUrl := s.nodeApiUrl, s.goApiUrl;
  }

  /** With no configuration both backends are reached on their local ports. */
  method LocalEndpoints() returns (nodeUrl: string, goUrl: string)
    ensures nodeUrl == "http://localhost:3001" && goUrl == "http://localhost:3002"
  {
    var s := new Store(None, Some(""));
    nodeUrl, goUrl := s.nodeApiUrl, s.goApiUrl;
  }

  /** Node's health request is rejected while Go answers: Node is recorded as
      unavailable and Go's body is recorded as it came. */
  method HealthIsolation(goBody: Value) returns (nodeHealth: Value, goHealth: Value, loading: bool)
    ensures nodeHealth == ServiceUnavailable
    ensures goHealth == goBody
    ensures !loading
  {
    var s := new Store(None, None);
    var nodeUrl := s.nodeApiUrl + HealthPath;
    var net := Answering(nodeUrl, NetworkError("connection refused"), Responded(Parsed(goBody)));
    assert s.goApiUrl + HealthPath != nodeUrl by {
      assert (s.goApiUrl + HealthPath)[20] != nodeUrl[20];
    }
    s.FetchHealthStatus(net);
    nodeHealth, goHealth, loading := s.nodeHealth, s.goHealth, s.loading;
  }

  /** After a good probe, a probe in which only Go's body is not JSON changes
      neither health field, even though Node's body parsed. */
  method HealthKeptOnParseFailure(nodeBody: Value, goBody: Value, laterNodeBody: Value)
    returns (nodeHealth: Value, goHealth: Value)
    ensures nodeHealth == nodeBody && goHealth == goBody
  {
    var s := new Store(None, None);
    var nodeUrl := s.nodeApiUrl + HealthPath;
    assert s.goApiUrl + HealthPath != nodeUrl by {
      assert (s.goApiUrl + HealthPath)[20] != nodeUrl[20];
    }
    s.FetchHealthStatus(Answering(nodeUrl, Responded(Parsed(nodeBody)), Responded(Parsed(goBody))));
    s.FetchHealthStatus(Answering(nodeUrl, Responded(Parsed(laterNodeBody)), Responded(Unparseable)));
    nodeHealth, goHealth := s.nodeHealth, s.goHealth;
  }

  /** Probing twice against the same backends leaves the health fields as one
      probe did. */
  method HealthProbeIdempotent(net: Network) returns (once: (Value, Value), twice: (Value, Value))
    ensures once == twice
  {
    var s := new Store(None, None);
    s.FetchHealthStatus(net);
    once := (s.nodeHealth, s.goHealth);
    s.FetchHealthStatus(net);
    twice := (s.nodeHealth, s.goHealth);
  }

  /** A successful Node fetch followed by a failed one: the slot is reset to
      `[]` but `allData` still shows the earlier items, so it is no longer the
      merge of the slots. */
  method StaleAllDataAfterFailedRefresh(items: seq<Value>)
    returns (nodeData: Value, goData: Value, allData: seq<Value>)
    ensures nodeData == Arr([]) && goData == Null && allData == items
    ensures items != [] ==> Merge(nodeData, goData) != Ok(allData)
  {
    var s := new Store(None, None);
    var nodeUrl := s.nodeApiUrl + NodeDataPath;
    s.FetchNodeData(Answering(nodeUrl, Responded(Parsed(Listing(items))), NetworkError("unused")));
    MergeOfLists(Arr(items), Null);
    assert items + [] == items;
    s.FetchNodeData(Answering(nodeUrl, NetworkError("connection refused"), NetworkError("unused")));
    nodeData, goData, allData := s.nodeData, s.goData, s.allData;
    MergeOfLists(Arr([]), Null);
  }

  /** A Node fetch, then a `fetchAllData` refresh with Node down: the final
      `allData` depends on which fetch of the refresh completed first.
      Node first: its failure leaves `allData` alone and Go's success then
      merges `[]` with Go's items. Go first: Go's success merges Node's earlier
      items, which Node's failure then leaves in place. */
  method RefreshWithNodeDown(nodeItem: Value, goItem: Value, nodeFirst: bool)
    returns (allData: seq<Value>)
    ensures allData == if nodeFirst then [goItem] else [nodeItem, goItem]
  {
    var s := new Store(None, None);
    var nodeUrl := s.nodeApiUrl + NodeDataPath;
    var goUrl := s.goApiUrl + GoDataPath;
    assert |nodeUrl| != |goUrl|;
    var goOk := Responded(Parsed(Listing([goItem])));
    var nodeOk := Responded(Parsed(Listing([nodeItem])));
    var nodeDown := Answering(nodeUrl, NetworkError("connection refused"), goOk);
    assert nodeDown(nodeUrl).NetworkError? && nodeDown(goUrl) == goOk;
    MergeOfLists(Arr([nodeItem]), Arr([goItem]));
    MergeOfLists(Arr([]), Arr([goItem]));

    s.FetchNodeData(Answering(nodeUrl, nodeOk, goOk));
    assert s.nodeData == Arr([nodeItem]);
    s.FetchAllData(nodeDown, nodeFirst);
    allData := s.allData;
  }
}
