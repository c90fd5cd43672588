/**
 * The cluster registry (service/k8s_client.go): one Kubernetes client per configured cluster,
 * kept in a map keyed by cluster name, and the node records derived from each cluster's nodes.
 *
 * Building a client configuration from a kubeconfig file and building a clientset from it are
 * calls into client-go; they are parameters here, each returning the built value or the error.
 * The node list call is a parameter too, and the node table insert is recorded as the sequence
 * of records handed to it.
 */
module Registry {
  import opened Wrappers

  /** One entry of the configured cluster list (`KubeConfigs`): a name and a kubeconfig path. */
  datatype KubeConfig = KubeConfig(name: string, path: string)

  /** A client configuration built from a kubeconfig file (`rest.Config`). */
  datatype RestConfig = RestConfig(host: string)

  /** A clientset built from a client configuration. */
  datatype Client = Client(config: RestConfig)

  datatype RegistryError = ClusterNotFound(cluster: string)

  /** The two reasons `Init` panics, each naming the cluster and its kubeconfig path. */
  datatype InitError = ConfigBuildFailed(cluster: string, path: string) | ClientBuildFailed(cluster: string, path: string)

  datatype NodeAddress = NodeAddress(kind: string, address: string)
  datatype Node = Node(name: string, addresses: seq<NodeAddress>, labels: map<string, string>,
                       cpu: int, memory: string, system: string, osImage: string, arch: string,
                       kernelVersion: string, kubeletVersion: string)

  /** A row of the node table (`model.Node`). */
  datatype NodeRecord = NodeRecord(cluster: string, hostName: string, ip: string, master: nat,
                                   cpu: int, memory: string, system: string, osImage: string,
                                   arch: string, kernelVersion: string, kubeletVersion: string)

  const MasterLabel: string := "node-role.kubernetes.io/master"

  /** Both steps of building one cluster's client. */
  function BuildClient(c: KubeConfig, buildConfig: string -> Result<RestConfig, string>,
                       newClient: RestConfig -> Result<Client, string>): Result<Client, InitError>
  {
    match buildConfig(c.path)
    case Err(_) => Err(ConfigBuildFailed(c.name, c.path))
    case Ok(conf) =>
      match newClient(conf)
      case Err(_) => Err(ClientBuildFailed(c.name, c.path))
      case Ok(client) => Ok(client)
  }

  /** The client map `Init` leaves behind for the configured clusters, or the error it panics
      with: entries are added in list order, a repeated name overwriting the earlier client. */
  function InitOutcome(configs: seq<KubeConfig>, buildConfig: string -> Result<RestConfig, string>,
                       newClient: RestConfig -> Result<Client, string>): Result<map<string, Client>, InitError>
    decreases |configs|
  {
    if configs == [] then Ok(map[])
    else
      match InitOutcome(configs[..|configs| - 1], buildConfig, newClient)
      case Err(e) => Err(e)
      case Ok(m) =>
        var c := configs[|configs| - 1];
        match BuildClient(c, buildConfig, newClient)
        case Err(e) => Err(e)
        case Ok(client) => Ok(m[c.name := client])
  }

  /** The first `n` entries all yield a client. */
  predicate AllBuild(configs: seq<KubeConfig>, buildConfig: string -> Result<RestConfig, string>,
                     newClient: RestConfig -> Result<Client, string>, n: nat)
    requires n <= |configs|
  {
    forall k :: 0 <= k < n ==> BuildClient(configs[k], buildConfig, newClient).Ok?
  }

  /** Entry `i` is the first whose client cannot be built. */
  predicate FirstFailure(configs: seq<KubeConfig>, buildConfig: string -> Result<RestConfig, string>,
                         newClient: RestConfig -> Result<Client, string>, i: int)
  {
    0 <= i < |configs| && AllBuild(configs, buildConfig, newClient, i) && BuildClient(configs[i], buildConfig, newClient).Err?
  }

  lemma {:induction false} InitOutcomeOk(configs: seq<KubeConfig>, buildConfig: string -> Result<RestConfig, string>,
                                         newClient: RestConfig -> Result<Client, string>)
    ensures InitOutcome(configs, buildConfig, newClient).Ok? <==> AllBuild(configs, buildConfig, newClient, |configs|)
    decreases |configs|
  {
    if configs != [] {
      var init := configs[..|configs| - 1];
      InitOutcomeOk(init, buildConfig, newClient);
      assert forall k :: 0 <= k < |init| ==> configs[k] == init[k];
    }
  }

  lemma {:induction false} InitOutcomeFirstError(configs: seq<KubeConfig>, buildConfig: string -> Result<RestConfig, string>,
                                                 newClient: RestConfig -> Result<Client, string>)
    requires InitOutcome(configs, buildConfig, newClient).Err?
    ensures exists i :: (FirstFailure(configs, buildConfig, newClient, i) &&
                         InitOutcome(configs, buildConfig, newClient).error == BuildClient(configs[i], buildConfig, newClient).error)
    decreases |configs|
  {
    var init := configs[..|configs| - 1];
    if InitOutcome(init, buildConfig, newClient).Err? {
      InitOutcomeFirstError(init, buildConfig, newClient);
      var i :| FirstFailure(init, buildConfig, newClient, i) &&
        InitOutcome(init, buildConfig, newClient).error == BuildClient(init[i], buildConfig, newClient).error;
      assert forall k :: 0 <= k <= i ==> configs[k] == init[k];
      assert FirstFailure(configs, buildConfig, newClient, i);
    } else {
      InitOutcomeOk(init, buildConfig, newClient);
      assert forall k :: 0 <= k < |init| ==> configs[k] == init[k];
      assert FirstFailure(configs, buildConfig, newClient, |init|);
    }
  }

  /** `Init` succeeds exactly when every cluster's client can be built; otherwise it fails with
      the error of the first cluster whose client cannot be built. */
  lemma InitOutcomeFailure(configs: seq<KubeConfig>, buildConfig: string -> Result<RestConfig, string>,
                           newClient: RestConfig -> Result<Client, string>)
    ensures InitOutcome(configs, buildConfig, newClient).Ok? <==> AllBuild(configs, buildConfig, newClient, |configs|)
    ensures InitOutcome(configs, buildConfig, newClient).Err? ==>
      exists i :: (FirstFailure(configs, buildConfig, newClient, i) &&
                   InitOutcome(configs, buildConfig, newClient).error == BuildClient(configs[i], buildConfig, newClient).error)
  {
    InitOutcomeOk(configs, buildConfig, newClient);
    if InitOutcome(configs, buildConfig, newClient).Err? {
      InitOutcomeFirstError(configs, buildConfig, newClient);
    }
  }

  /** The names carried by the configured entries. */
  function Names(configs: seq<KubeConfig>): (r: set<string>)
    ensures forall i :: 0 <= i < |configs| ==> configs[i].name in r
    ensures forall x :: x in r ==> exists i :: 0 <= i < |configs| && configs[i].name == x
    decreases |configs|
  {
    if configs == [] then {}
    else
      var init := configs[..|configs| - 1];
      var r := Names(init) + {configs[|configs| - 1].name};
      assert forall i :: 0 <= i < |init| ==> configs[i] == init[i];
      r
  }

  /** After a successful `Init` the registered names are exactly the configured names. */
  lemma {:induction false} InitOutcomeKeys(configs: seq<KubeConfig>, buildConfig: string -> Result<RestConfig, string>,
                                           newClient: RestConfig -> Result<Client, string>)
    requires InitOutcome(configs, buildConfig, newClient).Ok?
    ensures InitOutcome(configs, buildConfig, newClient).value.Keys == Names(configs)
    decreases |configs|
  {
    if configs != [] {
      InitOutcomeKeys(configs[..|configs| - 1], buildConfig, newClient);
    }
  }

  /** After a successful `Init` each name holds the client built from the last entry carrying
      it: a repeated name is overwritten by the later entry. */
  lemma {:induction false} InitOutcomeLastWins(configs: seq<KubeConfig>, buildConfig: string -> Result<RestConfig, string>,
                                               newClient: RestConfig -> Result<Client, string>, i: nat)
    requires InitOutcome(configs, buildConfig, newClient).Ok?
    requires i < |configs| && forall j :: i < j < |configs| ==> configs[j].name != configs[i].name
    ensures BuildClient(configs[i], buildConfig, newClient).Ok?
    ensures configs[i].name in InitOutcome(configs, buildConfig, newClient).value
    ensures InitOutcome(configs, buildConfig, newClient).value[configs[i].name] == BuildClient(configs[i], buildConfig, newClient).value
    decreases |configs|
  {
    var init := configs[..|configs| - 1];
    if i < |init| {
      assert configs[i] == init[i];
      assert forall j :: i < j < |init| ==> init[j] == configs[j];
      InitOutcomeLastWins(init, buildConfig, newClient, i);
    }
  }

  /** `LastOfKind(addrs, kind, v)`: `v` is the address of the last entry of that kind, or ""
      when there is none. */
  predicate LastOfKind(addrs: seq<NodeAddress>, kind: string, v: string) {
    (v == "" && forall i :: 0 <= i < |addrs| ==> addrs[i].kind != kind) ||
    (exists i :: 0 <= i < |addrs| && addrs[i].kind == kind && addrs[i].address == v &&
       forall j :: i < j < |addrs| ==> addrs[j].kind != kind)
  }

  /** The address a scan that overwrites on every entry of `kind` ends with. */
  function LastAddress(addrs: seq<NodeAddress>, kind: string): string
    decreases |addrs|
  {
    if addrs == [] then ""
    else if addrs[|addrs| - 1].kind == kind then addrs[|addrs| - 1].address
    else LastAddress(addrs[..|addrs| - 1], kind)
  }

  lemma {:induction false} LastAddressIsLast(addrs: seq<NodeAddress>, kind: string)
    ensures LastOfKind(addrs, kind, LastAddress(addrs, kind))
    decreases |addrs|
  {
    if addrs == [] {
    } else if addrs[|addrs| - 1].kind == kind {
      assert LastAddress(addrs, kind) == addrs[|addrs| - 1].address;
      LastOfKindAt(addrs, kind, |addrs| - 1);
    } else {
      var init := addrs[..|addrs| - 1];
      LastAddressIsLast(init, kind);
      assert LastAddress(addrs, kind) == LastAddress(init, kind);
      LastOfKindExtend(init, addrs[|addrs| - 1], kind, LastAddress(init, kind));
      assert init + [addrs[|addrs| - 1]] == addrs;
    }
  }

  lemma LastOfKindAt(addrs: seq<NodeAddress>, kind: string, i: nat)
    requires i < |addrs| && addrs[i].kind == kind
    requires forall j :: i < j < |addrs| ==> addrs[j].kind != kind
    ensures LastOfKind(addrs, kind, addrs[i].address)
  {
  }

  /** An entry of another kind at the end does not change the last entry of `kind`. */
  lemma LastOfKindExtend(addrs: seq<NodeAddress>, a: NodeAddress, kind: string, v: string)
    requires LastOfKind(addrs, kind, v) && a.kind != kind
    ensures LastOfKind(addrs + [a], kind, v)
  {
    var s := addrs + [a];
    if v == "" && forall i :: 0 <= i < |addrs| ==> addrs[i].kind != kind {
      assert forall i :: 0 <= i < |s| ==> s[i].kind != kind by {
        forall i | 0 <= i < |s| ensures s[i].kind != kind {
          if i < |addrs| { assert s[i] == addrs[i]; }
        }
      }
    } else {
      var i :| 0 <= i < |addrs| && addrs[i].kind == kind && addrs[i].address == v &&
        forall j :: i < j < |addrs| ==> addrs[j].kind != kind;
      assert s[i] == addrs[i];
      forall j | i < j < |s| ensures s[j].kind != kind {
        if j < |addrs| { assert s[j] == addrs[j]; }
      }
      LastOfKindAt(s, kind, i);
    }
  }

  /** The node table row for one node of `cluster`. */
  function RecordFor(cluster: string, node: Node): NodeRecord {
    NodeRecord(cluster, LastAddress(node.addresses, "Hostname"), LastAddress(node.addresses, "InternalIP"),
               if MasterLabel in node.labels then 1 else 0,
               node.cpu, node.memory, node.system, node.osImage, node.arch, node.kernelVersion, node.kubeletVersion)
  }

  /** The rows for all nodes of one cluster, in list order. */
  function ClusterRecords(cluster: string, nodes: seq<Node>): (r: seq<NodeRecord>)
    ensures |r| == |nodes|
    ensures forall i :: 0 <= i < |r| ==> r[i].cluster == cluster
  {
    seq(|nodes|, i requires 0 <= i < |nodes| => RecordFor(cluster, nodes[i]))
  }

  /** `order` lists every key of `m` exactly once (a map iteration order). */
  predicate IsEnumeration<V>(order: seq<string>, m: map<string, V>) {
    (forall i :: 0 <= i < |order| ==> order[i] in m) &&
    (forall k :: k in m ==> k in order) &&
    (forall i, j :: 0 <= i < j < |order| ==> order[i] != order[j])
  }

  /** The rows `AddClusterNodeInfo` hands to the node table when it visits the clusters in
      `order`: each cluster's rows until the first cluster whose node list fails. */
  function NodeWrites(order: seq<string>, clients: map<string, Client>,
                      listNodes: Client -> Result<seq<Node>, string>): seq<NodeRecord>
    requires forall i :: 0 <= i < |order| ==> order[i] in clients
  {
    if order == [] then []
    else
      match listNodes(clients[order[0]])
      case Err(_) => []
      case Ok(nodes) => ClusterRecords(order[0], nodes) + NodeWrites(order[1..], clients, listNodes)
  }

  /** The rows written from position `i` of the visit on: that cluster's rows, then the rest,
      unless its node list fails. */
  lemma NodeWritesStep(order: seq<string>, clients: map<string, Client>,
                       listNodes: Client -> Result<seq<Node>, string>, i: nat)
    requires forall i :: 0 <= i < |order| ==> order[i] in clients
    requires i < |order|
    ensures NodeWrites(order[i..], clients, listNodes) ==
      match listNodes(clients[order[i]])
      case Err(_) => []
      case Ok(nodes) => ClusterRecords(order[i], nodes) + NodeWrites(order[i + 1..], clients, listNodes)
  {
    assert order[i..][1..] == order[i + 1..];
  }

  /** Every row written belongs to a visited cluster, and no cluster at or after the first one
      whose node list fails gets any row. */
  lemma {:induction false} NodeWritesStopAtFailure(order: seq<string>, clients: map<string, Client>,
                                                   listNodes: Client -> Result<seq<Node>, string>, f: nat)
    requires forall i :: 0 <= i < |order| ==> order[i] in clients
    requires forall i, j :: 0 <= i < j < |order| ==> order[i] != order[j]
    requires f < |order| && listNodes(clients[order[f]]).Err?
    ensures forall r :: r in NodeWrites(order, clients, listNodes) ==>
      exists i :: 0 <= i < f && order[i] == r.cluster
    decreases |order|
  {
    if listNodes(clients[order[0]]).Ok? {
      var nodes := listNodes(clients[order[0]]).value;
      var rest := order[1..];
      NodeWritesStopAtFailure(rest, clients, listNodes, f - 1);
      assert NodeWrites(order, clients, listNodes) == ClusterRecords(order[0], nodes) + NodeWrites(rest, clients, listNodes);
      forall r | r in NodeWrites(order, clients, listNodes)
        ensures exists i :: 0 <= i < f && order[i] == r.cluster
      {
        if r in ClusterRecords(order[0], nodes) {
          assert order[0] == r.cluster;
        } else {
          assert r in NodeWrites(rest, clients, listNodes);
          var i :| 0 <= i < f - 1 && rest[i] == r.cluster;
          assert order[i + 1] == r.cluster;
        }
      }
    }
  }

  /** The registry (`k8s`): the client of every registered cluster. */
  class K8s {
    var clientMap: map<string, Client>

    constructor ()
      ensures clientMap == map[]
    {
      clientMap := map[];
    }

    /** `GetClient`: the registered client, or an error naming an unknown cluster. */
    method GetClient(cluster: string) returns (r: Result<Client, RegistryError>)
      ensures cluster in clientMap ==> r == Ok(clientMap[cluster])
      ensures cluster !in clientMap ==> r == Err(ClusterNotFound(cluster))
    {
      if cluster !in clientMap {
        return Err(ClusterNotFound(cluster));
      }
      return Ok(clientMap[cluster]);
    }

    /** `Init`: rebuilds the map from the configured clusters in order; `Err` is the panic at
        the first cluster whose configuration or client cannot be built, the map then holding
        the clients built before it. */
    method Init(configs: seq<KubeConfig>, buildConfig: string -> Result<RestConfig, string>,
                newClient: RestConfig -> Result<Client, string>) returns (r: Result<(), InitError>)
      modifies this
      ensures InitOutcome(configs, buildConfig, newClient) == if r.Ok? then Ok(clientMap) else Err(r.error)
      ensures r.Err? ==> exists i :: (FirstFailure(configs, buildConfig, newClient, i) &&
                                      InitOutcome(configs[..i], buildConfig, newClient) == Ok(clientMap))
    {
      clientMap := map[];
      for i := 0 to |configs|
        invariant InitOutcome(configs[..i], buildConfig, newClient) == Ok(clientMap)
      {
        assert configs[..i + 1][..i] == configs[..i];
        var cluster := configs[i];
        var conf := buildConfig(cluster.path);
        if conf.Err? {
          r := Err(ConfigBuildFailed(cluster.name, cluster.path));
          InitPrefixFailure(configs, buildConfig, newClient, i);
          InitOutcomeOk(configs[..i], buildConfig, newClient);
          assert forall k :: 0 <= k < i ==> configs[..i][k] == configs[k];
          return;
        }
        var clientSet := newClient(conf.value);
        if clientSet.Err? {
          r := Err(ClientBuildFailed(cluster.name, cluster.path));
          InitPrefixFailure(configs, buildConfig, newClient, i);
          InitOutcomeOk(configs[..i], buildConfig, newClient);
          assert forall k :: 0 <= k < i ==> configs[..i][k] == configs[k];
          return;
        }
        clientMap := clientMap[cluster.name := clientSet.value];
      }
      assert configs[..|configs|] == configs;
      r := Ok(());
    }

    /** `AddClusterNodeInfo`: visits the clusters in the map's iteration order `order`, lists
        each one's nodes and hands one row per node to the node table; the first failing node
        list ends the visit. It always reports success and changes no registry state. */
    method AddClusterNodeInfo(order: seq<string>, listNodes: Client -> Result<seq<Node>, string>)
      returns (written: seq<NodeRecord>)
      requires IsEnumeration(order, clientMap)
      ensures written == NodeWrites(order, clientMap, listNodes)
    {
      written := [];
      for i := 0 to |order|
        invariant NodeWrites(order, clientMap, listNodes) == written + NodeWrites(order[i..], clientMap, listNodes)
      {
        var cluster := order[i];
        var nodeList := listNodes(clientMap[cluster]);
        NodeWritesStep(order, clientMap, listNodes, i);
        if nodeList.Err? {
          return;
        }
        var records := NodeRecords(cluster, nodeList.value);
        written := written + records;
      }
    }
  }

  /** The inner loop of `AddClusterNodeInfo`: one row per node of `cluster`, in list order. */
  method NodeRecords(cluster: string, nodes: seq<Node>) returns (records: seq<NodeRecord>)
    ensures records == ClusterRecords(cluster, nodes)
  {
    records := [];
    for j := 0 to |nodes|
      invariant records == ClusterRecords(cluster, nodes)[..j]
    {
      var record := DeriveNodeRecord(cluster, nodes[j]);
      records := records + [record];
    }
  }

  /** A failure at entry `i` after a successful prefix is the outcome of the whole list. */
  lemma {:induction false} InitPrefixFailure(configs: seq<KubeConfig>, buildConfig: string -> Result<RestConfig, string>,
                                             newClient: RestConfig -> Result<Client, string>, i: nat)
    requires i < |configs| && InitOutcome(configs[..i], buildConfig, newClient).Ok?
    requires BuildClient(configs[i], buildConfig, newClient).Err?
    ensures InitOutcome(configs, buildConfig, newClient) == Err(BuildClient(configs[i], buildConfig, newClient).error)
    decreases |configs| - i
  {
    assert configs[..i + 1][..i] == configs[..i];
    InitFailurePersists(configs, buildConfig, newClient, i + 1);
  }

  lemma {:induction false} InitFailurePersists(configs: seq<KubeConfig>, buildConfig: string -> Result<RestConfig, string>,
                                               newClient: RestConfig -> Result<Client, string>, n: nat)
    requires n <= |configs| && InitOutcome(configs[..n], buildConfig, newClient).Err?
    ensures InitOutcome(configs, buildConfig, newClient) == InitOutcome(configs[..n], buildConfig, newClient)
    decreases |configs| - n
  {
    if n == |configs| {
      assert configs[..n] == configs;
    } else {
      assert configs[..n + 1][..n] == configs[..n];
      InitFailurePersists(configs, buildConfig, newClient, n + 1);
    }
  }

  /** The node row derivation: the last "Hostname" and "InternalIP" addresses win (""
      without one), and the master flag is 1 exactly when the master role label is present. */
  method DeriveNodeRecord(cluster: string, node: Node) returns (record: NodeRecord)
    ensures record == RecordFor(cluster, node)
    ensures LastOfKind(node.addresses, "Hostname", record.hostName)
    ensures LastOfKind(node.addresses, "InternalIP", record.ip)
    ensures record.master == 1 <==> MasterLabel in node.labels
    ensures record.master == 0 <==> MasterLabel !in node.labels
  {
    var hostname := "";
    var ip := "";
    for k := 0 to |node.addresses|
      invariant ip == LastAddress(node.addresses[..k], "InternalIP")
      invariant hostname == LastAddress(node.addresses[..k], "Hostname")
    {
      var a := node.addresses[k];
      assert node.addresses[..k + 1][..k] == node.addresses[..k];
      if a.kind == "InternalIP" {
        ip := a.address;
      }
      if a.kind == "Hostname" {
        hostname := a.address;
      }
    }
    assert node.addresses[..|node.addresses|] == node.addresses;
    var isMaster: nat := if MasterLabel in node.labels then 1 else 0;
    record := NodeRecord(cluster, hostname, ip, isMaster, node.cpu, node.memory, node.system,
                         node.osImage, node.arch, node.kernelVersion, node.kubeletVersion);
    LastAddressIsLast(node.addresses, "Hostname");
    LastAddressIsLast(node.addresses, "InternalIP");
  }

  /** The path of the first configured entry carrying the name, or "" when no entry does. */
  function ClusterConf(configs: seq<KubeConfig>, cluster: string): (r: string)
    ensures (forall i :: 0 <= i < |configs| ==> configs[i].name != cluster) ==> r == ""
    ensures forall i :: 0 <= i < |configs| && configs[i].name == cluster && (forall k :: 0 <= k < i ==> configs[k].name != cluster) ==>
      r == configs[i].path
    decreases |configs|
  {
    if configs == [] then ""
    else if configs[0].name == cluster then configs[0].path
    else
      var r := ClusterConf(configs[1..], cluster);
      assert forall i :: 0 < i < |configs| ==> configs[i] == configs[1..][i - 1];
      r
  }

  /** `GetClusterConf`: a search over the configured list that returns at the first entry
      carrying the name. */
  method GetClusterConf(configs: seq<KubeConfig>, cluster: string) returns (clusterConf: string)
    ensures clusterConf == ClusterConf(configs, cluster)
  {
    for i := 0 to |configs|
      invariant ClusterConf(configs[i..], cluster) == ClusterConf(configs, cluster)
    {
      assert configs[i..][1..] == configs[i + 1..];
      if configs[i].name == cluster {
        return configs[i].path;
      }
    }
    return "";
  }
}
