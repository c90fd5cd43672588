/**
 * Ingresses (service/ingress.go): the object `CreateIngress` submits for a create request,
 * one rule per host, and the ingress listing.
 */
module Ingresses {
  import opened Wrappers
  import opened KubeTypes
  import opened Listing
  import DataSelector

  /** One path of a host in the create request (`HttpPath`). */
  datatype HttpPath = HttpPath(path: string, pathType: string, serviceName: string, servicePort: int32)

  /** The create request (`IngressCreate`): the paths of each host. */
  datatype IngressCreate = IngressCreate(name: string, namespace: string, annotations: map<string, string>,
                                         labels: map<string, string>, hosts: map<string, seq<HttpPath>>,
                                         cluster: string)

  /** `IngressServiceBackend`: a service name and port number. */
  datatype Backend = Backend(serviceName: string, portNumber: int32)

  datatype HTTPIngressPath = HTTPIngressPath(path: string, pathType: string, backend: Backend)

  datatype IngressRule = IngressRule(host: string, paths: seq<HTTPIngressPath>)

  /** The parts of a `networkingv1.Ingress` the service sets or reads. */
  datatype Ingress = Ingress(name: string, namespace: string, labels: map<string, string>,
                             annotations: map<string, string>, rules: seq<IngressRule>, created: int)

  datatype IngressError = CreateFailed(cause: string)

  /** The ingress path built from one request path. */
  function PathOf(p: HttpPath): (r: HTTPIngressPath)
    ensures r.path == p.path && r.pathType == p.pathType
    ensures r.backend.serviceName == p.serviceName && r.backend.portNumber == p.servicePort
  {
    HTTPIngressPath(p.path, p.pathType, Backend(p.serviceName, p.servicePort))
  }

  /** `rule` is the rule of host `host`: that host, and exactly its paths, in order. */
  predicate RuleFor(rule: IngressRule, host: string, paths: seq<HttpPath>) {
    rule.host == host && |rule.paths| == |paths| &&
    forall k :: 0 <= k < |paths| ==> rule.paths[k] == PathOf(paths[k])
  }

  /** `rules` holds exactly one rule per host of `hosts`, each built from that host's paths. */
  predicate RulesFor(rules: seq<IngressRule>, hosts: map<string, seq<HttpPath>>) {
    && |rules| == |hosts.Keys|
    && (forall i :: 0 <= i < |rules| ==> rules[i].host in hosts && RuleFor(rules[i], rules[i].host, hosts[rules[i].host]))
    && (forall i, j :: 0 <= i < j < |rules| ==> rules[i].host != rules[j].host)
    && (forall h :: h in hosts ==> exists i :: 0 <= i < |rules| && rules[i].host == h)
  }

  /** The loop state of `CreateIngress`: a rule for each host already taken out of
      `remaining`, once each, and none for the hosts still in it. */
  predicate RulesSoFar(rules: seq<IngressRule>, hosts: map<string, seq<HttpPath>>, remaining: set<string>) {
    && remaining <= hosts.Keys
    && |rules| + |remaining| == |hosts.Keys|
    && (forall i :: 0 <= i < |rules| ==>
          rules[i].host in hosts && rules[i].host !in remaining && RuleFor(rules[i], rules[i].host, hosts[rules[i].host]))
    && (forall i, j :: 0 <= i < j < |rules| ==> rules[i].host != rules[j].host)
    && (forall h :: h in hosts && h !in remaining ==> exists i :: 0 <= i < |rules| && rules[i].host == h)
  }

  /** Adding the rule of one remaining host keeps the loop state. */
  lemma RulesSoFarStep(rules: seq<IngressRule>, hosts: map<string, seq<HttpPath>>, remaining: set<string>,
                       key: string, ir: IngressRule)
    requires RulesSoFar(rules, hosts, remaining) && key in remaining
    requires RuleFor(ir, key, hosts[key])
    ensures RulesSoFar(rules + [ir], hosts, remaining - {key})
  {
    var next := rules + [ir];
    forall h | h in hosts && h !in remaining - {key}
      ensures exists i :: 0 <= i < |next| && next[i].host == h
    {
      if h == key {
        assert next[|rules|].host == h;
      } else {
        var i :| 0 <= i < |rules| && rules[i].host == h;
        assert next[i].host == h;
      }
    }
  }

  /** With no host remaining, the loop state is the whole rule set. */
  lemma RulesSoFarDone(rules: seq<IngressRule>, hosts: map<string, seq<HttpPath>>)
    requires RulesSoFar(rules, hosts, {})
    ensures RulesFor(rules, hosts)
  {
  }

  /** The inner loop of `CreateIngress`: the rule of one host, its paths converted in order. */
  method BuildRule(key: string, value: seq<HttpPath>) returns (ir: IngressRule)
    ensures RuleFor(ir, key, value)
  {
    var httpIngressPaths: seq<HTTPIngressPath> := [];
    for k := 0 to |value|
      invariant |httpIngressPaths| == k
      invariant forall m :: 0 <= m < k ==> httpIngressPaths[m] == PathOf(value[m])
    {
      httpIngressPaths := httpIngressPaths + [PathOf(value[k])];
    }
    ir := IngressRule(key, httpIngressPaths);
  }

  /** `CreateIngress`: the metadata copied from the request, then one rule per host, in the
      map's iteration order (which Go leaves unspecified), each holding exactly that host's
      paths in request order; the result is the submitted object, or the API's refusal. */
  method CreateIngress(data: IngressCreate, createError: Option<string>) returns (r: Result<Ingress, IngressError>)
    ensures r.Ok? <==> createError.None?
    ensures r.Ok? ==>
      && r.value.name == data.name && r.value.namespace == data.namespace
      && r.value.labels == data.labels && r.value.annotations == data.annotations
      && RulesFor(r.value.rules, data.hosts)
  {
    var ingressCreat := Ingress(data.name, data.namespace, data.labels, data.annotations, [], 0);
    var ingressRules: seq<IngressRule> := [];
    var remaining := data.hosts.Keys;
    while remaining != {}
      invariant RulesSoFar(ingressRules, data.hosts, remaining)
      decreases |remaining|
    {
      var key :| key in remaining;
      var ir := BuildRule(key, data.hosts[key]);
      RulesSoFarStep(ingressRules, data.hosts, remaining, key, ir);
      ingressRules := ingressRules + [ir];
      remaining := remaining - {key};
    }
    RulesSoFarDone(ingressRules, data.hosts);
    ingressCreat := ingressCreat.(rules := ingressRules);
    if createError.Some? {
      return Err(CreateFailed(createError.value));
    }
    return Ok(ingressCreat);
  }

  /** No hosts, no rules. */
  lemma NoHostsNoRules(rules: seq<IngressRule>, hosts: map<string, seq<HttpPath>>)
    requires RulesFor(rules, hosts) && hosts == map[]
    ensures rules == []
  {
  }

  /** Two rule lists for the same hosts differ only in order: they hold the same rules. */
  lemma RulesForUnique(rules1: seq<IngressRule>, rules2: seq<IngressRule>, hosts: map<string, seq<HttpPath>>)
    requires RulesFor(rules1, hosts) && RulesFor(rules2, hosts)
    ensures forall i :: 0 <= i < |rules1| ==> rules1[i] in rules2
  {
    forall i | 0 <= i < |rules1|
      ensures rules1[i] in rules2
    {
      var h := rules1[i].host;
      var j :| 0 <= j < |rules2| && rules2[j].host == h;
      assert RuleFor(rules1[i], h, hosts[h]) && RuleFor(rules2[j], h, hosts[h]);
      assert rules1[i].paths == rules2[j].paths;
    }
  }

  /** `ingressCell.GetName`. */
  function IngressName(i: Ingress): string {
    i.name
  }

  /** `ingressCell.GetCreation`. */
  function IngressCreated(i: Ingress): int {
    i.created
  }

  /** `GetIngress`: the listing pipeline over the ingresses the cluster returned. */
  method GetIngress(listed: Result<seq<Ingress>, string>, filterName: string, limit: int, page: int)
    returns (r: Result<Page<Ingress>, ListError>)
    ensures listed.Err? ==> r == Err(ListFailed(listed.error))
    ensures listed.Ok? ==>
      var matching := DataSelector.Matching(CellsOf(listed.value, IngressName, IngressCreated), filterName);
      && (r.Ok? <==> DataSelector.PageFits(|matching|, DataSelector.PaginateQuery(limit, page)))
      && (r.Ok? ==> IsListing(listed.value, IngressName, IngressCreated, filterName, limit, page, r.value))
  {
    r := List(listed, IngressName, IngressCreated, filterName, limit, page);
  }

  /** `toCells`/`fromCells` for ingresses: converting back gives the same ingresses in order. */
  method IngressCellsRoundTrip(ingresses: seq<Ingress>) returns (back: seq<Ingress>)
    ensures back == ingresses
  {
    var cells := ToCells(ingresses, IngressName, IngressCreated);
    back := FromCells(cells);
    CellsRoundTrip(ingresses, IngressName, IngressCreated);
  }
}
