/**
 * Services (service/service.go): the object `CreateService` submits for a create request, and
 * the service listing.
 */
module Services {
  import opened Wrappers
  import opened KubeTypes
  import opened Listing
  import DataSelector

  /** The create request (`ServiceCreate`). */
  datatype ServiceCreate = ServiceCreate(name: string, namespace: string, serviceType: string,
                                         selector: map<string, string>, labels: map<string, string>,
                                         port: int32, portName: string, protocol: string,
                                         targetPort: int32, nodePort: int32, loadBalancerIP: string,
                                         externalIPs: seq<string>, cluster: string)

  /** A service port; a node port of 0 is an unset one (the API then assigns one). */
  datatype ServicePort = ServicePort(name: string, port: int32, protocol: string,
                                     targetPort: IntOrString, nodePort: int32)

  /** The parts of a `corev1.Service` the service sets or reads; `externalIPs` is `None` when
      the field is left unset. */
  datatype Service = Service(name: string, namespace: string, labels: map<string, string>,
                             serviceType: string, ports: seq<ServicePort>,
                             selector: map<string, string>, externalIPs: Option<seq<string>>,
                             created: int)

  datatype ServiceError = CreateFailed(cause: string)

  /** The service `CreateService` submits: the object literal, then the external IPs when the
      request lists any, then the node port for a NodePort service that names one. */
  function ServiceOf(data: ServiceCreate): Service {
    var serviced := Service(data.name, data.namespace, data.labels, data.serviceType,
                            [ServicePort(data.portName, data.port, data.protocol, IntVal(data.targetPort), 0)],
                            data.selector, None, 0);
    var withIPs := if |data.externalIPs| > 0 then serviced.(externalIPs := Some(data.externalIPs)) else serviced;
    if data.serviceType == "NodePort" && data.nodePort != 0 then
      withIPs.(ports := [withIPs.ports[0].(nodePort := data.nodePort)])
    else withIPs
  }

  /** `CreateService`: the submitted object, or the API's refusal. */
  function CreateService(data: ServiceCreate, createError: Option<string>): (r: Result<Service, ServiceError>)
    ensures r.Ok? <==> createError.None?
    ensures r.Ok? ==> r.value == ServiceOf(data)
  {
    if createError.Some? then Err(CreateFailed(createError.value)) else Ok(ServiceOf(data))
  }

  /** Exactly one port, carrying the request's name, port and protocol (not defaulted) and its
      target port as a number; metadata, type and selector copied as given. */
  lemma ServiceShape(data: ServiceCreate)
    ensures var s := ServiceOf(data);
      && |s.ports| == 1
      && s.ports[0].name == data.portName && s.ports[0].port == data.port
      && s.ports[0].protocol == data.protocol && s.ports[0].targetPort == IntVal(data.targetPort)
      && s.name == data.name && s.namespace == data.namespace && s.labels == data.labels
      && s.serviceType == data.serviceType && s.selector == data.selector
  {
  }

  /** External IPs are set exactly when the request lists some, and then to that list. */
  lemma ServiceExternalIPs(data: ServiceCreate)
    ensures ServiceOf(data).externalIPs.Some? <==> |data.externalIPs| > 0
    ensures ServiceOf(data).externalIPs.Some? ==> ServiceOf(data).externalIPs.value == data.externalIPs
  {
  }

  /** The node port is set exactly for a NodePort service whose request names a non-zero one. */
  lemma ServiceNodePort(data: ServiceCreate)
    ensures ServiceOf(data).ports[0].nodePort != 0 <==> data.serviceType == "NodePort" && data.nodePort != 0
    ensures ServiceOf(data).ports[0].nodePort != 0 ==> ServiceOf(data).ports[0].nodePort == data.nodePort
  {
  }

  /** `serviceCell.GetName`. */
  function ServiceName(s: Service): string {
    s.name
  }

  /** `serviceCell.GetCreation`. */
  function ServiceCreated(s: Service): int {
    s.created
  }

  /** `GetServices`: the listing pipeline over the services the cluster returned. */
  method GetServices(listed: Result<seq<Service>, string>, filterName: string, limit: int, page: int)
    returns (r: Result<Page<Service>, ListError>)
    ensures listed.Err? ==> r == Err(ListFailed(listed.error))
    ensures listed.Ok? ==>
      var matching := DataSelector.Matching(CellsOf(listed.value, ServiceName, ServiceCreated), filterName);
      && (r.Ok? <==> DataSelector.PageFits(|matching|, DataSelector.PaginateQuery(limit, page)))
      && (r.Ok? ==> IsListing(listed.value, ServiceName, ServiceCreated, filterName, limit, page, r.value))
  {
    r := List(listed, ServiceName, ServiceCreated, filterName, limit, page);
  }
}
