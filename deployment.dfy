/**
 * Deployments (service/deployment.go): the object `CreateDeployment` submits for a create
 * request, the patch `RestartDeployment` sends, and the replica update of
 * `SetDeploymentReplicas`.
 *
 * Resource quantities stay the request's strings; whether a string parses as a quantity is a
 * parameter (`resource.MustParse` panics on one that does not). Each cluster API call is
 * replaced by its outcome.
 */
module Deployments {
  import opened Wrappers
  import opened KubeTypes
  import Strs

  /** The create request (`DeployCreate`). */
  datatype DeployCreate = DeployCreate(name: string, namespace: string, replicas: int32, image: string,
                                       labels: map<string, string>, cpu: string, memory: string,
                                       containerPort: int32, healthCheck: bool, healthPath: string,
                                       cluster: string)

  /** An HTTP GET probe. */
  datatype Probe = Probe(path: string, port: IntOrString, initialDelaySeconds: int32,
                         timeoutSeconds: int32, periodSeconds: int32)

  datatype ContainerPort = ContainerPort(name: string, protocol: string, containerPort: int32)

  datatype Resources = Resources(limits: map<string, string>, requests: map<string, string>)

  datatype Container = Container(name: string, image: string, ports: seq<ContainerPort>,
                                 readinessProbe: Option<Probe>, livenessProbe: Option<Probe>,
                                 resources: Resources)

  /** The parts of an `appsv1.Deployment` the service sets or reads. */
  datatype Deployment = Deployment(name: string, namespace: string, labels: map<string, string>,
                                   replicas: int32, selector: map<string, string>,
                                   templateName: string, templateLabels: map<string, string>,
                                   containers: seq<Container>)

  datatype DeploymentError =
    | QuantityPanic(value: string)
    | CreateFailed(cause: string)
    | GetFailed(cause: string)
    | PatchFailed(cause: string)
    | GetScaleFailed(cause: string)
    | UpdateScaleFailed(cause: string)

  /** The resource list used for both limits and requests. */
  function Quantities(data: DeployCreate): map<string, string> {
    map["cpu" := data.cpu, "memory" := data.memory]
  }

  /** The deployment `CreateDeployment` submits: the object literal, then probes on its
      container when health checks are on, then its resources. */
  function DeploymentOf(data: DeployCreate): Deployment {
    var container := Container(data.name, data.image, [ContainerPort("http", "TCP", data.containerPort)],
                               None, None, Resources(map[], map[]));
    var probed :=
      if data.healthCheck then
        container.(readinessProbe := Some(Probe(data.healthPath, IntVal(data.containerPort), 5, 5, 5)),
                   livenessProbe := Some(Probe(data.healthPath, IntVal(data.containerPort), 15, 5, 5)))
      else container;
    var resourced := probed.(resources := Resources(Quantities(data), Quantities(data)));
    Deployment(data.name, data.namespace, data.labels, data.replicas, data.labels, data.name, data.labels,
               [resourced])
  }

  /** `CreateDeployment`: the submitted object, or the panic of an unparsable quantity (the
      CPU is parsed first), or the API's refusal. */
  function CreateDeployment(data: DeployCreate, isQuantity: string -> bool, createError: Option<string>)
    : (r: Result<Deployment, DeploymentError>)
    ensures r.Ok? <==> isQuantity(data.cpu) && isQuantity(data.memory) && createError.None?
    ensures r.Ok? ==> r.value == DeploymentOf(data)
    ensures !isQuantity(data.cpu) ==> r == Err(QuantityPanic(data.cpu))
  {
    if !isQuantity(data.cpu) then Err(QuantityPanic(data.cpu))
    else if !isQuantity(data.memory) then Err(QuantityPanic(data.memory))
    else if createError.Some? then Err(CreateFailed(createError.value))
    else Ok(DeploymentOf(data))
  }

  /** The deployment selects the pods of its own template (the API rejects one that does not). */
  predicate SelectsOwnPods(d: Deployment) {
    d.selector == d.templateLabels
  }

  /** One container named after the deployment, running the image, exposing one TCP port named
      "http"; the request's labels on the object, the selector and the template; the replica
      count copied. */
  lemma DeploymentShape(data: DeployCreate)
    ensures var d := DeploymentOf(data);
      && |d.containers| == 1
      && d.containers[0].name == data.name && d.containers[0].image == data.image
      && d.containers[0].ports == [ContainerPort("http", "TCP", data.containerPort)]
      && d.labels == data.labels && d.selector == data.labels && d.templateLabels == data.labels
      && d.replicas == data.replicas && d.name == data.name && d.namespace == data.namespace
      && SelectsOwnPods(d)
  {
  }

  /** Probes exist exactly when health checks are on; both GET the health path on the container
      port, readiness after 5 seconds and liveness after 15, each with a 5 second timeout and
      period. */
  lemma DeploymentProbes(data: DeployCreate)
    ensures var c := DeploymentOf(data).containers[0];
      && (c.readinessProbe.Some? <==> data.healthCheck)
      && (c.livenessProbe.Some? <==> data.healthCheck)
      && (data.healthCheck ==>
           && c.readinessProbe.value == Probe(data.healthPath, IntVal(data.containerPort), 5, 5, 5)
           && c.livenessProbe.value == Probe(data.healthPath, IntVal(data.containerPort), 15, 5, 5))
  {
  }

  /** Limits and requests are the same two quantities, CPU and memory, from the request. */
  lemma DeploymentResources(data: DeployCreate)
    ensures var r := DeploymentOf(data).containers[0].resources;
      && r.limits == r.requests
      && r.limits.Keys == {"cpu", "memory"}
      && r.limits["cpu"] == data.cpu && r.limits["memory"] == data.memory
  {
  }

  datatype EnvVar = EnvVar(name: string, value: string)

  /** One entry of the restart patch's container list. */
  datatype ContainerPatch = ContainerPatch(name: string, env: seq<EnvVar>)

  /** The restart patch `{"spec":{"template":{"spec":{"containers":[...]}}}}`. */
  datatype RestartPatch = RestartPatch(containers: seq<ContainerPatch>)

  /** `RestartDeployment`: one patch entry per container of the fetched deployment, in order,
      naming it and setting `RESTART_` to the current Unix time in decimal; changing the
      environment makes the cluster roll the pods. The clock is read once per container:
      `clock[i]` is the reading taken for container `i`. */
  method RestartDeployment(got: Result<Deployment, string>, clock: seq<int>, patchError: Option<string>)
    returns (r: Result<RestartPatch, DeploymentError>)
    requires got.Ok? ==> |clock| == |got.value.containers|
    ensures got.Err? ==> r == Err(GetFailed(got.error))
    ensures got.Ok? && patchError.Some? ==> r == Err(PatchFailed(patchError.value))
    ensures got.Ok? && patchError.None? ==> r.Ok? && |r.value.containers| == |got.value.containers|
    ensures r.Ok? ==> forall i :: 0 <= i < |r.value.containers| ==>
      r.value.containers[i] == ContainerPatch(got.value.containers[i].name, [EnvVar("RESTART_", Strs.Itoa(clock[i]))])
  {
    if got.Err? {
      return Err(GetFailed(got.error));
    }
    var containerListData: seq<ContainerPatch> := [];
    for i := 0 to |got.value.containers|
      invariant |containerListData| == i
      invariant forall k :: 0 <= k < i ==>
        containerListData[k] == ContainerPatch(got.value.containers[k].name, [EnvVar("RESTART_", Strs.Itoa(clock[k]))])
    {
      var containerData := ContainerPatch(got.value.containers[i].name, [EnvVar("RESTART_", Strs.Itoa(clock[i]))]);
      containerListData := containerListData + [containerData];
    }
    if patchError.Some? {
      return Err(PatchFailed(patchError.value));
    }
    return Ok(RestartPatch(containerListData));
  }

  /** Each restart value is its clock reading itself: it reads back as `now`. */
  lemma RestartValueReadsBack(now: int)
    ensures Strs.IsDecimal(Strs.Itoa(now)) && Strs.Atoi(Strs.Itoa(now)) == now
  {
    Strs.ItoaRoundTrip(now);
  }

  /** The scale subresource of a deployment. */
  datatype Scale = Scale(name: string, replicas: int32)

  /** `SetDeploymentReplicas`: fetches the scale, sets its replica count and writes it back;
      the result is the new count, or 0 with the error of either call. */
  method SetDeploymentReplicas(got: Result<Scale, string>, replicas: int32, updateError: Option<string>)
    returns (replica: int32, err: Option<DeploymentError>)
    ensures got.Err? ==> replica == 0 && err == Some(GetScaleFailed(got.error))
    ensures got.Ok? && updateError.Some? ==> replica == 0 && err == Some(UpdateScaleFailed(updateError.value))
    ensures got.Ok? && updateError.None? ==> replica == replicas && err == None
  {
    if got.Err? {
      return 0, Some(GetScaleFailed(got.error));
    }
    var scale := got.value.(replicas := replicas);
    if updateError.Some? {
      return 0, Some(UpdateScaleFailed(updateError.value));
    }
    return scale.replicas, None;
  }
}
