/**
 * Workflows (service/workflow.go): a workflow is a deployment, a service in front of it and,
 * for the "Ingress" type, an ingress, recorded as one row of the workflow table.
 *
 * Creating one inserts the row, then creates the deployment, the service and the ingress;
 * deleting one removes the deployment, the service and the ingress, then the row. Both stop
 * at the first call that fails and undo nothing. Each database or cluster call is a `Call`;
 * whether it fails, and with what message, is the `fails` parameter. `performed` is the log
 * of the calls that took effect.
 */
module Workflows {
  import opened Wrappers
  import opened KubeTypes
  import Deployments
  import Services
  import Ingresses

  /** The create request (`WorkflowCreate`). */
  datatype WorkflowCreate = WorkflowCreate(name: string, namespace: string, replicas: int32, image: string,
                                           labels: map<string, string>, cpu: string, memory: string,
                                           containerPort: int32, healthCheck: bool, healthPath: string,
                                           workflowType: string, port: int32, nodePort: int32,
                                           hosts: map<string, seq<Ingresses.HttpPath>>, cluster: string)

  /** A row of the workflow table (`model.Workflow`, without the database's id and times). */
  datatype WorkflowRow = WorkflowRow(name: string, namespace: string, replicas: int32, deployment: string,
                                     service: string, ingress: string, workflowType: string, cluster: string)

  /** One database or cluster call a workflow operation makes. */
  datatype Call =
    | InsertRow(row: WorkflowRow)
    | CreateDeployment(deploy: Deployments.DeployCreate)
    | CreateService(service: Services.ServiceCreate)
    | CreateIngress(ingress: Ingresses.IngressCreate)
    | DeleteDeployment(name: string, namespace: string)
    | DeleteService(name: string, namespace: string)
    | DeleteIngress(name: string, namespace: string)
    | DeleteRow(id: int)

  /** `getServiceName`. */
  function ServiceName(workflowName: string): (r: string)
    ensures |r| == |workflowName| + 4 && r[..|workflowName|] == workflowName && r[|workflowName|..] == "-svc"
  {
    workflowName + "-svc"
  }

  /** `getIngressName`. */
  function IngressName(workflowName: string): (r: string)
    ensures |r| == |workflowName| + 4 && r[..|workflowName|] == workflowName && r[|workflowName|..] == "-ing"
  {
    workflowName + "-ing"
  }

  /** Distinct workflows get distinct service and ingress names, and no service name is an
      ingress name. */
  lemma DerivedNamesDistinct(a: string, b: string)
    ensures ServiceName(a) == ServiceName(b) ==> a == b
    ensures IngressName(a) == IngressName(b) ==> a == b
    ensures ServiceName(a) != IngressName(b)
  {
    var sa, sb, ia, ib := ServiceName(a), ServiceName(b), IngressName(a), IngressName(b);
    if sa == sb {
      assert |a| == |b|;
      assert a == sa[..|a|] == sb[..|b|] == b;
    }
    if ia == ib {
      assert |a| == |b|;
      assert a == ia[..|a|] == ib[..|b|] == b;
    }
    assert sa[|sa| - 1] == 'c' && ib[|ib| - 1] == 'g';
  }

  /** The workflow's type asks for an ingress. */
  predicate HasIngress(workflowType: string) {
    workflowType == "Ingress"
  }

  /** The row `CreateWorkflow` stores. */
  function RowOf(data: WorkflowCreate): (r: WorkflowRow)
    ensures r.deployment == data.name && r.service == ServiceName(data.name)
    ensures r.ingress == (if HasIngress(data.workflowType) then IngressName(data.name) else "")
    ensures r.name == data.name && r.namespace == data.namespace && r.replicas == data.replicas
    ensures r.workflowType == data.workflowType && r.cluster == data.cluster
  {
    var ingressName := if data.workflowType == "Ingress" then IngressName(data.name) else "";
    WorkflowRow(data.name, data.namespace, data.replicas, data.name, ServiceName(data.name), ingressName,
                data.workflowType, data.cluster)
  }

  /** The service type: the workflow's type, except that an ingress workflow's service is a
      ClusterIP one. */
  function ServiceTypeOf(workflowType: string): (r: string)
    ensures HasIngress(workflowType) ==> r == "ClusterIP"
    ensures !HasIngress(workflowType) ==> r == workflowType
  {
    if workflowType != "Ingress" then workflowType else "ClusterIP"
  }

  // ----- The deployment and service requests as the code writes them -----

  /** The deployment request as written: the workflow's name, namespace, replicas, image,
      labels, quantities and health check, but exposing the service port `port`. */
  function DeployRequestAsWritten(data: WorkflowCreate): (r: Deployments.DeployCreate)
    ensures r.name == data.name && r.namespace == data.namespace && r.replicas == data.replicas
    ensures r.image == data.image && r.labels == data.labels
    ensures r.cpu == data.cpu && r.memory == data.memory
    ensures r.healthCheck == data.healthCheck && r.healthPath == data.healthPath
    ensures r.containerPort == data.port
  {
    Deployments.DeployCreate(data.name, data.namespace, data.replicas, data.image, data.labels, data.cpu,
                             data.memory, data.port, data.healthCheck, data.healthPath, "")
  }

  /** The service request as written: named after the workflow, of the derived type, on
      `port`, forwarding to `containerPort`, with the node port given, and no selector. */
  function ServiceRequestAsWritten(data: WorkflowCreate): (r: Services.ServiceCreate)
    ensures r.name == ServiceName(data.name) && r.namespace == data.namespace
    ensures r.serviceType == ServiceTypeOf(data.workflowType) && r.labels == data.labels
    ensures r.port == data.port && r.targetPort == data.containerPort && r.nodePort == data.nodePort
    ensures r.selector == map[]
  {
    Services.ServiceCreate(ServiceName(data.name), data.namespace, ServiceTypeOf(data.workflowType), map[],
                           data.labels, data.port, "", "", data.containerPort, data.nodePort, "", [], "")
  }

  /** The service the code creates selects no pods at all, so it never routes to the
      deployment's pods when they carry a label; and it forwards to `containerPort` while the
      deployment exposes, and probes, `port`. */
  lemma AsWrittenServiceMissesDeployment(data: WorkflowCreate)
    ensures Services.ServiceOf(ServiceRequestAsWritten(data)).selector == map[]
    ensures data.labels != map[] ==>
      Services.ServiceOf(ServiceRequestAsWritten(data)).selector !=
      Deployments.DeploymentOf(DeployRequestAsWritten(data)).templateLabels
    ensures data.port != data.containerPort ==>
      Services.ServiceOf(ServiceRequestAsWritten(data)).ports[0].targetPort !=
      IntVal(Deployments.DeploymentOf(DeployRequestAsWritten(data)).containers[0].ports[0].containerPort)
  {
    Services.ServiceShape(ServiceRequestAsWritten(data));
    Deployments.DeploymentShape(DeployRequestAsWritten(data));
  }

  /** A request that shows it: label app=web, service port 80, container port 8080. */
  lemma AsWrittenCounterexample()
    ensures var data := WorkflowCreate("web", "default", 1, "nginx", map["app" := "web"], "100m", "128Mi",
                                       8080, false, "", "ClusterIP", 80, 0, map[], "c1");
      && Services.ServiceOf(ServiceRequestAsWritten(data)).selector !=
         Deployments.DeploymentOf(DeployRequestAsWritten(data)).templateLabels
      && Deployments.DeploymentOf(DeployRequestAsWritten(data)).containers[0].ports[0].containerPort == 80
      && Services.ServiceOf(ServiceRequestAsWritten(data)).ports[0].targetPort == IntVal(8080)
  {
    var data := WorkflowCreate("web", "default", 1, "nginx", map["app" := "web"], "100m", "128Mi",
                               8080, false, "", "ClusterIP", 80, 0, map[], "c1");
    assert "app" in data.labels;
    AsWrittenServiceMissesDeployment(data);
    Services.ServiceShape(ServiceRequestAsWritten(data));
    Deployments.DeploymentShape(DeployRequestAsWritten(data));
  }

  // ----- The corrected requests: what the service evidently means to submit -----

  /** The deployment request: the workflow's name, namespace, replicas, image, labels,
      quantities and health check, exposing `containerPort`. */
  function DeployRequest(data: WorkflowCreate): (r: Deployments.DeployCreate)
    ensures r.name == data.name && r.namespace == data.namespace && r.replicas == data.replicas
    ensures r.labels == data.labels && r.containerPort == data.containerPort
  {
    Deployments.DeployCreate(data.name, data.namespace, data.replicas, data.image, data.labels, data.cpu,
                             data.memory, data.containerPort, data.healthCheck, data.healthPath, "")
  }

  /** The service request: named after the workflow, of the derived type, selecting the
      workflow's labels, on `port`, forwarding to `containerPort`, with the node port given. */
  function ServiceRequest(data: WorkflowCreate): (r: Services.ServiceCreate)
    ensures r.name == ServiceName(data.name) && r.namespace == data.namespace
    ensures r.serviceType == ServiceTypeOf(data.workflowType) && r.selector == data.labels
    ensures r.port == data.port && r.targetPort == data.containerPort && r.nodePort == data.nodePort
  {
    Services.ServiceCreate(ServiceName(data.name), data.namespace, ServiceTypeOf(data.workflowType), data.labels,
                           data.labels, data.port, "", "", data.containerPort, data.nodePort, "", [], "")
  }

  /** The created service routes to the created deployment's pods, on the port they expose. */
  lemma ServiceRoutesToDeployment(data: WorkflowCreate)
    ensures Services.ServiceOf(ServiceRequest(data)).selector ==
      Deployments.DeploymentOf(DeployRequest(data)).templateLabels
    ensures Services.ServiceOf(ServiceRequest(data)).ports[0].targetPort ==
      IntVal(Deployments.DeploymentOf(DeployRequest(data)).containers[0].ports[0].containerPort)
  {
    Services.ServiceShape(ServiceRequest(data));
    Deployments.DeploymentShape(DeployRequest(data));
  }

  /** The ingress request: named after the workflow, with its labels and hosts. */
  function IngressRequest(data: WorkflowCreate): (r: Ingresses.IngressCreate)
    ensures r.name == IngressName(data.name) && r.namespace == data.namespace
    ensures r.labels == data.labels && r.hosts == data.hosts
  {
    Ingresses.IngressCreate(IngressName(data.name), data.namespace, map[], data.labels, data.hosts, "")
  }

  // ----- Call sequences -----

  /** The calls `createWorkFlowResource` makes, in order, with the requests as written. */
  function ResourcePlan(data: WorkflowCreate): seq<Call> {
    [CreateDeployment(DeployRequestAsWritten(data)), CreateService(ServiceRequestAsWritten(data))] +
    (if HasIngress(data.workflowType) then [CreateIngress(IngressRequest(data))] else [])
  }

  /** The calls `CreateWorkflow` makes, in order: the row first. */
  function CreatePlan(data: WorkflowCreate): seq<Call> {
    [InsertRow(RowOf(data))] + ResourcePlan(data)
  }

  /** The calls `deleteWorkFlowResource` makes for a stored row, in order. */
  function DeleteResourcePlan(row: WorkflowRow): seq<Call> {
    [DeleteDeployment(row.name, row.namespace), DeleteService(ServiceName(row.name), row.namespace)] +
    (if HasIngress(row.workflowType) then [DeleteIngress(IngressName(row.name), row.namespace)] else [])
  }

  /** The calls `DeleteWorkflow` makes after reading the row: the row last. */
  function DeletePlan(row: WorkflowRow, id: int): seq<Call> {
    DeleteResourcePlan(row) + [DeleteRow(id)]
  }

  /** What running a call sequence did: the calls that took effect and the first failure. */
  datatype Run = Run(done: seq<Call>, failure: Option<string>)

  /** Runs `plan` until the first call that fails. */
  function RunPlan(plan: seq<Call>, fails: Call -> Option<string>): Run
    decreases |plan|
  {
    if plan == [] then Run([], None)
    else if fails(plan[0]).Some? then Run([], fails(plan[0]))
    else
      var rest := RunPlan(plan[1..], fails);
      Run([plan[0]] + rest.done, rest.failure)
  }

  /** The calls that took effect are a prefix of the plan and all succeeded; the run failed
      exactly when it stopped short, and then with the error of the first call left out. */
  lemma {:induction false} RunPlanStopsAtFirstFailure(plan: seq<Call>, fails: Call -> Option<string>)
    ensures var r := RunPlan(plan, fails);
      && |r.done| <= |plan| && r.done == plan[..|r.done|]
      && (forall k :: 0 <= k < |r.done| ==> fails(plan[k]).None?)
      && (r.failure.None? <==> r.done == plan)
      && (r.failure.Some? ==> r.failure == fails(plan[|r.done|]))
    decreases |plan|
  {
    if plan != [] && fails(plan[0]).None? {
      var rest := plan[1..];
      RunPlanStopsAtFirstFailure(rest, fails);
      var r := RunPlan(plan, fails);
      assert r.done == [plan[0]] + RunPlan(rest, fails).done;
      forall k | 0 <= k < |r.done|
        ensures fails(plan[k]).None?
      {
        if k > 0 {
          assert plan[k] == rest[k - 1];
        }
      }
      assert plan == [plan[0]] + rest;
    }
  }

  /** Running a plan in two parts: the second part runs only if the first went through. */
  lemma {:induction false} RunPlanAppend(p: seq<Call>, q: seq<Call>, fails: Call -> Option<string>)
    ensures RunPlan(p + q, fails) ==
      var first := RunPlan(p, fails);
      if first.failure.Some? then first
      else var second := RunPlan(q, fails); Run(p + second.done, second.failure)
    decreases |p|
  {
    if p == [] {
      assert p + q == q;
    } else {
      var c, tail := p[0], p[1..];
      assert p == [c] + tail;
      assert p + q == [c] + (tail + q);
      RunPlanCons(c, tail + q, fails);
      RunPlanCons(c, tail, fails);
      RunPlanAppend(tail, q, fails);
      if fails(c).None? && RunPlan(tail, fails).failure.None? {
        assert [c] + (tail + RunPlan(q, fails).done) == p + RunPlan(q, fails).done;
      }
    }
  }

  /** Running a plan that starts with `c`: `c` first, and the rest only if it went through. */
  lemma RunPlanCons(c: Call, rest: seq<Call>, fails: Call -> Option<string>)
    ensures fails(c).Some? ==> RunPlan([c] + rest, fails) == Run([], fails(c))
    ensures fails(c).None? ==>
      RunPlan([c] + rest, fails) == Run([c] + RunPlan(rest, fails).done, RunPlan(rest, fails).failure)
  {
    assert ([c] + rest)[1..] == rest;
  }

  /** Running a plan of two calls and an optional third, spelled out case by case. */
  lemma RunPlanUpToThree(a: Call, b: Call, tail: seq<Call>, fails: Call -> Option<string>)
    requires |tail| <= 1
    ensures RunPlan([a] + ([b] + tail), fails) ==
      if fails(a).Some? then Run([], fails(a))
      else if fails(b).Some? then Run([a], fails(b))
      else if tail == [] then Run([a, b], None)
      else if fails(tail[0]).Some? then Run([a, b], fails(tail[0]))
      else Run([a, b, tail[0]], None)
  {
    RunPlanCons(a, [b] + tail, fails);
    RunPlanCons(b, tail, fails);
    if tail != [] {
      assert tail == [tail[0]] + [];
      RunPlanCons(tail[0], [], fails);
    }
  }

  /** Creation inserts the row before any resource; the ingress is created only for the
      Ingress type; a failure never triggers a deletion, so the row and the resources created
      before it stay. */
  lemma CreateOrder(data: WorkflowCreate, fails: Call -> Option<string>)
    ensures CreatePlan(data)[0] == InsertRow(RowOf(data))
    ensures CreatePlan(data)[1].CreateDeployment? && CreatePlan(data)[2].CreateService?
    ensures (exists k :: 0 <= k < |CreatePlan(data)| && CreatePlan(data)[k].CreateIngress?) <==>
      HasIngress(data.workflowType)
    ensures forall k :: 0 <= k < |RunPlan(CreatePlan(data), fails).done| ==>
      RunPlan(CreatePlan(data), fails).done[k].InsertRow? || RunPlan(CreatePlan(data), fails).done[k].CreateDeployment? ||
      RunPlan(CreatePlan(data), fails).done[k].CreateService? || RunPlan(CreatePlan(data), fails).done[k].CreateIngress?
  {
    var plan := CreatePlan(data);
    if HasIngress(data.workflowType) {
      assert plan[3].CreateIngress?;
    }
    var done := RunPlan(plan, fails).done;
    RunPlanStopsAtFirstFailure(plan, fails);
    forall k | 0 <= k < |done|
      ensures done[k].InsertRow? || done[k].CreateDeployment? || done[k].CreateService? || done[k].CreateIngress?
    {
      assert done[k] == plan[k];
    }
  }

  /** Deletion removes the row only after every resource deletion went through: if any of
      them fails, the row stays. */
  lemma DeleteKeepsRowOnFailure(row: WorkflowRow, id: int, fails: Call -> Option<string>)
    ensures DeleteRow(id) in RunPlan(DeletePlan(row, id), fails).done <==>
      (RunPlan(DeleteResourcePlan(row), fails).failure.None? && fails(DeleteRow(id)).None?)
  {
    var res := DeleteResourcePlan(row);
    RunPlanAppend(res, [DeleteRow(id)], fails);
    var first := RunPlan(res, fails);
    var run := RunPlan(DeletePlan(row, id), fails);
    RunPlanStopsAtFirstFailure(res, fails);
    if first.failure.Some? {
      assert run == first;
      assert forall k :: 0 <= k < |first.done| ==> first.done[k] == res[k];
      assert DeleteRow(id) !in res;
    } else {
      RunPlanCons(DeleteRow(id), [], fails);
      assert run.done == res + RunPlan([DeleteRow(id)], fails).done;
      if fails(DeleteRow(id)).None? {
        assert run.done[|res|] == DeleteRow(id);
      } else {
        assert run.done == res;
        assert DeleteRow(id) !in res;
      }
    }
  }

  /** Only an Ingress workflow's deletion deletes an ingress. */
  lemma DeleteIngressOnlyForIngress(row: WorkflowRow, id: int)
    ensures (exists k :: 0 <= k < |DeletePlan(row, id)| && DeletePlan(row, id)[k].DeleteIngress?) <==>
      HasIngress(row.workflowType)
  {
    if HasIngress(row.workflowType) {
      assert DeletePlan(row, id)[2].DeleteIngress?;
    }
  }

  /** What reading the row by id gives: the row, nothing, or a database error. */
  datatype Lookup = Found(row: WorkflowRow) | NotFound | LookupFailed(cause: string)

  /** The zero row `GetById` returns when no row has the id (it swallows "record not
      found"). */
  const EmptyRow := WorkflowRow("", "", 0, "", "", "", "", "")

  /** `GetById`: a missing row reads as the zero row. */
  function GetById(lookup: Lookup): (r: Result<WorkflowRow, string>)
    ensures lookup.Found? ==> r == Ok(lookup.row)
    ensures lookup.NotFound? ==> r == Ok(EmptyRow)
    ensures r.Err? <==> lookup.LookupFailed?
  {
    match lookup
    case Found(row) => Ok(row)
    case NotFound => Ok(EmptyRow)
    case LookupFailed(cause) => Err(cause)
  }

  /** The database and cluster, seen through the calls made to them. */
  class Backend {
    var performed: seq<Call>

    constructor ()
      ensures performed == []
    {
      performed := [];
    }

    /** Makes one call: it takes effect unless it fails. */
    method Perform(c: Call, fails: Call -> Option<string>) returns (err: Option<string>)
      modifies this
      ensures err == fails(c)
      ensures performed == old(performed) + (if err.None? then [c] else [])
    {
      err := fails(c);
      if err.None? {
        performed := performed + [c];
      }
    }

    /** `createWorkFlowResource`: deployment, service, then the ingress of an Ingress
        workflow, stopping at the first failure. */
    method CreateResources(data: WorkflowCreate, fails: Call -> Option<string>) returns (err: Option<string>)
      modifies this
      ensures performed == old(performed) + RunPlan(ResourcePlan(data), fails).done
      ensures err == RunPlan(ResourcePlan(data), fails).failure
    {
      var dc, sc, ic := DeployRequestAsWritten(data), ServiceRequestAsWritten(data), IngressRequest(data);
      var tail := if HasIngress(data.workflowType) then [CreateIngress(ic)] else [];
      assert ResourcePlan(data) == [CreateDeployment(dc)] + ([CreateService(sc)] + tail);
      RunPlanUpToThree(CreateDeployment(dc), CreateService(sc), tail, fails);
      err := Perform(CreateDeployment(dc), fails);
      if err.Some? {
        return;
      }
      err := Perform(CreateService(sc), fails);
      if err.Some? {
        return;
      }
      if data.workflowType == "Ingress" {
        err := Perform(CreateIngress(ic), fails);
      }
    }

    /** `CreateWorkflow`: stores the row, then creates the resources; a failure undoes
        nothing. */
    method CreateWorkflow(data: WorkflowCreate, fails: Call -> Option<string>) returns (err: Option<string>)
      modifies this
      ensures performed == old(performed) + RunPlan(CreatePlan(data), fails).done
      ensures err == RunPlan(CreatePlan(data), fails).failure
    {
      RunPlanAppend([InsertRow(RowOf(data))], ResourcePlan(data), fails);
      var newWorkflow := RowOf(data);
      err := Perform(InsertRow(newWorkflow), fails);
      if err.Some? {
        return;
      }
      err := CreateResources(data, fails);
    }

    /** `deleteWorkFlowResource`: deployment, service, then the ingress of an Ingress
        workflow, stopping at the first failure. */
    method DeleteResources(row: WorkflowRow, fails: Call -> Option<string>) returns (err: Option<string>)
      modifies this
      ensures performed == old(performed) + RunPlan(DeleteResourcePlan(row), fails).done
      ensures err == RunPlan(DeleteResourcePlan(row), fails).failure
    {
      var dd := DeleteDeployment(row.name, row.namespace);
      var ds := DeleteService(ServiceName(row.name), row.namespace);
      var di := DeleteIngress(IngressName(row.name), row.namespace);
      var tail := if HasIngress(row.workflowType) then [di] else [];
      assert DeleteResourcePlan(row) == [dd] + ([ds] + tail);
      RunPlanUpToThree(dd, ds, tail, fails);
      err := Perform(dd, fails);
      if err.Some? {
        return;
      }
      err := Perform(ds, fails);
      if err.Some? {
        return;
      }
      if row.workflowType == "Ingress" {
        err := Perform(di, fails);
      }
    }

    /** `DeleteWorkflow`: reads the row, deletes its resources, then the row. A failed read
        makes no call; a missing row is deleted as the zero row. */
    method DeleteWorkflow(id: int, lookup: Lookup, fails: Call -> Option<string>) returns (err: Option<string>)
      modifies this
      ensures lookup.LookupFailed? ==> err == Some(lookup.cause) && performed == old(performed)
      ensures GetById(lookup).Ok? ==>
        && performed == old(performed) + RunPlan(DeletePlan(GetById(lookup).value, id), fails).done
        && err == RunPlan(DeletePlan(GetById(lookup).value, id), fails).failure
    {
      var got := GetById(lookup);
      if got.Err? {
        return Some(got.error);
      }
      var workflow := got.value;
      RunPlanAppend(DeleteResourcePlan(workflow), [DeleteRow(id)], fails);
      RunPlanStopsAtFirstFailure(DeleteResourcePlan(workflow), fails);
      err := DeleteResources(workflow, fails);
      if err.Some? {
        return;
      }
      err := Perform(DeleteRow(id), fails);
    }
  }
}
