/**
 * The pod service (service/pod.go): the pod listing, the container names of a pod and the
 * number of pods per namespace. Every cluster API call is replaced by its outcome, passed in
 * as a parameter (a `Result` holding the listed objects or the error text).
 */
module Pods {
  import opened Wrappers
  import opened Listing
  import DataSelector

  datatype Container = Container(name: string, image: string)
  datatype Pod = Pod(name: string, namespace: string, created: int, containers: seq<Container>)
  datatype Namespace = Namespace(name: string, created: int)

  /** One entry of the per-namespace pod count (`PodsNp`). */
  datatype PodsNp = PodsNp(namespace: string, podNum: nat)

  datatype PodError = NamespaceListFailed(cause: string) | PodListFailed(cause: string) | PodGetFailed(cause: string)

  /** `podCell.GetName`. */
  function PodName(p: Pod): string {
    p.name
  }

  /** `podCell.GetCreation`. */
  function PodCreated(p: Pod): int {
    p.created
  }

  /** `GetPods`: the listing pipeline over the pods the cluster returned. */
  method GetPods(listed: Result<seq<Pod>, string>, filterName: string, limit: int, page: int)
    returns (r: Result<Page<Pod>, ListError>)
    ensures listed.Err? ==> r == Err(ListFailed(listed.error))
    ensures listed.Ok? ==>
      var matching := DataSelector.Matching(CellsOf(listed.value, PodName, PodCreated), filterName);
      && (r.Ok? <==> DataSelector.PageFits(|matching|, DataSelector.PaginateQuery(limit, page)))
      && (r.Ok? ==> IsListing(listed.value, PodName, PodCreated, filterName, limit, page, r.value))
  {
    r := List(listed, PodName, PodCreated, filterName, limit, page);
  }

  /** `GetPodContainer`: the names of the pod's containers, one per container, in spec order. */
  method GetPodContainer(got: Result<Pod, string>) returns (r: Result<seq<string>, PodError>)
    ensures got.Err? ==> r == Err(PodGetFailed(got.error))
    ensures got.Ok? ==> r.Ok? && |r.value| == |got.value.containers|
    ensures got.Ok? && r.Ok? ==>
      forall i :: 0 <= i < |r.value| ==> r.value[i] == got.value.containers[i].name
  {
    if got.Err? {
      return Err(PodGetFailed(got.error));
    }
    var containers: seq<string> := [];
    for i := 0 to |got.value.containers|
      invariant |containers| == i
      invariant forall k :: 0 <= k < i ==> containers[k] == got.value.containers[k].name
    {
      containers := containers + [got.value.containers[i].name];
    }
    return Ok(containers);
  }

  /** Index of the first namespace whose pod list call fails, if any. */
  predicate FirstFailure(namespaces: seq<Namespace>, listPods: string -> Result<seq<Pod>, string>, i: int) {
    0 <= i < |namespaces| && listPods(namespaces[i].name).Err? &&
    forall k :: 0 <= k < i ==> listPods(namespaces[k].name).Ok?
  }

  /** `GetPodNumPerNp`: one entry per namespace, in list order, holding that namespace's pod
      count; the first failing pod list aborts with its error and no partial result.
      `listPods` stands for the per-namespace pod list call. */
  method GetPodNumPerNp(namespaceList: Result<seq<Namespace>, string>,
                        listPods: string -> Result<seq<Pod>, string>)
    returns (r: Result<seq<PodsNp>, PodError>)
    ensures namespaceList.Err? ==> r == Err(NamespaceListFailed(namespaceList.error))
    ensures namespaceList.Ok? ==>
      var nss := namespaceList.value;
      && (r.Ok? <==> forall k :: 0 <= k < |nss| ==> listPods(nss[k].name).Ok?)
      && (r.Ok? ==> |r.value| == |nss| && forall k :: 0 <= k < |nss| ==>
            r.value[k] == PodsNp(nss[k].name, |listPods(nss[k].name).value|))
      && (r.Err? ==> exists i :: FirstFailure(nss, listPods, i) && r.error == PodListFailed(listPods(nss[i].name).error))
  {
    if namespaceList.Err? {
      return Err(NamespaceListFailed(namespaceList.error));
    }
    var nss := namespaceList.value;
    var podsNps: seq<PodsNp> := [];
    for i := 0 to |nss|
      invariant |podsNps| == i
      invariant forall k :: 0 <= k < i ==> listPods(nss[k].name).Ok?
      invariant forall k :: 0 <= k < i ==> podsNps[k] == PodsNp(nss[k].name, |listPods(nss[k].name).value|)
    {
      var podList := listPods(nss[i].name);
      if podList.Err? {
        assert FirstFailure(nss, listPods, i);
        return Err(PodListFailed(podList.error));
      }
      podsNps := podsNps + [PodsNp(nss[i].name, |podList.value|)];
    }
    return Ok(podsNps);
  }
}
