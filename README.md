# k8sManagerApi core, modelled in Dafny

k8sManagerApi is a Go web back end for managing several Kubernetes clusters. It lists and
pages cluster resources, builds deployments, services and ingresses from form requests, bundles
them into "workflows", runs a web terminal into pods, records cluster events, keeps a Helm chart
store and guards its API with JSON Web Tokens. This project models the sequential decision,
selection and transformation code those features rest on, and proves what that code promises.

Modules, one per Go file of the core:

- `DataSelector` (`dataselector.dfy`): the generic list selector. A `Selector` class holds the
  cell list and the query. `Filter`, `Sort` and `Paginate` rewrite the list in place.
  Each is proved against a specification function (`Matching`, `NewestFirst`, `PageOf`).
- `Listing` (`listing.dfy`): the listing pipeline shared by every resource list. It converts
  items to cells, then filters, counts, sorts, pages and converts back.
- `Pods` (`pod.dfy`): the pod listing, container names and per-namespace pod counts.
- `Registry` (`k8s_client.dfy`): the cluster registry. `K8s` holds the client map. Node
  records are derived from node addresses and labels. Cluster configs are looked up by name.
- `Clusters` (`cluster_controller.dfy`): the sorted list of cluster names.
- `Terminal` (`terminal.dfy`): the web-terminal handshake and the `TerminalSession` frame
  protocol. It has a one-slot size hand-off, a done flag and a log of frames sent.
- `Events` (`event.dfy`): the check-then-insert de-duplication of cluster events.
- `Deployments`, `Services`, `Ingresses` (`deployment.dfy`, `service.dfy`, `ingress.dfy`):
  these build Kubernetes objects from create requests. They also cover the restart patch, the
  replica change and the listings.
- `Workflows` (`workflow.dfy`): the derived names, the stored row, and the create and delete
  call sequences. Each sequence aborts at the first failure with no rollback. `Backend` is the
  log of calls that went through.
- `HelmStore` (`helm_store.dfy`): the release list, the chart-file name check, and the
  upload, add, update and delete steps. These act on a chart table and a set of files.
- `JwtToken`, `JwtMiddleware` (`jwt_token.dfy`, `jwt_middleware.dfy`): the token claims
  (RFC 7519 tokens signed HS256, section 3.2 of RFC 7518), the error-bit classification and
  the middleware's whitelist and status mapping.
- `Wrappers`, `Strs`, `KubeTypes`: `Option`/`Result`, string helpers (substring, code-point
  order, last field after a separator, decimal text) and `int32`.

Conventions:

- Calls into the cluster API, the database, the file system and the websocket are parameters.
  They are either the call's result (`Result<…, string>`) or an optional error
  (`Option<string>`). In the workflow and chart-store sequences they are a failure oracle
  `fails: Call -> Option<string>`.
- Timestamps are integers (Unix seconds). Go panics are explicit outcomes.

## Model

| member | source | states |
|---|---|---|
| DataSelector.Matching | service/dataselector.go:65-86 | every kept cell's name contains the filter, and never more cells than the input |
| DataSelector.MatchingMultiset | service/dataselector.go:71-85 | a cell is kept exactly as often as it occurs in the input when its name contains the filter, and never otherwise |
| DataSelector.MatchingIsSubsequence | service/dataselector.go:71-85 | filtering keeps the relative order: the result is a subsequence of the input |
| DataSelector.MatchingEmptyName | service/dataselector.go:67-69 | an empty filter name returns the list unchanged |
| DataSelector.PageOfWindow | service/dataselector.go:99-106 | a page with positive limit and page is the slice from limit*(page-1) to min(limit*page, len), of length min(limit, len - start) |
| DataSelector.PageOfDisabled | service/dataselector.go:94-96 | a non-positive limit or page always fits and leaves the list as it is |
| DataSelector.PageOfIsSlice | service/dataselector.go:89-108 | a page is no longer than the list, its cells come from the list, and it keeps newest-first order |
| DataSelector.Selector.constructor | service/dataselector.go:13-16 | the selector holds the given cells and query |
| DataSelector.Selector.Swap | service/dataselector.go:46-48 | exchanges two cells, keeping the multiset |
| DataSelector.Selector.Filter | service/dataselector.go:65-86 | the list becomes the matching cells of the old list; the query is untouched |
| DataSelector.Selector.Sort | service/dataselector.go:51-62 | the list becomes a permutation of the old one ordered newest first |
| DataSelector.Selector.InsertNext | service/dataselector.go:51-62 | one insertion step of the sort keeps the multiset and extends the newest-first prefix by one |
| DataSelector.Selector.Paginate | service/dataselector.go:89-108 | succeeds exactly when the first index is within the list (otherwise the Go slice panics) and then leaves exactly that page |
| Listing.CellsRoundTrip | service/pod.go:247-263 | converting to cells keeps length, order, names and creation times, and converting back gives the items |
| Listing.ToCells | service/pod.go:247-253 | the index loop builds one cell per item, in order |
| Listing.FromCells | service/pod.go:256-263 | the index loop recovers the item of every cell, in order |
| Listing.PageOfSortedFacts | service/pod.go:61-66 | a page of the sorted matches is newest first, a sub-multiset of the matches, all of them when paging is off, and of length min(limit, rest) otherwise |
| Listing.Select | service/pod.go:49-66 | filter, count, sort and page in that order: the total is the number of matches counted before paging, and the page is a page of a newest-first permutation of the matches |
| Listing.List | service/pod.go:38-88 | a failed cluster list is an error; otherwise the result exists exactly when the page fits and is then a listing of the items |
| Listing.ListingFacts | service/pod.go:61-66 | the returned items number at most the total, which is at most the listed items; every item matches the filter; items are newest first; with paging off they are all the matches |
| Pods.GetPods | service/pod.go:38-88 | the pod listing: the list error is returned, else the listing of the pods by name and creation time |
| Pods.GetPodContainer | service/pod.go:130-140 | one name per container, in spec order, or the get error |
| Pods.GetPodNumPerNp | service/pod.go:170-193 | one entry per namespace in list order with that namespace's pod count; the first failing pod list aborts with its error and no partial result |
| Registry.K8s.constructor | service/k8s_client.go:20-23 | the registry starts with no clients |
| Registry.K8s.GetClient | service/k8s_client.go:27-34 | a registered name gives its client; an unknown name gives an error naming the cluster; nothing changes |
| Registry.InitOutcomeFailure | service/k8s_client.go:109-124 | Init succeeds exactly when every entry's config and client build, and fails with the first entry's error otherwise |
| Registry.InitOutcomeOk | service/k8s_client.go:109-124 | Init succeeds exactly when every entry builds |
| Registry.InitOutcomeFirstError | service/k8s_client.go:112-121 | a failed Init carries the error of an entry that fails after all earlier entries built |
| Registry.Names | service/k8s_client.go:109-124 | the set of configured names |
| Registry.InitOutcomeKeys | service/k8s_client.go:109-124 | after a successful Init the keys are exactly the configured names |
| Registry.InitOutcomeLastWins | service/k8s_client.go:109-124 | for a repeated name the client of the last entry is the one stored |
| Registry.InitPrefixFailure | service/k8s_client.go:112-121 | Init stops at the first entry that fails to build, with that entry's error |
| Registry.InitFailurePersists | service/k8s_client.go:112-121 | entries after a failing one have no effect on the outcome |
| Registry.K8s.Init | service/k8s_client.go:108-127 | the loop fills the client map as the Init outcome says and, on a failure, stops at the first entry that fails to build, leaving the map built from exactly the entries before it |
| Registry.LastAddressIsLast | service/k8s_client.go:57-70 | the chosen address is that of the last address of the kind, or "" when there is none |
| Registry.DeriveNodeRecord | service/k8s_client.go:57-94 | hostname and IP are the last Hostname and InternalIP addresses; master is 1 exactly when the master label is present, else 0 |
| Registry.ClusterRecords | service/k8s_client.go:80-94 | one record per node, each tagged with its cluster |
| Registry.NodeRecords | service/k8s_client.go:80-94 | the inner loop writes one record per node of the cluster, in order |
| Registry.NodeWritesStep | service/k8s_client.go:48-105 | one cluster of the outer loop: a failed node list ends the writes, otherwise that cluster's records come before the rest |
| Registry.NodeWritesStopAtFailure | service/k8s_client.go:48-105 | every record written belongs to a cluster visited before the first cluster whose node list failed |
| Registry.K8s.AddClusterNodeInfo | service/k8s_client.go:48-105 | the records written are those of the clusters in order up to the first failing list; the method reports no error |
| Registry.ClusterConf | service/k8s_client.go:37-45 | the path of the first config entry with the name, or "" when none has it |
| Registry.GetClusterConf | service/k8s_client.go:37-45 | the early-return search returns that path |
| Clusters.SortStrings | controller/cluster.go:22 | the result is a permutation of the input in ascending code-point order |
| Clusters.Insert | controller/cluster.go:22 | one insertion step keeps the multiset and extends the sorted prefix |
| Clusters.InsertPlaced | controller/cluster.go:22 | an insertion that stops below a no-larger predecessor leaves the prefix ascending |
| Clusters.AscendingDistinct | controller/cluster.go:17-22 | an ascending list of distinct names is strictly ascending |
| Clusters.GetClusters | controller/cluster.go:16-28 | every registered name exactly once, nothing else, strictly ascending, registry unchanged |
| Terminal.StdoutFrame | service/terminal.go:189-204 | an output frame has operation "stdout" and the bytes written |
| Terminal.AsciiBytes | service/terminal.go:92-99 | the bytes of ASCII text, one per character |
| Terminal.ExecErrorMessage | service/terminal.go:93-96 | the stream-error text is the fixed 24-byte prefix followed by the cause |
| Terminal.StartSession | service/terminal.go:21-101 | the handshake as written: missing parameters stop it; a GetClient error is overwritten, so an unknown cluster goes on with a nil client |
| Terminal.UnknownClusterReachesNilClient | service/terminal.go:36-42 | with all parameters present, an unregistered cluster and a config that builds, the handler executes on a nil client |
| Terminal.StartSessionChecked | service/terminal.go:21-101 | the handshake with the lookup error checked: never a nil client; an unknown cluster is refused before any upgrade |
| Terminal.StartSessionAgrees | service/terminal.go:32-48 | the checked handshake agrees with the written one whenever the cluster is registered |
| Terminal.TerminalSession.constructor | service/terminal.go:141-154 | a new session has no pending size, is not done and has sent nothing |
| Terminal.TerminalSession.Read | service/terminal.go:157-186 | stdin copies min(len p, len data) bytes into the front of p; resize fills the size slot; ping does nothing; any other operation, a parse error or a socket error returns 0 and an error; bytes of p past n are untouched |
| Terminal.TerminalSession.Write | service/terminal.go:189-204 | a successful send logs one stdout frame with the bytes and returns their count; a failed send returns 0 and an error |
| Terminal.TerminalSession.Down | service/terminal.go:207-209 | marks the session done; succeeds only the first time (a second close of the channel panics) |
| Terminal.TerminalSession.Next | service/terminal.go:218-225 | a pending size is handed out and cleared; a done session yields nothing; with neither the caller blocks |
| Terminal.TerminalSession.StreamFailed | service/terminal.go:92-99 | on a stream error the error text is sent first, then the session is marked done |
| Terminal.Copy | service/terminal.go:175-176 | Go's copy: min(len p, len data) bytes copied to the front of p, the rest of p untouched |
| Events.RecordOf | service/event.go:79-92 | the stored record takes its key from the event's involved object, reason, creation time and cluster, and its type and message from the event |
| Events.AfterAddOnlyAdds | service/event.go:53-93 | onAdd only adds: the old records stay in order, and at most one record, the event's, is appended |
| Events.AfterAddStores | service/event.go:65-92 | when lookup and insert work, the event's key is stored afterwards |
| Events.AfterAddIdempotent | service/event.go:57-92 | adding the same event again changes nothing; the count grows by at most one |
| Events.AfterAddKeepsKeysUnique | service/event.go:57-92 | unique keys stay unique |
| Events.TypeAndMessageIgnored | service/event.go:57-64 | an event differing from a stored one only in type and message is discarded |
| Events.EventStore.constructor | service/event.go:53-93 | the store holds the given records |
| Events.EventStore.OnAdd | service/event.go:53-93 | the records become those the onAdd specification gives; lookup and insert failures are swallowed |
| Deployments.CreateDeployment | service/deployment.go:115-212 | the deployment is built exactly when both quantities parse and the API accepts it; an unparsable quantity panics |
| Deployments.DeploymentShape | service/deployment.go:119-151 | labels, selector and template labels are the request labels; replicas copied; one container named after the deployment with the image and one TCP port "http" at the container port |
| Deployments.DeploymentProbes | service/deployment.go:159-194 | probes exist exactly with a health check: readiness 5/5/5 and liveness 15/5/5, both HTTP GET on the health path at the container port |
| Deployments.DeploymentResources | service/deployment.go:196-203 | limits and requests are both {cpu, memory} from the request |
| Deployments.RestartDeployment | service/deployment.go:225-273 | one patch entry per container in order, each the container's name and the single RESTART_ variable holding the clock reading taken for that container; get and patch errors are returned |
| Deployments.RestartValueReadsBack | service/deployment.go:243 | the RESTART_ value is decimal text that reads back as the time |
| Deployments.SetDeploymentReplicas | service/deployment.go:97-112 | the requested count on success, 0 and an error when reading or updating the scale fails |
| Services.CreateService | service/service.go:106-147 | the service built from the request when the API accepts it, else the refusal |
| Services.ServiceShape | service/service.go:108-131 | name, namespace, labels, type and selector copied; exactly one port with the request's name, port, protocol and integer target port |
| Services.ServiceExternalIPs | service/service.go:133-135 | external IPs are set exactly when the request lists some, and then to that list |
| Services.ServiceNodePort | service/service.go:137-139 | the node port is set exactly when the type is NodePort and the request gives a non-zero one |
| Services.GetServices | service/service.go:62-93 | the service listing through the shared pipeline |
| Ingresses.PathOf | service/ingress.go:123-134 | each ingress path copies path, path type, backend service name and port |
| Ingresses.BuildRule | service/ingress.go:110-139 | the rule of one host: that host, and exactly its paths converted in request order |
| Ingresses.RulesSoFarStep | service/ingress.go:109-142 | adding the rule of a host not yet handled keeps one rule per handled host, hosts distinct |
| Ingresses.RulesSoFarDone | service/ingress.go:109-144 | once every host is handled the rules are exactly one per host |
| Ingresses.CreateIngress | service/ingress.go:92-152 | metadata copied; exactly one rule per host, hosts distinct, each with exactly that host's paths in order; Ok exactly when the API accepts it |
| Ingresses.NoHostsNoRules | service/ingress.go:94-144 | no hosts gives no rules |
| Ingresses.RulesForUnique | service/ingress.go:109-141 | two rule lists for the same hosts hold the same rules, so map order changes only their order |
| Ingresses.GetIngress | service/ingress.go:48-79 | the ingress listing through the shared pipeline |
| Ingresses.IngressCellsRoundTrip | service/ingress.go:182-198 | fromCells(toCells(xs)) == xs for ingresses |
| Workflows.ServiceName | service/workflow.go:182-184 | the workflow name followed by "-svc" |
| Workflows.IngressName | service/workflow.go:187-189 | the workflow name followed by "-ing" |
| Workflows.DerivedNamesDistinct | service/workflow.go:182-189 | derived names determine the workflow name, and a service name never equals an ingress name |
| Workflows.RowOf | service/workflow.go:53-69 | the stored row: deployment is the name, service the derived service name, ingress the derived ingress name only for type "Ingress" |
| Workflows.ServiceTypeOf | service/workflow.go:123-128 | the service type is the workflow type, except "Ingress", which becomes "ClusterIP" |
| Workflows.AsWrittenServiceMissesDeployment | service/workflow.go:104-138 | as written, the service selects nothing, and the container port is the service port rather than the container port |
| Workflows.AsWrittenCounterexample | service/workflow.go:104-138 | a concrete request whose service selects no pod of its deployment |
| Workflows.DeployRequestAsWritten | service/workflow.go:104-115 | the deployment request the code builds: name, namespace, replicas, image, labels, quantities and health check copied, and the container port set to the service port |
| Workflows.ServiceRequestAsWritten | service/workflow.go:122-138 | the service request the code builds: derived name, derived type, labels, the workflow's port and node port, target port the container port, and no selector |
| Workflows.DeployRequest | service/workflow.go:104-115 | the corrected half of the workflow finding: the deployment request exposes the container port instead of the service port |
| Workflows.ServiceRequest | service/workflow.go:130-138 | the corrected half of the workflow finding: the service request also selects the workflow labels |
| Workflows.ServiceRoutesToDeployment | service/workflow.go:104-138 | the service selects the deployment's pod labels and targets the container's port |
| Workflows.IngressRequest | service/workflow.go:145-156 | the ingress request: derived name, namespace, labels and the hosts |
| Workflows.RunPlanStopsAtFirstFailure | service/workflow.go:102-158 | calls run in order up to the first failure: the done calls are a prefix of the plan, all succeeded, the run fails exactly when it stops short, and the failure is the next call's error |
| Workflows.RunPlanAppend | service/workflow.go:70-79 | running two plans in a row is running their concatenation, the second only when the first fully succeeded |
| Workflows.RunPlanCons | service/workflow.go:117-156 | one step of a run: a failing first call stops everything |
| Workflows.RunPlanUpToThree | service/workflow.go:117-156 | a run of two calls and an optional third: each call happens only when all before it succeeded, and the first failure is the result |
| Workflows.CreateOrder | service/workflow.go:51-158 | the row is inserted first, then deployment, service and, only for type "Ingress", ingress; only those calls are made |
| Workflows.DeleteKeepsRowOnFailure | service/workflow.go:84-99 | the row is deleted exactly when every resource deletion and the row deletion succeed |
| Workflows.DeleteIngressOnlyForIngress | service/workflow.go:173-177 | an ingress is deleted only for an Ingress workflow |
| Workflows.GetById | dao/workflow.go:45-53 | a found row, the zero row when none has the id, or the database error |
| Workflows.Backend.constructor | service/workflow.go:51-99 | no calls yet |
| Workflows.Backend.Perform | service/workflow.go:102-158 | a call is logged exactly when it succeeds, and its error is returned |
| Workflows.Backend.CreateResources | service/workflow.go:102-158 | the calls made and the error are those of running the resource plan: deployment and service with the requests as written, then the ingress for type "Ingress", up to the first failure |
| Workflows.Backend.CreateWorkflow | service/workflow.go:51-81 | the calls made and the error are those of running the create plan: the row, then the resources with the requests as written, up to the first failure |
| Workflows.Backend.DeleteResources | service/workflow.go:161-179 | the calls made and the error are those of running the delete plan for the row |
| Workflows.Backend.DeleteWorkflow | service/workflow.go:84-99 | a failed read makes no call; otherwise the resource deletions and then the row deletion run in order up to the first failure |
| HelmStore.ConstructReleaseElement | service/helm_store.go:248-268 | fields copied; notes only when showStatus; updated is "-" when never deployed |
| HelmStore.RevisionReadsBack | service/helm_store.go:252 | the revision is decimal text that reads back as the release version |
| HelmStore.ListRelease | service/helm_store.go:47-73 | total is the number of releases, one element per release in order; the list error is returned |
| HelmStore.ListedWithoutNotes | service/helm_store.go:63-72 | listed elements never carry notes |
| HelmStore.TgzNamesAccepted | service/helm_store.go:125-130 | a name ending in ".tgz", and the bare name "tgz", pass the check |
| HelmStore.OtherNamesRefused | service/helm_store.go:125-130 | a name whose last dot-separated field is not "tgz" is refused, including ".TGZ" and ".tgz.bak" |
| HelmStore.FindChart | dao/chart.go:51-62 | a stored chart with the name, or none exactly when no chart has it |
| HelmStore.UploadAsWrittenOverwrites | service/helm_store.go:132-137 | as written, uploading a file that already exists succeeds and overwrites it |
| HelmStore.Upload | service/helm_store.go:124-150 | with the existence check corrected: succeeds exactly for a chart file name not yet stored that can be created, adding the file; an existing file is refused and nothing changes |
| HelmStore.UploadNeverOverwrites | service/helm_store.go:132-137 | an upload of an existing file fails and leaves the store as it was |
| HelmStore.DeleteFile | service/helm_store.go:153-167 | the file goes exactly when it exists and removal works; the table never changes |
| HelmStore.AddFacts | service/helm_store.go:205-217 | a chart is appended exactly when lookup and insert work and no chart has its name; otherwise nothing changes; names stay unique |
| HelmStore.Merge | dao/chart.go:76-88 | an update overwrites only the fields the request sets (non-empty) and keeps the id |
| HelmStore.UpdateRows | dao/chart.go:76-88 | the rows with the request's id are merged, the others kept |
| HelmStore.UpdateFacts | service/helm_store.go:220-234 | an absent chart is a nil dereference; the old file is removed exactly when the request names a different non-empty file; a failed removal stops the row update |
| HelmStore.DeleteRows | dao/chart.go:92-100 | the rows with the id are gone and every other row kept |
| HelmStore.DeleteFacts | service/helm_store.go:237-245 | the row goes only after the file went; a missing file changes nothing |
| HelmStore.ChartStore.constructor | service/helm_store.go:124-245 | the store holds the given table and files |
| HelmStore.ChartStore.UploadChartFile | service/helm_store.go:124-150 | the new state and outcome are those of Upload |
| HelmStore.ChartStore.DeleteChartFile | service/helm_store.go:153-167 | the new state and outcome are those of DeleteFile |
| HelmStore.ChartStore.AddChart | service/helm_store.go:205-217 | the new state and outcome are those of Add |
| HelmStore.ChartStore.UpdateChart | service/helm_store.go:220-234 | the new state and outcome are those of Update |
| HelmStore.ChartStore.DeleteChart | service/helm_store.go:237-245 | the new state and outcome are those of Delete |
| JwtToken.NewClaims | utils/jwt.go:30-39 | the claims carry uid and username, subject "Token", issuer "ives", expiry one hour after the clock and the issue time |
| JwtToken.GenerateToken | utils/jwt.go:29-43 | the token is the signature of those claims |
| JwtToken.TokenLifetime | utils/jwt.go:25-35 | a token expires one hour after the first clock reading and at most one hour after its issue time |
| JwtToken.ErrorTextExpired | middle/jwt.go:32 | only the expired error reads "TokenExpired" |
| JwtToken.Classify | utils/jwt.go:55-65 | a validation error always maps to one of the four names, never the generic parse error |
| JwtToken.ClassifyPriority | utils/jwt.go:56-64 | malformed wins whatever else is set; expired needs malformed clear; not-yet-valid needs both clear; otherwise invalid |
| JwtToken.ParseToken | utils/jwt.go:46-73 | claims come back exactly when they have the right type and the token is valid; a validation error gives its name; otherwise the generic parse error |
| JwtMiddleware.JWTAuth | middle/jwt.go:9-58 | passes exactly for the two prefixes; a URL shorter than 10 bytes panics; authorizes exactly with a non-empty header that parses, storing its claims |
| JwtMiddleware.NeedsToken | middle/jwt.go:17-55 | no header is 400; an expired token 401; any other parse error 400 with its text; a parsed token is authorized |
| JwtMiddleware.WhitelistExamples | middle/jwt.go:12-15 | anything after "/api/login" or "/download/" passes; "/api/register" does not; "/testapi" panics |
| JwtMiddleware.ParsedTokenOutcomes | middle/jwt.go:29-55 | through ParseToken: expired bits give 401, malformed bits 400 "TokenMalformed", a valid token is authorized |
| Strs.LastField | service/helm_store.go:126-127 | the text after the last separator: a suffix free of the separator, preceded by it unless it is the whole string |
| Strs.ItoaRoundTrip | service/helm_store.go:252 | decimal text of an integer reads back as that integer |

## Left out

- I/O and foreign calls are parameters: the Kubernetes API, the MySQL/GORM database, the websocket and SPDY streams, the file system, Helm actions and HMAC signing. A call's result or optional error is an input.
- Concurrency is not modelled: `service/allres.go` fan-out, the informer in `WatchEventTask`, and the goroutines around the terminal. The terminal's unbuffered size channel is a one-slot rendezvous, so `Read` of a resize requires the slot to be empty.
- Controller handlers other than the cluster list, per-resource get/delete/update wrappers, the other resource listings (identical instances of the modelled pipeline) and `CreateDaemonSet` (it mirrors `CreateDeployment`) are not part of this model.
- `dao/*` beyond `GetById` and the chart table's find, update and delete are not part of this model. This includes `GetWorkflows`/`GetWorkflowDetail` paging in SQL. Chart ids are assigned by the database and are taken as given.
- The namespace argument of the listings only selects what the API returns. The listed items are an input.
- Go `int` overflow of `limit*page` is not modelled; integers are unbounded.
- DataSelector.Selector.Paginate: a start index past the end panics in Go (the slice has start > end). It is modelled as a failure, following the code. A description of the service as returning an empty page does not match the code.
- DataSelector.Selector.Sort: the sort is specified by its result (a newest-first permutation). The particular swap sequence and stability of Go's `sort.Sort` are not modelled.
- Creation times are integers. Names are ordered by code point, which is Go's byte order for the ASCII names clusters use.
- Pods.GetPodContainer: the difference between a nil and an empty Go slice for a pod without containers is not modelled.
- Registry.K8s.Init: the call to `AddClusterNodeInfo` at its end is modelled as the separate method `AddClusterNodeInfo`. A build failure is a failure outcome rather than a process panic.
- Registry.DeriveNodeRecord: the node CPU count is taken as an integer. The `strconv.Atoi` of the quantity text, whose error is ignored, is not modelled.
- `KubeConfMap` is unused by the core and not modelled.
- JSON encoding and decoding of terminal frames is not modelled. Frames are decoded values or a parse error, and marshal failures (unreachable for these types) are left out. Invalid UTF-8 replacement by the JSON encoder is not modelled.
- Events: MySQL's case-insensitive collation and datetime truncation, which can make two distinct keys collide in the lookup, are not modelled. Keys compare exactly.
- Deployments.CreateDeployment: `resource.MustParse` is a predicate `isQuantity` passed in. Quantity canonicalisation is not modelled. In the workflow plan a panic is one way the deployment call fails, through the failure oracle.
- Ingresses.CreateIngress: Go map iteration order is unspecified, so rules are specified as one per host, in some order. A nil `*HttpPath` entry (a panic) is not modelled.
- Workflows.GetById: "record not found" is swallowed and the zero row is used. Deleting a missing id therefore deletes resources named "" and "-svc". The model keeps that behaviour.
- HelmStore.ListRelease: the name filter is applied by the Helm library and is not modelled. Releases are given already filtered.
- HelmStore: the upload path is the upload directory followed by the file name. Files are keyed by name; the copy of the uploaded content and a failure of that copy are not distinguished from a create failure.
- HelmStore.ChartStore.UploadChartFile uses the corrected existence check (see Findings).
- JwtToken: signature checking and the library's expiry and issue-time checks are not modelled. What the library reports for a token is an input. The generic parse error is reachable only when the library returns a token that is not valid without a validation error.
- Deployments.RestartDeployment: the clock readings are a parameter, one per container. The patch is the value before `json.Marshal`; the marshal error path (unreachable for these maps) is not modelled.
- JwtToken.NewClaims: the two clock readings of `GenerateToken` are two parameters. The lifetime bound holds when the clock does not run backwards between them.

## Findings

| source | as written | input that shows it | evidently intended | confidence | as-written member | corrected member |
|---|---|---|---|---|---|---|
| service/terminal.go:36-38 | the error of `GetClient` is overwritten by the next call's error before anyone checks it | all four parameters present, a cluster that is not registered, and a config path ("") that builds | an unknown cluster is refused before the websocket upgrade | not executed | Terminal.UnknownClusterReachesNilClient | Terminal.StartSessionChecked |
| service/workflow.go:104-138 | the service request has no selector, and the deployment's container port is the workflow's service `Port` | `WorkflowCreate` named "web" with labels {app: web}, port 80, container port 8080, type ClusterIP | the service selects the workflow's pods and targets the container port | not executed | Workflows.AsWrittenCounterexample | Workflows.ServiceRoutesToDeployment |
| service/helm_store.go:132-137 | `os.IsExist` is applied to the `Stat` error, which is nil when the file exists, so the check never fires | uploading "app.tgz" when "app.tgz" is already stored | an existing chart file is refused, not overwritten | not executed | HelmStore.UploadAsWrittenOverwrites | HelmStore.UploadNeverOverwrites |
