# A verified model of lbex

lbex watches the services, endpoints and nodes of a Kubernetes cluster and keeps one NGINX stream configuration file
per load-balanced service. This project models that loop and what it writes, and proves what every run of it keeps.

- **The controller as a state machine** (`Reconcile`): three informer stores, their event handlers, three task queues
  with one worker each, and the configurator they share. Every read of a store is a step of its own, an informer's
  store update and the call of its handler are two steps, and reads may fail; so a change of the cluster can come
  between any two reads of a sync. The configurator's locked sections are single steps. Over all interleavings the
  project proves the invariants (`ReconcileInvariant`), convergence of the files on the stores (`Convergence`), that
  node addresses in files stay valid (`Dangling`, `NodeRegistry`, `NodeAddresses`), that the system namespace has no
  influence on anything and which services share a file (`Isolation`), and that the controller runs out of work after
  a number of steps known in advance (`Draining`). `Limits` proves, over every run, what the controller does not do.
- **From stores to configuration** (`Topology`, `Stream`, `Configurator`): the topology of a service, the generator,
  the registry of nodes and the index of nodes per service, as loops and a class with updated fields, proved against
  an order-free specification (`Stream.Generates`) because the source ranges over Go maps and sorts with an unstable
  sort. `TopologyFacts` and `StreamFacts` prove what the specification means: conservation of endpoints, balance
  weights, well-formedness, independence of history. `PortFacts`, `ListingFacts`, `TieFacts` and `RegistryFacts` give
  the exact conditions for what does not always hold: sound listen ports, listeners that do not depend on the sort,
  files that list every registered node. `SortChoice` carries the second to every run. `Witnesses` has the managed services that show each condition can fail, and `Totality`
  proves the specification can always be met.
- **End to end, in the objects' own fields** (`Contents`, `EndToEnd`): a reference for what a file says, spelled out from
  the fields of services, Endpoints objects and nodes and the texts of annotations, without any of the generator's own
  functions; and the law of the controller over every run in those terms (`EndToEnd.SettledFilesSay`).
- **From configuration to text** (`Render`, `RenderFacts`): the stream template character by character, a reader for
  such text, and the proof that reading inverts printing.
- **Ingress and flags** (`Ingress`, `IngressGenerator`, `IngressContents`, `IngressContext`, `Flags`): rewrite annotations,
  the generator for Ingress resources and what its output says, the annotations laid over the base context, and
  environment variables as flag defaults.

Strings are sequences of characters, `int` stands for Go's `int` except where a number is read or printed
(`Text.Atoi` has the 64-bit range), and a file system is a map from names to configurations.

Where the code and its own words disagree, the model follows the code:

- `--require-port=false` is documented as making port annotations optional. `baseCheck` then returns false for every
  service, so nothing is ever configured (`Isolation.NoFilesWithoutRequiredPort`).
- `DeleteConfiguration` clears the index of nodes under the file's name, while entries are stored under the
  service's key, so no entry is ever removed (`Isolation.IndexOnlyGrows`).
- `baseCheck` validates the annotation of an unnamed port under a default name; the generator looks it up without
  that name, so such a service gets no listener (`PortFacts.UnnamedPortSilent`). It also looks ports up by their name in
  the Endpoints object, which the check never sees (`PortFacts.PortsSoundIff`, `PortFacts.UncheckedPortUnsound`).
- For node set `host` the index keeps the node of the last target only (`StreamFacts.IndexCoversIff`,
  `NodeAddresses.RemovalsReportedIff`, `NodeAddresses.FirstHostForgotten`).
- A node that joins is registered, but no service is rebuilt for it, so a node file lists every node only until one
  joins (`RegistryFacts.UpdateReportedIff`, `NodeAddresses.CurrentRegistryIff`).
- Rules are sorted by a name that two ports of one number share, with a sort that may leave them in either order, and
  the first target of an upstream decides its listener (`TieFacts.TiesHarmlessIff`, `SortChoice.CommitsAgreeIff`,
  `TieFacts.StoresDoNotDetermineListeners`).

## Model

| member | source | states |
|---|---|---|
| `Text.AtoiItoa` | annotations/service_annotation.go:89-99 | printing a 64-bit integer and parsing it gives the integer back |
| `Text.ItoaInjective` | service.go:222-227 | different numbers have different decimal texts |
| `Text.LessIff` | controller.go:424-426 | the order rules are sorted by is the lexicographic one: the first difference decides |
| `Kube.BuildNode` | node.go:64-82 | the loop over a node's addresses leaves the last address of each kind in the registry entry |
| `Kube.FilteredIff` | services.go:50-56 | exactly the objects of the namespace `kube-system` are ignored |
| `Kube.NodeUpdateEqualIff` | nodes.go:76-97 | a node update is passed over exactly when the objects differ in the ignored status fields at most |
| `Topology.RunBaseCheck` | controller.go:456-498 | true exactly for a valid lbex service, when ports are required, with at least one readable port annotation and every readable one in 1..65535 |
| `Topology.FindEndpoints` | controller.go:258-268 | the search finds the Endpoints object of the service's own namespace and name, and nothing else, in whatever order the store lists |
| `Topology.RunGetEndpoints` | controller.go:270-344 | the nested loops compute the endpoints of one service port in order |
| `Topology.RunTopology` | controller.go:370-427 | a managed service's topology is a sorted arrangement of one entry per port with endpoints; any other service has none |
| `Topology.SortEntries` | controller.go:424-426 | the result is ordered by name and is a permutation of the input |
| `TopologyFacts.TopologyConservation` | controller.go:160-226 | every endpoint occurs in the flattened topology exactly as often as there are combinations of service port, subset, endpoint port and address with its fields, where a numeric target port selects the endpoint port of that number and a named one that of that name |
| `TopologyFacts.ListingSound` | controller.go:402-426 | how often a rule occurs is the number of service ports with endpoints that lead to exactly that rule, no rule is without endpoints, and rules that share a name share the port |
| `TopologyFacts.RuleNameInjective` | service.go:222-227 | for one service, two ports have the same rule name only if they are the same |
| `TopologyFacts.DefaultPortFirst` | service.go:222-227 | in every listing the rule of port 80 has the bare service name and comes before all others |
| `TopologyFacts.ListedFields` | controller.go:402-422 | every rule has the number, the target port, the host and the endpoints of the service port it is for |
| `TopologyFacts.EmptyListing` | controller.go:181-185 | the topology is empty exactly when no port has an endpoint |
| `StreamFacts.GeneratedWellFormed` | nginx/configurator.go:313-385 | upstream names are distinct, every listener passes to exactly one upstream, an upstream has at most one listener, and none exactly when the first target of its group has no readable port |
| `StreamFacts.GroupingConserves` | nginx/configurator.go:320-380 | grouping into upstreams neither loses nor invents a server: per address, the counts over all upstreams add up to the targets' contributions |
| `StreamFacts.PodConservation` | controller.go:205-222 | end to end for services annotated `pod`: an address occurs in the file as often as the Endpoints object has selected combinations with that pod IP and port |
| `StreamFacts.BalanceWeights` | nginx/configurator.go:613-649 | with one node port, node set `all` lists an address once per target and node that has it, node set `host` once per target on such a node |
| `Contents.UpstreamContents` | nginx/configurator.go:313-385 | end to end for every kind of service, from object fields and annotation texts: an upstream lists an address exactly once for every combination of service port, subset, selected endpoint port and address, and every node it is balanced over, that give this address |
| `Contents.GeneratedSays` | nginx/configurator.go:313-385 | the whole configuration in those terms: resolver, upstreams, servers, balancing directive and argument, and listeners with port, protocol, passthrough and pass target, at most one per upstream and one for every upstream whose ports are annotated |
| `PortFacts.PortsSoundIff` | nginx/configurator.go:348-371 | for a service that passes the check, every emitted listen port is in 1..65535 and reads back as a number exactly when no upstream's first target has an unchecked port name whose annotation is a number out of range |
| `PortFacts.UnnamedPortsIff` | controller.go:456-498 | when endpoint ports are named after service ports, that is: no upstream is made from an unnamed port, or the annotation with an empty port name is unreadable or in range |
| `PortFacts.UncheckedPortUnsound` | nginx/configurator.go:348-357 | for a managed service whose Endpoints object names its port otherwise than the service, every generated configuration listens on a port that does not exist |
| `PortFacts.UnnamedPortSilent` | nginx/configurator.go:348-357 | for a managed service with one unnamed port, annotated as the check wants it, no generated configuration has a listener |
| `StreamFacts.HistoryIndependence` | nginx/configurator.go:313-385 | two results for one specification and registry differ at most in the order of upstreams and of servers |
| `StreamFacts.RegistryIndependence` | nginx/configurator.go:595-611 | configurations of pod and cluster address services do not depend on the registry at all |
| `ListingFacts.ListenersAgreeIff` | nginx/configurator.go:335-371 | two arrangements of the same targets give the same listeners exactly when the first targets of each upstream agree on port and protocol |
| `TieFacts.TiesHarmlessIff` | controller.go:402-426 | all results of the sort give the same listeners exactly when, wherever two rules of one name both have targets of an upstream that no rule of smaller name has, their first such targets have the same readable port and protocol |
| `TieFacts.DistinctPortsHarmless` | controller.go:402-426 | when no two ports have the same number, the stores determine the listeners |
| `TieFacts.ListingsAgree` | controller.go:402-426 | whatever order the sort and the map visits leave, two results agree in upstream names, settings and servers; their listeners agree exactly when the first targets of each upstream do, and whenever ties are harmless |
| `SortChoice.CommitsAgreeIff` | controller.go:160-226 | at every point of every run at which a worker is about to write a file, the listeners it writes are settled exactly when the ties among the rules it read are harmless |
| `TieFacts.TieDecides` | controller.go:424-426 | for two ports of one number whose first endpoints share an upstream without sharing port and protocol, the two sort orders give different listeners |
| `TieFacts.StoresDoNotDetermineListeners` | controller.go:424-426 | a managed service with two ports of one number, and two listings of its stores all of whose configurations differ in their listeners |
| `RegistryFacts.StillGeneratedIff` | nginx/configurator.go:613-649 | a node file whose nodes are all still registered is the one that would be generated now exactly when no node the service would balance over was registered since |
| `RegistryFacts.UpdateReportedIff` | nginx/configurator.go:80-106 | for a service indexed with the whole registry, a node update is reported or changes no name and address exactly when the node is already registered |
| `StreamFacts.UpstreamNameInjective` | nginx/configurator.go:673-681 | without hyphens in namespaces and port names, an upstream name determines namespace, service and port |
| `StreamFacts.StemEqualIff` | controller.go:174-175 | two services share a file exactly when they are the same, or one namespace continues the other after a hyphen and the rest of it, a hyphen and its name make the other name |
| `StreamFacts.SharedFileSharesUpstreams` | nginx/configurator.go:673-681 | services that share a file share their upstream names, port by port |
| `StreamFacts.StemCollision` | controller.go:174-175 | two different services with valid names share a file |
| `StreamFacts.UpstreamNameEqualIff` | nginx/configurator.go:673-681 | exactly which services and ports share an upstream name |
| `StreamFacts.IndexCoversIff` | nginx/configurator.go:625-646 | after generation the index names every node the file uses exactly when the node set is `all` or the registered targets share a node |
| `StreamFacts.CountedTarget` | nginx/configurator.go:372-375 | an address in an upstream is contributed by one of the upstream's own targets |
| `Configurator.Configurator.constructor` | nginx/configurator.go:46-50 | registry, index and files start empty |
| `Configurator.Configurator.ServiceListByNodeAddress` | nginx/configurator.go:53-64 | exactly the services one of whose indexed nodes has the address, each once |
| `Configurator.Configurator.ServiceListByNodeName` | nginx/configurator.go:66-77 | exactly the services one of whose indexed nodes has the name, each once |
| `Configurator.Configurator.AddOrUpdateNode` | nginx/configurator.go:80-106 | the new registry, and as a multiset the services that must be rebuilt |
| `Configurator.Configurator.DeleteNode` | nginx/configurator.go:109-116 | the node leaves the registry, and the services indexed under it are reported |
| `Configurator.Configurator.CreateSingleUpstream` | nginx/configurator.go:595-611 | one server with the pod or cluster address of the target |
| `Configurator.Configurator.CreateNodesUpstream` | nginx/configurator.go:613-649 | per address, as many servers as the node set has nodes with it; the index entry of the service is replaced |
| `Configurator.Configurator.ListNodes` | nginx/configurator.go:636-642 | the loop over the registry lists every node and its address once |
| `Configurator.Configurator.CreateUpstream` | nginx/configurator.go:322-333 | the upstream of one target for each upstream type |
| `Configurator.Configurator.AddTarget` | nginx/configurator.go:320-376 | one turn of the loop keeps the upstreams collected so far balanced and the listeners complete |
| `Configurator.Configurator.GenerateStreamConfig` | nginx/configurator.go:313-385 | the result meets the order-free specification and the index changes as specified |
| `Configurator.Configurator.AddOrUpdateService` | nginx/configurator.go:145-159 | refused unless streams are configured; otherwise exactly the service's file is written, with a generated configuration |
| `Configurator.Configurator.DeleteStreamConfiguration` | nginx/configurator.go:692-712 | exactly the named file goes; the index loses what it holds under the file's name |
| `Configurator.MapToSlice` | nginx/configurator.go:378-380 | every collected upstream once, under distinct names |
| `WorkQueue.WorkQueue.Add` | vendor/k8s.io/kubernetes/pkg/util/workqueue/queue.go:87-107 | keeps the queue valid: distinct keys, exactly those dirty and not in work |
| `WorkQueue.WorkQueue.Get` | vendor/k8s.io/kubernetes/pkg/util/workqueue/queue.go:120-139 | keeps the queue valid |
| `WorkQueue.WorkQueue.Done` | vendor/k8s.io/kubernetes/pkg/util/workqueue/queue.go:144-157 | keeps the queue valid |
| `WorkQueue.FailedKeyWaits` | task_queue.go:74-78 | after a failed sync the key waits again and is not in work |
| `WorkQueue.NoLostWork` | task_queue.go:37-80 | in every run of the queue, with any number of workers, an added key is handed out later or still waits at the end |
| `WorkQueue.NeverTwiceAtOnce` | task_queue.go:60-80 | between two hand-outs of a key a worker finished it |
| `WorkQueue.FirstInFirstOut` | vendor/k8s.io/kubernetes/pkg/util/workqueue/queue.go:87-157 | in every run, with any number of workers, a key is not handed out before one that waited when it did not, or in front of it |
| `WorkQueue.TaskQueue.constructor` | task_queue.go:111-120 | the queue starts empty |
| `WorkQueue.TaskQueue.Enqueue` | task_queue.go:37-57 | adds the key |
| `WorkQueue.TaskQueue.Get` | task_queue.go:62-62 | hands out the oldest waiting key |
| `WorkQueue.TaskQueue.Finish` | task_queue.go:78-78 | ends work on the key |
| `WorkQueue.TaskQueue.WorkOne` | task_queue.go:60-80 | one turn of the worker: the key is taken, synced, requeued on failure and finished |
| `ReconcileInvariant.StepKeepsBasics` | controller.go:100-255 | every step keeps: workers and queues agree, no system key is pending or in work, every file is generated from a known origin |
| `ReconcileInvariant.RunKeepsBasics` | controller.go:85-255 | the same for every run |
| `ReconcileInvariant.StoresFollow` | controller.go:85-255 | in every run the stores hold exactly what the latest change to each object left |
| `Convergence.StepKeeps` | controller.go:160-255 | every step keeps, for each key: its file is current, or work that will make it so is owed or under way with fresh data |
| `Convergence.Convergence` | controller.go:160-255 | in every run, when services and endpoints are settled, a key that shares no file and was not dropped by a failed lookup has no file if it is not stored; if it is stored with a topology, its file is generated from the stored service, a listing of its stored endpoints and the registry recorded for the file, and for pod and cluster addresses from the registry as it is |
| `EndToEnd.SettledFilesSay` | controller.go:160-255 | the law of the controller in the objects' own fields: in every run, when services and endpoints are settled, a lone key outside `kube-system` not dropped by a failed lookup has no file if its service is gone, and if the service qualifies and has endpoints, a file that says what the stored objects call for, with the registry of some point of the run; pod and cluster address files with any registry |
| `EndToEnd.ManagedIff` | controller.go:370-498 | the managed services are exactly those whose class annotation, type, cluster IP, port annotations, name and pool qualify, spelled out |
| `EndToEnd.PoolsPartition` | controller.go:429-454 | a controller for one pool only and one for everything else: a service either could manage is managed by exactly one |
| `Convergence.OriginFromRun` | nginx/configurator.go:145-159 | the registry recorded for a file was the registry at some point of the run |
| `Convergence.MatchingFilesAgree` | controller.go:160-255 | two states of any runs that agree on a pod or cluster address service and its endpoints: matching files agree in upstream names, settings and servers, in listeners exactly when the first targets of each upstream do, and in listeners whenever the ties of the stored service and endpoints are harmless |
| `Dangling.UpdateReports` | nginx/configurator.go:80-106 | after a registry update a file whose nodes the index names is still good or its service is reported |
| `Dangling.StepKeepsIndex` | nginx/configurator.go:613-649 | every step keeps the index covering the files it can cover |
| `Dangling.NoDanglingNodes` | controller.go:110-158 | at every point of every run the nodes in such a file are registered with the same addresses, or a rebuild is pending |
| `NodeRegistry.RegistryConverges` | controller.go:110-158 | in every run, when nodes are settled, the registry entry of every node whose deletion was not missed has the name and the last address of each kind of its stored object |
| `NodeAddresses.ServerNode` | nginx/configurator.go:613-660 | every server address of a node service is the annotated IP of a used node with the node port of a target of the server's own upstream that is balanced over this node |
| `NodeAddresses.NoDanglingServers` | controller.go:110-158 | at every point of every run, each server of a node file whose nodes the index names has the internal or external IP, as annotated, of a registered node that a target of its own upstream is balanced over, or a rebuild is pending |
| `NodeAddresses.NoDanglingAddresses` | controller.go:110-226 | in every run, when all is settled, a served key has a file that matches the stores, and every server of such a node file has the last internal or external IP, as annotated, of a stored node object that a combination of the stored service and endpoints, of its own upstream, is balanced over |
| `NodeAddresses.CurrentRegistryIff` | nginx/configurator.go:80-106 | in every run, when all is settled, such a file is what the generator would make of the registry now exactly when no node the service would balance over joined since it was written |
| `NodeAddresses.RemovalsReportedIff` | nginx/configurator.go:66-106 | the removal of every node a file uses is reported exactly when the node set is `all` or the registered targets share a node |
| `NodeAddresses.TwoHosts` | controller.go:370-427 | a managed service with node set `host` whose listing has pods on two nodes |
| `NodeAddresses.FirstHostForgotten` | nginx/configurator.go:634-634 | for it, whatever the index was, some node its configuration uses can go without a report |
| `Isolation.SystemNamespaceIgnored` | services.go:45-90 | leaving out of a run all changes to objects whose namespace is `kube-system` gives a run with the same queues, workers, registry, index and files |
| `Isolation.SystemNamespaceLeavesNoTrace` | endpoints.go:44-77 | the same from start-up |
| `Isolation.StepSparesFiles` | controller.go:174-223 | a step changes no file but that of the service in work |
| `Isolation.IndexOnlyGrows` | nginx/configurator.go:708-709 | over every run, no service ever leaves the index |
| `Isolation.AloneIff` | controller.go:174-175 | a key is alone with its file exactly when no other key seen runs together to the same text; it is enough that no namespace continues another after a hyphen |
| `Isolation.AloneInRuns` | controller.go:174-175 | the same in every reachable state, which is what the run theorems ask of a key |
| `Isolation.UpstreamNamesUnique` | nginx/configurator.go:673-681 | in every reachable state, upstreams of different files have different names when namespaces and port names are hyphen-free |
| `Isolation.NoFilesWithoutRequiredPort` | controller.go:456-498 | without required ports no run ever writes a file |
| `Totality.GeneratorTotal` | nginx/configurator.go:313-385 | for every registry and specification some configuration meets the specification |
| `Totality.IndexTotal` | nginx/configurator.go:613-649 | and so does some index |
| `Draining.StepPays` | controller.go:85-255 | every step but a change of the cluster uses up work, save for what a failed read puts back |
| `Draining.RunsEnd` | controller.go:85-255 | while the cluster is quiet, a run is no longer than the work at its start plus four steps per failed read |
| `Draining.Progress` | task_queue.go:60-80 | unless everything is done, some step without a failed lookup is possible |
| `Draining.DrainRun` | controller.go:85-255 | from every state there is such a run, no longer than the work, that ends with nothing left to do |
| `Draining.DrainsAndConverges` | controller.go:85-255 | from every reachable state there is a run without failed reads, no longer than the work owed, that ends with nothing left to do; then every lone key not dropped by a failed lookup has converged on the cluster as it was |
| `RenderFacts.RenderLossless` | nginx/stream.tmpl:1-29 | the text of a configuration made of words reads back as that configuration |
| `RenderFacts.GeneratedReadsBack` | nginx/configurator.go:335-380 | so does the text of everything the generator makes from plain names and addresses |
| `RenderFacts.RenderInjective` | nginx/stream.tmpl:1-29 | two such configurations with the same text are the same |
| `Ingress.GetRewrites` | nginx/configurator.go:512-526 | the loop builds the map of well-formed declarations in which the last for a service wins |
| `Ingress.ParsePairs` | nginx/configurator.go:528-546 | two pairs with a space between are read whatever the words before the equals signs are |
| `Ingress.ParseIff` | nginx/configurator.go:528-546 | a declaration is read exactly when it is two pairs, the first without a space, each with one equals sign |
| `Ingress.RewritesReadBack` | nginx/configurator.go:512-546 | printed declarations read back as the last-wins map |
| `Ingress.MalformedIgnored` | nginx/configurator.go:516-521 | a malformed declaration anywhere changes nothing |
| `IngressGenerator.CreateUpstream` | nginx/configurator.go:578-593 | the endpoints of the backend, or the default server when there are none |
| `IngressGenerator.MapToSlice` | nginx/configurator.go:683-689 | every upstream once, under distinct names |
| `IngressGenerator.PathLocations` | nginx/configurator.go:249-263 | one location per path in order, on the upstream its name stands for in the whole resource |
| `IngressGenerator.MakeServer` | nginx/configurator.go:220-273 | one server per rule, with a location for the default backend when no path is the root |
| `IngressGenerator.Generate` | nginx/configurator.go:195-311 | the whole configuration: servers in order, one upstream for every name, made for the first backend that claims it |
| `IngressGenerator.IngressClosed` | nginx/configurator.go:195-311 | every location's upstream occurs in the output under a unique name with at least one server |
| `IngressGenerator.RootServed` | nginx/configurator.go:264-268 | with a default backend every server has a root location |
| `IngressGenerator.UpstreamNameEqualIff` | nginx/configurator.go:669-671 | exactly which hosts and services share an upstream name |
| `IngressGenerator.OwnServersIff` | nginx/configurator.go:250-255 | every use of an upstream reaches its own backend's endpoints exactly when uses whose host and service run together to the same text have the same endpoints, whatever their ports |
| `IngressGenerator.SecondPortIgnored` | nginx/configurator.go:669-671 | two ports of one service under one host break that condition |
| `IngressGenerator.IngressDetermined` | nginx/configurator.go:195-311 | the result depends on resource, certificates and context alone, up to the order of upstreams |
| `IngressContents.IngressSays` | nginx/configurator.go:213-275 | from the fields and annotations of the resource: host and certificate of each server, and path, upstream name, servers, websocket, rewrite and SSL setting of each location |
| `IngressContext.IngressConfigurator.constructor` | nginx/configurator.go:46-50 | the base context as given and no files |
| `IngressContext.IngressConfigurator.CreateHSTS` | nginx/configurator.go:457-486 | the three HSTS settings are taken over together or not at all |
| `IngressContext.IngressConfigurator.CreateIngressConfig` | nginx/configurator.go:387-498 | the base context with every readable annotation laid over it; the base context itself stays |
| `IngressContext.ServerSettings` | nginx/configurator.go:389-456 | each server setting comes from its own annotation when that is readable, else from the base |
| `IngressContext.LocationSettings` | nginx/configurator.go:397-498 | the same of each location setting |
| `IngressContext.HSTSSettings` | nginx/configurator.go:457-486 | the three HSTS settings are all taken from the annotations when the main one is a truth value and the others are readable or missing, else all kept |
| `IngressContext.IngressConfigurator.AddOrUpdateIngress` | nginx/configurator.go:127-142 | exactly one file is written, generated from the overlay on the base context, which stays |
| `IngressContext.IngressConfigurator.UpdateContext` | nginx/configurator.go:733-751 | replaces the base context and touches no file |
| `IngressContext.IngressHistoryIndependence` | nginx/configurator.go:127-142 | after any two histories of calls with the same latest base context, the same resource and certificates give the same servers and upstreams |
| `Flags.VariableNameInjective` | config.go:61-63 | names without upper-case letters and underscores have different variables |
| `Flags.VariableNameReadsBack` | config.go:61-63 | such a name can be read back from its variable, which is `LBEX_` and text without lower-case letters and hyphens |
| `Flags.ProgramVariables` | config.go:48-63 | the variables of the program's flags, and none for `version` |
| `Flags.VariableNameCollision` | config.go:61-63 | other names can share one |
| `Flags.NamesArePlain` | config.go:48-59 | the program's own flags are of the first kind |
| `Flags.AsPromisedIff` | config.go:65-94 | for every command line and environment each flag is taken from its variable exactly when promised, if and only if no two supported flags of the set share a variable |
| `Flags.SharedVariableBreaks` | config.go:72-94 | otherwise giving one of them leaves the other without the value it was promised |
| `Flags.ProgramAsPromised` | main.go:72-76 | the program's flags are decided as promised, whatever flags other packages add to the set |
| `Flags.FlagSet.constructor` | config.go:26-39 | values, command-line settings and supported names as given |
| `Flags.FlagSet.AlreadySet` | config.go:72-77 | the variables of the supported flags given on the command line |
| `Flags.FlagSet.Visit` | config.go:80-94 | one visited flag takes its variable's value exactly when it is supported, the variable is not that of a given supported flag, and it is not empty |
| `Flags.FlagSet.EnvParse` | config.go:69-114 | for every flag set and visiting order the values are those of that rule; if no two supported flags share a variable, each flag ends at its command-line value, else its variable's, else its default |
| `Limits.FileRemovedIff` | nginx/configurator.go:692-712 | a step removes the file of a lone key exactly when the services worker found the service gone and deletes its configuration |
| `Limits.StoredKeepsFile` | controller.go:176-185 | in every run in which the service is not deleted its file stays, whatever becomes of annotations, endpoints and nodes |
| `Limits.UnmanagedKeepsFile` | controller.go:181-185 | in every run in which the service stays stored and unmanaged its file does not change |
| `Limits.PodlessKeepsFile` | controller.go:304-342 | in every run in which the service stays stored without an Endpoints object, or with one without addresses, its file does not change |
| `Limits.CordonedToggles` | nginx/configurator.go:84-104 | over every run in which a node stays stored and unschedulable, its registry entry is as at the start exactly when the number of its syncs is even |
| `Limits.TombstoneForgotten` | nodes.go:45-75 | a node whose deletion arrives as a tombstone while nothing is under way for it keeps its registry entry in every run in which it is not stored again |
| `Limits.DeletionHandedOver` | controller.go:242-244 | the sync of an Endpoints object that is gone hands its service over without a look at the topology |

## Left out

- NGINX itself: starting, reloading and validating it, file creation, certificates and Diffie-Hellman parameters. Files are a map that a commit updates.
- The Kubernetes client and the list-and-watch machinery. An informer is a store and one undelivered change; changes and failing reads are nondeterministic steps.
- Queue shutdown, logging, health checks and version output.
- `http.tmpl` and the main NGINX configuration template.
- The fields of the HTTP context that only the main configuration file uses, and the metadata in log messages about annotations.
- `serviceUpstreamTarget` beyond being updated: nothing reads it.
- Endpoint addresses without a node name make the source panic; addresses carry a node name here.
- The state machine is about a controller configured for streams; the refusal otherwise is in `AddOrUpdateService`.
- Convergence.Convergence: keys that share a file with another key that was ever stored are exempt, because the last of them to be synced decides the file; so are keys that a failed lookup dropped since their last sync began, because the source does not retry those.
- Convergence.Convergence: says nothing of a stored service without a topology, because its old file stays; `Limits.StoredKeepsFile` and `Limits.UnmanagedKeepsFile` have the proof.
- Convergence.Convergence: a node file is generated from the registry at the time of its last rebuild, which may lack nodes that joined since; `NodeAddresses.CurrentRegistryIff` says exactly when it is current.
- Convergence.MatchingFilesAgree: only for pod and cluster addresses, because node files also depend on the registry.
- Dangling.NoDanglingNodes: only for files whose nodes the index names in full, which is exactly characterised by `StreamFacts.IndexCoversIff`.
- NodeAddresses.NoDanglingServers: only for the same files, and for keys that share no file.
- NodeRegistry.RegistryConverges: nodes whose deletion arrived as a tombstone are exempt, because the handler drops it.
- IngressGenerator.Generate: requires a colon in every endpoint, because the source indexes both halves.
- Topology.SortEntries: promises a sorted permutation and no order among equal names, as the library's sort does.
- Flags.FlagSet.Visit: what assigning a text leaves in a flag is a parameter.
