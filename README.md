# Catalyst hosting integration for .NET Aspire — a Dafny model

The integration lets an Aspire application host declare a Diagrid Catalyst
project, attach application resources to it, and declare pub/sub services,
key-value stores, components and subscriptions on it. When the host starts, a
before-start handler provisions everything through a Catalyst provisioner,
publishing a state for the project resource at each phase. It then hands the
project's endpoints and each application's identity to the applications, as
environment variables, through single-assignment cells.

The model has these modules:

- `Model` — the passive descriptors: pub/sub, kv store, component, subscription,
  application and project details, resources with their endpoints. It also holds
  the exceptions the code throws, each with its message.
- `Dictionaries` — a .NET `Dictionary` whose entries are never removed. It is an
  insertion-ordered sequence of key/value pairs, with `Add` (throws on a duplicate
  key), the indexer `Put`, and `Lookup`.
- `Deferred` — `TaskCompletionSource` as a value cell, `Pending` or `Resolved(v)`.
  It has `SetResult`, which throws on a resolved cell, and `await`. `Replay` plays
  out any interleaving of producers and consumers on one cell.
- `Project` — the `CatalystProject` resource. It is a class whose dictionaries and
  cells the other modules update in place. Its invariant `Valid` says the keys are
  unique and pub/sub and kv-store names share one namespace.
- `DiagridStateStore` — the typed state-store component and the flattening of its
  metadata record into a string-keyed map.
- `ResourceBuilderExtensions` — the declaration calls. They cover the project name
  derivation, `WithCatalyst` and its environment callback, subscriptions,
  components, pub/subs and kv stores, and the sample overloads. The application
  host's resource list is the field `resources` of an `AppBuilder` class.
- `Provisioning` — the specification of a run:
  - the provisioner as an oracle that says, for every call, whether it throws and
    what it returns;
  - the `Plan` of status updates and calls;
  - `Execute`, which runs a plan and stops at the first call that throws, after
    recording that call and one `FailedToStart` status.

  The properties of a run are proved about `Execute(Plan(...))`.
- `BeforeStartHandler` — the handler. It is a class whose step methods append to
  its `calls` and `statuses` traces and resolve the project's cells. Each method is
  proved to record exactly what executing its part of the plan records. The loops
  over applications, pub/subs, kv stores and components carry invariants that tie
  the traces so far to the plan of the items already handled.

In the code, the environment callback looks up the resource's identity cell
unconditionally. A resource without an HTTP endpoint, which never got a cell,
therefore makes the callback throw a missing-key exception rather than being
skipped. The callback also takes the first Catalyst project of the model, not
the one `WithCatalyst` resolved. The model follows the code in both.

The run calls `Init` before the project phase and `UseProject` after
`CreateProject`.

## Model

| member | source | states |
|---|---|---|
| Dictionaries.Lookup | Hosting.Catalyst/ResourceBuilderExtensions.cs:282-286 | `TryGetValue`/`ContainsKey`: a value is found exactly when the key is present, and with unique keys it is the value stored with that key |
| Dictionaries.Add | Hosting.Catalyst/ResourceBuilderExtensions.cs:294 | `Dictionary.Add` fails exactly on a key already present; otherwise the key is appended, maps to the new value, every other key keeps its value, and keys stay unique |
| Dictionaries.Put | Hosting.Catalyst/ResourceBuilderExtensions.cs:117 | the indexer keeps the key order and appends a new key at the end |
| Dictionaries.PutLookup | Hosting.Catalyst/ResourceBuilderExtensions.cs:117 | after `d[k] = v`, looking up `k` gives `v` |
| Dictionaries.PutOthers | Hosting.Catalyst/ResourceBuilderExtensions.cs:117 | `d[k] = v` leaves the value under every other key unchanged |
| Dictionaries.PutKeepsDistinct | Hosting.Catalyst/ResourceBuilderExtensions.cs:117 | the indexer keeps every key unique |
| Deferred.SetResult | Hosting.Catalyst/CatalystBeforeStartHandler.cs:158-159 | `SetResult` succeeds exactly on an unresolved cell, and awaiting the cell afterwards gives the value set |
| Deferred.Await | Hosting.Catalyst/ResourceBuilderExtensions.cs:128-131 | awaiting a cell completes exactly when it is resolved, and yields the value it was resolved with |
| Deferred.SecondSetResultFails | Hosting.Catalyst/CatalystProject.cs:21-22 | a second `SetResult` on the same cell throws, whatever its value, and the cell keeps the first value |
| Deferred.Replay | Hosting.Catalyst/CatalystProject.cs:21-24 | over any interleaving of `SetResult` and `await`: the cell holds the first value set; every awaiter released gets that value; awaiters stay suspended only while nothing was set; every later `SetResult` throws |
| Project.CatalystProject.Name | Hosting.Catalyst/CatalystProject.cs:13 | the host label is "catalyst-" followed by the project name |
| Project.CatalystProject.constructor | Hosting.Catalyst/CatalystProject.cs:19-29 | a new project has the given name, both endpoint cells unresolved, and every dictionary empty |
| Project.NameDeterminesProjectName | Hosting.Catalyst/CatalystProject.cs:13 | two projects with the same host label have the same Catalyst name |
| DiagridStateStore.StateStore.Type | Hosting.Catalyst/ComponentSpec/DiagridStateStore.cs:10 | the type is always "state.diagrid" |
| DiagridStateStore.NewStateStore | Hosting.Catalyst/ComponentSpec/DiagridStateStore.cs:8-15 | a new store has empty scopes by default, the given metadata and type "state.diagrid" |
| DiagridStateStore.Flatten | Hosting.Catalyst/ComponentSpec/DiagridStateStore.cs:17-36 | "state" always maps to `State`; each optional field is present under its exact JSON name exactly when it is set, with its value; no other key appears |
| DiagridStateStore.Unflatten | Hosting.Catalyst/ComponentSpec/DiagridStateStore.cs:17-36 | the inverse of the flattening, used to state the round trip: reading a map back succeeds exactly when the required "state" is present; every field takes the value stored under its JSON name, and an optional field is null exactly when its name is missing |
| DiagridStateStore.UnflattenFlatten | Hosting.Catalyst/ResourceBuilderExtensions.cs:231-232 | reading back the flattened record gives the record |
| DiagridStateStore.FlattenUnflatten | Hosting.Catalyst/ComponentSpec/DiagridStateStore.cs:17-36 | every map over the six JSON names that has "state" reads back as a record whose flattening is that map |
| DiagridStateStore.FlattenSize | Hosting.Catalyst/ComponentSpec/DiagridStateStore.cs:17-36 | the flattened map has between one and six keys |
| DiagridStateStore.SampleMetadata | Hosting.Catalyst/ResourceBuilderExtensions.cs:312-318 | a record with only `State` set flattens to exactly {"state": State} |
| ResourceBuilderExtensions.ReplaceChar | Hosting.Catalyst/ResourceBuilderExtensions.cs:35 | `Replace(".", "-")` replaces every occurrence of the character and keeps every other character |
| ResourceBuilderExtensions.ToLowerAscii | Hosting.Catalyst/ResourceBuilderExtensions.cs:35 | `ToLower` lowers every character and keeps the length |
| ResourceBuilderExtensions.NormalizeNamespace | Hosting.Catalyst/ResourceBuilderExtensions.cs:35 | each character of the namespace gives one of the name: '.' becomes '-', an upper-case ASCII letter is lowered, any other character is kept; so the name has the namespace's length, no '.' and no upper-case letter |
| ResourceBuilderExtensions.NormalizeNamespaceIdempotent | Hosting.Catalyst/ResourceBuilderExtensions.cs:35 | deriving a name from a derived name changes nothing |
| ResourceBuilderExtensions.DeriveProjectName | Hosting.Catalyst/ResourceBuilderExtensions.cs:34-36 | the custom name if given; else the normalized entry namespace, which has no '.'; else "aspire" |
| ResourceBuilderExtensions.AddCatalystProject | Hosting.Catalyst/ResourceBuilderExtensions.cs:26-42 | fails with the host's duplicate-name exception exactly when the label `catalyst-<name>` is already a resource name, and then changes nothing; otherwise adds one fresh, empty, valid project with the derived name, and nothing else; resource names stay distinct |
| ResourceBuilderExtensions.AddedNameTaken | Hosting.Catalyst/ResourceBuilderExtensions.cs:39-42 | once a resource is added its name is taken, so adding a project of the same name, or the proxy of the same resource, again is refused |
| ResourceBuilderExtensions.AddKeepsNamesDistinct | Hosting.Catalyst/ResourceBuilderExtensions.cs:39-42 | adding a resource under a free name keeps every resource name distinct |
| ResourceBuilderExtensions.LoweredNamesAt | Hosting.Catalyst/ResourceBuilderExtensions.cs:39-42 | the names compared are the resources' own names, position by position, without regard to case |
| ResourceBuilderExtensions.CatalystProjects | Hosting.Catalyst/ResourceBuilderExtensions.cs:360-363 | the Catalyst projects among the host's resources, in order: every one is a resource and every project resource is listed |
| ResourceBuilderExtensions.CatalystProjectsOne | Hosting.Catalyst/ResourceBuilderExtensions.cs:360-363 | one resource contributes itself when it is a Catalyst project, and nothing otherwise |
| ResourceBuilderExtensions.CatalystProjectsCons | Hosting.Catalyst/ResourceBuilderExtensions.cs:360-363 | the projects of a list are those of its first resource, followed by those of the rest |
| ResourceBuilderExtensions.CatalystProjectsAppend | Hosting.Catalyst/ResourceBuilderExtensions.cs:360-363 | the filter keeps the resources' order: the projects of two lists in sequence are those of the first, then those of the second |
| ResourceBuilderExtensions.EnsureCatalystResources | Hosting.Catalyst/ResourceBuilderExtensions.cs:358-369 | fails exactly when there is no project, with the "Remember to configure" exception; otherwise gives the non-empty list of projects |
| ResourceBuilderExtensions.FirstHttpEndpoint | Hosting.Catalyst/ResourceBuilderExtensions.cs:90-92 | the first HTTP endpoint of the resource, or none exactly when it has no HTTP endpoint |
| ResourceBuilderExtensions.SelectProject | Hosting.Catalyst/ResourceBuilderExtensions.cs:83-86 | fails exactly when several projects exist and none is chosen; a chosen project is used; otherwise the only project is used |
| ResourceBuilderExtensions.ResolveProject | Hosting.Catalyst/ResourceBuilderExtensions.cs:81-86 | fails with no project or with several and none chosen, and only then; the project used is the chosen one or the only one |
| ResourceBuilderExtensions.WithCatalyst | Hosting.Catalyst/ResourceBuilderExtensions.cs:80-118 | when no project can be resolved nothing changes; otherwise a resource with an HTTP endpoint gets its proxy with the `dev run` arguments and an unresolved identity cell in the resolved project, unless the proxy's name is already a resource name, when the host throws before the cell is touched; a resource without one changes nothing; only the host's resources and the identity cells of the candidate projects may change, and no other project's cells do; resource names stay distinct |
| ResourceBuilderExtensions.AttachResource | Hosting.Catalyst/ResourceBuilderExtensions.cs:90-118 | with an HTTP endpoint and a free proxy name, appends the proxy and puts an unresolved cell under the resource; with a taken proxy name, throws and changes nothing; without an endpoint, changes nothing; the project stays valid and resource names stay distinct |
| ResourceBuilderExtensions.ProxyArgs | Hosting.Catalyst/ResourceBuilderExtensions.cs:101-109 | the eleven proxy arguments: `dev run --approve`, then the project name, app id and app port each after its flag, then the two `--skip-managed-*` flags |
| ResourceBuilderExtensions.ProxyName | Hosting.Catalyst/ResourceBuilderExtensions.cs:97 | the proxy's name is the resource's name followed by `-catalyst-proxy` |
| ResourceBuilderExtensions.ProxyEntry | Hosting.Catalyst/ResourceBuilderExtensions.cs:95-109 | the proxy is the executable `diagrid`, named after the resource with `-catalyst-proxy`, run in `.`, for the project, under the resource's name and on its HTTP port |
| ResourceBuilderExtensions.Environment | Hosting.Catalyst/ResourceBuilderExtensions.cs:120-133 | throws with no project, and with a missing key when the first project has no cell for the resource; completes exactly when that cell and both endpoint cells are resolved; then sets exactly the gRPC endpoint, the HTTP endpoint and the app's API token, keeping every other variable; suspends exactly when the first project has a cell for the resource and one of the three cells is still pending; throws only in the two cases above |
| ResourceBuilderExtensions.FirstAssociated | Hosting.Catalyst/ResourceBuilderExtensions.cs:147-149 | the first project that has a cell for the resource, or none exactly when no project has one |
| ResourceBuilderExtensions.WithSubscription | Hosting.Catalyst/ResourceBuilderExtensions.cs:138-167 | fails with no project, or when no project has the resource; otherwise adds `name ↦ {name, component, topic, route, [resource name]}` to the first such project, failing on a duplicate name; only subscriptions change |
| ResourceBuilderExtensions.AddSubscription | Hosting.Catalyst/ResourceBuilderExtensions.cs:154-164 | a duplicate name throws and changes nothing; otherwise the subscription is appended under its name; only subscriptions change |
| ResourceBuilderExtensions.SampleSubscriptionName | Hosting.Catalyst/ResourceBuilderExtensions.cs:180 | the short overload's name is the resource name followed by "-pubsub" |
| ResourceBuilderExtensions.WithSampleSubscription | Hosting.Catalyst/ResourceBuilderExtensions.cs:177-183 | the long overload with name "<resource>-pubsub" and component "pubsub" |
| ResourceBuilderExtensions.AsMetadata | Hosting.Catalyst/ResourceBuilderExtensions.cs:231-232 | the deserialized metadata has exactly the flattened keys, each with its value |
| ResourceBuilderExtensions.StateStoreComponent | Hosting.Catalyst/ResourceBuilderExtensions.cs:226-241 | a state store becomes a component of type "state.diagrid" with its scopes, whose metadata reads back as the store's record |
| ResourceBuilderExtensions.WithComponent | Hosting.Catalyst/ResourceBuilderExtensions.cs:193-210 | fails exactly on a duplicate component name and then changes nothing; otherwise appends `name ↦ {name, type, scopes, metadata}`; service names are not consulted |
| ResourceBuilderExtensions.WithTypedComponent | Hosting.Catalyst/ResourceBuilderExtensions.cs:220-244 | as `WithComponent`, with the component's type and scopes and its flattened metadata |
| ResourceBuilderExtensions.WithCatalystPubSub | Hosting.Catalyst/ResourceBuilderExtensions.cs:276-297 | fails exactly when the name is a pub/sub or kv-store name, with "Catalyst service names must be unique.", and then changes nothing; otherwise appends `name ↦ {project name, scopes or []}`; the namespaces stay disjoint |
| ResourceBuilderExtensions.WithCatalystKvStore | Hosting.Catalyst/ResourceBuilderExtensions.cs:329-350 | the same for kv stores |
| ResourceBuilderExtensions.SampleKvComponent | Hosting.Catalyst/ResourceBuilderExtensions.cs:312-318 | the sample component is "kvstore" of type "state.diagrid" with metadata exactly {"state": "kvstore"} and no scopes |
| ResourceBuilderExtensions.WithSampleKvStore | Hosting.Catalyst/ResourceBuilderExtensions.cs:308-319 | adds kv store "kvstore" and then the sample component, or fails on a taken service name and changes nothing |
| ResourceBuilderExtensions.WithSamplePubSub | Hosting.Catalyst/ResourceBuilderExtensions.cs:255-266 | adds pub/sub "pubsub" and then the given pub/sub component under "pubsub", or fails on a taken service name and changes nothing |
| Provisioning.ExecuteAppend | Hosting.Catalyst/CatalystBeforeStartHandler.cs:63-70 | running two parts in sequence is running the first and, if it did not throw, the second |
| Provisioning.ExecuteHalts | Hosting.Catalyst/CatalystBeforeStartHandler.cs:95 | once a part throws, nothing after it runs |
| Provisioning.ExecuteOne | Hosting.Catalyst/CatalystBeforeStartHandler.cs:82-96 | one call is recorded; if it throws, one `FailedToStart` follows and the run ends with its exception |
| Provisioning.ExecutePublishThenCall | Hosting.Catalyst/CatalystBeforeStartHandler.cs:101-120 | a phase label then a call: the label, the call, and `FailedToStart` exactly when the call throws |
| Provisioning.ExecuteComplete | Hosting.Catalyst/CatalystBeforeStartHandler.cs:54-71 | a run that does not throw records every call and every status of the plan |
| Provisioning.ExecuteCallsPrefix | Hosting.Catalyst/CatalystBeforeStartHandler.cs:63-70 | the calls made are always a prefix of the plan's calls |
| Provisioning.ExecuteStatusesPrefix | Hosting.Catalyst/CatalystBeforeStartHandler.cs:86-95 | in a failed run, the statuses are a prefix of the plan's statuses followed by `FailedToStart` |
| Provisioning.ExecuteCallsAnswered | Hosting.Catalyst/CatalystBeforeStartHandler.cs:82-95 | every call before the last returned normally; in a failed run the last call threw the run's exception |
| Provisioning.ExecuteFailedToStart | Hosting.Catalyst/CatalystBeforeStartHandler.cs:86-95 | `FailedToStart` is published once and last in a failed run, and never in a successful one |
| Provisioning.ExecuteFailsOn | Hosting.Catalyst/CatalystBeforeStartHandler.cs:82-95 | a plan that contains a call that throws ends in error |
| Provisioning.FixedSteps | Hosting.Catalyst/CatalystBeforeStartHandler.cs:58-159 | the Starting update and the four project phases each make their one call and publish their one label, in that order |
| Provisioning.HeadSegment | Hosting.Catalyst/CatalystBeforeStartHandler.cs:58-66 | the project part calls `Init`, `CreateProject`, `UseProject`, `GetProjectDetails` and publishes Starting and the three project labels |
| Provisioning.AppCallsOfEvents | Hosting.Catalyst/CatalystBeforeStartHandler.cs:181-186 | per application in registration order: `CreateApp` then `GetAppDetails` |
| Provisioning.PubSubCallsOfEvents | Hosting.Catalyst/CatalystBeforeStartHandler.cs:214-218 | one `CreatePubSub` per pub/sub in insertion order |
| Provisioning.ComponentCallsOfEvents | Hosting.Catalyst/CatalystBeforeStartHandler.cs:262-266 | one `CreateComponent` per component in insertion order |
| Provisioning.KvItem | Hosting.Catalyst/CatalystBeforeStartHandler.cs:233-239 | one kv store's events: the existence check first, then a create exactly when the check answered false |
| Provisioning.KvItemCalls | Hosting.Catalyst/CatalystBeforeStartHandler.cs:237-239 | per kv store: the existence check, then a create call exactly when the check returned false |
| Provisioning.KvCallKinds | Hosting.Catalyst/CatalystBeforeStartHandler.cs:233-239 | the kv phase makes only check and create calls |
| Provisioning.ApplicationsSegment | Hosting.Catalyst/CatalystBeforeStartHandler.cs:174-188 | the applications phase publishes its label even with no applications, then makes the application calls |
| Provisioning.ServicesSegment | Hosting.Catalyst/CatalystBeforeStartHandler.cs:204-239 | the services phase publishes its label, then the pub/sub calls, then the kv calls |
| Provisioning.ComponentsSegment | Hosting.Catalyst/CatalystBeforeStartHandler.cs:255-266 | the components phase publishes its label, then the component calls |
| Provisioning.Plan | Hosting.Catalyst/CatalystBeforeStartHandler.cs:54-71 | the run starts by publishing Starting and ends by publishing Finished then Active |
| Provisioning.PlanCalls | Hosting.Catalyst/CatalystBeforeStartHandler.cs:63-69 | the plan's calls: the four project calls, then applications, pub/subs, kv stores and components |
| Provisioning.PlanStatuses | Hosting.Catalyst/CatalystBeforeStartHandler.cs:58-71 | the plan's statuses are exactly Starting, the six phase labels, Finished, Active |
| Provisioning.PlanCallCount | Hosting.Catalyst/CatalystBeforeStartHandler.cs:63-69 | how often a call occurs in the plan is the sum over the phases |
| Provisioning.OtherCallsNotKv | Hosting.Catalyst/CatalystBeforeStartHandler.cs:63-69 | no phase except the kv phase makes a kv check or create call |
| Provisioning.CompletedRun | Hosting.Catalyst/CatalystBeforeStartHandler.cs:54-71 | a successful run publishes exactly the nine statuses and makes exactly the plan's calls in order |
| Provisioning.FailedRun | Hosting.Catalyst/CatalystBeforeStartHandler.cs:86-96 | a failed run makes a prefix of the plan's calls, whose last threw the run's exception; no other call threw; `FailedToStart` is published once and last |
| Provisioning.InitFailureRun | Hosting.Catalyst/CatalystBeforeStartHandler.cs:80-96 | when `Init` throws, the run calls only `Init` and publishes exactly Starting, FailedToStart |
| Provisioning.KvCheckCount | Hosting.Catalyst/CatalystBeforeStartHandler.cs:233-237 | each declared kv store is checked exactly once, undeclared names never |
| Provisioning.KvCreateCount | Hosting.Catalyst/CatalystBeforeStartHandler.cs:237-239 | a kv store is created once if its check returned false, and otherwise never |
| Provisioning.PlanKvCounts | Hosting.Catalyst/CatalystBeforeStartHandler.cs:233-239 | the same counts hold over the whole plan |
| Provisioning.KvStoreCreatedOnlyWhenMissing | Hosting.Catalyst/CatalystBeforeStartHandler.cs:237-239 | in any run, a kv store is created at most once and only when its check returned false; in a successful run exactly then |
| Provisioning.PubSubCallCount | Hosting.Catalyst/CatalystBeforeStartHandler.cs:214-218 | each declared pub/sub gets exactly one create call |
| Provisioning.PubSubsCreatedUnchecked | Hosting.Catalyst/CatalystBeforeStartHandler.cs:214-218 | a successful run creates each declared pub/sub exactly once, and no run checks a pub/sub's existence |
| Provisioning.ThroughApplications | Hosting.Catalyst/CatalystBeforeStartHandler.cs:58-188 | through the applications phase: the four project calls then the application calls; the four project statuses then its label |
| Provisioning.ApplicationFailureHalts | Hosting.Catalyst/CatalystBeforeStartHandler.cs:181-199 | when an application's calls fail, the run ends no later than the applications phase: the whole run is the run of the plan through that phase, which threw |
| Provisioning.ApplicationsPartFailure | Hosting.Catalyst/CatalystBeforeStartHandler.cs:58-199 | a run that throws by the end of the applications phase makes no service or component call and never publishes the services label |
| Provisioning.ApplicationFailureStopsRun | Hosting.Catalyst/CatalystBeforeStartHandler.cs:190-199 | when an application's calls fail, the run ends in error with no service or component call and without the services label |
| Provisioning.HeadHalts | Hosting.Catalyst/CatalystBeforeStartHandler.cs:63-66 | a project phase that throws ends the project part |
| Provisioning.PlanHalts | Hosting.Catalyst/CatalystBeforeStartHandler.cs:63-70 | a phase that throws ends the whole run |
| BeforeStartHandler.SingleProject | Hosting.Catalyst/CatalystBeforeStartHandler.cs:26-27 | succeeds exactly when the host has one Catalyst project, and gives it; otherwise fails with `Single`'s no-match or more-than-one exception |
| BeforeStartHandler.RanThen | Hosting.Catalyst/CatalystBeforeStartHandler.cs:63-70 | a handler that ran one part and then, if it did not throw, another, ran both |
| BeforeStartHandler.RanItem | Hosting.Catalyst/CatalystBeforeStartHandler.cs:181-201 | one loop item after items that did not throw: the loop moves on, or its exception ends the phase |
| BeforeStartHandler.RanPlanHalted | Hosting.Catalyst/CatalystBeforeStartHandler.cs:63-70 | a run that threw in a phase ran the whole plan |
| BeforeStartHandler.CellsFinal | Hosting.Catalyst/CatalystBeforeStartHandler.cs:181-188 | when the application loop stops, each cell is resolved exactly when its application and every earlier one were provisioned |
| BeforeStartHandler.AppsLoopStep | Hosting.Catalyst/CatalystBeforeStartHandler.cs:181-201 | one application handled: the loop invariant holds for the next one, or the phase ends as its plan does |
| BeforeStartHandler.CatalystBeforeStartHandler.constructor | Hosting.Catalyst/CatalystBeforeStartHandler.cs:20-32 | a handler exists only when the model has exactly one Catalyst project; it keeps that project, its name and the provisioner, and starts with empty traces |
| BeforeStartHandler.CatalystBeforeStartHandler.EnsureCatalystProvisioning | Hosting.Catalyst/CatalystBeforeStartHandler.cs:34-52 | returns normally whatever the run does, after the run has recorded what the plan's execution records; keeps the app-details keys, resolves both endpoint cells with the project's endpoints exactly when the project details loaded, and leaves each identity cell as AppCell gives it (pending when the details did not load) |
| BeforeStartHandler.CatalystBeforeStartHandler.ProvisionCatalyst | Hosting.Catalyst/CatalystBeforeStartHandler.cs:54-71 | the run records exactly `Execute(Plan(...))` and ends with its outcome; the endpoints are resolved with the project details exactly when the first four calls succeed; each application's cell is resolved with its details exactly when it and every earlier application were provisioned |
| BeforeStartHandler.CatalystBeforeStartHandler.PrepareProject | Hosting.Catalyst/CatalystBeforeStartHandler.cs:56-66 | Starting and the four project phases as planned; succeeds exactly when the first four calls do; resolves both endpoints exactly then |
| BeforeStartHandler.CatalystBeforeStartHandler.PublishUpdate | Hosting.Catalyst/CatalystBeforeStartHandler.cs:58-61 | appends one status and makes no call |
| BeforeStartHandler.CatalystBeforeStartHandler.Attempt | Hosting.Catalyst/CatalystBeforeStartHandler.cs:82-96 | records the call, returns its answer, and publishes `FailedToStart` exactly when it throws |
| BeforeStartHandler.CatalystBeforeStartHandler.InitializeProvisioner | Hosting.Catalyst/CatalystBeforeStartHandler.cs:80-97 | records the `Init` phase as planned and returns `Init`'s answer |
| BeforeStartHandler.CatalystBeforeStartHandler.EnsureProject | Hosting.Catalyst/CatalystBeforeStartHandler.cs:99-121 | "Ensuring project", then `CreateProject`, as planned |
| BeforeStartHandler.CatalystBeforeStartHandler.SelectProject | Hosting.Catalyst/CatalystBeforeStartHandler.cs:123-145 | "Selecting project", then `UseProject`, as planned |
| BeforeStartHandler.CatalystBeforeStartHandler.LoadProjectDetails | Hosting.Catalyst/CatalystBeforeStartHandler.cs:147-172 | "Loading project details", then `GetProjectDetails`; on success both endpoint cells are resolved with the matching fields, on failure neither |
| BeforeStartHandler.CatalystBeforeStartHandler.EnsureApplications | Hosting.Catalyst/CatalystBeforeStartHandler.cs:174-202 | the applications phase as planned; it succeeds exactly when every application was provisioned, and each cell is resolved exactly when its application and all before it were |
| BeforeStartHandler.CatalystBeforeStartHandler.EnsureApplication | Hosting.Catalyst/CatalystBeforeStartHandler.cs:183-200 | one application: both calls as planned; its cell is resolved with its details exactly when both succeed, and no other cell changes |
| BeforeStartHandler.CatalystBeforeStartHandler.CreatePubSubs | Hosting.Catalyst/CatalystBeforeStartHandler.cs:214-231 | the pub/sub loop records exactly its planned calls, stopping at the first that throws |
| BeforeStartHandler.CatalystBeforeStartHandler.EnsureKvStore | Hosting.Catalyst/CatalystBeforeStartHandler.cs:235-251 | one kv store: the check, then a create only when the check returned false |
| BeforeStartHandler.CatalystBeforeStartHandler.EnsureKvStores | Hosting.Catalyst/CatalystBeforeStartHandler.cs:233-252 | the kv loop records exactly its planned calls, stopping at the first that throws |
| BeforeStartHandler.CatalystBeforeStartHandler.EnsureServices | Hosting.Catalyst/CatalystBeforeStartHandler.cs:204-253 | "Ensuring services", then the pub/sub loop, then the kv loop, as planned |
| BeforeStartHandler.CatalystBeforeStartHandler.EnsureComponents | Hosting.Catalyst/CatalystBeforeStartHandler.cs:255-280 | "Ensuring components", then one create call per component, as planned |
| BeforeStartHandler.CatalystBeforeStartHandler.CompleteProvisioning | Hosting.Catalyst/CatalystBeforeStartHandler.cs:282-295 | publishes Finished, then Active |

## Left out

- Logging, the random welcome logo and the resource logger service: they only write output.
- Aspire plumbing is left out: resource annotations, `OnInitializeResource`, `WaitFor`/`WaitForCompletion`, child relationships, dependency injection. Only what these calls do to project state is kept. The proxy executable is a host resource entry with its argument list; the port is an opaque string.
- The provisioner is an oracle of total functions of the call's arguments. Two calls with the same arguments give the same answer. The real CLI provisioner and the `diagrid dev run` process are external I/O.
- The detached `Task.Run`, the cancellation tokens and all concurrency are left out. The run is sequential. The one fact kept is that the outer call returns normally.
- The `originalCancellationToken` passed to the kv existence check is left out. Cancellation is not modelled.
- BeforeStartHandler.CatalystBeforeStartHandler.ProvisionCatalyst requires every cell to be unresolved. A second run over the same project is not modelled. In the code, its `SetResult` on a resolved cell would throw.
- BeforeStartHandler.CatalystBeforeStartHandler.PrepareProject is not a method of the code. It is the first half of `ProvisionCatalystAsync`, split out to keep each proof small.
- ResourceBuilderExtensions.ToLowerAscii lowers only ASCII letters. .NET's culture-sensitive `ToLower` of other characters is not modelled.
- Reflection over the entry assembly is left out. The entry namespace is an `Option<string>` input.
- Generic JSON serialization is modelled only for the typed state store. Its mapping is the null-omitting flattening. `JsonElement` value types are not modelled.
- The "Failed to prepare component metadata" exception is not modelled. Deserializing a flattened object never yields null, so the branch cannot be reached.
- `DiagridPubSub` and `CatalystLifecycleHandler` are not part of this model. The sample pub/sub overload takes the pub/sub component as a parameter.
- The CLI DTO records, `CreateSubscriptionOptions`, the sample host and the test API are not part of this model.
- The constructor's `?? throw new("Huh?")` cannot fire after `Single` succeeds, so it is not modelled.
- Statuses are recorded without their style. `Provisioning.Status.Style` gives the style each status is published with (Info, Success or Error), but no trace or contract carries it.
- Resources are compared by value, their name and endpoints. The code compares resource objects by reference. The host refuses two resources with one name, so the two comparisons agree on every application the host accepts.
- The host's refusal of a second resource with a name it already holds is modelled on the resources this model adds: projects, proxies and the other entries of the model. The names are compared ignoring ASCII case only, as elsewhere in this model. The exception's text leaves out the two resource types the host names in it.
- ResourceBuilderExtensions.Environment: a callback that suspends on the HTTP endpoint has already written `DAPR_GRPC_ENDPOINT`. `Suspended` does not carry that partial environment. Both endpoint cells are resolved by one step of the run, so no callback resumes between the two writes.
- `Provisioning.Provisioner.Answer` is the provisioner's behaviour, an input of the model. The CLI calls behind it are not part of this model.
