/**
 * The declaration API: the builder calls that create a Catalyst project, add
 * services, components and subscriptions to it, attach host resources to it,
 * and wire the resolved results into a resource's environment.
 */
module ResourceBuilderExtensions {
  import opened Wrappers
  import opened Model
  import opened Dictionaries
  import opened Deferred
  import opened Project
  import DiagridStateStore

  const SampleKvName: string := "kvstore"
  const SamplePubsubName: string := "pubsub"

  /** The project name used when neither a custom name nor an entry namespace is known. */
  const DefaultProjectName: string := "aspire"

  const GrpcEndpointVariable: string := "DAPR_GRPC_ENDPOINT"
  const HttpEndpointVariable: string := "DAPR_HTTP_ENDPOINT"
  const ApiTokenVariable: string := "DAPR_API_TOKEN"

  // ---------------------------------------------------------------------------
  // Project name derivation

  predicate IsUpperAscii(c: char)
  {
    'A' <= c <= 'Z'
  }

  /** Lower-casing of one character (ASCII letters only). */
  function LowerAscii(c: char): char
  {
    if IsUpperAscii(c) then (c as int - 'A' as int + 'a' as int) as char else c
  }

  /** `s.Replace(from, to)` for single-character strings. */
  function ReplaceChar(s: string, from: char, to: char): (r: string)
    ensures |r| == |s|
    ensures forall i :: 0 <= i < |s| ==> r[i] == if s[i] == from then to else s[i]
  {
    if s == [] then [] else [if s[0] == from then to else s[0]] + ReplaceChar(s[1..], from, to)
  }

  /** `s.ToLower()`, restricted to ASCII upper-case letters. */
  function ToLowerAscii(s: string): (r: string)
    ensures |r| == |s|
    ensures forall i :: 0 <= i < |s| ==> r[i] == LowerAscii(s[i])
  {
    if s == [] then [] else [LowerAscii(s[0])] + ToLowerAscii(s[1..])
  }

  /** `ns.Replace(".", "-").ToLower()`: a namespace turned into a project name. */
  function NormalizeNamespace(ns: string): (r: string)
    ensures |r| == |ns|
    ensures '.' !in r
    ensures forall i :: 0 <= i < |r| ==> !IsUpperAscii(r[i])
    ensures forall i :: 0 <= i < |ns| && ns[i] != '.' && !IsUpperAscii(ns[i]) ==> r[i] == ns[i]
    ensures forall i :: 0 <= i < |ns| ==> r[i] == LowerAscii(if ns[i] == '.' then '-' else ns[i])
  {
    var r := ToLowerAscii(ReplaceChar(ns, '.', '-'));
    assert forall i :: 0 <= i < |r| ==> r[i] != '.';
    r
  }

  /** A name that normalisation leaves as it is stays the same. */
  lemma NormalizeNamespaceIdempotent(ns: string)
    ensures NormalizeNamespace(NormalizeNamespace(ns)) == NormalizeNamespace(ns)
  {
    var once := NormalizeNamespace(ns);
    var twice := NormalizeNamespace(once);
    assert twice == once;
  }

  /**
   * `customProjectName ?? entryPointNamespace?.Replace(".", "-").ToLower() ?? "aspire"`.
   * The entry namespace is an input (the source reads it from the entry assembly).
   */
  function DeriveProjectName(customProjectName: Option<string>, entryNamespace: Option<string>): (r: string)
    ensures customProjectName.Some? ==> r == customProjectName.value
    ensures customProjectName.None? && entryNamespace.Some? ==>
      r == NormalizeNamespace(entryNamespace.value) && '.' !in r && |r| == |entryNamespace.value|
    ensures customProjectName.None? && entryNamespace.None? ==> r == DefaultProjectName
  {
    match customProjectName
    case Some(name) => name
    case None =>
      match entryNamespace
      case Some(ns) => NormalizeNamespace(ns)
      case None => DefaultProjectName
  }

  // ---------------------------------------------------------------------------
  // The application model

  /** One resource of the host application model. */
  datatype AppEntry =
    | ProjectEntry(project: CatalystProject)
    | ExecutableEntry(name: string, command: string, workingDirectory: string, args: seq<string>)
    | OtherEntry(resource: Resource)

  /** The host application builder: the resources added so far, in order. */
  class AppBuilder {
    var resources: seq<AppEntry>

    constructor ()
      ensures resources == []
    {
      resources := [];
    }
  }

  /** The Catalyst projects among the resources, in order (`Where(r is CatalystProject)`). */
  function CatalystProjects(entries: seq<AppEntry>): (ps: seq<CatalystProject>)
    ensures forall i :: 0 <= i < |ps| ==> ProjectEntry(ps[i]) in entries
    ensures forall j :: 0 <= j < |entries| && entries[j].ProjectEntry? ==> entries[j].project in ps
    ensures |ps| <= |entries|
    ensures ps == [] <==> forall j :: 0 <= j < |entries| ==> !entries[j].ProjectEntry?
    ensures entries != [] && entries[0].ProjectEntry? ==> ps != [] && ps[0] == entries[0].project
  {
    if entries == [] then []
    else
      var rest := CatalystProjects(entries[1..]);
      assert forall j :: 1 <= j < |entries| ==> entries[j] == entries[1..][j - 1];
      if entries[0].ProjectEntry? then [entries[0].project] + rest else rest
  }

  /** The projects of one resource: its own, if it is a project. */
  lemma CatalystProjectsOne(e: AppEntry)
    ensures CatalystProjects([e]) == if e.ProjectEntry? then [e.project] else []
  {
    assert [e][1..] == [];
  }

  /** The projects of a non-empty list: those of its head, then those of its tail. */
  lemma CatalystProjectsCons(entries: seq<AppEntry>)
    requires entries != []
    ensures CatalystProjects(entries)
         == (if entries[0].ProjectEntry? then [entries[0].project] else []) + CatalystProjects(entries[1..])
  {
  }

  /** The projects of concatenated resource lists are those of each list, in order. */
  lemma {:induction false} CatalystProjectsAppend(a: seq<AppEntry>, b: seq<AppEntry>)
    ensures CatalystProjects(a + b) == CatalystProjects(a) + CatalystProjects(b)
  {
    if a == [] {
      assert a + b == b;
    } else {
      assert (a + b)[0] == a[0] && (a + b)[1..] == a[1..] + b;
      CatalystProjectsCons(a + b);
      CatalystProjectsCons(a);
      CatalystProjectsAppend(a[1..], b);
      ConcatAssoc(if a[0].ProjectEntry? then [a[0].project] else [], CatalystProjects(a[1..]), CatalystProjects(b));
    }
  }

  /** Fails unless at least one Catalyst project was added. */
  function EnsureCatalystResources(entries: seq<AppEntry>): (r: Result<seq<CatalystProject>, Error>)
    ensures r.Failure? <==> forall j :: 0 <= j < |entries| ==> !entries[j].ProjectEntry?
    ensures r.Failure? ==> r.error == NoCatalystProject
    ensures r.Success? ==> r.value == CatalystProjects(entries) && r.value != []
  {
    var ps := CatalystProjects(entries);
    if ps == [] then Failure(NoCatalystProject) else Success(ps)
  }

  /** The name an entry of the application model is known by in the host. */
  function EntryName(e: AppEntry): string
  {
    match e
    case ProjectEntry(project) => project.Name()
    case ExecutableEntry(name, _, _, _) => name
    case OtherEntry(resource) => resource.name
  }

  /** The resource names of the host, lower-cased, in order: the host ignores case in names. */
  function LoweredNames(entries: seq<AppEntry>): (names: seq<string>)
    ensures |names| == |entries|
  {
    if entries == [] then []
    else LoweredNames(entries[..|entries| - 1]) + [ToLowerAscii(EntryName(entries[|entries| - 1]))]
  }

  /** Whether the host already holds a resource called `name`. */
  predicate NameTaken(entries: seq<AppEntry>, name: string)
  {
    ToLowerAscii(name) in LoweredNames(entries)
  }

  /** No two resources of the host share a name. */
  predicate DistinctNames(entries: seq<AppEntry>)
  {
    var names := LoweredNames(entries);
    forall i, j :: 0 <= i < j < |names| ==> names[i] != names[j]
  }

  /** The `i`th lowered name is that of the `i`th resource. */
  lemma {:induction false} LoweredNamesAt(entries: seq<AppEntry>, i: nat)
    requires i < |entries|
    ensures LoweredNames(entries)[i] == ToLowerAscii(EntryName(entries[i]))
  {
    if i < |entries| - 1 {
      var init := entries[..|entries| - 1];
      LoweredNamesAt(init, i);
      assert init[i] == entries[i];
    }
  }

  /**
   * Once a resource is added, its name is taken: adding the same project name,
   * or the proxy of the same resource, a second time is refused.
   */
  lemma AddedNameTaken(entries: seq<AppEntry>, e: AppEntry)
    ensures NameTaken(entries + [e], EntryName(e))
  {
    assert (entries + [e])[..|entries|] == entries;
  }

  /** Adding a resource under a name not yet taken keeps the names distinct. */
  lemma AddKeepsNamesDistinct(entries: seq<AppEntry>, e: AppEntry)
    requires DistinctNames(entries) && !NameTaken(entries, EntryName(e))
    ensures DistinctNames(entries + [e])
  {
    assert (entries + [e])[..|entries|] == entries;
    assert LoweredNames(entries + [e]) == LoweredNames(entries) + [ToLowerAscii(EntryName(e))];
  }

  /**
   * `AddCatalystProject`: derives the name and adds a fresh, empty project
   * resource; the host refuses it when its label is already a resource name.
   */
  method AddCatalystProject(app: AppBuilder, customProjectName: Option<string>, entryNamespace: Option<string>)
    returns (r: Result<CatalystProject, Error>)
    modifies app
    ensures var name := NamePrefix + DeriveProjectName(customProjectName, entryNamespace);
      && (r.Failure? <==> NameTaken(old(app.resources), name))
      && (r.Failure? ==> r.error == DuplicateResourceName(name) && app.resources == old(app.resources))
    ensures r.Success? ==>
      && fresh(r.value) && r.value.Valid()
      && r.value.projectName == DeriveProjectName(customProjectName, entryNamespace)
      && r.value.httpEndpoint == Pending && r.value.grpcEndpoint == Pending
      && r.value.appDetails == [] && r.value.pubSubs == [] && r.value.kvStores == []
      && r.value.components == [] && r.value.subscriptions == []
      && app.resources == old(app.resources) + [ProjectEntry(r.value)]
    ensures DistinctNames(old(app.resources)) ==> DistinctNames(app.resources)
  {
    var project := new CatalystProject(DeriveProjectName(customProjectName, entryNamespace));
    if NameTaken(app.resources, project.Name()) {
      return Failure(DuplicateResourceName(project.Name()));
    }
    if DistinctNames(app.resources) {
      AddKeepsNamesDistinct(app.resources, ProjectEntry(project));
    }
    app.resources := app.resources + [ProjectEntry(project)];
    r := Success(project);
  }

  // ---------------------------------------------------------------------------
  // Attaching a host resource: WithCatalyst

  /** `GetEndpoints().FirstOrDefault(e => e.IsHttp)`. */
  function FirstHttpEndpoint(endpoints: seq<Endpoint>): (r: Option<Endpoint>)
    ensures r.None? <==> forall e :: e in endpoints ==> !e.isHttp
    ensures r.Some? ==> exists i :: (0 <= i < |endpoints| && endpoints[i] == r.value && r.value.isHttp
      && forall j :: 0 <= j < i ==> !endpoints[j].isHttp)
  {
    if endpoints == [] then None
    else if endpoints[0].isHttp then Some(endpoints[0])
    else
      var r := FirstHttpEndpoint(endpoints[1..]);
      assert forall e :: e in endpoints ==> e == endpoints[0] || e in endpoints[1..];
      if r.None? then r
      else
        var i :| 0 <= i < |endpoints[1..]| && endpoints[1..][i] == r.value && r.value.isHttp
          && forall j :: 0 <= j < i ==> !endpoints[1..][j].isHttp;
        assert endpoints[i + 1] == r.value;
        r
  }

  /** The project a resource attaches to: the one given, or the only one there is. */
  function SelectProject(projects: seq<CatalystProject>, chosen: Option<CatalystProject>): (r: Result<CatalystProject, Error>)
    requires projects != []
    ensures r.Failure? <==> |projects| > 1 && chosen.None?
    ensures r.Failure? ==> r.error == AmbiguousCatalystProject
    ensures chosen.Some? ==> r == Success(chosen.value)
    ensures chosen.None? && r.Success? ==> projects == [r.value]
  {
    if |projects| > 1 && chosen.None? then Failure(AmbiguousCatalystProject)
    else Success(chosen.GetOr(projects[0]))
  }

  /** The arguments of the `diagrid dev run` proxy started next to an attached resource. */
  function ProxyArgs(projectName: string, appId: string, appPort: string): (r: seq<string>)
    ensures |r| == 11 && r[..3] == ["dev", "run", "--approve"]
    ensures r[3] == "--project" && r[4] == projectName
    ensures r[5] == "--app-id" && r[6] == appId
    ensures r[7] == "--app-port" && r[8] == appPort
    ensures r[9..] == ["--skip-managed-kv", "--skip-managed-pubsub"]
  {
    ["dev", "run",
     "--approve",
     "--project", projectName,
     "--app-id", appId,
     "--app-port", appPort,
     "--skip-managed-kv",
     "--skip-managed-pubsub"]
  }

  /** The name of the proxy added for `resource`. */
  function ProxyName(resource: Resource): (n: string)
    ensures |n| == |resource.name| + 15
    ensures n[..|resource.name|] == resource.name && n[|resource.name|..] == "-catalyst-proxy"
  {
    resource.name + "-catalyst-proxy"
  }

  /** The proxy executable resource added for `resource`. */
  function ProxyEntry(projectName: string, resource: Resource, endpoint: Endpoint): (r: AppEntry)
    ensures r.ExecutableEntry? && r.name == resource.name + "-catalyst-proxy"
    ensures r.command == "diagrid" && r.workingDirectory == "."
    ensures |r.args| == 11 && r.args[4] == projectName && r.args[6] == resource.name && r.args[8] == endpoint.port
  {
    ExecutableEntry(ProxyName(resource), "diagrid", ".", ProxyArgs(projectName, resource.name, endpoint.port))
  }

  /** The frame of WithCatalyst: every project of the application, and the one passed in. */
  function Candidates(entries: seq<AppEntry>, chosen: Option<CatalystProject>): set<CatalystProject>
  {
    (set p | p in CatalystProjects(entries)) + (if chosen.Some? then {chosen.value} else {})
  }

  /**
   * The project `WithCatalyst` attaches to: fails when no project was added, and
   * when several were and none is given.
   */
  function ResolveProject(entries: seq<AppEntry>, chosen: Option<CatalystProject>): (r: Result<CatalystProject, Error>)
    ensures CatalystProjects(entries) == [] ==> r == Failure(NoCatalystProject)
    ensures |CatalystProjects(entries)| > 1 && chosen.None? ==> r == Failure(AmbiguousCatalystProject)
    ensures r.Failure? <==> CatalystProjects(entries) == [] || (|CatalystProjects(entries)| > 1 && chosen.None?)
    ensures r.Success? && chosen.Some? ==> r.value == chosen.value
    ensures r.Success? && chosen.None? ==> CatalystProjects(entries) == [r.value]
    ensures r.Success? ==> r.value in Candidates(entries, chosen)
  {
    var projects :- EnsureCatalystResources(entries);
    SelectProject(projects, chosen)
  }

  /**
   * `WithCatalyst`: picks the project; if the resource has an HTTP endpoint, adds
   * its proxy and registers an unresolved identity cell for it. Nothing else changes;
   * the environment callback it registers is `Environment` below.
   */
  method WithCatalyst(app: AppBuilder, resource: Resource, chosen: Option<CatalystProject>)
    returns (r: Outcome<Error>)
    requires forall p :: p in Candidates(app.resources, chosen) ==> p.Valid()
    modifies app, Candidates(app.resources, chosen)`appDetails
    ensures forall p :: p in old(Candidates(app.resources, chosen)) ==> p.Valid()
    ensures var target := old(ResolveProject(app.resources, chosen));
      && (target.Failure? ==> r == Fail(target.error) && app.resources == old(app.resources))
      && (target.Success? ==> Attached(target.value, resource, old(app.resources), app.resources,
                                       old(target.value.appDetails), target.value.appDetails, r))
      && (forall p: CatalystProject :: old(allocated(p)) && Success(p) != target ==> p.appDetails == old(p.appDetails))
    ensures DistinctNames(old(app.resources)) ==> DistinctNames(app.resources)
  {
    var target := ResolveProject(app.resources, chosen);
    if target.Failure? {
      return Fail(target.error);
    }
    ghost var resources0 := app.resources;
    ghost var details0 := target.value.appDetails;
    r := AttachResource(app, target.value, resource);
    assert Attached(target.value, resource, resources0, app.resources, details0, target.value.appDetails, r);
  }

  /**
   * What attaching `resource` to `project` does: with an HTTP endpoint, the
   * proxy is added and a pending identity cell is put, unless the proxy's name
   * is taken, when the host throws and nothing changes; without one, nothing.
   */
  ghost predicate Attached(project: CatalystProject, resource: Resource,
                           resources0: seq<AppEntry>, resources: seq<AppEntry>,
                           details0: Dict<Resource, Cell<AppDetails>>, details: Dict<Resource, Cell<AppDetails>>,
                           r: Outcome<Error>)
  {
    match FirstHttpEndpoint(resource.endpoints)
    case Some(endpoint) =>
      if NameTaken(resources0, ProxyName(resource)) then
        && r == Fail(DuplicateResourceName(ProxyName(resource)))
        && resources == resources0 && details == details0
      else
        && r == Pass
        && resources == resources0 + [ProxyEntry(project.projectName, resource, endpoint)]
        && details == Put(details0, resource, Pending)
    case None =>
      r == Pass && resources == resources0 && details == details0
  }

  /** The part of `WithCatalyst` that runs once the project is known. */
  method AttachResource(app: AppBuilder, project: CatalystProject, resource: Resource) returns (r: Outcome<Error>)
    requires project.Valid()
    modifies app, project`appDetails
    ensures project.Valid()
    ensures Attached(project, resource, old(app.resources), app.resources, old(project.appDetails), project.appDetails, r)
    ensures DistinctNames(old(app.resources)) ==> DistinctNames(app.resources)
  {
    var endpoint := FirstHttpEndpoint(resource.endpoints);
    if endpoint.Some? {
      if NameTaken(app.resources, ProxyName(resource)) {
        return Fail(DuplicateResourceName(ProxyName(resource)));
      }
      var proxy := ProxyEntry(project.projectName, resource, endpoint.value);
      if DistinctNames(app.resources) {
        AddKeepsNamesDistinct(app.resources, proxy);
      }
      app.resources := app.resources + [proxy];
      PutKeepsDistinct(project.appDetails, resource, Pending);
      project.appDetails := Put(project.appDetails, resource, Pending);
    }
    r := Pass;
  }

  // ---------------------------------------------------------------------------
  // Environment wiring

  /**
   * The state of an environment callback: finished, suspended on a cell, or
   * thrown. A callback suspended on the HTTP endpoint has already written the
   * gRPC variable; `Suspended` does not carry that partial environment.
   */
  datatype EnvOutcome = Ready(env: map<string, string>) | Suspended | Faulted(error: Error)

  /**
   * The environment callback of `WithCatalyst`: finds the first Catalyst project of
   * the application model, looks up the resource's identity cell unconditionally,
   * awaits it and the two endpoint cells, and sets the three variables.
   */
  function Environment(entries: seq<AppEntry>, resource: Resource, env: map<string, string>): (r: EnvOutcome)
    reads set p | p in CatalystProjects(entries)
    ensures CatalystProjects(entries) == [] ==> r == Faulted(MissingProjectResource)
    ensures CatalystProjects(entries) != [] && resource !in Keys(CatalystProjects(entries)[0].appDetails) ==>
      r == Faulted(KeyNotFound)
    ensures r.Ready? <==>
      && CatalystProjects(entries) != []
      && var p := CatalystProjects(entries)[0];
      && Lookup(p.appDetails, resource).Some? && Lookup(p.appDetails, resource).value.Resolved?
      && p.grpcEndpoint.Resolved? && p.httpEndpoint.Resolved?
    ensures r.Ready? ==>
      var p := CatalystProjects(entries)[0];
      && r.env.Keys == env.Keys + {GrpcEndpointVariable, HttpEndpointVariable, ApiTokenVariable}
      && r.env[GrpcEndpointVariable] == p.grpcEndpoint.value
      && r.env[HttpEndpointVariable] == p.httpEndpoint.value
      && r.env[ApiTokenVariable] == Lookup(p.appDetails, resource).value.value.apiToken
      && forall k :: k in env && k !in {GrpcEndpointVariable, HttpEndpointVariable, ApiTokenVariable} ==> r.env[k] == env[k]
    ensures r.Suspended? <==>
      && CatalystProjects(entries) != []
      && resource in Keys(CatalystProjects(entries)[0].appDetails)
      && !r.Ready?
    ensures r.Faulted? ==>
      CatalystProjects(entries) == [] || resource !in Keys(CatalystProjects(entries)[0].appDetails)
  {
    var projects := CatalystProjects(entries);
    if projects == [] then Faulted(MissingProjectResource)
    else
      var project := projects[0];
      match Lookup(project.appDetails, resource)
      case None => Faulted(KeyNotFound)
      case Some(cell) =>
        match (Await(cell), Await(project.grpcEndpoint), Await(project.httpEndpoint))
        case (Some(details), Some(grpc), Some(http)) =>
          Ready(env[GrpcEndpointVariable := grpc][HttpEndpointVariable := http][ApiTokenVariable := details.apiToken])
        case _ => Suspended
  }

  // ---------------------------------------------------------------------------
  // Subscriptions

  /** The first project that has an identity cell for `resource`. */
  function FirstAssociated(projects: seq<CatalystProject>, resource: Resource): (r: Option<CatalystProject>)
    reads set p | p in projects
    ensures r.None? <==> forall i :: 0 <= i < |projects| ==> resource !in Keys(projects[i].appDetails)
    ensures r.Some? ==> exists i :: (0 <= i < |projects| && projects[i] == r.value
      && resource in Keys(r.value.appDetails)
      && forall j :: 0 <= j < i ==> resource !in Keys(projects[j].appDetails))
  {
    if projects == [] then None
    else if resource in Keys(projects[0].appDetails) then Some(projects[0])
    else
      assert forall j :: 1 <= j < |projects| ==> projects[j] == projects[1..][j - 1];
      FirstAssociated(projects[1..], resource)
  }

  /**
   * `WithSubscription(name, component, topic, route)`: adds the subscription to the
   * first project the resource is attached to, scoped to the resource alone.
   */
  method WithSubscription(app: AppBuilder, resource: Resource, name: string, component: string, topic: string, route: string)
    returns (r: Outcome<Error>)
    requires forall p :: p in CatalystProjects(app.resources) ==> p.Valid()
    modifies set p | p in CatalystProjects(app.resources)
    ensures forall p :: p in CatalystProjects(app.resources) ==> p.Valid() && OnlySubscriptionsChanged(p)
    ensures CatalystProjects(app.resources) == [] ==> r == Fail(NoCatalystProject)
    ensures CatalystProjects(app.resources) != [] && old(FirstAssociated(CatalystProjects(app.resources), resource)).None? ==>
      r == Fail(NotAssociated)
    ensures r.Fail? && r.error != DuplicateKey(name) ==>
      forall p :: p in CatalystProjects(app.resources) ==> p.subscriptions == old(p.subscriptions)
    ensures old(FirstAssociated(CatalystProjects(app.resources), resource)).Some? ==>
      var t := old(FirstAssociated(CatalystProjects(app.resources), resource)).value;
      && (forall p :: p in CatalystProjects(app.resources) && p != t ==> p.subscriptions == old(p.subscriptions))
      && (name in Keys(old(t.subscriptions)) ==> r == Fail(DuplicateKey(name)) && t.subscriptions == old(t.subscriptions))
      && (name !in Keys(old(t.subscriptions)) ==>
            r == Pass && t.subscriptions == old(t.subscriptions) + [(name, SubscriptionDescriptor(name, component, topic, route, [resource.name]))])
  {
    var projects := EnsureCatalystResources(app.resources);
    if projects.Failure? {
      return Fail(projects.error);
    }
    var found := FirstAssociated(projects.value, resource);
    if found.None? {
      return Fail(NotAssociated);
    }
    r := AddSubscription(found.value, SubscriptionDescriptor(name, component, topic, route, [resource.name]));
  }

  /** Adds a subscription under its own name; a name already taken is the duplicate-key exception. */
  method AddSubscription(project: CatalystProject, subscription: SubscriptionDescriptor) returns (r: Outcome<Error>)
    requires project.Valid()
    modifies project
    ensures project.Valid() && OnlySubscriptionsChanged(project)
    ensures subscription.name in Keys(old(project.subscriptions)) ==>
      r == Fail(DuplicateKey(subscription.name)) && project.subscriptions == old(project.subscriptions)
    ensures subscription.name !in Keys(old(project.subscriptions)) ==>
      r == Pass && project.subscriptions == old(project.subscriptions) + [(subscription.name, subscription)]
  {
    var added := Add(project.subscriptions, subscription.name, subscription);
    if added.None? {
      return Fail(DuplicateKey(subscription.name));
    }
    project.subscriptions := added.value;
    r := Pass;
  }

  /** The name of the sample subscription of a resource: `<resource>-pubsub`. */
  function SampleSubscriptionName(resource: Resource): (n: string)
    ensures n == resource.name + "-" + SamplePubsubName
  {
    resource.name + "-" + SamplePubsubName
  }

  /** `WithSubscription(topic, path)`: a subscription on the sample pub/sub component. */
  method WithSampleSubscription(app: AppBuilder, resource: Resource, topic: string, path: string)
    returns (r: Outcome<Error>)
    requires forall p :: p in CatalystProjects(app.resources) ==> p.Valid()
    modifies set p | p in CatalystProjects(app.resources)
    ensures forall p :: p in CatalystProjects(app.resources) ==> p.Valid() && OnlySubscriptionsChanged(p)
    ensures CatalystProjects(app.resources) == [] ==> r == Fail(NoCatalystProject)
    ensures CatalystProjects(app.resources) != [] && old(FirstAssociated(CatalystProjects(app.resources), resource)).None? ==>
      r == Fail(NotAssociated)
    ensures old(FirstAssociated(CatalystProjects(app.resources), resource)).Some? ==>
      var t := old(FirstAssociated(CatalystProjects(app.resources), resource)).value;
      var name := SampleSubscriptionName(resource);
      && (forall p :: p in CatalystProjects(app.resources) && p != t ==> p.subscriptions == old(p.subscriptions))
      && (name in Keys(old(t.subscriptions)) ==> r == Fail(DuplicateKey(name)) && t.subscriptions == old(t.subscriptions))
      && (name !in Keys(old(t.subscriptions)) ==>
            r == Pass && t.subscriptions == old(t.subscriptions) + [(name, SubscriptionDescriptor(name, SamplePubsubName, topic, path, [resource.name]))])
  {
    r := WithSubscription(app, resource, SampleSubscriptionName(resource), SamplePubsubName, topic, path);
  }

  // ---------------------------------------------------------------------------
  // Components and services

  /** A typed component after its metadata record went through JSON (nulls skipped). */
  datatype TypedComponent = TypedComponent(componentType: string, scopes: seq<string>, metadata: map<string, string>)

  /** The `Dictionary<string, object?>` read back from the serialized metadata. */
  function AsMetadata(flat: map<string, string>): (m: Metadata)
    ensures m.Keys == flat.Keys
    ensures forall k :: k in flat ==> m[k] == Some(flat[k])
  {
    map k | k in flat :: Some(flat[k])
  }

  /** A Diagrid state store seen as a typed component. */
  function StateStoreComponent(store: DiagridStateStore.StateStore): (c: TypedComponent)
    ensures c.componentType == DiagridStateStore.StateStoreType && c.scopes == store.scopes
    ensures DiagridStateStore.Unflatten(c.metadata) == Some(store.metadata)
  {
    DiagridStateStore.UnflattenFlatten(store.metadata);
    TypedComponent(store.Type(), store.scopes, DiagridStateStore.Flatten(store.metadata))
  }

  /** `WithComponent(name, type, metadata, scopes)`: fails on a duplicate component name. */
  method WithComponent(project: CatalystProject, name: string, componentType: string, metadata: Metadata, scopes: seq<string>)
    returns (r: Outcome<Error>)
    requires project.Valid()
    modifies project`components
    ensures project.Valid()
    ensures r.Fail? <==> name in Keys(old(project.components))
    ensures r.Fail? ==> r == Fail(DuplicateKey(name)) && project.components == old(project.components)
    ensures r.Pass? ==>
      project.components == old(project.components) + [(name, ComponentDescriptor(name, componentType, scopes, metadata))]
  {
    var added := Add(project.components, name, ComponentDescriptor(name, componentType, scopes, metadata));
    if added.None? {
      return Fail(DuplicateKey(name));
    }
    project.components := added.value;
    r := Pass;
  }

  /** `WithComponent(name, component)` for a typed component. */
  method WithTypedComponent(project: CatalystProject, name: string, component: TypedComponent)
    returns (r: Outcome<Error>)
    requires project.Valid()
    modifies project`components
    ensures project.Valid()
    ensures r.Fail? <==> name in Keys(old(project.components))
    ensures r.Fail? ==> r == Fail(DuplicateKey(name)) && project.components == old(project.components)
    ensures r.Pass? ==>
      project.components == old(project.components)
        + [(name, ComponentDescriptor(name, component.componentType, component.scopes, AsMetadata(component.metadata)))]
  {
    var metadata := AsMetadata(component.metadata);
    var added := Add(project.components, name, ComponentDescriptor(name, component.componentType, component.scopes, metadata));
    if added.None? {
      return Fail(DuplicateKey(name));
    }
    project.components := added.value;
    r := Pass;
  }

  /** `WithCatalystPubSub(name, scopes)`: service names are unique across pub/subs and kv-stores. */
  method WithCatalystPubSub(project: CatalystProject, name: string, scopes: Option<seq<string>>)
    returns (r: Outcome<Error>)
    requires project.Valid()
    modifies project`pubSubs
    ensures project.Valid()
    ensures r.Fail? <==> name in Keys(old(project.pubSubs)) || name in Keys(project.kvStores)
    ensures r.Fail? ==> r == Fail(ServiceNameNotUnique) && project.pubSubs == old(project.pubSubs)
    ensures r.Pass? ==>
      project.pubSubs == old(project.pubSubs) + [(name, PubSubDescriptor(project.projectName, scopes.GetOr([])))]
  {
    if name in Keys(project.pubSubs) || name in Keys(project.kvStores) {
      return Fail(ServiceNameNotUnique);
    }
    var added := Add(project.pubSubs, name, PubSubDescriptor(project.projectName, scopes.GetOr([])));
    project.pubSubs := added.value;
    r := Pass;
  }

  /** `WithCatalystKvStore(name, scopes)`: service names are unique across pub/subs and kv-stores. */
  method WithCatalystKvStore(project: CatalystProject, name: string, scopes: Option<seq<string>>)
    returns (r: Outcome<Error>)
    requires project.Valid()
    modifies project`kvStores
    ensures project.Valid()
    ensures r.Fail? <==> name in Keys(project.pubSubs) || name in Keys(old(project.kvStores))
    ensures r.Fail? ==> r == Fail(ServiceNameNotUnique) && project.kvStores == old(project.kvStores)
    ensures r.Pass? ==>
      project.kvStores == old(project.kvStores) + [(name, KvStoreDescriptor(project.projectName, scopes.GetOr([])))]
  {
    if name in Keys(project.pubSubs) || name in Keys(project.kvStores) {
      return Fail(ServiceNameNotUnique);
    }
    var added := Add(project.kvStores, name, KvStoreDescriptor(project.projectName, scopes.GetOr([])));
    project.kvStores := added.value;
    r := Pass;
  }

  /** The component the sample kv-store overload declares. */
  function SampleKvComponent(): (c: ComponentDescriptor)
    ensures c == ComponentDescriptor(SampleKvName, "state.diagrid", [], map["state" := Some(SampleKvName)])
  {
    var store := DiagridStateStore.NewStateStore(DiagridStateStore.StateSpecMetadata(SampleKvName, None, None, None, None, None));
    DiagridStateStore.SampleMetadata(SampleKvName);
    var typed := StateStoreComponent(store);
    assert AsMetadata(typed.metadata) == map["state" := Some(SampleKvName)];
    ComponentDescriptor(SampleKvName, typed.componentType, typed.scopes, AsMetadata(typed.metadata))
  }

  /**
   * `WithCatalystKvStore()`: the kv-store "kvstore" and a state-store component of the
   * same name. The two steps are separate: if the component name is taken, the
   * kv-store stays declared and the call still throws.
   */
  method WithSampleKvStore(project: CatalystProject) returns (r: Outcome<Error>)
    requires project.Valid()
    modifies project`kvStores, project`components
    ensures project.Valid()
    ensures SampleKvName in Keys(project.pubSubs) || SampleKvName in Keys(old(project.kvStores)) ==>
      r == Fail(ServiceNameNotUnique) && project.kvStores == old(project.kvStores) && project.components == old(project.components)
    ensures SampleKvName !in Keys(project.pubSubs) && SampleKvName !in Keys(old(project.kvStores)) ==>
      && project.kvStores == old(project.kvStores) + [(SampleKvName, KvStoreDescriptor(project.projectName, []))]
      && (SampleKvName in Keys(old(project.components)) ==>
            r == Fail(DuplicateKey(SampleKvName)) && project.components == old(project.components))
      && (SampleKvName !in Keys(old(project.components)) ==>
            r == Pass && project.components == old(project.components) + [(SampleKvName, SampleKvComponent())])
  {
    r := WithCatalystKvStore(project, SampleKvName, None);
    if r.Fail? {
      return;
    }
    var store := DiagridStateStore.NewStateStore(DiagridStateStore.StateSpecMetadata(SampleKvName, None, None, None, None, None));
    DiagridStateStore.SampleMetadata(SampleKvName);
    r := WithTypedComponent(project, SampleKvName, StateStoreComponent(store));
  }

  /**
   * `WithCatalystPubSub()`: the pub/sub "pubsub" and a pub/sub component of the same
   * name. The typed pub/sub component is an input: its definition is not part of
   * this model.
   */
  method WithSamplePubSub(project: CatalystProject, pubSubComponent: TypedComponent) returns (r: Outcome<Error>)
    requires project.Valid()
    modifies project`pubSubs, project`components
    ensures project.Valid()
    ensures SamplePubsubName in Keys(old(project.pubSubs)) || SamplePubsubName in Keys(project.kvStores) ==>
      r == Fail(ServiceNameNotUnique) && project.pubSubs == old(project.pubSubs) && project.components == old(project.components)
    ensures SamplePubsubName !in Keys(old(project.pubSubs)) && SamplePubsubName !in Keys(project.kvStores) ==>
      && project.pubSubs == old(project.pubSubs) + [(SamplePubsubName, PubSubDescriptor(project.projectName, []))]
      && (SamplePubsubName in Keys(old(project.components)) ==>
            r == Fail(DuplicateKey(SamplePubsubName)) && project.components == old(project.components))
      && (SamplePubsubName !in Keys(old(project.components)) ==>
            r == Pass && project.components == old(project.components)
              + [(SamplePubsubName, ComponentDescriptor(SamplePubsubName, pubSubComponent.componentType,
                                                        pubSubComponent.scopes, AsMetadata(pubSubComponent.metadata)))])
  {
    r := WithCatalystPubSub(project, SamplePubsubName, None);
    if r.Fail? {
      return;
    }
    r := WithTypedComponent(project, SamplePubsubName, pubSubComponent);
  }
}
