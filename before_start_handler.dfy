/**
 * The before-start handler: one provisioning run that walks the project's
 * dictionaries, calls the provisioner, publishes the project's state and
 * resolves the cells consumers wait on. The handler records what the host
 * would observe: every provisioner call made and every status published.
 */
module BeforeStartHandler {
  import opened Wrappers
  import opened Model
  import opened Dictionaries
  import opened Deferred
  import opened Project
  import opened Provisioning
  import opened ResourceBuilderExtensions

  /** `Resources.Single(r => r is CatalystProject)`: exactly one project must be registered. */
  function SingleProject(entries: seq<AppEntry>): (r: Result<CatalystProject, Error>)
    ensures r.Success? <==> |CatalystProjects(entries)| == 1
    ensures r.Success? ==> ProjectEntry(r.value) in entries
    ensures r.Success? ==> forall j :: 0 <= j < |entries| && entries[j].ProjectEntry? ==> entries[j].project == r.value
    ensures r.Failure? ==> r.error == if CatalystProjects(entries) == [] then NoMatchingProject else SeveralMatchingProjects
  {
    var ps := CatalystProjects(entries);
    if |ps| == 1 then Success(ps[0])
    else if ps == [] then Failure(NoMatchingProject)
    else Failure(SeveralMatchingProjects)
  }

  /**
   * The identity cells while the applications loop is at position `i`: the
   * applications before `i` were provisioned and their cells resolved, the
   * others are still pending.
   */
  ghost predicate CellsAt(cells: Dict<Resource, Cell<AppDetails>>, apps: seq<Resource>, i: nat, prov: Provisioner)
  {
    && |cells| == |apps| && i <= |apps|
    && AppsProvisionedThrough(apps, i - 1, prov)
    && (forall j :: 0 <= j < i ==> cells[j].1 == Resolved(prov.getAppDetails(apps[j].name).value))
    && (forall j :: i <= j < |apps| ==> cells[j].1.Pending?)
  }

  /** Resolving the cell at `i` after provisioning application `i` moves the loop on. */
  lemma CellsStep(cells: Dict<Resource, Cell<AppDetails>>, apps: seq<Resource>, i: nat, prov: Provisioner)
    requires CellsAt(cells, apps, i, prov) && i < |apps| && AppProvisioned(apps[i], prov)
    ensures CellsAt(cells[i := (cells[i].0, Resolved(prov.getAppDetails(apps[i].name).value))], apps, i + 1, prov)
  {
  }

  /** When the loop stops at `i`, every cell is as the run's specification says. */
  lemma CellsFinal(cells: Dict<Resource, Cell<AppDetails>>, apps: seq<Resource>, i: nat, prov: Provisioner)
    requires CellsAt(cells, apps, i, prov)
    requires i == |apps| || !AppProvisioned(apps[i], prov)
    ensures forall j :: 0 <= j < |cells| ==> cells[j].1 == AppCell(apps, j, prov)
    ensures AppsProvisionedThrough(apps, |apps| - 1, prov) <==> i == |apps|
  {
  }

  /**
   * The state of the applications loop at position `i`, for a handler that had
   * recorded `calls0` and `statuses0` when the phase began.
   */
  ghost predicate AppsLoopAt(apps: seq<Resource>, i: nat, cells: Dict<Resource, Cell<AppDetails>>,
                             calls0: seq<Call>, statuses0: seq<Status>, calls: seq<Call>, statuses: seq<Status>,
                             prov: Provisioner)
  {
    && Keys(cells) == apps
    && CellsAt(cells, apps, i, prov)
    && var t := Execute([Publish(EnsuringApplications)] + AppEvents(apps[..i]), prov);
    && calls == calls0 + t.calls
    && statuses == statuses0 + t.statuses
    && t.failure.None?
  }

  /** The applications phase has ended with `r`, as running its plan would. */
  ghost predicate AppsLoopDone(apps: seq<Resource>, cells: Dict<Resource, Cell<AppDetails>>,
                               calls0: seq<Call>, statuses0: seq<Status>, calls: seq<Call>, statuses: seq<Status>,
                               r: Outcome<string>, prov: Provisioner)
  {
    var t := Execute(ApplicationsEvents(apps), prov);
    && Keys(cells) == apps
    && calls == calls0 + t.calls
    && statuses == statuses0 + t.statuses
    && r == OutcomeOf(t)
    && (r.Pass? <==> AppsProvisionedThrough(apps, |apps| - 1, prov))
    && (forall j :: 0 <= j < |cells| ==> cells[j].1 == AppCell(apps, j, prov))
  }

  lemma AppsLoopStart(apps: seq<Resource>, cells: Dict<Resource, Cell<AppDetails>>,
                      calls0: seq<Call>, statuses0: seq<Status>, prov: Provisioner)
    requires Keys(cells) == apps
    requires forall j :: 0 <= j < |cells| ==> cells[j].1.Pending?
    ensures AppsLoopAt(apps, 0, cells, calls0, statuses0, calls0, statuses0 + [EnsuringApplications], prov)
  {
    assert apps[..0] == [];
    assert [Publish(EnsuringApplications)] + AppEvents(apps[..0]) == [Publish(EnsuringApplications)];
    ExecuteOne(Publish(EnsuringApplications), prov);
  }

  /** One application handled: the loop moves on, or the phase ends with the exception. */
  lemma AppsLoopStep(apps: seq<Resource>, i: nat, cells: Dict<Resource, Cell<AppDetails>>,
                     calls0: seq<Call>, statuses0: seq<Status>, calls: seq<Call>, statuses: seq<Status>,
                     calls': seq<Call>, statuses': seq<Status>, r: Outcome<string>, prov: Provisioner)
    requires AppsLoopAt(apps, i, cells, calls0, statuses0, calls, statuses, prov) && i < |apps|
    requires calls' == calls + Execute(AppItem(apps[i]), prov).calls
    requires statuses' == statuses + Execute(AppItem(apps[i]), prov).statuses
    requires r == OutcomeOf(Execute(AppItem(apps[i]), prov))
    requires r.Pass? <==> AppProvisioned(apps[i], prov)
    ensures r.Pass? ==> AppsLoopAt(apps, i + 1, cells[i := (cells[i].0, Resolved(prov.getAppDetails(apps[i].name).value))],
                                   calls0, statuses0, calls', statuses', prov)
    ensures r.Fail? ==> AppsLoopDone(apps, cells, calls0, statuses0, calls', statuses', r, prov)
  {
    var head := [Publish(EnsuringApplications)] + AppEvents(apps[..i]);
    AppEventsAt(apps, i);
    ExecuteAppend(head, AppItem(apps[i]), prov);
    if r.Fail? {
      ExecuteHalts(head + AppItem(apps[i]), AppEvents(apps[i + 1..]), prov);
      CellsFinal(cells, apps, i, prov);
    } else {
      KeysUpdateValue(cells, i, Resolved(prov.getAppDetails(apps[i].name).value));
      CellsStep(cells, apps, i, prov);
    }
  }

  lemma AppsLoopEnd(apps: seq<Resource>, cells: Dict<Resource, Cell<AppDetails>>,
                    calls0: seq<Call>, statuses0: seq<Status>, calls: seq<Call>, statuses: seq<Status>, prov: Provisioner)
    requires AppsLoopAt(apps, |apps|, cells, calls0, statuses0, calls, statuses, prov)
    ensures AppsLoopDone(apps, cells, calls0, statuses0, calls, statuses, Pass, prov)
  {
    assert apps[..|apps|] == apps;
    CellsFinal(cells, apps, |apps|, prov);
  }

  /**
   * A handler that had recorded `calls0` and `statuses0` went on to record
   * `calls` and `statuses` and ended with `r`: exactly what running `events` does.
   */
  ghost predicate Ran(events: seq<Event>, calls0: seq<Call>, statuses0: seq<Status>,
                      calls: seq<Call>, statuses: seq<Status>, r: Outcome<string>, prov: Provisioner)
  {
    var t := Execute(events, prov);
    && calls == calls0 + t.calls
    && statuses == statuses0 + t.statuses
    && r == OutcomeOf(t)
  }

  /** Running `a` and then, if it did not throw, `b`, is running `a + b`. */
  lemma RanThen(a: seq<Event>, b: seq<Event>, calls0: seq<Call>, statuses0: seq<Status>,
                calls1: seq<Call>, statuses1: seq<Status>, r1: Outcome<string>,
                calls2: seq<Call>, statuses2: seq<Status>, r2: Outcome<string>, prov: Provisioner)
    requires Ran(a, calls0, statuses0, calls1, statuses1, r1, prov)
    requires r1.Pass? ==> Ran(b, calls1, statuses1, calls2, statuses2, r2, prov)
    ensures r1.Fail? ==> Ran(a + b, calls0, statuses0, calls1, statuses1, r1, prov)
    ensures r1.Pass? ==> Ran(a + b, calls0, statuses0, calls2, statuses2, r2, prov)
  {
    ExecuteAppend(a, b, prov);
    var ta, tb := Execute(a, prov), Execute(b, prov);
    if r1.Pass? {
      ConcatAssoc(calls0, ta.calls, tb.calls);
      ConcatAssoc(statuses0, ta.statuses, tb.statuses);
    }
  }

  /**
   * One item of a loop handled after a prefix that did not throw: the loop moves
   * on, or the exception ends the whole phase and the rest of its plan never runs.
   */
  lemma RanItem(prefix: seq<Event>, item: seq<Event>, rest: seq<Event>, calls0: seq<Call>, statuses0: seq<Status>,
                calls1: seq<Call>, statuses1: seq<Status>, calls2: seq<Call>, statuses2: seq<Status>,
                r: Outcome<string>, prov: Provisioner)
    requires Ran(prefix, calls0, statuses0, calls1, statuses1, Pass, prov)
    requires Ran(item, calls1, statuses1, calls2, statuses2, r, prov)
    ensures r.Pass? ==> Ran(prefix + item, calls0, statuses0, calls2, statuses2, Pass, prov)
    ensures r.Fail? ==> Ran(prefix + item + rest, calls0, statuses0, calls2, statuses2, r, prov)
  {
    RanThen(prefix, item, calls0, statuses0, calls1, statuses1, Pass, calls2, statuses2, r, prov);
    if r.Fail? {
      RanThen(prefix + item, rest, calls0, statuses0, calls2, statuses2, r, calls2, statuses2, r, prov);
    }
  }

  /** A run that threw after running the phases `done` of the plan ran the whole plan. */
  lemma RanPlanHalted(done: seq<Event>, calls0: seq<Call>, statuses0: seq<Status>,
                      calls: seq<Call>, statuses: seq<Status>, r: Outcome<string>,
                      project: string, apps: seq<Resource>, pubSubs: Dict<string, PubSubDescriptor>,
                      kvStores: Dict<string, KvStoreDescriptor>, components: Dict<string, ComponentDescriptor>, prov: Provisioner)
    requires Ran(done, calls0, statuses0, calls, statuses, r, prov) && r.Fail?
    requires var q5 := HeadEvents(project);
      var q6 := q5 + ApplicationsEvents(apps);
      var q7 := q6 + ServicesEvents(pubSubs, kvStores, project, prov);
      done == q5 || done == q6 || done == q7 || done == q7 + ComponentsEvents(components, project)
    ensures Ran(Plan(project, apps, pubSubs, kvStores, components, prov), calls0, statuses0, calls, statuses, r, prov)
  {
    PlanHalts(project, apps, pubSubs, kvStores, components, prov);
  }

  class CatalystBeforeStartHandler {
    const project: CatalystProject
    const provisioner: Provisioner
    const projectName: string

    /** Every provisioner call made so far, in order. */
    var calls: seq<Call>
    /** Every state published for the project so far, in order. */
    var statuses: seq<Status>

    /**
     * Takes the one Catalyst project of the application model; when there is
     * not exactly one, `SingleProject` fails and no handler is made.
     */
    constructor (entries: seq<AppEntry>, provisioner: Provisioner)
      requires SingleProject(entries).Success?
      ensures this.project == SingleProject(entries).value && this.provisioner == provisioner
      ensures projectName == project.projectName
      ensures calls == [] && statuses == []
    {
      this.project := SingleProject(entries).value;
      this.provisioner := provisioner;
      projectName := SingleProject(entries).value.projectName;
      calls := [];
      statuses := [];
    }

    /**
     * `EnsureCatalystProvisioning`: starts the run and returns at once with a
     * completed task; an exception of the run is logged and never reaches the host.
     */
    method EnsureCatalystProvisioning() returns (r: Outcome<string>)
      requires project.httpEndpoint.Pending? && project.grpcEndpoint.Pending?
      requires forall j :: 0 <= j < |project.appDetails| ==> project.appDetails[j].1.Pending?
      modifies this, project`httpEndpoint, project`grpcEndpoint, project`appDetails
      ensures r == Pass
      ensures var t := Execute(Plan(projectName, Keys(old(project.appDetails)), project.pubSubs, project.kvStores,
                                    project.components, provisioner), provisioner);
        calls == old(calls) + t.calls && statuses == old(statuses) + t.statuses
      ensures Keys(project.appDetails) == Keys(old(project.appDetails))
      ensures project.httpEndpoint
           == if DetailsLoaded(projectName, provisioner) then Resolved(provisioner.getProjectDetails(projectName).value.httpEndpoint) else Pending
      ensures project.grpcEndpoint
           == if DetailsLoaded(projectName, provisioner) then Resolved(provisioner.getProjectDetails(projectName).value.grpcEndpoint) else Pending
      ensures forall j :: 0 <= j < |project.appDetails| ==>
                project.appDetails[j].1 == if DetailsLoaded(projectName, provisioner) then AppCell(Keys(old(project.appDetails)), j, provisioner) else Pending
    {
      var outcome := ProvisionCatalyst();
      r := Pass;
    }

    /**
     * `ProvisionCatalystAsync`: the phases in order, each stopping the run with
     * its exception. Only the first four calls decide whether the endpoint cells
     * are resolved; after them, each application's cell is resolved exactly when
     * it and every application before it were provisioned.
     */
    method ProvisionCatalyst() returns (r: Outcome<string>)
      requires project.httpEndpoint.Pending? && project.grpcEndpoint.Pending?
      requires forall j :: 0 <= j < |project.appDetails| ==> project.appDetails[j].1.Pending?
      modifies this, project`httpEndpoint, project`grpcEndpoint, project`appDetails
      ensures Ran(Plan(projectName, Keys(old(project.appDetails)), project.pubSubs, project.kvStores, project.components, provisioner), old(calls), old(statuses), calls, statuses, r, provisioner)
      ensures Keys(project.appDetails) == Keys(old(project.appDetails))
      ensures project.httpEndpoint
           == if DetailsLoaded(projectName, provisioner) then Resolved(provisioner.getProjectDetails(projectName).value.httpEndpoint) else Pending
      ensures project.grpcEndpoint
           == if DetailsLoaded(projectName, provisioner) then Resolved(provisioner.getProjectDetails(projectName).value.grpcEndpoint) else Pending
      ensures forall j :: 0 <= j < |project.appDetails| ==>
                project.appDetails[j].1 == if DetailsLoaded(projectName, provisioner) then AppCell(Keys(old(project.appDetails)), j, provisioner) else Pending
    {
      ghost var apps := Keys(project.appDetails);
      r := PrepareProject();
      if r.Fail? {
        RanPlanHalted(HeadEvents(projectName), old(calls), old(statuses), calls, statuses, r,
                      projectName, apps, project.pubSubs, project.kvStores, project.components, provisioner);
        return;
      }

      ghost var done := HeadEvents(projectName);
      ghost var c1, s1 := calls, statuses;
      r := EnsureApplications();
      RanThen(done, ApplicationsEvents(apps), old(calls), old(statuses), c1, s1, Pass, calls, statuses, r, provisioner);
      done := done + ApplicationsEvents(apps);
      if r.Fail? {
        RanPlanHalted(done, old(calls), old(statuses), calls, statuses, r,
                      projectName, apps, project.pubSubs, project.kvStores, project.components, provisioner);
        return;
      }

      c1, s1 := calls, statuses;
      r := EnsureServices();
      RanThen(done, ServicesEvents(project.pubSubs, project.kvStores, projectName, provisioner),
              old(calls), old(statuses), c1, s1, Pass, calls, statuses, r, provisioner);
      done := done + ServicesEvents(project.pubSubs, project.kvStores, projectName, provisioner);
      if r.Fail? {
        RanPlanHalted(done, old(calls), old(statuses), calls, statuses, r,
                      projectName, apps, project.pubSubs, project.kvStores, project.components, provisioner);
        return;
      }

      c1, s1 := calls, statuses;
      r := EnsureComponents();
      RanThen(done, ComponentsEvents(project.components, projectName), old(calls), old(statuses), c1, s1, Pass, calls, statuses, r, provisioner);
      done := done + ComponentsEvents(project.components, projectName);
      if r.Fail? {
        RanPlanHalted(done, old(calls), old(statuses), calls, statuses, r,
                      projectName, apps, project.pubSubs, project.kvStores, project.components, provisioner);
        return;
      }

      c1, s1 := calls, statuses;
      CompleteProvisioning();
      r := Pass;
      RanThen(done, CompleteEvents(), old(calls), old(statuses), c1, s1, Pass, calls, statuses, r, provisioner);
      PlanHalts(projectName, apps, project.pubSubs, project.kvStores, project.components, provisioner);
    }

    /**
     * The first half of `ProvisionCatalystAsync`: the `Starting` status, then the
     * provisioner's initialization and the three project phases.
     */
    method PrepareProject() returns (r: Outcome<string>)
      requires project.httpEndpoint.Pending? && project.grpcEndpoint.Pending?
      modifies this, project`httpEndpoint, project`grpcEndpoint
      ensures r.Pass? <==> DetailsLoaded(projectName, provisioner)
      ensures Ran(HeadEvents(projectName), old(calls), old(statuses), calls, statuses, r, provisioner)
      ensures project.httpEndpoint
           == if r.Pass? then Resolved(provisioner.getProjectDetails(projectName).value.httpEndpoint) else Pending
      ensures project.grpcEndpoint
           == if r.Pass? then Resolved(provisioner.getProjectDetails(projectName).value.grpcEndpoint) else Pending
    {
      HeadHalts(projectName, provisioner);
      ghost var done := [Publish(Starting)];
      ghost var c1, s1 := calls, statuses;
      PublishUpdate(Starting);
      ExecuteOne(Publish(Starting), provisioner);

      c1, s1 := calls, statuses;
      r := InitializeProvisioner();
      RanThen(done, InitEvents(), old(calls), old(statuses), c1, s1, Pass, calls, statuses, r, provisioner);
      done := done + InitEvents();
      if r.Fail? {
        return;
      }

      c1, s1 := calls, statuses;
      r := EnsureProject();
      RanThen(done, EnsureProjectEvents(projectName), old(calls), old(statuses), c1, s1, Pass, calls, statuses, r, provisioner);
      done := done + EnsureProjectEvents(projectName);
      if r.Fail? {
        return;
      }

      c1, s1 := calls, statuses;
      r := SelectProject();
      RanThen(done, SelectProjectEvents(projectName), old(calls), old(statuses), c1, s1, Pass, calls, statuses, r, provisioner);
      done := done + SelectProjectEvents(projectName);
      if r.Fail? {
        return;
      }

      c1, s1 := calls, statuses;
      r := LoadProjectDetails();
      RanThen(done, LoadDetailsEvents(projectName), old(calls), old(statuses), c1, s1, Pass, calls, statuses, r, provisioner);
    }

    method PublishUpdate(s: Status)
      modifies this
      ensures statuses == old(statuses) + [s] && calls == old(calls)
    {
      statuses := statuses + [s];
    }

    /**
     * One provisioner call inside the handler's `try`: on an exception the
     * project is put in `FailedToStart` and the exception is rethrown.
     */
    method Attempt(c: Call) returns (r: Outcome<string>)
      modifies this
      ensures r == provisioner.Answer(c)
      ensures calls == old(calls) + [c]
      ensures statuses == old(statuses) + if r.Fail? then [FailedToStart] else []
      ensures Ran([Invoke(c)], old(calls), old(statuses), calls, statuses, r, provisioner)
    {
      calls := calls + [c];
      r := provisioner.Answer(c);
      if r.Fail? {
        PublishUpdate(FailedToStart);
      }
      ExecuteOne(Invoke(c), provisioner);
    }

    method InitializeProvisioner() returns (r: Outcome<string>)
      modifies this
      ensures Ran(InitEvents(), old(calls), old(statuses), calls, statuses, r, provisioner)
      ensures r == provisioner.init
    {
      r := Attempt(Init);
      ExecuteOne(Invoke(Init), provisioner);
    }

    method EnsureProject() returns (r: Outcome<string>)
      modifies this
      ensures Ran(EnsureProjectEvents(projectName), old(calls), old(statuses), calls, statuses, r, provisioner)
      ensures r == provisioner.createProject(projectName)
    {
      PublishUpdate(EnsuringProject);
      r := Attempt(CreateProject(projectName));
      ExecutePublishThenCall(EnsuringProject, CreateProject(projectName), provisioner);
    }

    method SelectProject() returns (r: Outcome<string>)
      modifies this
      ensures Ran(SelectProjectEvents(projectName), old(calls), old(statuses), calls, statuses, r, provisioner)
      ensures r == provisioner.useProject(projectName)
    {
      PublishUpdate(SelectingProject);
      r := Attempt(UseProject(projectName));
      ExecutePublishThenCall(SelectingProject, UseProject(projectName), provisioner);
    }

    /** Loads the project's endpoints and resolves the two endpoint cells with them. */
    method LoadProjectDetails() returns (r: Outcome<string>)
      requires project.httpEndpoint.Pending? && project.grpcEndpoint.Pending?
      modifies this, project`httpEndpoint, project`grpcEndpoint
      ensures Ran(LoadDetailsEvents(projectName), old(calls), old(statuses), calls, statuses, r, provisioner)
      ensures r.Pass? <==> provisioner.getProjectDetails(projectName).Success?
      ensures project.httpEndpoint
           == if r.Pass? then Resolved(provisioner.getProjectDetails(projectName).value.httpEndpoint) else Pending
      ensures project.grpcEndpoint
           == if r.Pass? then Resolved(provisioner.getProjectDetails(projectName).value.grpcEndpoint) else Pending
    {
      PublishUpdate(LoadingProjectDetails);
      r := Attempt(GetProjectDetails(projectName));
      ExecutePublishThenCall(LoadingProjectDetails, GetProjectDetails(projectName), provisioner);
      if r.Pass? {
        var details := provisioner.getProjectDetails(projectName).value;
        project.httpEndpoint := SetResult(project.httpEndpoint, details.httpEndpoint).value;
        project.grpcEndpoint := SetResult(project.grpcEndpoint, details.grpcEndpoint).value;
      }
    }

    /**
     * Creates every application in registration order and resolves its identity
     * cell; the first exception stops the loop and leaves the cells of that
     * application and of all later ones unresolved.
     */
    method EnsureApplications() returns (r: Outcome<string>)
      requires forall j :: 0 <= j < |project.appDetails| ==> project.appDetails[j].1.Pending?
      modifies this, project`appDetails
      ensures Ran(ApplicationsEvents(Keys(old(project.appDetails))), old(calls), old(statuses), calls, statuses, r, provisioner)
      ensures Keys(project.appDetails) == Keys(old(project.appDetails))
      ensures r.Pass? <==> AppsProvisionedThrough(Keys(old(project.appDetails)), |old(project.appDetails)| - 1, provisioner)
      ensures forall j :: 0 <= j < |project.appDetails| ==>
                project.appDetails[j].1 == AppCell(Keys(old(project.appDetails)), j, provisioner)
    {
      ghost var apps := Keys(project.appDetails);
      PublishUpdate(EnsuringApplications);
      AppsLoopStart(apps, project.appDetails, old(calls), old(statuses), provisioner);
      var i := 0;
      while i < |project.appDetails|
        invariant i <= |apps|
        invariant AppsLoopAt(apps, i, project.appDetails, old(calls), old(statuses), calls, statuses, provisioner)
      {
        ghost var cells, calls1, statuses1 := project.appDetails, calls, statuses;
        r := EnsureApplication(i);
        AppsLoopStep(apps, i, cells, old(calls), old(statuses), calls1, statuses1, calls, statuses, r, provisioner);
        if r.Fail? {
          return;
        }
        i := i + 1;
      }
      AppsLoopEnd(apps, project.appDetails, old(calls), old(statuses), calls, statuses, provisioner);
      r := Pass;
    }

    /**
     * The body of the applications loop: create application `i`, fetch its
     * identity and resolve its cell with it.
     */
    method EnsureApplication(i: nat) returns (r: Outcome<string>)
      requires i < |project.appDetails| && project.appDetails[i].1.Pending?
      modifies this, project`appDetails
      ensures Ran(AppItem(old(project.appDetails[i].0)), old(calls), old(statuses), calls, statuses, r, provisioner)
      ensures r.Pass? <==> AppProvisioned(old(project.appDetails[i].0), provisioner)
      ensures project.appDetails
           == if r.Pass? then old(project.appDetails[i := (project.appDetails[i].0, Resolved(provisioner.getAppDetails(project.appDetails[i].0.name).value))])
              else old(project.appDetails)
    {
      var name := project.appDetails[i].0.name;
      var create := CreateApp(name);
      var get := GetAppDetails(name);
      assert AppItem(project.appDetails[i].0) == [Invoke(create)] + [Invoke(get)];
      ExecuteAppend([Invoke(create)], [Invoke(get)], provisioner);
      ExecuteOne(Invoke(create), provisioner);
      ExecuteOne(Invoke(get), provisioner);
      r := Attempt(create);
      if r.Fail? {
        return;
      }
      r := Attempt(get);
      if r.Fail? {
        return;
      }
      var app := provisioner.getAppDetails(name).value;
      project.appDetails := project.appDetails[i := (project.appDetails[i].0, SetResult(project.appDetails[i].1, app).value)];
    }

    /** The first loop of the services phase: every pub/sub is created, without an existence check. */
    method CreatePubSubs() returns (r: Outcome<string>)
      modifies this
      ensures Ran(PubSubEvents(project.pubSubs), old(calls), old(statuses), calls, statuses, r, provisioner)
    {
      var i := 0;
      assert project.pubSubs[..0] == [];
      while i < |project.pubSubs|
        invariant 0 <= i <= |project.pubSubs|
        invariant Ran(PubSubEvents(project.pubSubs[..i]), old(calls), old(statuses), calls, statuses, Pass, provisioner)
      {
        var entry := project.pubSubs[i];
        ghost var calls1, statuses1 := calls, statuses;
        r := Attempt(CreatePubSub(entry.0, entry.1));
        FlatMapSplit(project.pubSubs, i, PubSubItem);
        FlatMapStep(project.pubSubs, i, PubSubItem);
        RanItem(PubSubEvents(project.pubSubs[..i]), PubSubItem(entry), PubSubEvents(project.pubSubs[i + 1..]),
                old(calls), old(statuses), calls1, statuses1, calls, statuses, r, provisioner);
        if r.Fail? {
          return;
        }
        i := i + 1;
      }
      assert project.pubSubs[..i] == project.pubSubs;
      r := Pass;
    }

    /** One kv-store: check that it exists, and create it only when the check reports it missing. */
    method EnsureKvStore(entry: (string, KvStoreDescriptor)) returns (r: Outcome<string>)
      modifies this
      ensures Ran(KvItem(entry, projectName, provisioner), old(calls), old(statuses), calls, statuses, r, provisioner)
    {
      var check := CheckKvStoreExists(entry.0, projectName);
      r := Attempt(check);
      if r.Fail? {
        ExecuteOne(Invoke(check), provisioner);
        ExecuteHalts([Invoke(check)], [Invoke(CreateKvStore(entry.0, entry.1))], provisioner);
        assert [Invoke(check)] + [Invoke(CreateKvStore(entry.0, entry.1))] == [Invoke(check), Invoke(CreateKvStore(entry.0, entry.1))];
        return;
      }
      if provisioner.checkKvStoreExists(entry.0, projectName) != Success(false) {
        return;
      }
      ghost var calls1, statuses1 := calls, statuses;
      var create := CreateKvStore(entry.0, entry.1);
      r := Attempt(create);
      RanThen([Invoke(check)], [Invoke(create)], old(calls), old(statuses), calls1, statuses1, Pass,
              calls, statuses, r, provisioner);
      assert [Invoke(check)] + [Invoke(create)] == KvItem(entry, projectName, provisioner);
    }

    /**
     * The second loop of the services phase: every kv-store is checked for
     * existence and created only when the check reports it missing.
     */
    method EnsureKvStores() returns (r: Outcome<string>)
      modifies this
      ensures Ran(KvEvents(project.kvStores, projectName, provisioner), old(calls), old(statuses), calls, statuses, r, provisioner)
    {
      var i := 0;
      assert project.kvStores[..0] == [];
      while i < |project.kvStores|
        invariant 0 <= i <= |project.kvStores|
        invariant Ran(KvEvents(project.kvStores[..i], projectName, provisioner), old(calls), old(statuses), calls, statuses, Pass, provisioner)
      {
        var entry := project.kvStores[i];
        ghost var calls1, statuses1 := calls, statuses;
        r := EnsureKvStore(entry);
        KvEventsAt(project.kvStores, i, projectName, provisioner);
        RanItem(KvEvents(project.kvStores[..i], projectName, provisioner), KvItem(entry, projectName, provisioner),
                KvEvents(project.kvStores[i + 1..], projectName, provisioner),
                old(calls), old(statuses), calls1, statuses1, calls, statuses, r, provisioner);
        if r.Fail? {
          return;
        }
        i := i + 1;
      }
      assert project.kvStores[..i] == project.kvStores;
      r := Pass;
    }

    method EnsureServices() returns (r: Outcome<string>)
      modifies this
      ensures Ran(ServicesEvents(project.pubSubs, project.kvStores, projectName, provisioner), old(calls), old(statuses), calls, statuses, r, provisioner)
    {
      ghost var head := [Publish(EnsuringServices)];
      PublishUpdate(EnsuringServices);
      ExecuteOne(Publish(EnsuringServices), provisioner);
      ghost var calls1, statuses1 := calls, statuses;
      var r1 := CreatePubSubs();
      RanThen(head, PubSubEvents(project.pubSubs), old(calls), old(statuses), calls1, statuses1, Pass,
              calls, statuses, r1, provisioner);
      if r1.Fail? {
        RanThen(head + PubSubEvents(project.pubSubs), KvEvents(project.kvStores, projectName, provisioner),
                old(calls), old(statuses), calls, statuses, r1, calls, statuses, r1, provisioner);
        return r1;
      }
      ghost var calls2, statuses2 := calls, statuses;
      r := EnsureKvStores();
      RanThen(head + PubSubEvents(project.pubSubs), KvEvents(project.kvStores, projectName, provisioner),
              old(calls), old(statuses), calls2, statuses2, r1, calls, statuses, r, provisioner);
    }

    /** Creates every component in insertion order, in the handler's project. */
    method EnsureComponents() returns (r: Outcome<string>)
      modifies this
      ensures Ran(ComponentsEvents(project.components, projectName), old(calls), old(statuses), calls, statuses, r, provisioner)
    {
      ghost var head := [Publish(EnsuringComponents)];
      PublishUpdate(EnsuringComponents);
      ExecuteOne(Publish(EnsuringComponents), provisioner);
      var i := 0;
      assert project.components[..0] == [];
      while i < |project.components|
        invariant 0 <= i <= |project.components|
        invariant Ran(head + ComponentEvents(project.components[..i], projectName), old(calls), old(statuses), calls, statuses, Pass, provisioner)
      {
        var entry := project.components[i];
        ghost var calls1, statuses1 := calls, statuses;
        r := Attempt(CreateComponent(entry.1, projectName));
        ComponentEventsAt(project.components, i, projectName);
        RanItem(head + ComponentEvents(project.components[..i], projectName), ComponentItem(entry, projectName),
                ComponentEvents(project.components[i + 1..], projectName),
                old(calls), old(statuses), calls1, statuses1, calls, statuses, r, provisioner);
        if r.Fail? {
          return;
        }
        i := i + 1;
      }
      assert project.components[..i] == project.components;
      r := Pass;
    }

    method CompleteProvisioning()
      modifies this
      ensures Ran(CompleteEvents(), old(calls), old(statuses), calls, statuses, Pass, provisioner)
    {
      PublishUpdate(Finished);
      PublishUpdate(Active);
      TwoEvents(Publish(Finished), Publish(Active));
      assert CompleteEvents() == [Publish(Finished)] + [Publish(Active)];
      ExecuteAppend([Publish(Finished)], [Publish(Active)], provisioner);
      ExecuteOne(Publish(Finished), provisioner);
      ExecuteOne(Publish(Active), provisioner);
    }
  }
}
