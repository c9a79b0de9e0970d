/**
 * The specification of one provisioning run: the provisioner's interface as an
 * oracle, the plan of status updates and provisioner calls the orchestrator walks
 * through, and what executing that plan records when a call throws.
 */
module Provisioning {
  import opened Wrappers
  import opened Model
  import opened Dictionaries
  import Deferred

  /** How a status update is styled in the dashboard. */
  datatype StateStyle = InfoStyle | SuccessStyle | ErrorStyle

  /** The states the project resource is put in during a run. */
  datatype Status =
    | Starting
    | EnsuringProject
    | SelectingProject
    | LoadingProjectDetails
    | EnsuringApplications
    | EnsuringServices
    | EnsuringComponents
    | Finished
    | Active
    | FailedToStart
  {
    /** The state text shown for the project. */
    function Text(): string
    {
      match this
      case Starting => "Starting"
      case EnsuringProject => "Ensuring project"
      case SelectingProject => "Selecting project"
      case LoadingProjectDetails => "Loading project details"
      case EnsuringApplications => "Ensuring applications"
      case EnsuringServices => "Ensuring services"
      case EnsuringComponents => "Ensuring components"
      case Finished => "Finished"
      case Active => "Active"
      case FailedToStart => "FailedToStart"
    }

    function Style(): StateStyle
    {
      match this
      case Finished => SuccessStyle
      case Active => SuccessStyle
      case FailedToStart => ErrorStyle
      case _ => InfoStyle
    }
  }

  /** One call into the provisioner, with its arguments. */
  datatype Call =
    | Init
    | CreateProject(project: string)
    | UseProject(project: string)
    | GetProjectDetails(project: string)
    | CreateApp(app: string)
    | GetAppDetails(app: string)
    | CreatePubSub(name: string, pubSub: PubSubDescriptor)
    | CheckKvStoreExists(name: string, project: string)
    | CreateKvStore(name: string, kvStore: KvStoreDescriptor)
    | CreateComponent(component: ComponentDescriptor, project: string)

  /**
   * The external provisioner as an oracle: for every call, whether it throws
   * (with a message) and what it returns.
   */
  datatype Provisioner = Provisioner(
    init: Outcome<string>,
    createProject: string -> Outcome<string>,
    useProject: string -> Outcome<string>,
    getProjectDetails: string -> Result<ProjectDetails, string>,
    createApp: string -> Outcome<string>,
    getAppDetails: string -> Result<AppDetails, string>,
    createPubSub: (string, PubSubDescriptor) -> Outcome<string>,
    checkKvStoreExists: (string, string) -> Result<bool, string>,
    createKvStore: (string, KvStoreDescriptor) -> Outcome<string>,
    createComponent: (ComponentDescriptor, string) -> Outcome<string>)
  {
    /** Whether `c` returns normally or throws. */
    function Answer(c: Call): Outcome<string>
    {
      match c
      case Init => init
      case CreateProject(p) => createProject(p)
      case UseProject(p) => useProject(p)
      case GetProjectDetails(p) =>
        if getProjectDetails(p).Success? then Pass else Fail(getProjectDetails(p).error)
      case CreateApp(a) => createApp(a)
      case GetAppDetails(a) =>
        if getAppDetails(a).Success? then Pass else Fail(getAppDetails(a).error)
      case CreatePubSub(n, d) => createPubSub(n, d)
      case CheckKvStoreExists(n, p) =>
        if checkKvStoreExists(n, p).Success? then Pass else Fail(checkKvStoreExists(n, p).error)
      case CreateKvStore(n, d) => createKvStore(n, d)
      case CreateComponent(d, p) => createComponent(d, p)
    }
  }

  /** One step of the plan: a status update, or a provisioner call. */
  datatype Event = Publish(status: Status) | Invoke(call: Call)

  // ---------------------------------------------------------------------------
  // The plan

  /** Concatenates the events of every item, in order. */
  function FlatMap<T>(s: seq<T>, f: T -> seq<Event>): seq<Event>
  {
    if s == [] then [] else FlatMap(s[..|s| - 1], f) + f(s[|s| - 1])
  }

  function AppItem(app: Resource): seq<Event>
  {
    [Invoke(CreateApp(app.name)), Invoke(GetAppDetails(app.name))]
  }

  function PubSubItem(entry: (string, PubSubDescriptor)): seq<Event>
  {
    [Invoke(CreatePubSub(entry.0, entry.1))]
  }

  /** A kv-store is created only when the existence check answers `false`. */
  function KvItem(entry: (string, KvStoreDescriptor), project: string, prov: Provisioner): (r: seq<Event>)
    ensures 1 <= |r| <= 2 && r[0] == Invoke(CheckKvStoreExists(entry.0, project))
    ensures |r| == 2 <==> prov.checkKvStoreExists(entry.0, project) == Success(false)
    ensures |r| == 2 ==> r[1] == Invoke(CreateKvStore(entry.0, entry.1))
  {
    if prov.checkKvStoreExists(entry.0, project) == Success(false)
    then [Invoke(CheckKvStoreExists(entry.0, project)), Invoke(CreateKvStore(entry.0, entry.1))]
    else [Invoke(CheckKvStoreExists(entry.0, project))]
  }

  function ComponentItem(entry: (string, ComponentDescriptor), project: string): seq<Event>
  {
    [Invoke(CreateComponent(entry.1, project))]
  }

  function AppEvents(apps: seq<Resource>): seq<Event>
  {
    FlatMap(apps, AppItem)
  }

  function PubSubEvents(pubSubs: Dict<string, PubSubDescriptor>): seq<Event>
  {
    FlatMap(pubSubs, PubSubItem)
  }

  function KvEvents(kvStores: Dict<string, KvStoreDescriptor>, project: string, prov: Provisioner): seq<Event>
  {
    FlatMap(kvStores, entry => KvItem(entry, project, prov))
  }

  function ComponentEvents(components: Dict<string, ComponentDescriptor>, project: string): seq<Event>
  {
    FlatMap(components, entry => ComponentItem(entry, project))
  }

  function InitEvents(): seq<Event>
  {
    [Invoke(Init)]
  }

  function EnsureProjectEvents(project: string): seq<Event>
  {
    [Publish(EnsuringProject), Invoke(CreateProject(project))]
  }

  function SelectProjectEvents(project: string): seq<Event>
  {
    [Publish(SelectingProject), Invoke(UseProject(project))]
  }

  function LoadDetailsEvents(project: string): seq<Event>
  {
    [Publish(LoadingProjectDetails), Invoke(GetProjectDetails(project))]
  }

  function ApplicationsEvents(apps: seq<Resource>): seq<Event>
  {
    [Publish(EnsuringApplications)] + AppEvents(apps)
  }

  function ServicesEvents(pubSubs: Dict<string, PubSubDescriptor>, kvStores: Dict<string, KvStoreDescriptor>,
                          project: string, prov: Provisioner): seq<Event>
  {
    [Publish(EnsuringServices)] + PubSubEvents(pubSubs) + KvEvents(kvStores, project, prov)
  }

  function ComponentsEvents(components: Dict<string, ComponentDescriptor>, project: string): seq<Event>
  {
    [Publish(EnsuringComponents)] + ComponentEvents(components, project)
  }

  function CompleteEvents(): seq<Event>
  {
    [Publish(Finished), Publish(Active)]
  }

  /**
   * Everything a run does when no call throws, in order. The declared
   * subscriptions are not an input: the run never reads them.
   */
  function Plan(project: string, apps: seq<Resource>, pubSubs: Dict<string, PubSubDescriptor>,
                kvStores: Dict<string, KvStoreDescriptor>, components: Dict<string, ComponentDescriptor>,
                prov: Provisioner): (r: seq<Event>)
    ensures |r| >= 3 && r[0] == Publish(Starting)
    ensures r[|r| - 2..] == [Publish(Finished), Publish(Active)]
  {
    [Publish(Starting)]
      + InitEvents()
      + EnsureProjectEvents(project)
      + SelectProjectEvents(project)
      + LoadDetailsEvents(project)
      + ApplicationsEvents(apps)
      + ServicesEvents(pubSubs, kvStores, project, prov)
      + ComponentsEvents(components, project)
      + CompleteEvents()
  }

  // ---------------------------------------------------------------------------
  // Executing a plan

  /** What a run records: the calls made, the statuses published, and the exception it ended with. */
  datatype Trace = Trace(calls: seq<Call>, statuses: seq<Status>, failure: Option<string>)

  /** `t1` followed by `t2`. */
  function Then(t1: Trace, t2: Trace): Trace
  {
    Trace(t1.calls + t2.calls, t1.statuses + t2.statuses, t2.failure)
  }

  /** The run's result as the caller sees it: normal return or the exception. */
  function OutcomeOf(t: Trace): Outcome<string>
  {
    if t.failure.Some? then Fail(t.failure.value) else Pass
  }

  /**
   * Executes the events in order. A call that throws is recorded, followed by one
   * `FailedToStart` status, and nothing after it happens.
   */
  function Execute(events: seq<Event>, prov: Provisioner): Trace
  {
    if events == [] then Trace([], [], None)
    else
      match events[0]
      case Publish(s) =>
        var t := Execute(events[1..], prov);
        Trace(t.calls, [s] + t.statuses, t.failure)
      case Invoke(c) =>
        match prov.Answer(c)
        case Fail(message) => Trace([c], [FailedToStart], Some(message))
        case Pass =>
          var t := Execute(events[1..], prov);
          Trace([c] + t.calls, t.statuses, t.failure)
  }

  /** The calls of a plan, in order. */
  function Invokes(events: seq<Event>): seq<Call>
  {
    if events == [] then []
    else (if events[0].Invoke? then [events[0].call] else []) + Invokes(events[1..])
  }

  /** The status updates of a plan, in order. */
  function Publishes(events: seq<Event>): seq<Status>
  {
    if events == [] then []
    else (if events[0].Publish? then [events[0].status] else []) + Publishes(events[1..])
  }

  /** The number of occurrences of `x` in `s`. */
  function Count<T(==)>(s: seq<T>, x: T): (n: nat)
    ensures n == 0 <==> x !in s
    ensures n <= |s|
  {
    if s == [] then 0
    else
      assert x in s <==> s[0] == x || x in s[1..];
      (if s[0] == x then 1 else 0) + Count(s[1..], x)
  }

  /** The endpoint cells are resolved exactly when the first four calls succeed. */
  predicate DetailsLoaded(project: string, prov: Provisioner)
  {
    && prov.init.Pass?
    && prov.createProject(project).Pass?
    && prov.useProject(project).Pass?
    && prov.getProjectDetails(project).Success?
  }

  /** Both calls for one application succeed. */
  predicate AppProvisioned(app: Resource, prov: Provisioner)
  {
    prov.createApp(app.name).Pass? && prov.getAppDetails(app.name).Success?
  }

  /** Applications `0..j` were all provisioned. */
  predicate AppsProvisionedThrough(apps: seq<Resource>, j: int, prov: Provisioner)
  {
    forall i :: 0 <= i <= j && i < |apps| ==> AppProvisioned(apps[i], prov)
  }

  // ---------------------------------------------------------------------------
  // Reference definitions of the calls made for each dictionary

  /** Two calls per application, in registration order. */
  function AppCalls(apps: seq<Resource>): seq<Call>
  {
    seq(2 * |apps|, i requires 0 <= i < 2 * |apps| =>
      if i % 2 == 0 then CreateApp(apps[i / 2].name) else GetAppDetails(apps[i / 2].name))
  }

  /** One create call per pub/sub, in insertion order, with no existence check. */
  function PubSubCalls(pubSubs: Dict<string, PubSubDescriptor>): seq<Call>
  {
    seq(|pubSubs|, i requires 0 <= i < |pubSubs| => CreatePubSub(pubSubs[i].0, pubSubs[i].1))
  }

  /** One create call per component, in insertion order. */
  function ComponentCalls(components: Dict<string, ComponentDescriptor>, project: string): seq<Call>
  {
    seq(|components|, i requires 0 <= i < |components| => CreateComponent(components[i].1, project))
  }

  // ---------------------------------------------------------------------------
  // Lemmas about executing a plan

  /** Running `a + b` is running `a`, then `b` unless `a` threw. */
  lemma {:induction false} ExecuteAppend(a: seq<Event>, b: seq<Event>, prov: Provisioner)
    ensures Execute(a + b, prov) == if Execute(a, prov).failure.Some? then Execute(a, prov) else Then(Execute(a, prov), Execute(b, prov))
  {
    if a == [] {
      assert a + b == b;
    } else {
      assert (a + b)[0] == a[0];
      assert (a + b)[1..] == a[1..] + b;
      ExecuteAppend(a[1..], b, prov);
      match a[0]
      case Publish(s) =>
      case Invoke(c) =>
    }
  }

  /** Once a call has thrown, whatever comes after it in the plan never happens. */
  lemma ExecuteHalts(a: seq<Event>, b: seq<Event>, prov: Provisioner)
    requires Execute(a, prov).failure.Some?
    ensures Execute(a + b, prov) == Execute(a, prov)
  {
    ExecuteAppend(a, b, prov);
  }

  /** A run that did not throw made every call and published every status of the plan. */
  lemma {:induction false} ExecuteComplete(events: seq<Event>, prov: Provisioner)
    requires Execute(events, prov).failure.None?
    ensures Execute(events, prov).calls == Invokes(events)
    ensures Execute(events, prov).statuses == Publishes(events)
  {
    if events != [] {
      ExecuteComplete(events[1..], prov);
    }
  }

  /** The calls a run makes are a prefix of the calls in its plan. */
  lemma {:induction false} ExecuteCallsPrefix(events: seq<Event>, prov: Provisioner)
    ensures Execute(events, prov).calls <= Invokes(events)
  {
    if events != [] {
      ExecuteCallsPrefix(events[1..], prov);
      var t' := Execute(events[1..], prov);
      if events[0].Publish? {
        assert Invokes(events) == Invokes(events[1..]);
      } else {
        var c := events[0].call;
        assert Invokes(events) == [c] + Invokes(events[1..]);
        if prov.Answer(c).Pass? {
          assert Execute(events, prov).calls == [c] + t'.calls;
        } else {
          assert Execute(events, prov).calls == [c];
        }
      }
    }
  }

  /**
   * Every call of a run returned normally except, when the run threw, its last
   * call, which threw the run's exception.
   */
  lemma {:induction false} ExecuteCallsAnswered(events: seq<Event>, prov: Provisioner)
    ensures var t := Execute(events, prov);
      && (forall i :: 0 <= i < |t.calls| - (if t.failure.Some? then 1 else 0) ==> prov.Answer(t.calls[i]).Pass?)
      && (t.failure.Some? ==> t.calls != [] && prov.Answer(t.calls[|t.calls| - 1]) == Fail(t.failure.value))
  {
    if events != [] {
      ExecuteCallsAnswered(events[1..], prov);
      var t := Execute(events, prov);
      var t' := Execute(events[1..], prov);
      match events[0]
      case Publish(s) =>
      case Invoke(c) =>
        if prov.Answer(c).Pass? {
          assert t.calls == [c] + t'.calls;
          forall i | 0 <= i < |t.calls| - (if t.failure.Some? then 1 else 0)
            ensures prov.Answer(t.calls[i]).Pass?
          {
            if i > 0 {
              assert t.calls[i] == t'.calls[i - 1];
            }
          }
        }
    }
  }

  /**
   * A run whose plan publishes no failure publishes `FailedToStart` exactly once,
   * as its last status, when it throws, and never otherwise.
   */
  lemma {:induction false} ExecuteFailedToStart(events: seq<Event>, prov: Provisioner)
    requires FailedToStart !in Publishes(events)
    ensures var t := Execute(events, prov);
      && Count(t.statuses, FailedToStart) == (if t.failure.Some? then 1 else 0)
      && (t.failure.Some? ==> t.statuses != [] && t.statuses[|t.statuses| - 1] == FailedToStart)
  {
    if events != [] {
      var t := Execute(events, prov);
      var t' := Execute(events[1..], prov);
      assert Publishes(events) == (if events[0].Publish? then [events[0].status] else []) + Publishes(events[1..]);
      ExecuteFailedToStart(events[1..], prov);
      match events[0]
      case Publish(s) =>
        assert t.statuses == [s] + t'.statuses;
        CountAppend([s], t'.statuses, FailedToStart);
      case Invoke(c) =>
        if prov.Answer(c).Fail? {
          assert t.statuses == [FailedToStart];
        }
    }
  }

  lemma {:induction false} FlatMapAppend<T>(a: seq<T>, b: seq<T>, f: T -> seq<Event>)
    ensures FlatMap(a + b, f) == FlatMap(a, f) + FlatMap(b, f)
  {
    if b != [] {
      assert (a + b)[..|a + b| - 1] == a + b[..|b| - 1];
      FlatMapAppend(a, b[..|b| - 1], f);
    } else {
      assert a + b == a;
    }
  }

  lemma {:induction false} InvokesAppend(a: seq<Event>, b: seq<Event>)
    ensures Invokes(a + b) == Invokes(a) + Invokes(b)
  {
    if a != [] {
      assert (a + b)[1..] == a[1..] + b;
      InvokesAppend(a[1..], b);
    } else {
      assert a + b == b;
    }
  }

  lemma {:induction false} PublishesAppend(a: seq<Event>, b: seq<Event>)
    ensures Publishes(a + b) == Publishes(a) + Publishes(b)
  {
    if a != [] {
      assert (a + b)[1..] == a[1..] + b;
      PublishesAppend(a[1..], b);
    } else {
      assert a + b == b;
    }
  }

  lemma {:induction false} CountAppend<T>(a: seq<T>, b: seq<T>, x: T)
    ensures Count(a + b, x) == Count(a, x) + Count(b, x)
  {
    if a != [] {
      assert (a + b)[1..] == a[1..] + b;
      CountAppend(a[1..], b, x);
    } else {
      assert a + b == b;
    }
  }

  /** A prefix holds no more occurrences than the whole. */
  lemma CountPrefix<T>(a: seq<T>, b: seq<T>, x: T)
    requires a <= b
    ensures Count(a, x) <= Count(b, x)
  {
    assert b == a + b[|a|..];
    CountAppend(a, b[|a|..], x);
  }

  /** The calls and status updates of a one-event plan. */
  lemma OneEvent(e: Event)
    ensures Invokes([e]) == if e.Invoke? then [e.call] else []
    ensures Publishes([e]) == if e.Publish? then [e.status] else []
  {
    assert [e][1..] == [];
  }

  /** The calls and status updates of a two-event plan. */
  lemma TwoEvents(a: Event, b: Event)
    ensures Invokes([a, b]) == (if a.Invoke? then [a.call] else []) + (if b.Invoke? then [b.call] else [])
    ensures Publishes([a, b]) == (if a.Publish? then [a.status] else []) + (if b.Publish? then [b.status] else [])
  {
    assert [a, b] == [a] + [b];
    InvokesAppend([a], [b]);
    PublishesAppend([a], [b]);
    OneEvent(a);
    OneEvent(b);
  }

  /** The calls and status updates of the phases up to loading the project details. */
  lemma FixedSteps(project: string)
    ensures Invokes([Publish(Starting)]) == [] && Publishes([Publish(Starting)]) == [Starting]
    ensures Invokes(InitEvents()) == [Init] && Publishes(InitEvents()) == []
    ensures Invokes(EnsureProjectEvents(project)) == [CreateProject(project)] && Publishes(EnsureProjectEvents(project)) == [EnsuringProject]
    ensures Invokes(SelectProjectEvents(project)) == [UseProject(project)] && Publishes(SelectProjectEvents(project)) == [SelectingProject]
    ensures Invokes(LoadDetailsEvents(project)) == [GetProjectDetails(project)] && Publishes(LoadDetailsEvents(project)) == [LoadingProjectDetails]
  {
    OneEvent(Publish(Starting));
    OneEvent(Invoke(Init));
    TwoEvents(Publish(EnsuringProject), Invoke(CreateProject(project)));
    TwoEvents(Publish(SelectingProject), Invoke(UseProject(project)));
    TwoEvents(Publish(LoadingProjectDetails), Invoke(GetProjectDetails(project)));
  }

  /** Items that make only calls make a plan segment without status updates. */
  lemma {:induction false} FlatMapPublishesNothing<T>(s: seq<T>, f: T -> seq<Event>)
    requires forall t :: t in s ==> Publishes(f(t)) == []
    ensures Publishes(FlatMap(s, f)) == []
  {
    if s != [] {
      assert forall t :: t in s[..|s| - 1] ==> t in s;
      FlatMapPublishesNothing(s[..|s| - 1], f);
      PublishesAppend(FlatMap(s[..|s| - 1], f), f(s[|s| - 1]));
    }
  }

  lemma {:induction false} AppCallsOfEvents(apps: seq<Resource>)
    ensures Invokes(AppEvents(apps)) == AppCalls(apps)
  {
    if apps != [] {
      var init := apps[..|apps| - 1];
      var last := apps[|apps| - 1];
      AppCallsOfEvents(init);
      assert AppEvents(apps) == AppEvents(init) + AppItem(last);
      InvokesAppend(AppEvents(init), AppItem(last));
      TwoEvents(Invoke(CreateApp(last.name)), Invoke(GetAppDetails(last.name)));
      var calls := AppCalls(init) + [CreateApp(last.name), GetAppDetails(last.name)];
      assert |AppCalls(apps)| == |calls|;
      forall i | 0 <= i < |calls|
        ensures AppCalls(apps)[i] == calls[i]
      {
        if i < 2 * |init| {
          assert i / 2 < |init|;
        } else {
          assert i / 2 == |init|;
        }
      }
    }
  }

  lemma {:induction false} PubSubCallsOfEvents(pubSubs: Dict<string, PubSubDescriptor>)
    ensures Invokes(PubSubEvents(pubSubs)) == PubSubCalls(pubSubs)
  {
    if pubSubs != [] {
      var init := pubSubs[..|pubSubs| - 1];
      var last := pubSubs[|pubSubs| - 1];
      PubSubCallsOfEvents(init);
      assert PubSubEvents(pubSubs) == PubSubEvents(init) + PubSubItem(last);
      InvokesAppend(PubSubEvents(init), PubSubItem(last));
      OneEvent(Invoke(CreatePubSub(last.0, last.1)));
      assert PubSubCalls(pubSubs) == PubSubCalls(init) + [CreatePubSub(last.0, last.1)];
    }
  }

  /** The component calls of a dictionary: those of its earlier entries, then its last. */
  lemma ComponentCallsSnoc(components: Dict<string, ComponentDescriptor>, project: string)
    requires components != []
    ensures ComponentCalls(components, project)
         == ComponentCalls(components[..|components| - 1], project) + [CreateComponent(components[|components| - 1].1, project)]
  {
  }

  lemma {:induction false} ComponentCallsOfEvents(components: Dict<string, ComponentDescriptor>, project: string)
    ensures Invokes(ComponentEvents(components, project)) == ComponentCalls(components, project)
  {
    if components != [] {
      var init := components[..|components| - 1];
      var last := components[|components| - 1];
      ComponentCallsOfEvents(init, project);
      assert ComponentEvents(components, project) == ComponentEvents(init, project) + ComponentItem(last, project);
      InvokesAppend(ComponentEvents(init, project), ComponentItem(last, project));
      OneEvent(Invoke(CreateComponent(last.1, project)));
      ComponentCallsSnoc(components, project);
    }
  }

  /** The calls made for one kv-store: the check, then the create when the check said it is missing. */
  lemma KvItemCalls(entry: (string, KvStoreDescriptor), project: string, prov: Provisioner)
    ensures Invokes(KvItem(entry, project, prov))
         == [CheckKvStoreExists(entry.0, project)]
            + if prov.checkKvStoreExists(entry.0, project) == Success(false) then [CreateKvStore(entry.0, entry.1)] else []
  {
    OneEvent(Invoke(CheckKvStoreExists(entry.0, project)));
    TwoEvents(Invoke(CheckKvStoreExists(entry.0, project)), Invoke(CreateKvStore(entry.0, entry.1)));
  }

  /** The events of one kv-store publish no status. */
  lemma KvItemPublishesNothing(entry: (string, KvStoreDescriptor), project: string, prov: Provisioner)
    ensures Publishes(KvItem(entry, project, prov)) == []
  {
    OneEvent(Invoke(CheckKvStoreExists(entry.0, project)));
    TwoEvents(Invoke(CheckKvStoreExists(entry.0, project)), Invoke(CreateKvStore(entry.0, entry.1)));
  }

  /** Splits a dictionary into its earlier entries and its last, whose key is new. */
  lemma DistinctInit<K, V>(d: Dict<K, V>)
    requires DistinctKeys(d) && d != []
    ensures DistinctKeys(d[..|d| - 1])
    ensures d == d[..|d| - 1] + [d[|d| - 1]]
    ensures forall e :: e in d[..|d| - 1] ==> e.0 != d[|d| - 1].0
  {
    assert forall i :: 0 <= i < |d| - 1 ==> d[i].0 != d[|d| - 1].0;
  }

  /** Every kv-store is checked exactly once per run plan. */
  lemma {:induction false} KvCheckCount(kvStores: Dict<string, KvStoreDescriptor>, project: string, prov: Provisioner, name: string)
    requires DistinctKeys(kvStores)
    ensures Count(Invokes(KvEvents(kvStores, project, prov)), CheckKvStoreExists(name, project))
         == if name in Keys(kvStores) then 1 else 0
  {
    if kvStores != [] {
      var init := kvStores[..|kvStores| - 1];
      var last := kvStores[|kvStores| - 1];
      DistinctInit(kvStores);
      KvCheckCount(init, project, prov, name);
      assert KvEvents(kvStores, project, prov) == KvEvents(init, project, prov) + KvItem(last, project, prov);
      InvokesAppend(KvEvents(init, project, prov), KvItem(last, project, prov));
      KvItemCalls(last, project, prov);
      CountAppend(Invokes(KvEvents(init, project, prov)), Invokes(KvItem(last, project, prov)), CheckKvStoreExists(name, project));
      assert Count(Invokes(KvItem(last, project, prov)), CheckKvStoreExists(name, project)) == if last.0 == name then 1 else 0;
      assert Keys(kvStores) == Keys(init) + [last.0];
      assert name in Keys(init) ==> exists e :: e in init && e.0 == name;
    }
  }

  /** A kv-store is created once if the check said it is missing, and never otherwise. */
  lemma {:induction false} KvCreateCount(kvStores: Dict<string, KvStoreDescriptor>, project: string, prov: Provisioner,
                                         name: string, kvStore: KvStoreDescriptor)
    requires DistinctKeys(kvStores)
    ensures Count(Invokes(KvEvents(kvStores, project, prov)), CreateKvStore(name, kvStore))
         == if (name, kvStore) in kvStores && prov.checkKvStoreExists(name, project) == Success(false) then 1 else 0
  {
    if kvStores != [] {
      var init := kvStores[..|kvStores| - 1];
      var last := kvStores[|kvStores| - 1];
      DistinctInit(kvStores);
      KvCreateCount(init, project, prov, name, kvStore);
      assert KvEvents(kvStores, project, prov) == KvEvents(init, project, prov) + KvItem(last, project, prov);
      InvokesAppend(KvEvents(init, project, prov), KvItem(last, project, prov));
      KvItemCalls(last, project, prov);
      CountAppend(Invokes(KvEvents(init, project, prov)), Invokes(KvItem(last, project, prov)), CreateKvStore(name, kvStore));
      assert Count(Invokes(KvItem(last, project, prov)), CreateKvStore(name, kvStore))
          == if last == (name, kvStore) && prov.checkKvStoreExists(name, project) == Success(false) then 1 else 0;
    }
  }

  /** One create call for every pub/sub, and none for anything else. */
  lemma {:induction false} PubSubCallCount(pubSubs: Dict<string, PubSubDescriptor>, name: string, pubSub: PubSubDescriptor)
    requires DistinctKeys(pubSubs)
    ensures Count(PubSubCalls(pubSubs), CreatePubSub(name, pubSub)) == if (name, pubSub) in pubSubs then 1 else 0
  {
    if pubSubs != [] {
      var init := pubSubs[..|pubSubs| - 1];
      var last := pubSubs[|pubSubs| - 1];
      DistinctInit(pubSubs);
      PubSubCallCount(init, name, pubSub);
      assert PubSubCalls(pubSubs) == PubSubCalls(init) + [CreatePubSub(last.0, last.1)];
      CountAppend(PubSubCalls(init), [CreatePubSub(last.0, last.1)], CreatePubSub(name, pubSub));
    }
  }

  /** The plan up to loading the project details. */
  function HeadEvents(project: string): seq<Event>
  {
    [Publish(Starting)] + InitEvents() + EnsureProjectEvents(project) + SelectProjectEvents(project) + LoadDetailsEvents(project)
  }

  lemma HeadSegment(project: string)
    ensures Invokes(HeadEvents(project)) == [Init, CreateProject(project), UseProject(project), GetProjectDetails(project)]
    ensures Publishes(HeadEvents(project)) == [Starting, EnsuringProject, SelectingProject, LoadingProjectDetails]
  {
    var s0 := [Publish(Starting)];
    var s1 := s0 + InitEvents();
    var s2 := s1 + EnsureProjectEvents(project);
    var s3 := s2 + SelectProjectEvents(project);
    FixedSteps(project);
    InvokesAppend(s0, InitEvents());
    InvokesAppend(s1, EnsureProjectEvents(project));
    InvokesAppend(s2, SelectProjectEvents(project));
    InvokesAppend(s3, LoadDetailsEvents(project));
    PublishesAppend(s0, InitEvents());
    PublishesAppend(s1, EnsureProjectEvents(project));
    PublishesAppend(s2, SelectProjectEvents(project));
    PublishesAppend(s3, LoadDetailsEvents(project));
  }

  lemma ApplicationsSegment(apps: seq<Resource>)
    ensures Invokes(ApplicationsEvents(apps)) == AppCalls(apps)
    ensures Publishes(ApplicationsEvents(apps)) == [EnsuringApplications]
  {
    OneEvent(Publish(EnsuringApplications));
    forall app | app in apps
      ensures Publishes(AppItem(app)) == []
    {
      TwoEvents(Invoke(CreateApp(app.name)), Invoke(GetAppDetails(app.name)));
    }
    FlatMapPublishesNothing(apps, AppItem);
    InvokesAppend([Publish(EnsuringApplications)], AppEvents(apps));
    PublishesAppend([Publish(EnsuringApplications)], AppEvents(apps));
    AppCallsOfEvents(apps);
  }

  lemma ServicesSegment(pubSubs: Dict<string, PubSubDescriptor>, kvStores: Dict<string, KvStoreDescriptor>,
                        project: string, prov: Provisioner)
    ensures Invokes(ServicesEvents(pubSubs, kvStores, project, prov)) == PubSubCalls(pubSubs) + Invokes(KvEvents(kvStores, project, prov))
    ensures Publishes(ServicesEvents(pubSubs, kvStores, project, prov)) == [EnsuringServices]
  {
    OneEvent(Publish(EnsuringServices));
    forall e | e in pubSubs
      ensures Publishes(PubSubItem(e)) == []
    {
      OneEvent(Invoke(CreatePubSub(e.0, e.1)));
    }
    FlatMapPublishesNothing(pubSubs, PubSubItem);
    forall e | e in kvStores
      ensures Publishes(KvItem(e, project, prov)) == []
    {
      KvItemPublishesNothing(e, project, prov);
    }
    FlatMapPublishesNothing(kvStores, entry => KvItem(entry, project, prov));
    var s := [Publish(EnsuringServices)] + PubSubEvents(pubSubs);
    InvokesAppend([Publish(EnsuringServices)], PubSubEvents(pubSubs));
    InvokesAppend(s, KvEvents(kvStores, project, prov));
    PublishesAppend([Publish(EnsuringServices)], PubSubEvents(pubSubs));
    PublishesAppend(s, KvEvents(kvStores, project, prov));
    PubSubCallsOfEvents(pubSubs);
  }

  lemma ComponentsSegment(components: Dict<string, ComponentDescriptor>, project: string)
    ensures Invokes(ComponentsEvents(components, project)) == ComponentCalls(components, project)
    ensures Publishes(ComponentsEvents(components, project)) == [EnsuringComponents]
  {
    OneEvent(Publish(EnsuringComponents));
    forall e | e in components
      ensures Publishes(ComponentItem(e, project)) == []
    {
      OneEvent(Invoke(CreateComponent(e.1, project)));
    }
    FlatMapPublishesNothing(components, entry => ComponentItem(entry, project));
    InvokesAppend([Publish(EnsuringComponents)], ComponentEvents(components, project));
    PublishesAppend([Publish(EnsuringComponents)], ComponentEvents(components, project));
    ComponentCallsOfEvents(components, project);
  }

  /** The calls of the whole plan, dictionary by dictionary. */
  lemma PlanCalls(project: string, apps: seq<Resource>, pubSubs: Dict<string, PubSubDescriptor>,
                  kvStores: Dict<string, KvStoreDescriptor>, components: Dict<string, ComponentDescriptor>,
                  prov: Provisioner)
    ensures Invokes(Plan(project, apps, pubSubs, kvStores, components, prov))
         == [Init, CreateProject(project), UseProject(project), GetProjectDetails(project)]
            + AppCalls(apps) + PubSubCalls(pubSubs) + Invokes(KvEvents(kvStores, project, prov))
            + ComponentCalls(components, project)
  {
    var h := [Init, CreateProject(project), UseProject(project), GetProjectDetails(project)];
    var a, ps, kv, cs := AppCalls(apps), PubSubCalls(pubSubs), Invokes(KvEvents(kvStores, project, prov)), ComponentCalls(components, project);
    var s5 := HeadEvents(project) + ApplicationsEvents(apps);
    var s6 := s5 + ServicesEvents(pubSubs, kvStores, project, prov);
    var s7 := s6 + ComponentsEvents(components, project);
    assert Plan(project, apps, pubSubs, kvStores, components, prov) == s7 + CompleteEvents();
    ThroughApplications(project, apps);
    ServicesSegment(pubSubs, kvStores, project, prov);
    ComponentsSegment(components, project);
    TwoEvents(Publish(Finished), Publish(Active));
    InvokesAppend(s5, ServicesEvents(pubSubs, kvStores, project, prov));
    assert Invokes(s6) == (h + a) + (ps + kv) == h + a + ps + kv;
    InvokesAppend(s6, ComponentsEvents(components, project));
    InvokesAppend(s7, CompleteEvents());
    assert Invokes(s7) + [] == Invokes(s7);
  }

  /** The status updates of the whole plan: one per phase, even for empty dictionaries. */
  lemma PlanStatuses(project: string, apps: seq<Resource>, pubSubs: Dict<string, PubSubDescriptor>,
                     kvStores: Dict<string, KvStoreDescriptor>, components: Dict<string, ComponentDescriptor>,
                     prov: Provisioner)
    ensures Publishes(Plan(project, apps, pubSubs, kvStores, components, prov))
         == [Starting, EnsuringProject, SelectingProject, LoadingProjectDetails, EnsuringApplications,
             EnsuringServices, EnsuringComponents, Finished, Active]
  {
    var s5 := HeadEvents(project) + ApplicationsEvents(apps);
    var s6 := s5 + ServicesEvents(pubSubs, kvStores, project, prov);
    var s7 := s6 + ComponentsEvents(components, project);
    assert Plan(project, apps, pubSubs, kvStores, components, prov) == s7 + CompleteEvents();
    ThroughApplications(project, apps);
    ServicesSegment(pubSubs, kvStores, project, prov);
    ComponentsSegment(components, project);
    TwoEvents(Publish(Finished), Publish(Active));
    PublishesAppend(s5, ServicesEvents(pubSubs, kvStores, project, prov));
    PublishesAppend(s6, ComponentsEvents(components, project));
    PublishesAppend(s7, CompleteEvents());
  }

  // ---------------------------------------------------------------------------
  // Properties of whole runs

  lemma ExecuteOne(e: Event, prov: Provisioner)
    ensures Execute([e], prov) ==
      if e.Publish? then Trace([], [e.status], None)
      else if prov.Answer(e.call).Fail? then Trace([e.call], [FailedToStart], Some(prov.Answer(e.call).error))
      else Trace([e.call], [], None)
  {
    assert [e][1..] == [];
  }

  /** A run that threw published a prefix of the plan's statuses, then `FailedToStart`. */
  lemma {:induction false} ExecuteStatusesPrefix(events: seq<Event>, prov: Provisioner)
    requires Execute(events, prov).failure.Some?
    ensures var t := Execute(events, prov);
      && t.statuses != [] && t.statuses[..|t.statuses| - 1] <= Publishes(events)
      && t.statuses[|t.statuses| - 1] == FailedToStart
  {
    var t := Execute(events, prov);
    var e := events[0];
    if e.Publish? {
      var t' := Execute(events[1..], prov);
      ExecuteStatusesPrefix(events[1..], prov);
      assert Publishes(events) == [e.status] + Publishes(events[1..]);
      assert t.statuses == [e.status] + t'.statuses;
      assert t.statuses[..|t.statuses| - 1] == [e.status] + t'.statuses[..|t'.statuses| - 1];
    } else if prov.Answer(e.call).Pass? {
      ExecuteStatusesPrefix(events[1..], prov);
      assert Publishes(events) == Publishes(events[1..]);
    }
  }

  /** A call of the plan that throws makes the run throw. */
  lemma {:induction false} ExecuteFailsOn(events: seq<Event>, c: Call, prov: Provisioner)
    requires c in Invokes(events) && prov.Answer(c).Fail?
    ensures Execute(events, prov).failure.Some?
  {
    if events[0].Invoke? && prov.Answer(events[0].call).Fail? {
    } else {
      assert c in Invokes(events[1..]);
      ExecuteFailsOn(events[1..], c, prov);
    }
  }

  /** The calls made for kv-stores are existence checks and creations only. */
  lemma {:induction false} KvCallKinds(kvStores: Dict<string, KvStoreDescriptor>, project: string, prov: Provisioner)
    ensures forall c :: c in Invokes(KvEvents(kvStores, project, prov)) ==> c.CheckKvStoreExists? || c.CreateKvStore?
  {
    if kvStores != [] {
      var init := kvStores[..|kvStores| - 1];
      var last := kvStores[|kvStores| - 1];
      KvCallKinds(init, project, prov);
      assert KvEvents(kvStores, project, prov) == KvEvents(init, project, prov) + KvItem(last, project, prov);
      InvokesAppend(KvEvents(init, project, prov), KvItem(last, project, prov));
      KvItemCalls(last, project, prov);
    }
  }

  /** How often `x` occurs in the calls of the whole plan, dictionary by dictionary. */
  lemma PlanCallCount(project: string, apps: seq<Resource>, pubSubs: Dict<string, PubSubDescriptor>,
                      kvStores: Dict<string, KvStoreDescriptor>, components: Dict<string, ComponentDescriptor>,
                      prov: Provisioner, x: Call)
    ensures Count(Invokes(Plan(project, apps, pubSubs, kvStores, components, prov)), x)
         == Count([Init, CreateProject(project), UseProject(project), GetProjectDetails(project)], x)
            + Count(AppCalls(apps), x) + Count(PubSubCalls(pubSubs), x)
            + Count(Invokes(KvEvents(kvStores, project, prov)), x) + Count(ComponentCalls(components, project), x)
  {
    PlanCalls(project, apps, pubSubs, kvStores, components, prov);
    var h := [Init, CreateProject(project), UseProject(project), GetProjectDetails(project)];
    var a := AppCalls(apps);
    var ps := PubSubCalls(pubSubs);
    var kv := Invokes(KvEvents(kvStores, project, prov));
    var cs := ComponentCalls(components, project);
    CountAppend(h, a, x);
    CountAppend(h + a, ps, x);
    CountAppend(h + a + ps, kv, x);
    CountAppend(h + a + ps + kv, cs, x);
  }

  /** A run that did not throw made every call of the plan and published every phase. */
  lemma CompletedRun(project: string, apps: seq<Resource>, pubSubs: Dict<string, PubSubDescriptor>,
                     kvStores: Dict<string, KvStoreDescriptor>, components: Dict<string, ComponentDescriptor>,
                     prov: Provisioner)
    requires Execute(Plan(project, apps, pubSubs, kvStores, components, prov), prov).failure.None?
    ensures var t := Execute(Plan(project, apps, pubSubs, kvStores, components, prov), prov);
      && t.statuses == [Starting, EnsuringProject, SelectingProject, LoadingProjectDetails, EnsuringApplications,
                        EnsuringServices, EnsuringComponents, Finished, Active]
      && t.calls == [Init, CreateProject(project), UseProject(project), GetProjectDetails(project)]
                    + AppCalls(apps) + PubSubCalls(pubSubs) + Invokes(KvEvents(kvStores, project, prov))
                    + ComponentCalls(components, project)
      && forall i :: 0 <= i < |t.calls| ==> prov.Answer(t.calls[i]).Pass?
  {
    var plan := Plan(project, apps, pubSubs, kvStores, components, prov);
    ExecuteComplete(plan, prov);
    ExecuteCallsAnswered(plan, prov);
    PlanCalls(project, apps, pubSubs, kvStores, components, prov);
    PlanStatuses(project, apps, pubSubs, kvStores, components, prov);
  }

  /**
   * A run that threw made a prefix of the plan's calls, all returning normally
   * but the last, which threw the run's exception; it published a prefix of the
   * phases, then `FailedToStart` exactly once, last.
   */
  lemma FailedRun(project: string, apps: seq<Resource>, pubSubs: Dict<string, PubSubDescriptor>,
                  kvStores: Dict<string, KvStoreDescriptor>, components: Dict<string, ComponentDescriptor>,
                  prov: Provisioner)
    requires Execute(Plan(project, apps, pubSubs, kvStores, components, prov), prov).failure.Some?
    ensures var t := Execute(Plan(project, apps, pubSubs, kvStores, components, prov), prov);
      && t.calls != [] && t.calls <= Invokes(Plan(project, apps, pubSubs, kvStores, components, prov))
      && prov.Answer(t.calls[|t.calls| - 1]) == Fail(t.failure.value)
      && (forall i :: 0 <= i < |t.calls| - 1 ==> prov.Answer(t.calls[i]).Pass?)
      && t.statuses != [] && t.statuses[|t.statuses| - 1] == FailedToStart
      && t.statuses[..|t.statuses| - 1] <= [Starting, EnsuringProject, SelectingProject, LoadingProjectDetails,
                                             EnsuringApplications, EnsuringServices, EnsuringComponents, Finished, Active]
      && Count(t.statuses, FailedToStart) == 1
  {
    var plan := Plan(project, apps, pubSubs, kvStores, components, prov);
    PlanStatuses(project, apps, pubSubs, kvStores, components, prov);
    ExecuteCallsPrefix(plan, prov);
    ExecuteCallsAnswered(plan, prov);
    ExecuteStatusesPrefix(plan, prov);
    ExecuteFailedToStart(plan, prov);
  }

  /** When initialization throws, nothing else is called and the project fails to start. */
  lemma InitFailureRun(project: string, apps: seq<Resource>, pubSubs: Dict<string, PubSubDescriptor>,
                       kvStores: Dict<string, KvStoreDescriptor>, components: Dict<string, ComponentDescriptor>,
                       prov: Provisioner)
    requires prov.init.Fail?
    ensures Execute(Plan(project, apps, pubSubs, kvStores, components, prov), prov)
         == Trace([Init], [Starting, FailedToStart], Some(prov.init.error))
  {
    var s1 := [Publish(Starting)] + InitEvents();
    ExecuteAppend([Publish(Starting)], InitEvents(), prov);
    ExecuteOne(Publish(Starting), prov);
    ExecuteOne(Invoke(Init), prov);
    var s2 := s1 + EnsureProjectEvents(project);
    var s3 := s2 + SelectProjectEvents(project);
    var s4 := s3 + LoadDetailsEvents(project);
    var s5 := s4 + ApplicationsEvents(apps);
    var s6 := s5 + ServicesEvents(pubSubs, kvStores, project, prov);
    var s7 := s6 + ComponentsEvents(components, project);
    ExecuteHalts(s1, EnsureProjectEvents(project), prov);
    ExecuteHalts(s2, SelectProjectEvents(project), prov);
    ExecuteHalts(s3, LoadDetailsEvents(project), prov);
    ExecuteHalts(s4, ApplicationsEvents(apps), prov);
    ExecuteHalts(s5, ServicesEvents(pubSubs, kvStores, project, prov), prov);
    ExecuteHalts(s6, ComponentsEvents(components, project), prov);
    ExecuteHalts(s7, CompleteEvents(), prov);
  }

  /** In the plan, each kv-store is checked once and created once exactly when the check reports it missing. */
  lemma PlanKvCounts(project: string, apps: seq<Resource>, pubSubs: Dict<string, PubSubDescriptor>,
                     kvStores: Dict<string, KvStoreDescriptor>, components: Dict<string, ComponentDescriptor>,
                     prov: Provisioner, name: string, kvStore: KvStoreDescriptor)
    requires DistinctKeys(kvStores)
    ensures Count(Invokes(Plan(project, apps, pubSubs, kvStores, components, prov)), CreateKvStore(name, kvStore))
         == if (name, kvStore) in kvStores && prov.checkKvStoreExists(name, project) == Success(false) then 1 else 0
    ensures Count(Invokes(Plan(project, apps, pubSubs, kvStores, components, prov)), CheckKvStoreExists(name, project))
         == if name in Keys(kvStores) then 1 else 0
  {
    var create := CreateKvStore(name, kvStore);
    var check := CheckKvStoreExists(name, project);
    PlanCallCount(project, apps, pubSubs, kvStores, components, prov, create);
    PlanCallCount(project, apps, pubSubs, kvStores, components, prov, check);
    KvCreateCount(kvStores, project, prov, name, kvStore);
    KvCheckCount(kvStores, project, prov, name);
    OtherCallsNotKv(project, apps, pubSubs, components, create);
    OtherCallsNotKv(project, apps, pubSubs, components, check);
  }

  /** Only the kv-store loop makes kv-store calls. */
  lemma OtherCallsNotKv(project: string, apps: seq<Resource>, pubSubs: Dict<string, PubSubDescriptor>,
                        components: Dict<string, ComponentDescriptor>, x: Call)
    requires x.CheckKvStoreExists? || x.CreateKvStore?
    ensures Count([Init, CreateProject(project), UseProject(project), GetProjectDetails(project)], x) == 0
    ensures Count(AppCalls(apps), x) == 0
    ensures Count(PubSubCalls(pubSubs), x) == 0
    ensures Count(ComponentCalls(components, project), x) == 0
  {
    forall k | 0 <= k < |AppCalls(apps)|
      ensures AppCalls(apps)[k] != x
    {
    }
    forall k | 0 <= k < |PubSubCalls(pubSubs)|
      ensures PubSubCalls(pubSubs)[k] != x
    {
    }
    forall k | 0 <= k < |ComponentCalls(components, project)|
      ensures ComponentCalls(components, project)[k] != x
    {
    }
  }

  /**
   * A kv-store is checked at most once and created only when the check reported
   * it missing, in every run; a run that did not throw checked each once and
   * created each missing one once.
   */
  lemma KvStoreCreatedOnlyWhenMissing(project: string, apps: seq<Resource>, pubSubs: Dict<string, PubSubDescriptor>,
                                      kvStores: Dict<string, KvStoreDescriptor>, components: Dict<string, ComponentDescriptor>,
                                      prov: Provisioner, name: string, kvStore: KvStoreDescriptor)
    requires DistinctKeys(kvStores)
    ensures var t := Execute(Plan(project, apps, pubSubs, kvStores, components, prov), prov);
      var created := if (name, kvStore) in kvStores && prov.checkKvStoreExists(name, project) == Success(false) then 1 else 0;
      var checked := if name in Keys(kvStores) then 1 else 0;
      && Count(t.calls, CreateKvStore(name, kvStore)) <= created
      && Count(t.calls, CheckKvStoreExists(name, project)) <= checked
      && (t.failure.None? ==> Count(t.calls, CreateKvStore(name, kvStore)) == created
                              && Count(t.calls, CheckKvStoreExists(name, project)) == checked)
  {
    var plan := Plan(project, apps, pubSubs, kvStores, components, prov);
    var t := Execute(plan, prov);
    ExecuteCallsPrefix(plan, prov);
    if t.failure.None? {
      ExecuteComplete(plan, prov);
    }
    PlanKvCounts(project, apps, pubSubs, kvStores, components, prov, name, kvStore);
    CountPrefix(t.calls, Invokes(plan), CreateKvStore(name, kvStore));
    CountPrefix(t.calls, Invokes(plan), CheckKvStoreExists(name, project));
  }

  /**
   * Pub/subs are created without an existence check: a run that did not throw
   * created each declared pub/sub exactly once, and no run checks a pub/sub's
   * name for existence.
   */
  lemma PubSubsCreatedUnchecked(project: string, apps: seq<Resource>, pubSubs: Dict<string, PubSubDescriptor>,
                                kvStores: Dict<string, KvStoreDescriptor>, components: Dict<string, ComponentDescriptor>,
                                prov: Provisioner, name: string, pubSub: PubSubDescriptor)
    requires DistinctKeys(pubSubs) && DistinctKeys(kvStores) && DisjointKeys(pubSubs, kvStores)
    ensures var t := Execute(Plan(project, apps, pubSubs, kvStores, components, prov), prov);
      && (t.failure.None? ==> Count(t.calls, CreatePubSub(name, pubSub)) == if (name, pubSub) in pubSubs then 1 else 0)
      && (name in Keys(pubSubs) ==> Count(t.calls, CheckKvStoreExists(name, project)) == 0)
  {
    var plan := Plan(project, apps, pubSubs, kvStores, components, prov);
    var t := Execute(plan, prov);
    var create := CreatePubSub(name, pubSub);
    ExecuteCallsPrefix(plan, prov);
    if t.failure.None? {
      ExecuteComplete(plan, prov);
      PlanCallCount(project, apps, pubSubs, kvStores, components, prov, create);
      PubSubCallCount(pubSubs, name, pubSub);
      KvCallKinds(kvStores, project, prov);
    }
    if name in Keys(pubSubs) {
      KvStoreCreatedOnlyWhenMissing(project, apps, pubSubs, kvStores, components, prov, name, KvStoreDescriptor("", []));
    }
  }

  /** A throwing application call ends the run within the applications phase. */
  lemma ApplicationFailureHalts(project: string, apps: seq<Resource>, pubSubs: Dict<string, PubSubDescriptor>,
                                kvStores: Dict<string, KvStoreDescriptor>, components: Dict<string, ComponentDescriptor>,
                                prov: Provisioner, i: nat)
    requires i < |apps| && !AppProvisioned(apps[i], prov)
    ensures var s5 := HeadEvents(project) + ApplicationsEvents(apps);
      && Execute(s5, prov).failure.Some?
      && Execute(Plan(project, apps, pubSubs, kvStores, components, prov), prov) == Execute(s5, prov)
      && Invokes(s5) == [Init, CreateProject(project), UseProject(project), GetProjectDetails(project)] + AppCalls(apps)
      && Publishes(s5) == [Starting, EnsuringProject, SelectingProject, LoadingProjectDetails, EnsuringApplications]
  {
    var h := [Init, CreateProject(project), UseProject(project), GetProjectDetails(project)];
    var s5 := HeadEvents(project) + ApplicationsEvents(apps);
    var s6 := s5 + ServicesEvents(pubSubs, kvStores, project, prov);
    var s7 := s6 + ComponentsEvents(components, project);
    ThroughApplications(project, apps);
    var j := if prov.createApp(apps[i].name).Fail? then 2 * i else 2 * i + 1;
    var bad := AppCalls(apps)[j];
    assert Invokes(s5)[|h| + j] == bad;
    ExecuteFailsOn(s5, bad, prov);
    ExecuteHalts(s5, ServicesEvents(pubSubs, kvStores, project, prov), prov);
    ExecuteHalts(s6, ComponentsEvents(components, project), prov);
    ExecuteHalts(s7, CompleteEvents(), prov);
    assert Plan(project, apps, pubSubs, kvStores, components, prov) == s7 + CompleteEvents();
  }

  /** The calls and status updates of the plan up to the end of the applications phase. */
  lemma ThroughApplications(project: string, apps: seq<Resource>)
    ensures var s5 := HeadEvents(project) + ApplicationsEvents(apps);
      && Invokes(s5) == [Init, CreateProject(project), UseProject(project), GetProjectDetails(project)] + AppCalls(apps)
      && Publishes(s5) == [Starting, EnsuringProject, SelectingProject, LoadingProjectDetails, EnsuringApplications]
  {
    HeadSegment(project);
    ApplicationsSegment(apps);
    InvokesAppend(HeadEvents(project), ApplicationsEvents(apps));
    PublishesAppend(HeadEvents(project), ApplicationsEvents(apps));
  }

  /**
   * When the provisioner throws for application `i`, the run throws before the
   * services phase: no pub/sub, kv-store or component call is made and the
   * services phase is never published.
   */
  lemma ApplicationFailureStopsRun(project: string, apps: seq<Resource>, pubSubs: Dict<string, PubSubDescriptor>,
                                   kvStores: Dict<string, KvStoreDescriptor>, components: Dict<string, ComponentDescriptor>,
                                   prov: Provisioner, i: nat)
    requires i < |apps| && !AppProvisioned(apps[i], prov)
    ensures var t := Execute(Plan(project, apps, pubSubs, kvStores, components, prov), prov);
      && t.failure.Some?
      && (forall c :: c in t.calls ==> !(c.CreatePubSub? || c.CheckKvStoreExists? || c.CreateKvStore? || c.CreateComponent?))
      && EnsuringServices !in t.statuses
  {
    ApplicationFailureHalts(project, apps, pubSubs, kvStores, components, prov, i);
    ApplicationsPartFailure(project, apps, prov);
  }

  /** A run of the plan up to the applications phase makes no service call and never publishes the services phase. */
  lemma ApplicationsPartFailure(project: string, apps: seq<Resource>, prov: Provisioner)
    requires Execute(HeadEvents(project) + ApplicationsEvents(apps), prov).failure.Some?
    ensures var t := Execute(HeadEvents(project) + ApplicationsEvents(apps), prov);
      && (forall c :: c in t.calls ==> !(c.CreatePubSub? || c.CheckKvStoreExists? || c.CreateKvStore? || c.CreateComponent?))
      && EnsuringServices !in t.statuses
  {
    ThroughApplications(project, apps);
    ApplicationsPartCalls(HeadEvents(project) + ApplicationsEvents(apps), project, apps, prov);
    ApplicationsPartStatuses(HeadEvents(project) + ApplicationsEvents(apps), prov);
  }

  lemma ApplicationsPartCalls(s5: seq<Event>, project: string, apps: seq<Resource>, prov: Provisioner)
    requires Invokes(s5) == [Init, CreateProject(project), UseProject(project), GetProjectDetails(project)] + AppCalls(apps)
    ensures forall c :: c in Execute(s5, prov).calls ==>
      !(c.CreatePubSub? || c.CheckKvStoreExists? || c.CreateKvStore? || c.CreateComponent?)
  {
    ExecuteCallsPrefix(s5, prov);
    var calls := Execute(s5, prov).calls;
    forall k | 0 <= k < |calls|
      ensures !(calls[k].CreatePubSub? || calls[k].CheckKvStoreExists? || calls[k].CreateKvStore? || calls[k].CreateComponent?)
    {
      assert Invokes(s5)[k] == calls[k];
      if k >= 4 {
        assert AppCalls(apps)[k - 4] == calls[k];
      }
    }
  }

  lemma ApplicationsPartStatuses(s5: seq<Event>, prov: Provisioner)
    requires Execute(s5, prov).failure.Some?
    requires Publishes(s5) == [Starting, EnsuringProject, SelectingProject, LoadingProjectDetails, EnsuringApplications]
    ensures EnsuringServices !in Execute(s5, prov).statuses
  {
    ExecuteStatusesPrefix(s5, prov);
    var t := Execute(s5, prov);
    var published := Publishes(s5);
    forall k | 0 <= k < |t.statuses|
      ensures t.statuses[k] != EnsuringServices
    {
      if k < |t.statuses| - 1 {
        assert t.statuses[k] == t.statuses[..|t.statuses| - 1][k] == published[k];
      }
    }
  }

  // ---------------------------------------------------------------------------
  // Facts the step-by-step orchestrator relies on

  /** The identity cell of application `j` after a run that loaded the project details. */
  function AppCell(apps: seq<Resource>, j: nat, prov: Provisioner): Deferred.Cell<AppDetails>
    requires j < |apps|
  {
    if AppsProvisionedThrough(apps, j, prov) then Deferred.Resolved(prov.getAppDetails(apps[j].name).value) else Deferred.Pending
  }

  /** Once a phase of the project's part of the plan throws, the rest of that part never runs. */
  lemma HeadHalts(project: string, prov: Provisioner)
    ensures var q2 := [Publish(Starting)] + InitEvents();
      var q3 := q2 + EnsureProjectEvents(project);
      var q4 := q3 + SelectProjectEvents(project);
      && HeadEvents(project) == q4 + LoadDetailsEvents(project)
      && (Execute(q2, prov).failure.Some? ==> Execute(HeadEvents(project), prov) == Execute(q2, prov))
      && (Execute(q3, prov).failure.Some? ==> Execute(HeadEvents(project), prov) == Execute(q3, prov))
      && (Execute(q4, prov).failure.Some? ==> Execute(HeadEvents(project), prov) == Execute(q4, prov))
  {
    var q2 := [Publish(Starting)] + InitEvents();
    var q3 := q2 + EnsureProjectEvents(project);
    var q4 := q3 + SelectProjectEvents(project);
    ExecuteAppend(q2, EnsureProjectEvents(project), prov);
    ExecuteAppend(q3, SelectProjectEvents(project), prov);
    ExecuteAppend(q4, LoadDetailsEvents(project), prov);
  }

  /** Once a phase of the plan throws, no later phase runs. */
  lemma PlanHalts(project: string, apps: seq<Resource>, pubSubs: Dict<string, PubSubDescriptor>,
                  kvStores: Dict<string, KvStoreDescriptor>, components: Dict<string, ComponentDescriptor>,
                  prov: Provisioner)
    ensures var q5 := HeadEvents(project);
      var q6 := q5 + ApplicationsEvents(apps);
      var q7 := q6 + ServicesEvents(pubSubs, kvStores, project, prov);
      var q8 := q7 + ComponentsEvents(components, project);
      var plan := Plan(project, apps, pubSubs, kvStores, components, prov);
      && plan == q8 + CompleteEvents()
      && (Execute(q5, prov).failure.Some? ==> Execute(plan, prov) == Execute(q5, prov))
      && (Execute(q6, prov).failure.Some? ==> Execute(plan, prov) == Execute(q6, prov))
      && (Execute(q7, prov).failure.Some? ==> Execute(plan, prov) == Execute(q7, prov))
      && (Execute(q8, prov).failure.Some? ==> Execute(plan, prov) == Execute(q8, prov))
  {
    var q5 := HeadEvents(project);
    var q6 := q5 + ApplicationsEvents(apps);
    var q7 := q6 + ServicesEvents(pubSubs, kvStores, project, prov);
    var q8 := q7 + ComponentsEvents(components, project);
    assert Plan(project, apps, pubSubs, kvStores, components, prov) == q8 + CompleteEvents();
    ExecuteAppend(q5, ApplicationsEvents(apps), prov);
    ExecuteAppend(q6, ServicesEvents(pubSubs, kvStores, project, prov), prov);
    ExecuteAppend(q7, ComponentsEvents(components, project), prov);
    ExecuteAppend(q8, CompleteEvents(), prov);
  }

  /** Running a status update, then a call. */
  lemma ExecutePublishThenCall(s: Status, c: Call, prov: Provisioner)
    ensures Execute([Publish(s), Invoke(c)], prov)
         == if prov.Answer(c).Fail? then Trace([c], [s, FailedToStart], Some(prov.Answer(c).error)) else Trace([c], [s], None)
  {
    assert [Publish(s), Invoke(c)] == [Publish(s)] + [Invoke(c)];
    ExecuteAppend([Publish(s)], [Invoke(c)], prov);
    ExecuteOne(Publish(s), prov);
    ExecuteOne(Invoke(c), prov);
  }

  /** Extending a run that has not thrown by one event. */
  lemma ExecuteSnoc(done: seq<Event>, e: Event, prov: Provisioner)
    requires Execute(done, prov).failure.None?
    ensures Execute(done + [e], prov) == Then(Execute(done, prov), Execute([e], prov))
    ensures Execute([e], prov) ==
      if e.Publish? then Trace([], [e.status], None)
      else if prov.Answer(e.call).Fail? then Trace([e.call], [FailedToStart], Some(prov.Answer(e.call).error))
      else Trace([e.call], [], None)
  {
    ExecuteAppend(done, [e], prov);
    ExecuteOne(e, prov);
  }

  /** The items up to `i + 1` are the items up to `i`, then item `i`. */
  lemma FlatMapStep<T>(s: seq<T>, i: nat, f: T -> seq<Event>)
    requires i < |s|
    ensures FlatMap(s[..i + 1], f) == FlatMap(s[..i], f) + f(s[i])
  {
    assert s[..i + 1][..i] == s[..i];
  }

  /** The events of all items, split around item `i`. */
  lemma FlatMapSplit<T>(s: seq<T>, i: nat, f: T -> seq<Event>)
    requires i < |s|
    ensures FlatMap(s, f) == FlatMap(s[..i], f) + f(s[i]) + FlatMap(s[i + 1..], f)
  {
    assert s == s[..i + 1] + s[i + 1..];
    FlatMapAppend(s[..i + 1], s[i + 1..], f);
    FlatMapStep(s, i, f);
  }

  /** The plan of the applications phase around application `i`, as the loop walks it. */
  lemma AppEventsAt(apps: seq<Resource>, i: nat)
    requires i < |apps|
    ensures var head := [Publish(EnsuringApplications)] + AppEvents(apps[..i]);
      && head + AppItem(apps[i]) == [Publish(EnsuringApplications)] + AppEvents(apps[..i + 1])
      && ApplicationsEvents(apps) == (head + AppItem(apps[i])) + AppEvents(apps[i + 1..])
  {
    FlatMapSplit(apps, i, AppItem);
    FlatMapStep(apps, i, AppItem);
  }

  /** The plan of the kv-store loop around kv-store `i`, as the loop walks it. */
  lemma KvEventsAt(kvStores: Dict<string, KvStoreDescriptor>, i: nat, project: string, prov: Provisioner)
    requires i < |kvStores|
    ensures KvEvents(kvStores[..i + 1], project, prov) == KvEvents(kvStores[..i], project, prov) + KvItem(kvStores[i], project, prov)
    ensures KvEvents(kvStores, project, prov)
         == KvEvents(kvStores[..i], project, prov) + KvItem(kvStores[i], project, prov) + KvEvents(kvStores[i + 1..], project, prov)
  {
    FlatMapSplit(kvStores, i, entry => KvItem(entry, project, prov));
    FlatMapStep(kvStores, i, entry => KvItem(entry, project, prov));
  }

  /** The plan of the components phase around component `i`, as the loop walks it. */
  lemma ComponentEventsAt(components: Dict<string, ComponentDescriptor>, i: nat, project: string)
    requires i < |components|
    ensures var head := [Publish(EnsuringComponents)] + ComponentEvents(components[..i], project);
      && head + ComponentItem(components[i], project) == [Publish(EnsuringComponents)] + ComponentEvents(components[..i + 1], project)
      && ComponentsEvents(components, project) == head + ComponentItem(components[i], project) + ComponentEvents(components[i + 1..], project)
  {
    FlatMapSplit(components, i, entry => ComponentItem(entry, project));
    FlatMapStep(components, i, entry => ComponentItem(entry, project));
  }
}
