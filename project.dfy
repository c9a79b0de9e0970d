/**
 * The Catalyst project resource: the state that declaration calls fill in and
 * the provisioning run reads and resolves.
 */
module Project {
  import opened Model
  import opened Dictionaries
  import opened Deferred

  /** The prefix that turns a Catalyst project name into a host resource label. */
  const NamePrefix: string := "catalyst-"

  class CatalystProject {
    /** The project's name in Catalyst; set at construction and never changed. */
    const projectName: string

    /** Endpoint cells, resolved once the project's details are loaded. */
    var httpEndpoint: Cell<string>
    var grpcEndpoint: Cell<string>

    /** One identity cell per application resource that opted in, in registration order. */
    var appDetails: Dict<Resource, Cell<AppDetails>>

    var pubSubs: Dict<string, PubSubDescriptor>
    var kvStores: Dict<string, KvStoreDescriptor>
    var components: Dict<string, ComponentDescriptor>
    var subscriptions: Dict<string, SubscriptionDescriptor>

    /** The resource's label in the host: the Catalyst name behind a fixed prefix. */
    function Name(): (n: string)
      ensures |n| == |NamePrefix| + |projectName|
      ensures n[..|NamePrefix|] == NamePrefix && n[|NamePrefix|..] == projectName
    {
      NamePrefix + projectName
    }

    /**
     * Every dictionary has unique keys, and pub/sub and kv-store names share
     * one namespace.
     */
    ghost predicate Valid()
      reads this
    {
      && DistinctKeys(appDetails)
      && DistinctKeys(pubSubs)
      && DistinctKeys(kvStores)
      && DistinctKeys(components)
      && DistinctKeys(subscriptions)
      && DisjointKeys(pubSubs, kvStores)
    }

    /** `new CatalystProject { ProjectName = projectName }`. */
    constructor (projectName: string)
      ensures this.projectName == projectName
      ensures httpEndpoint == Pending && grpcEndpoint == Pending
      ensures appDetails == [] && pubSubs == [] && kvStores == []
      ensures components == [] && subscriptions == []
      ensures Valid()
    {
      this.projectName := projectName;
      httpEndpoint := Pending;
      grpcEndpoint := Pending;
      appDetails := [];
      pubSubs := [];
      kvStores := [];
      components := [];
      subscriptions := [];
    }
  }

  /** Only the subscriptions of `p` changed. */
  twostate predicate OnlySubscriptionsChanged(p: CatalystProject)
    reads p
  {
    && p.httpEndpoint == old(p.httpEndpoint)
    && p.grpcEndpoint == old(p.grpcEndpoint)
    && p.appDetails == old(p.appDetails)
    && p.pubSubs == old(p.pubSubs)
    && p.kvStores == old(p.kvStores)
    && p.components == old(p.components)
  }

  /** Two projects with the same host label have the same Catalyst name. */
  lemma NameDeterminesProjectName(a: CatalystProject, b: CatalystProject)
    requires a.Name() == b.Name()
    ensures a.projectName == b.projectName
  {
    assert a.projectName == a.Name()[|NamePrefix|..];
  }
}
