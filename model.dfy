/**
 * Passive data of the Catalyst integration: the descriptors a project collects,
 * the host resources it is attached to, the records the provisioner returns,
 * and the exceptions the modelled code throws.
 */
module Model {
  import opened Wrappers

  /** Component metadata after JSON normalisation; `None` is a JSON null. */
  type Metadata = map<string, Option<string>>

  /** A Catalyst-managed pub/sub service: owning project and authorised app ids. */
  datatype PubSubDescriptor = PubSubDescriptor(project: string, scopes: seq<string>)

  /** A Catalyst-managed key-value store: owning project and authorised app ids. */
  datatype KvStoreDescriptor = KvStoreDescriptor(project: string, scopes: seq<string>)

  /** A Dapr component: name, type tag, authorised app ids and flat metadata. */
  datatype ComponentDescriptor =
    ComponentDescriptor(name: string, componentType: string, scopes: seq<string>, metadata: Metadata)

  /** A topic subscription (Model/SubscriptionDescriptor.cs). */
  datatype SubscriptionDescriptor =
    SubscriptionDescriptor(name: string, component: string, topic: string, route: string, scopes: seq<string>)

  /** The identity the provisioner issues for one application; only the token is read. */
  datatype AppDetails = AppDetails(apiToken: string)

  /** The endpoints reported for a project, already rendered as strings. */
  datatype ProjectDetails = ProjectDetails(httpEndpoint: string, grpcEndpoint: string)

  /** One endpoint of a host resource; the port is an opaque, late-bound expression. */
  datatype Endpoint = Endpoint(isHttp: bool, port: string)

  /** A host resource that may opt into Catalyst; its identity is its value. */
  datatype Resource = Resource(name: string, endpoints: seq<Endpoint>)

  /** The exceptions thrown by the modelled code. */
  datatype Error =
    | ServiceNameNotUnique
    | NoCatalystProject
    | AmbiguousCatalystProject
    | NotAssociated
    | MissingProjectResource
    | DuplicateKey(key: string)
    | DuplicateResourceName(name: string)
    | KeyNotFound
    | NoMatchingProject
    | SeveralMatchingProjects
    | ProvisionerFailed(message: string)
  {
    /**
     * The message of each exception: the texts the source writes itself, the
     * texts .NET's dictionary and `Single` use for the exceptions they throw on
     * its behalf, and the provisioner's own message.
     */
    function Message(): string
    {
      match this
      case ServiceNameNotUnique => "Catalyst service names must be unique."
      case NoCatalystProject => "Remember to configure your Catalyst project by calling AddCatalystProject."
      case AmbiguousCatalystProject =>
        "Your Aspire orchestration has multiple Catalyst projects configured. Please specify which one to use when calling WithCatalyst."
      case NotAssociated => "This resource is not associated with a Catalyst project."
      case MissingProjectResource => "This project is missing a Catalyst project resource."
      case DuplicateKey(key) => "An item with the same key has already been added. Key: " + key
      case DuplicateResourceName(name) =>
        "Cannot add resource with name '" + name + "' because a resource with that name already exists. Resource names are case-insensitive."
      case KeyNotFound => "The given key was not present in the dictionary."
      case NoMatchingProject => "Sequence contains no matching element"
      case SeveralMatchingProjects => "Sequence contains more than one matching element"
      case ProvisionerFailed(message) => message
    }
  }
}
