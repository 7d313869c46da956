/**
 * The Kubernetes objects and application fields the comparison engine reads,
 * reduced to what the decision rules of controller/state.go inspect.
 */
module Resources {
  import opened Wrappers

  datatype GroupKind = GroupKind(group: string, kind: string)

  /** Labels and annotations: where tracking metadata and sync options live. */
  datatype Metadata = Metadata(labels: map<string, string>, annotations: map<string, string>)

  /** An unstructured object as rendered from a manifest or read from the cluster. */
  datatype Obj = Obj(
    group: string,
    version: string,
    kind: string,
    namespace: string,
    name: string,
    generateName: string,
    resourceVersion: string,
    meta: Metadata)
  {
    function GroupKindOf(): GroupKind { GroupKind(group, kind) }

    /** The text of a GroupVersionKind: "group/version, Kind=kind". */
    function GvkString(): string { group + "/" + version + ", Kind=" + kind }
  }

  /** The identity objects are paired and deduplicated by (no version). */
  datatype ResourceKey = ResourceKey(group: string, kind: string, namespace: string, name: string)

  function GetResourceKey(o: Obj): (k: ResourceKey)
    ensures k.group == o.group && k.kind == o.kind && k.namespace == o.namespace && k.name == o.name
  {
    ResourceKey(o.group, o.kind, o.namespace, o.name)
  }

  /** The text of a resource key: "group/kind/namespace/name". */
  function KeyString(k: ResourceKey): string
  {
    k.group + "/" + k.kind + "/" + k.namespace + "/" + k.name
  }

  /**
   * What a resource-info provider answers for a group-kind: namespaced,
   * cluster-scoped, or an error (the kind is unknown to the cluster).
   */
  datatype ScopeLookup = Namespaced | ClusterScoped | LookupFailed

  /** A kind counts as namespaced unless the provider says, without error, that it is not. */
  predicate IsNamespacedOrUnknown(info: GroupKind -> ScopeLookup, gk: GroupKind)
  {
    info(gk) != ClusterScoped
  }

  /** The provider used when the cluster cache cannot be reached: every kind is cluster-scoped. */
  function StubProvider(gk: GroupKind): ScopeLookup
  {
    ClusterScoped
  }

  datatype ManagedNamespaceMetadata = ManagedNamespaceMetadata(labels: map<string, string>, annotations: map<string, string>)

  datatype SyncPolicy = SyncPolicy(managedNamespaceMetadata: Option<ManagedNamespaceMetadata>)

  /** The application fields the decision rules read. */
  datatype App = App(name: string, destNamespace: string, syncPolicy: Option<SyncPolicy>)

  const NamespaceKind := "Namespace"

  /**
   * A Namespace object named after the destination namespace, in an application
   * whose sync policy carries managed-namespace metadata.
   */
  predicate IsManagedNamespace(ns: Option<Obj>, app: App)
  {
    && ns.Some?
    && ns.value.kind == NamespaceKind
    && ns.value.name == app.destNamespace
    && app.syncPolicy.Some?
    && app.syncPolicy.value.managedNamespaceMetadata.Some?
  }

  /**
   * What isManagedNamespace decides on: only the object's kind and name (not
   * its group, namespace or metadata), the destination namespace, and whether
   * managed-namespace metadata is configured at all. Without it nothing is the
   * managed namespace, and with it exactly the Namespace objects named after
   * the destination namespace are.
   */
  lemma ManagedNamespaceRule(o: Obj, other: Obj, app: App)
    ensures !IsManagedNamespace(None, app)
    ensures app.syncPolicy.None? || app.syncPolicy.value.managedNamespaceMetadata.None? ==> !IsManagedNamespace(Some(o), app)
    ensures app.syncPolicy.Some? && app.syncPolicy.value.managedNamespaceMetadata.Some? ==>
              (IsManagedNamespace(Some(o), app) <==> o.kind == NamespaceKind && o.name == app.destNamespace)
    ensures o.kind == other.kind && o.name == other.name ==>
              (IsManagedNamespace(Some(o), app) <==> IsManagedNamespace(Some(other), app))
    ensures IsManagedNamespace(Some(o), app) && IsManagedNamespace(Some(other), app) ==> o.name == other.name
  {
  }

  /** A declared application source. Chart-style and registry-style decided by the source's own helpers. */
  datatype Source = Source(repoURL: string, targetRevision: string, isHelm: bool, isOCI: bool)

  /** The part of a repo-server manifest response the engine reads. */
  datatype ManifestResponse = ManifestResponse(
    manifests: seq<string>,
    revision: string,
    sourceType: string,
    verifyResult: string)
}
