/**
  The workload interface over both variants: a tagged sum of a standalone
  workload and a workload collection, with each operation dispatched to the
  variant's own definition.
 */
module Workload {
  import opened Wrappers
  import opened Cli
  import opened SpecFields
  import opened WorkloadTypes
  import C = Collection
  import S = Standalone

  datatype Workload =
    | StandaloneVariant(standalone: S.StandaloneWorkload)
    | CollectionVariant(collection: C.WorkloadCollection)

  predicate IsStandalone(w: Workload) {
    match w
    case StandaloneVariant(s) => S.IsStandalone(s)
    case CollectionVariant(c) => C.IsStandalone(c)
  }

  predicate IsCollection(w: Workload) {
    match w
    case StandaloneVariant(s) => S.IsCollection(s)
    case CollectionVariant(c) => C.IsCollection(c)
  }

  predicate IsComponent(w: Workload) {
    match w
    case StandaloneVariant(s) => S.IsComponent(s)
    case CollectionVariant(c) => C.IsComponent(c)
  }

  function Name(w: Workload): string {
    match w
    case StandaloneVariant(s) => s.shared.name
    case CollectionVariant(c) => c.shared.name
  }

  function PackageName(w: Workload): string {
    match w
    case StandaloneVariant(s) => s.shared.packageName
    case CollectionVariant(c) => c.shared.packageName
  }

  function API(w: Workload): APISpec {
    match w
    case StandaloneVariant(s) => s.spec.api
    case CollectionVariant(c) => c.spec.api
  }

  function Resources(w: Workload): seq<string> {
    match w
    case StandaloneVariant(s) => s.spec.resources
    case CollectionVariant(c) => c.spec.resources
  }

  /** Each variant answers exactly one of the three variant questions, and it is
      the one its tag names. */
  lemma ExactlyOneVariantFlag(w: Workload)
    ensures (if IsStandalone(w) then 1 else 0) + (if IsCollection(w) then 1 else 0)
          + (if IsComponent(w) then 1 else 0) == 1
    ensures IsStandalone(w) <==> w.StandaloneVariant?
    ensures IsCollection(w) <==> w.CollectionVariant?
  {
  }

  function Validate(w: Workload): Option<WorkloadError> {
    match w
    case StandaloneVariant(s) => S.Validate(s)
    case CollectionVariant(c) => C.Validate(c)
  }

  /** The path each variant reports for a missing domain. */
  function DomainPath(w: Workload): string {
    if w.StandaloneVariant? then S.DomainPath else C.DomainPath
  }

  /** Both variants validate in batch: there is an error exactly when a required
      field is empty, and it lists the paths of all empty fields in the fixed
      order; only the domain's path differs between the variants. */
  lemma ValidateIsBatch(w: Workload)
    ensures var api := API(w);
      Validate(w).None? <==>
        Name(w) != "" && api.domain != "" && api.group != "" && api.version != "" && api.kind != ""
    ensures Validate(w).Some? ==>
      Validate(w).value == MissingRequiredFields(EmptyLabels(RequiredFields(Name(w), API(w), DomainPath(w))))
    ensures DomainPath(w) == (if w.StandaloneVariant? then "spec.domain" else "spec.api.domain")
  {
  }

  function SetResources(w: Workload, workloadPath: string, process: MarkerProcessor): Mutation<Workload> {
    match w
    case StandaloneVariant(s) =>
      var m := S.SetResources(s, workloadPath, process);
      Mutation(StandaloneVariant(m.state), m.error)
    case CollectionVariant(c) =>
      var m := C.SetResources(c, workloadPath, process);
      Mutation(CollectionVariant(m.state), m.error)
  }

  /** A failing marker run on the workload's own manifests leaves either variant
      unchanged; the tag never changes. */
  lemma SetResourcesOwnFailure(w: Workload, workloadPath: string, process: MarkerProcessor)
    ensures SetResources(w, workloadPath, process).state.StandaloneVariant? == w.StandaloneVariant?
    ensures var own := process(workloadPath, Resources(w), w.CollectionVariant?, w.CollectionVariant?);
      own.Err? ==> SetResources(w, workloadPath, process) == Mutation(w, Some(MarkerFailure(own.error)))
  {
  }

  function GetComponents(w: Workload): seq<ComponentWorkload> {
    match w
    case StandaloneVariant(s) => S.GetComponents(s)
    case CollectionVariant(c) => C.GetComponents(c)
  }

  /** Setting components succeeds exactly on collections, where the components
      are then reported back; on a standalone workload it fails and changes nothing. */
  function SetComponents(w: Workload, comps: seq<ComponentWorkload>): (r: Mutation<Workload>)
    ensures r.error.None? <==> w.CollectionVariant?
    ensures r.error.Some? ==> r.state == w && r.error == Some(NoComponentsOnStandalone)
    ensures r.error.None? ==> GetComponents(r.state) == comps
  {
    match w
    case StandaloneVariant(s) =>
      var m := S.SetComponents(s, comps);
      Mutation(StandaloneVariant(m.state), m.error)
    case CollectionVariant(c) =>
      var m := C.SetComponents(c, comps);
      Mutation(CollectionVariant(m.state), m.error)
  }

  function GetDependencies(w: Workload): seq<ComponentWorkload> {
    match w
    case StandaloneVariant(s) => S.GetDependencies(s)
    case CollectionVariant(c) => C.GetDependencies(c)
  }

  /** No variant reports dependencies. */
  lemma NoDependencies(w: Workload)
    ensures GetDependencies(w) == []
  {
  }

  function GetSubcommands(w: Workload): seq<CliCommand> {
    match w
    case StandaloneVariant(s) => S.GetSubcommands(s)
    case CollectionVariant(c) => C.GetSubcommands(c)
  }

  predicate HasChildResources(w: Workload) {
    match w
    case StandaloneVariant(s) => S.HasChildResources(s)
    case CollectionVariant(c) => C.HasChildResources(c)
  }

  /** Both variants have child resources exactly when they list manifests, and
      only a collection with manifests reports its own subcommand. */
  lemma ChildResourcesAndSubcommands(w: Workload)
    ensures HasChildResources(w) <==> |Resources(w)| > 0
    ensures w.StandaloneVariant? ==> GetSubcommands(w) == []
    ensures w.CollectionVariant? && HasChildResources(w) ==>
      GetSubcommands(w)[0] == w.collection.spec.companionCliSubcmd
  {
  }

  function SetNames(w: Workload): Workload {
    match w
    case StandaloneVariant(s) => StandaloneVariant(S.SetNames(s))
    case CollectionVariant(c) => CollectionVariant(C.SetNames(c))
  }

  /** Naming is idempotent on both variants, and the package name depends on the
      name alone. */
  lemma SetNamesIdempotent(w: Workload, v: Workload)
    ensures SetNames(SetNames(w)) == SetNames(w)
    ensures Name(SetNames(w)) == Name(w)
    ensures Name(w) == Name(v) ==> PackageName(SetNames(w)) == PackageName(SetNames(v))
  {
    match w
    case StandaloneVariant(s) => S.SetNamesIdempotent(s);
    case CollectionVariant(c) => C.SetNamesIdempotent(c);
  }

  function GetComponentResource(w: Workload, domain: string, repo: string, clusterScoped: bool): Resource {
    match w
    case StandaloneVariant(s) => S.GetComponentResource(s, domain, repo, clusterScoped)
    case CollectionVariant(c) => C.GetComponentResource(c, domain, repo, clusterScoped)
  }

  /** Only a collection describes a kubebuilder resource for its components; a
      standalone workload answers with the empty resource. */
  lemma ComponentResourceOnlyOnCollections(w: Workload, domain: string, repo: string, clusterScoped: bool)
    ensures GetComponentResource(w, domain, repo, clusterScoped).controller <==> w.CollectionVariant?
    ensures GetComponentResource(w, domain, repo, clusterScoped).api.Some? <==> w.CollectionVariant?
    ensures w.StandaloneVariant? ==> GetComponentResource(w, domain, repo, clusterScoped) == EmptyResource
  {
  }
}
