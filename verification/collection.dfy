/**
  A workload collection: a custom resource that owns component workloads, may
  declare manifests of its own, and merges every component's spec fields into
  its own list.
 */
module Collection {
  import opened Wrappers
  import opened Names
  import opened Cli
  import opened SpecFields
  import opened WorkloadTypes

  const DefaultSubcommandName := "collection"
  const DefaultSubcommandDescription := DescriptionTemplate("Manage ", " workload")
  const DefaultRootcommandDescription := DescriptionTemplate("Manage ", " collection and components")

  /** Path reported when the domain is missing. */
  const DomainPath := "spec.api.domain"

  datatype CollectionSpec = CollectionSpec(
    api: APISpec,
    companionCliRootcmd: CliCommand,
    companionCliSubcmd: CliCommand,
    components: seq<ComponentWorkload>,
    resources: seq<string>,
    apiSpecFields: seq<APISpecField>,
    sourceFiles: seq<SourceFile>,
    rbacRules: seq<RBACRule>,
    ownershipRules: seq<OwnershipRule>)

  datatype WorkloadCollection = WorkloadCollection(shared: WorkloadShared, spec: CollectionSpec)

  // Validation.

  /** Reports every missing required field at once, or nothing when all are set. */
  function Validate(c: WorkloadCollection): (r: Option<WorkloadError>)
    ensures r.None? <==>
      c.shared.name != "" && c.spec.api.domain != "" && c.spec.api.group != ""
      && c.spec.api.version != "" && c.spec.api.kind != ""
    ensures r.Some? ==> r.value == MissingRequiredFields(EmptyLabels(RequiredFields(c.shared.name, c.spec.api, DomainPath)))
  {
    CheckRequired(c.shared.name, c.spec.api, DomainPath)
  }

  /** A failed validation names each missing field, and only those. */
  lemma ValidateNamesExactlyTheMissing(c: WorkloadCollection)
    requires Validate(c).Some?
    ensures var m := Validate(c).value.fields;
      && ("name" in m <==> c.shared.name == "")
      && ("spec.api.domain" in m <==> c.spec.api.domain == "")
      && ("spec.api.group" in m <==> c.spec.api.group == "")
      && ("spec.api.version" in m <==> c.spec.api.version == "")
      && ("spec.api.kind" in m <==> c.spec.api.kind == "")
      && 0 < |m| <= 5
  {
    CheckRequiredReportsExactly(c.shared.name, c.spec.api, DomainPath);
  }

  /** With nothing set, all five paths are reported, in the fixed order. */
  lemma ValidateEmptyExample(c: WorkloadCollection)
    requires c.shared.name == "" && c.spec.api == APISpec("", "", "", "", false)
    ensures Validate(c) == Some(MissingRequiredFields(
      ["name", "spec.api.domain", "spec.api.group", "spec.api.version", "spec.api.kind"]))
  {
    var fs := RequiredFields(c.shared.name, c.spec.api, DomainPath);
    EmptyLabelsSpec(fs);
    assert EmptyLabels(fs) == ["name", DomainPath, "spec.api.group", "spec.api.version", "spec.api.kind"];
    assert Validate(c).Some?;
  }

  // Resources and spec fields.

  /**
    The component loop: process each component's manifests in turn and merge
    its spec fields into `fields`, stopping at the first processing error.
   */
  function MergeComponentFields(process: MarkerProcessor, comps: seq<ComponentWorkload>, fields: seq<APISpecField>)
    : (r: Result<seq<APISpecField>, string>)
    ensures r.Ok? <==> forall k :: 0 <= k < |comps| ==> ProcessComponent(process, comps[k]).Ok?
    ensures r.Ok? ==> |fields| <= |r.value| && forall i :: 0 <= i < |fields| ==> SameButDocs(r.value[i], fields[i])
    ensures r.Err? ==> exists k :: (
      && 0 <= k < |comps|
      && ProcessComponent(process, comps[k]) == Err(r.error)
      && forall j :: 0 <= j < k ==> ProcessComponent(process, comps[j]).Ok?)
    decreases |comps|
  {
    if |comps| == 0 then Ok(fields)
    else
      match ProcessComponent(process, comps[0])
      case Err(e) => Err(e)
      case Ok(results) =>
        MergeFieldsShape(fields, results.specFields);
        MergeComponentFields(process, comps[1..], MergeFields(fields, results.specFields))
  }

  /** Every component's spec fields, in component order, or the error of the
      first component whose processing fails. */
  function ComponentFieldLists(process: MarkerProcessor, comps: seq<ComponentWorkload>)
    : (r: Result<seq<seq<APISpecField>>, string>)
    ensures r.Ok? <==> forall k :: 0 <= k < |comps| ==> ProcessComponent(process, comps[k]).Ok?
    ensures r.Ok? ==> (
      && |r.value| == |comps|
      && forall k :: 0 <= k < |comps| ==> r.value[k] == ProcessComponent(process, comps[k]).value.specFields)
    ensures r.Err? ==> exists k :: (
      && 0 <= k < |comps|
      && ProcessComponent(process, comps[k]) == Err(r.error)
      && forall j :: 0 <= j < k ==> ProcessComponent(process, comps[j]).Ok?)
    decreases |comps|
  {
    if |comps| == 0 then Ok([])
    else
      match ProcessComponent(process, comps[0])
      case Err(e) => Err(e)
      case Ok(results) =>
        match ComponentFieldLists(process, comps[1..])
        case Err(e) => Err(e)
        case Ok(rest) => Ok([results.specFields] + rest)
  }

  function Flatten(lists: seq<seq<APISpecField>>): seq<APISpecField> {
    if |lists| == 0 then [] else lists[0] + Flatten(lists[1..])
  }

  /** The component loop merges the concatenation of all component fields, or
      fails with the first component error. */
  lemma {:induction false} MergeComponentFieldsSpec(process: MarkerProcessor, comps: seq<ComponentWorkload>, fields: seq<APISpecField>)
    ensures var lists := ComponentFieldLists(process, comps);
      && (lists.Err? ==> MergeComponentFields(process, comps, fields) == Err(lists.error))
      && (lists.Ok? ==> MergeComponentFields(process, comps, fields) == Ok(MergeFields(fields, Flatten(lists.value))))
    decreases |comps|
  {
    if |comps| > 0 {
      match ProcessComponent(process, comps[0])
      case Err(e) =>
      case Ok(results) =>
        var fields' := MergeFields(fields, results.specFields);
        MergeComponentFieldsSpec(process, comps[1..], fields');
        var lists := ComponentFieldLists(process, comps);
        if lists.Ok? {
          var rest := ComponentFieldLists(process, comps[1..]).value;
          assert lists.value == [results.specFields] + rest;
          assert lists.value[1..] == rest;
          MergeFieldsConcat(fields, results.specFields, Flatten(rest));
        }
    }
  }

  /** The collection with marker results stored, spec fields aside. */
  function StoreResults(c: WorkloadCollection, results: MarkerResults): WorkloadCollection {
    c.(spec := c.spec.(
      sourceFiles := results.sourceFiles,
      rbacRules := results.rbacRules,
      ownershipRules := results.ownershipRules))
  }

  /**
    Processes the collection's own manifests, stores their source files, RBAC
    rules and ownership rules, then merges every component's spec fields into
    the collection's own. A failure on the collection's manifests changes
    nothing; a failure on a component leaves the stored results in place but
    keeps the old spec fields.
   */
  function SetResources(c: WorkloadCollection, workloadPath: string, process: MarkerProcessor): (r: Mutation<WorkloadCollection>)
    ensures var own := process(workloadPath, c.spec.resources, true, true);
      own.Err? ==> r == Mutation(c, Some(MarkerFailure(own.error)))
    ensures var own := process(workloadPath, c.spec.resources, true, true);
      var lists := ComponentFieldLists(process, c.spec.components);
      own.Ok? && lists.Err? ==>
        && r.error == Some(MarkerFailure(lists.error))
        && r.state.shared == c.shared
        && r.state.spec == c.spec.(sourceFiles := own.value.sourceFiles, rbacRules := own.value.rbacRules,
                                   ownershipRules := own.value.ownershipRules)
    ensures var own := process(workloadPath, c.spec.resources, true, true);
      var lists := ComponentFieldLists(process, c.spec.components);
      own.Ok? && lists.Ok? ==>
        && r.error == None
        && r.state.shared == c.shared
        && r.state.spec == c.spec.(sourceFiles := own.value.sourceFiles, rbacRules := own.value.rbacRules,
                                   ownershipRules := own.value.ownershipRules,
                                   apiSpecFields := MergeFields(own.value.specFields, Flatten(lists.value)))
  {
    match process(workloadPath, c.spec.resources, true, true)
    case Err(e) => Mutation(c, Some(MarkerFailure(e)))
    case Ok(own) =>
      var stored := StoreResults(c, own);
      MergeComponentFieldsSpec(process, c.spec.components, own.specFields);
      match MergeComponentFields(process, c.spec.components, own.specFields)
      case Err(e) => Mutation(stored, Some(MarkerFailure(e)))
      case Ok(fields) => Mutation(stored.(spec := stored.spec.(apiSpecFields := fields)), None)
  }

  /** After a successful SetResources, the spec fields start with the collection's
      own fields and contain every component field name exactly once when the
      collection's own names are distinct. */
  lemma SetResourcesSpecFields(c: WorkloadCollection, workloadPath: string, process: MarkerProcessor)
    requires process(workloadPath, c.spec.resources, true, true).Ok?
    requires ComponentFieldLists(process, c.spec.components).Ok?
    ensures var own := process(workloadPath, c.spec.resources, true, true).value.specFields;
      var incoming := Flatten(ComponentFieldLists(process, c.spec.components).value);
      var fields := SetResources(c, workloadPath, process).state.spec.apiSpecFields;
      && |own| <= |fields|
      && (forall i :: 0 <= i < |own| ==> SameButDocs(fields[i], own[i]))
      && NameSet(fields) == NameSet(own) + NameSet(incoming)
      && (UniqueNames(own) ==> UniqueNames(fields))
  {
    var own := process(workloadPath, c.spec.resources, true, true).value.specFields;
    var incoming := Flatten(ComponentFieldLists(process, c.spec.components).value);
    MergeFieldsShape(own, incoming);
    MergeFieldsNames(own, incoming);
    if UniqueNames(own) {
      MergeFieldsUnique(own, incoming);
    }
  }

  // Components.

  /** Replaces the component list; this never fails on a collection. */
  function SetComponents(c: WorkloadCollection, comps: seq<ComponentWorkload>): (r: Mutation<WorkloadCollection>)
    ensures r.error == None
    ensures GetComponents(r.state) == comps
    ensures r.state.shared == c.shared && r.state.spec.(components := c.spec.components) == c.spec
  {
    Mutation(c.(spec := c.spec.(components := comps)), None)
  }

  function GetComponents(c: WorkloadCollection): seq<ComponentWorkload> {
    c.spec.components
  }

  /** Dependencies belong to components; a collection reports none. */
  function GetDependencies(c: WorkloadCollection): (r: seq<ComponentWorkload>)
    ensures |r| == 0
  {
    []
  }

  /** The collection reports no ownership rules of its own, whatever it stored. */
  function GetOwnershipRules(c: WorkloadCollection): (r: seq<OwnershipRule>)
    ensures |r| == 0
  {
    []
  }

  /** Ownership rules stored by SetResources are not reported by the getter. */
  lemma OwnershipRulesNotReported(c: WorkloadCollection, workloadPath: string, process: MarkerProcessor)
    requires process(workloadPath, c.spec.resources, true, true).Ok?
    ensures var r := SetResources(c, workloadPath, process).state;
      r.spec.ownershipRules == process(workloadPath, c.spec.resources, true, true).value.ownershipRules
      && GetOwnershipRules(r) == []
  {
  }

  predicate HasChildResources(c: WorkloadCollection) {
    |c.spec.resources| > 0
  }

  predicate IsStandalone(c: WorkloadCollection) { false }

  predicate IsComponent(c: WorkloadCollection) { false }

  predicate IsCollection(c: WorkloadCollection) { true }

  /** The kubebuilder resource for the collection's own API under `domain` and `repo`. */
  function GetComponentResource(c: WorkloadCollection, domain: string, repo: string, clusterScoped: bool): (r: Resource)
    ensures r.api.Some? && r.api.value.crdVersion == "v1"
    ensures r.api.value.namespaced <==> !clusterScoped
    ensures r.controller
    ensures r.gvk == GVK(domain, c.spec.api.group, c.spec.api.version, c.spec.api.kind)
    ensures r.path == repo + "/apis/" + c.spec.api.group + "/" + c.spec.api.version
  {
    var namespaced := if clusterScoped then false else true;
    Resource(
      GVK(domain, c.spec.api.group, c.spec.api.version, c.spec.api.kind),
      repo + "/apis/" + c.spec.api.group + "/" + c.spec.api.version,
      Some(ResourceAPI("v1", namespaced)),
      true)
  }

  // Names and CLI commands.

  /**
    Derives the package name, and when a root command name is set fills the
    root command's values and the collection subcommand's, naming the
    subcommand "collection" when it has no name.
   */
  function SetNames(c: WorkloadCollection): (r: WorkloadCollection)
    ensures r.shared == c.shared.(packageName := ToPackageName(c.shared.name))
    ensures !HasName(c.spec.companionCliRootcmd) ==> r.spec == c.spec
    ensures HasName(c.spec.companionCliRootcmd) ==>
      var root, root' := c.spec.companionCliRootcmd, r.spec.companionCliRootcmd;
      && r.spec.(companionCliRootcmd := root, companionCliSubcmd := c.spec.companionCliSubcmd) == c.spec
      && root'.name == root.name
      && root'.description == (if HasDescription(root) then root.description
                               else "Manage " + ToLower(c.spec.api.kind) + " collection and components")
      && root'.varName == Capitalize(root.name)
      && root'.fileName == root.name
    ensures HasName(c.spec.companionCliRootcmd) ==>
      var sub, sub' := c.spec.companionCliSubcmd, r.spec.companionCliSubcmd;
      var subName := if HasName(sub) then sub.name else "collection";
      && sub'.name == subName
      && sub'.description == (if HasDescription(sub) then sub.description
                              else "Manage " + ToLower(c.spec.api.kind) + " workload")
      && sub'.varName == Capitalize(subName)
      && sub'.fileName == subName
  {
    var named := c.(shared := c.shared.(packageName := ToPackageName(c.shared.name)));
    if !HasName(c.spec.companionCliRootcmd) then named
    else
      var kind := c.spec.api.kind;
      var root := SetCommonValues(c.spec.companionCliRootcmd, kind, DefaultRootcommandDescription);
      var sub := c.spec.companionCliSubcmd;
      var sub' := if !HasName(sub) then sub.(name := DefaultSubcommandName) else sub;
      named.(spec := named.spec.(
        companionCliRootcmd := root,
        companionCliSubcmd := SetSubCommandValues(sub', kind, DefaultSubcommandDescription)))
  }

  /** Naming twice is naming once. */
  lemma SetNamesIdempotent(c: WorkloadCollection)
    ensures SetNames(SetNames(c)) == SetNames(c)
  {
    var r := SetNames(c);
    if HasName(c.spec.companionCliRootcmd) {
      SetCommonValuesIdempotent(c.spec.companionCliRootcmd, c.spec.api.kind, DefaultRootcommandDescription);
    }
  }

  /** The subcommands of the named components, in component order. */
  function NamedSubcommands(comps: seq<ComponentWorkload>): (r: seq<CliCommand>)
    ensures |r| <= |comps|
    ensures forall i :: 0 <= i < |r| ==> HasName(r[i])
    ensures forall k :: 0 <= k < |comps| && ComponentHasSubCmdName(comps[k]) ==> comps[k].companionCliSubcmd in r
    ensures forall cmd :: cmd in r ==> exists k :: 0 <= k < |comps| && comps[k].companionCliSubcmd == cmd
    decreases |comps|
  {
    if |comps| == 0 then []
    else
      var rest := NamedSubcommands(comps[1..]);
      if ComponentHasSubCmdName(comps[0]) then [comps[0].companionCliSubcmd] + rest else rest
  }

  /** Filtering the named subcommands keeps component order: it distributes over
      concatenation. */
  lemma {:induction false} NamedSubcommandsAppend(a: seq<ComponentWorkload>, b: seq<ComponentWorkload>)
    ensures NamedSubcommands(a + b) == NamedSubcommands(a) + NamedSubcommands(b)
    decreases |a|
  {
    if |a| == 0 {
      assert a + b == b;
    } else {
      assert (a + b)[0] == a[0];
      assert (a + b)[1..] == a[1..] + b;
      NamedSubcommandsAppend(a[1..], b);
    }
  }

  /**
    The collection's own subcommand comes first exactly when the collection has
    manifests of its own; the subcommands of its named components follow, in
    component order.
   */
  function GetSubcommands(c: WorkloadCollection): (r: seq<CliCommand>)
    ensures var offset := if HasChildResources(c) then 1 else 0;
      && |r| == offset + |NamedSubcommands(c.spec.components)|
      && (HasChildResources(c) ==> r[0] == c.spec.companionCliSubcmd)
      && r[offset..] == NamedSubcommands(c.spec.components)
  {
    var own := if HasChildResources(c) then [c.spec.companionCliSubcmd] else [];
    own + NamedSubcommands(c.spec.components)
  }
}
