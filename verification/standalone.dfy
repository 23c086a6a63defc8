/**
  A standalone workload: a custom resource with its own manifests and no
  components. Component and subcommand operations are constant on it, and
  setting components always fails.
 */
module Standalone {
  import opened Wrappers
  import opened Names
  import opened Cli
  import opened SpecFields
  import opened WorkloadTypes

  const DefaultDescription := DescriptionTemplate("Manage ", " workload")

  /** Path reported when the domain is missing; it differs from the collection's. */
  const DomainPath := "spec.domain"

  datatype StandaloneSpec = StandaloneSpec(
    api: APISpec,
    companionCliRootcmd: CliCommand,
    resources: seq<string>,
    apiSpecFields: seq<APISpecField>,
    sourceFiles: seq<SourceFile>,
    rbacRules: seq<RBACRule>,
    ownershipRules: seq<OwnershipRule>)

  datatype StandaloneWorkload = StandaloneWorkload(shared: WorkloadShared, spec: StandaloneSpec)

  // Validation.

  /** Reports every missing required field at once, or nothing when all are set. */
  function Validate(s: StandaloneWorkload): (r: Option<WorkloadError>)
    ensures r.None? <==>
      s.shared.name != "" && s.spec.api.domain != "" && s.spec.api.group != ""
      && s.spec.api.version != "" && s.spec.api.kind != ""
    ensures r.Some? ==> r.value == MissingRequiredFields(EmptyLabels(RequiredFields(s.shared.name, s.spec.api, DomainPath)))
  {
    CheckRequired(s.shared.name, s.spec.api, DomainPath)
  }

  /** A failed validation names each missing field, and only those; the domain is
      reported as "spec.domain". */
  lemma ValidateNamesExactlyTheMissing(s: StandaloneWorkload)
    requires Validate(s).Some?
    ensures var m := Validate(s).value.fields;
      && ("name" in m <==> s.shared.name == "")
      && ("spec.domain" in m <==> s.spec.api.domain == "")
      && ("spec.api.group" in m <==> s.spec.api.group == "")
      && ("spec.api.version" in m <==> s.spec.api.version == "")
      && ("spec.api.kind" in m <==> s.spec.api.kind == "")
      && 0 < |m| <= 5
  {
    assert |DomainPath| == 11;
    CheckRequiredReportsExactly(s.shared.name, s.spec.api, DomainPath);
  }

  /** With nothing set, all five paths are reported, in the fixed order. */
  lemma ValidateEmptyExample(s: StandaloneWorkload)
    requires s.shared.name == "" && s.spec.api == APISpec("", "", "", "", false)
    ensures Validate(s) == Some(MissingRequiredFields(
      ["name", "spec.domain", "spec.api.group", "spec.api.version", "spec.api.kind"]))
  {
    var fs := RequiredFields(s.shared.name, s.spec.api, DomainPath);
    EmptyLabelsSpec(fs);
    assert EmptyLabels(fs) == ["name", DomainPath, "spec.api.group", "spec.api.version", "spec.api.kind"];
    assert Validate(s).Some?;
  }

  // Resources.

  /**
    Processes the workload's manifests and stores all four results; on a
    processing error nothing changes.
   */
  function SetResources(s: StandaloneWorkload, workloadPath: string, process: MarkerProcessor): (r: Mutation<StandaloneWorkload>)
    ensures var res := process(workloadPath, s.spec.resources, false, false);
      res.Err? ==> r == Mutation(s, Some(MarkerFailure(res.error)))
    ensures var res := process(workloadPath, s.spec.resources, false, false);
      res.Ok? ==>
        && r.error == None
        && r.state.shared == s.shared
        && r.state.spec == s.spec.(
             apiSpecFields := res.value.specFields,
             sourceFiles := res.value.sourceFiles,
             rbacRules := res.value.rbacRules,
             ownershipRules := res.value.ownershipRules)
  {
    match process(workloadPath, s.spec.resources, false, false)
    case Err(e) => Mutation(s, Some(MarkerFailure(e)))
    case Ok(res) =>
      Mutation(s.(spec := s.spec.(
        apiSpecFields := res.specFields,
        sourceFiles := res.sourceFiles,
        rbacRules := res.rbacRules,
        ownershipRules := res.ownershipRules)), None)
  }

  // Components and subcommands.

  /** Components cannot be set on a standalone workload, whatever is passed. */
  function SetComponents(s: StandaloneWorkload, comps: seq<ComponentWorkload>): (r: Mutation<StandaloneWorkload>)
    ensures r.state == s
    ensures r.error == Some(NoComponentsOnStandalone)
  {
    Mutation(s, Some(NoComponentsOnStandalone))
  }

  function GetComponents(s: StandaloneWorkload): seq<ComponentWorkload> { [] }

  function GetDependencies(s: StandaloneWorkload): seq<ComponentWorkload> { [] }

  function GetSubcommands(s: StandaloneWorkload): seq<CliCommand> { [] }

  predicate HasSubCmdName(s: StandaloneWorkload) { false }

  function GetSubcommandName(s: StandaloneWorkload): string { "" }

  function GetSubcommandDescr(s: StandaloneWorkload): string { "" }

  function GetSubcommandVarName(s: StandaloneWorkload): string { "" }

  function GetSubcommandFileName(s: StandaloneWorkload): string { "" }

  function GetOwnershipRules(s: StandaloneWorkload): seq<OwnershipRule> { s.spec.ownershipRules }

  function GetComponentResource(s: StandaloneWorkload, domain: string, repo: string, clusterScoped: bool): Resource {
    EmptyResource
  }

  predicate HasChildResources(s: StandaloneWorkload) {
    |s.spec.resources| > 0
  }

  predicate IsStandalone(s: StandaloneWorkload) { true }

  predicate IsComponent(s: StandaloneWorkload) { false }

  predicate IsCollection(s: StandaloneWorkload) { false }

  /** The component and subcommand accessors are constant, whatever the state,
      and setting components leaves them so. */
  lemma NoComponentsOrSubcommands(s: StandaloneWorkload, comps: seq<ComponentWorkload>)
    ensures var t := SetComponents(s, comps).state;
      && GetComponents(t) == [] && GetDependencies(t) == [] && GetSubcommands(t) == []
      && !HasSubCmdName(t)
      && GetSubcommandName(t) == "" && GetSubcommandDescr(t) == ""
      && GetSubcommandVarName(t) == "" && GetSubcommandFileName(t) == ""
  {
  }

  // Names.

  /**
    Derives the package name and, when a root command name is set, fills the
    root command's values.
   */
  function SetNames(s: StandaloneWorkload): (r: StandaloneWorkload)
    ensures r.shared == s.shared.(packageName := ToPackageName(s.shared.name))
    ensures !HasName(s.spec.companionCliRootcmd) ==> r.spec == s.spec
    ensures HasName(s.spec.companionCliRootcmd) ==>
      var root := s.spec.companionCliRootcmd;
      var root' := r.spec.companionCliRootcmd;
      && r.spec.(companionCliRootcmd := root) == s.spec
      && root'.name == root.name
      && (HasDescription(root) ==> root'.description == root.description)
      && (!HasDescription(root) ==> root'.description == "Manage " + ToLower(s.spec.api.kind) + " workload")
      && root'.varName == Capitalize(root.name)
      && root'.fileName == root.name
  {
    var named := s.(shared := s.shared.(packageName := ToPackageName(s.shared.name)));
    if !HasName(s.spec.companionCliRootcmd) then named
    else
      named.(spec := named.spec.(
        companionCliRootcmd := SetCommonValues(s.spec.companionCliRootcmd, s.spec.api.kind, DefaultDescription)))
  }

  /** Naming twice is naming once. */
  lemma SetNamesIdempotent(s: StandaloneWorkload)
    ensures SetNames(SetNames(s)) == SetNames(s)
  {
    if HasName(s.spec.companionCliRootcmd) {
      SetCommonValuesIdempotent(s.spec.companionCliRootcmd, s.spec.api.kind, DefaultDescription);
    }
  }

  // The three cases of the SetNames unit test.

  const SharedNameInput := WorkloadShared("shared-name", "", "StandaloneWorkload")
  const SharedNameExpected := WorkloadShared("shared-name", "sharedname", "StandaloneWorkload")
  const NoAPI := APISpec("", "", "", "", false)
  const TestAPI := APISpec("", "", "", "StandaloneWorkloadTest", false)

  function SpecWith(api: APISpec, root: CliCommand): StandaloneSpec {
    StandaloneSpec(api, root, [], [], [], [], [])
  }

  // Each derived value of the test cases, proved on its own so that the solver
  // never evaluates all of them on one literal record.

  lemma TestPackageName(s: StandaloneWorkload)
    requires s.shared.name == "shared-name"
    ensures SetNames(s).shared.packageName == "sharedname"
  {
    SharedNameExample();
  }

  lemma TestDescription(s: StandaloneWorkload)
    requires s.spec.api.kind == "StandaloneWorkloadTest"
    requires s.spec.companionCliRootcmd == CliCommand("hasrootcommand", "", "", "")
    ensures SetNames(s).spec.companionCliRootcmd.description == "Manage standaloneworkloadtest workload"
  {
    var lower := ToLower(s.spec.api.kind);
    assert SetNames(s).spec.companionCliRootcmd.description == "Manage " + lower + " workload";
    LowerTestKind(s.spec.api.kind);
    TestDescriptionText(lower);
  }

  lemma TestCommandNames(s: StandaloneWorkload)
    requires s.spec.companionCliRootcmd.name == "hasrootcommand"
    ensures SetNames(s).spec.companionCliRootcmd.varName == "Hasrootcommand"
    ensures SetNames(s).spec.companionCliRootcmd.fileName == "hasrootcommand"
  {
    assert Capitalize("hasrootcommand") == "Hasrootcommand";
  }

  lemma LowerTestKind(kind: string)
    requires kind == "StandaloneWorkloadTest"
    ensures ToLower(kind) == "standaloneworkloadtest"
  {
  }

  lemma TestDescriptionText(lower: string)
    requires lower == "standaloneworkloadtest"
    ensures "Manage " + lower + " workload" == "Manage standaloneworkloadtest workload"
  {
  }

  /** Without a root command only the package name is set. */
  lemma SetNamesWithoutRootCommand()
    ensures SetNames(StandaloneWorkload(SharedNameInput, SpecWith(NoAPI, EmptyCommand)))
         == StandaloneWorkload(SharedNameExpected, SpecWith(NoAPI, EmptyCommand))
  {
    SharedNameExample();
  }

  /** A missing description is filled from the lower-cased kind. */
  lemma SetNamesFillsDescription()
    ensures SetNames(StandaloneWorkload(SharedNameInput, SpecWith(TestAPI, CliCommand("hasrootcommand", "", "", ""))))
         == StandaloneWorkload(SharedNameExpected, SpecWith(TestAPI,
              CliCommand("hasrootcommand", "Manage standaloneworkloadtest workload", "Hasrootcommand", "hasrootcommand")))
  {
    var s := StandaloneWorkload(SharedNameInput, SpecWith(TestAPI, CliCommand("hasrootcommand", "", "", "")));
    TestPackageName(s);
    TestDescription(s);
    TestCommandNames(s);
  }

  /** A description that is already set is kept. */
  lemma SetNamesKeepsDescription()
    ensures SetNames(StandaloneWorkload(SharedNameInput, SpecWith(TestAPI,
              CliCommand("hasrootcommand", "Manage standaloneworkloadtest workload custom", "", ""))))
         == StandaloneWorkload(SharedNameExpected, SpecWith(TestAPI,
              CliCommand("hasrootcommand", "Manage standaloneworkloadtest workload custom", "Hasrootcommand", "hasrootcommand")))
  {
    var s := StandaloneWorkload(SharedNameInput, SpecWith(TestAPI,
      CliCommand("hasrootcommand", "Manage standaloneworkloadtest workload custom", "", "")));
    TestPackageName(s);
    TestCommandNames(s);
  }
}
