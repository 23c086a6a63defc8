/**
  Records shared by the workload variants: the API identity, the shared naming
  fields, the results of marker processing, component workloads, errors, and
  the required-field check that both variants' validation performs.
 */
module WorkloadTypes {
  import opened Wrappers
  import opened Cli
  import opened SpecFields

  /** The Kubernetes API identity of a workload's custom resource. */
  datatype APISpec = APISpec(domain: string, group: string, version: string, kind: string, clusterScoped: bool)

  /** Fields every workload variant has. `packageName` is derived from `name`. */
  datatype WorkloadShared = WorkloadShared(name: string, packageName: string, kind: string)

  /** A generated source file and the child resources it constructs; produced by
      marker processing and not inspected here. */
  datatype SourceFile = SourceFile(filename: string, children: seq<string>)

  /** A permission the generated controller needs. */
  datatype RBACRule = RBACRule(group: string, resource: string, verbs: seq<string>)

  /** A child kind the generated controller sets an owner reference on. */
  datatype OwnershipRule = OwnershipRule(version: string, group: string, kind: string)

  /** What marker processing yields for one set of manifests. */
  datatype MarkerResults = MarkerResults(
    specFields: seq<APISpecField>,
    sourceFiles: seq<SourceFile>,
    rbacRules: seq<RBACRule>,
    ownershipRules: seq<OwnershipRule>)

  /**
    Marker processing of a manifest set: (workload path, resource manifest paths,
    collection, collectionResources) to its results or an error message. It
    reads files, so the model takes it as a parameter.
   */
  type MarkerProcessor = (string, seq<string>, bool, bool) -> Result<MarkerResults, string>

  /** A component workload, as far as its owning collection uses it. */
  datatype ComponentWorkload = ComponentWorkload(
    shared: WorkloadShared,
    configPath: string,
    resources: seq<string>,
    companionCliSubcmd: CliCommand)

  predicate ComponentHasSubCmdName(comp: ComponentWorkload) {
    HasName(comp.companionCliSubcmd)
  }

  /** Marker processing of one component's manifests, as a collection requests it. */
  function ProcessComponent(process: MarkerProcessor, comp: ComponentWorkload): Result<MarkerResults, string> {
    process(comp.configPath, comp.resources, true, false)
  }

  datatype WorkloadError =
    | MissingRequiredFields(fields: seq<string>)
    | NoComponentsOnStandalone
    | MarkerFailure(reason: string)

  /** The state of a record after a mutating operation, and the error it returned. */
  datatype Mutation<T> = Mutation(state: T, error: Option<WorkloadError>)

  /** The kubebuilder resource description of a collection's own API. */
  datatype GVK = GVK(domain: string, group: string, version: string, kind: string)

  datatype ResourceAPI = ResourceAPI(crdVersion: string, namespaced: bool)

  datatype Resource = Resource(gvk: GVK, path: string, api: Option<ResourceAPI>, controller: bool)

  /** The zero-valued resource description. */
  const EmptyResource := Resource(GVK("", "", "", ""), "", None, false)

  // Required-field validation.

  /** A required field: the path reported when it is missing, and its value. */
  datatype RequiredField = RequiredField(path: string, value: string)

  /** The required fields in the order they are checked. */
  function RequiredFields(name: string, api: APISpec, domainLabel: string): seq<RequiredField> {
    [ RequiredField("name", name),
      RequiredField(domainLabel, api.domain),
      RequiredField("spec.api.group", api.group),
      RequiredField("spec.api.version", api.version),
      RequiredField("spec.api.kind", api.kind) ]
  }

  /** The labels of the empty fields, in order. */
  function EmptyLabels(fields: seq<RequiredField>): seq<string> {
    if |fields| == 0 then [] else MissingPath(fields[0]) + EmptyLabels(fields[1..])
  }

  function MissingPath(f: RequiredField): seq<string> {
    if f.value == "" then [f.path] else []
  }

  /**
    Collects every missing required field in one pass, appending the path of
    each empty field in turn, and fails when any is missing.
   */
  function CheckRequired(name: string, api: APISpec, domainLabel: string): (r: Option<WorkloadError>)
    ensures r.None? <==> name != "" && api.domain != "" && api.group != "" && api.version != "" && api.kind != ""
    ensures r.Some? ==> r.value == MissingRequiredFields(EmptyLabels(RequiredFields(name, api, domainLabel)))
  {
    var fs := RequiredFields(name, api, domainLabel);
    var missing := EmptyLabels(fs);
    EmptyLabelsSpec(fs);
    assert (forall i :: 0 <= i < |fs| ==> fs[i].value != "") <==>
      name != "" && api.domain != "" && api.group != "" && api.version != "" && api.kind != "" by {
      assert |fs| == 5;
      assert fs[0].value == name && fs[1].value == api.domain && fs[2].value == api.group;
      assert fs[3].value == api.version && fs[4].value == api.kind;
    }
    if |missing| > 0 then Some(MissingRequiredFields(missing)) else None
  }

  /** A path is reported exactly when some field with that path is empty. */
  lemma {:induction false} EmptyLabelsMembership(fields: seq<RequiredField>, p: string)
    ensures p in EmptyLabels(fields) <==> exists f :: f in fields && f.path == p && f.value == ""
    decreases |fields|
  {
    if |fields| > 0 {
      EmptyLabelsMembership(fields[1..], p);
      assert fields == [fields[0]] + fields[1..];
      assert forall f :: f in fields <==> f == fields[0] || f in fields[1..];
    }
  }

  /** The report is never longer than the field list, is empty exactly when every
      field is set, and lists every path when every field is empty. */
  lemma {:induction false} EmptyLabelsSpec(fields: seq<RequiredField>)
    ensures |EmptyLabels(fields)| <= |fields|
    ensures |EmptyLabels(fields)| == 0 <==> forall i :: 0 <= i < |fields| ==> fields[i].value != ""
    ensures (forall i :: 0 <= i < |fields| ==> fields[i].value == "") ==>
      |EmptyLabels(fields)| == |fields| && forall i :: 0 <= i < |fields| ==> EmptyLabels(fields)[i] == fields[i].path
    decreases |fields|
  {
    if |fields| > 0 {
      var rest := fields[1..];
      EmptyLabelsSpec(rest);
      assert forall i :: 1 <= i < |fields| ==> fields[i] == rest[i - 1];
    }
  }

  /** With distinct paths, a field's path is reported exactly when it is empty. */
  lemma DistinctPathReported(fields: seq<RequiredField>, i: nat)
    requires i < |fields|
    requires forall a, b :: 0 <= a < b < |fields| ==> fields[a].path != fields[b].path
    ensures fields[i].path in EmptyLabels(fields) <==> fields[i].value == ""
  {
    EmptyLabelsMembership(fields, fields[i].path);
    if fields[i].path in EmptyLabels(fields) {
      var f :| f in fields && f.path == fields[i].path && f.value == "";
      var j :| 0 <= j < |fields| && fields[j] == f;
      assert j == i;
    } else {
      assert fields[i] in fields;
    }
  }

  /**
    When the domain path differs from the other four paths, a failed check
    reports each path exactly when its field is empty.
   */
  lemma CheckRequiredReportsExactly(name: string, api: APISpec, domainLabel: string)
    requires domainLabel != "name" && domainLabel != "spec.api.group"
    requires domainLabel != "spec.api.version" && domainLabel != "spec.api.kind"
    requires CheckRequired(name, api, domainLabel).Some?
    ensures var m := CheckRequired(name, api, domainLabel).value.fields;
      && ("name" in m <==> name == "")
      && (domainLabel in m <==> api.domain == "")
      && ("spec.api.group" in m <==> api.group == "")
      && ("spec.api.version" in m <==> api.version == "")
      && ("spec.api.kind" in m <==> api.kind == "")
      && 0 < |m| <= 5
  {
    var fs := RequiredFields(name, api, domainLabel);
    EmptyLabelsSpec(fs);
    RequiredPathsDistinct(name, api, domainLabel);
    DistinctPathReported(fs, 0);
    DistinctPathReported(fs, 1);
    DistinctPathReported(fs, 2);
    DistinctPathReported(fs, 3);
    DistinctPathReported(fs, 4);
  }

  /** The five required paths are distinct when the domain path differs from the rest. */
  lemma RequiredPathsDistinct(name: string, api: APISpec, domainLabel: string)
    requires domainLabel != "name" && domainLabel != "spec.api.group"
    requires domainLabel != "spec.api.version" && domainLabel != "spec.api.kind"
    ensures var fs := RequiredFields(name, api, domainLabel);
      forall a, b :: 0 <= a < b < |fs| ==> fs[a].path != fs[b].path
  {
    assert |"name"| == 4 && |"spec.api.group"| == 14 && |"spec.api.version"| == 16 && |"spec.api.kind"| == 13;
  }
}
