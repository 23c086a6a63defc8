# Workload variant model of operator-builder

This project models the workload variants of operator-builder's `internal/workload/v1`
package in Dafny. Two variants are covered:

- A **standalone workload** is one custom resource with its own manifests. It never owns components.
- A **workload collection** is a custom resource that owns component workloads. It may have
  manifests of its own, and it merges every component's API spec fields into its own list.

Records are immutable datatypes. Each Go method that mutates its receiver becomes a pure
function that returns the updated record. A method that can also fail returns a
`Mutation(state, error)`, so a partial update before an error stays visible.
The `Workload` module is a tagged sum of the two variants. It dispatches the operations it
models to the variant's own definition.

Modules:

- `Wrappers`: `Option` and `Result`.
- `Names`: the package-name slug, ASCII lower-casing and capitalisation.
- `Cli`: the companion CLI command record and how its derived values are filled in.
- `SpecFields`: API spec fields and the merge of component fields. The merge is written as
  a recursive fold and as the nested loops of the source. Both are proved equal to a
  reference definition that does not use the fold.
- `WorkloadTypes`: API identity, shared fields, marker-processing results, components, errors,
  and the batch required-field check.
- `Collection` and `Standalone`: one module per source file.
- `Workload`: the tagged sum and the properties that hold across both variants.

Marker processing (`processMarkers`) reads manifest files. The model therefore takes it as a
parameter of type `MarkerProcessor`. It maps a workload path, the resource manifest paths and
the two flags the source passes to either marker results or an error message.
Every property about `SetResources` holds for every such processor.

Behaviour of the source that a reader might not expect, and that the model keeps:

- The source's spec-field merge (`collection.go:171-188`) has no type-conflict check. A field
  of the same name with another type is silently dropped, and the first declaration's type
  stays (`SpecFields.TypeConflictIgnoredExample`).
- The merge (`collection.go:176-180`) overwrites the documentation of every entry of that name
  whenever the incoming documentation is non-empty, not only entries whose documentation is
  empty. So the last non-empty documentation wins (`SpecFields.LastDocsWins`).
- Setting components on a standalone workload (`standalone.go:165-167`) returns the sentinel
  `ErrNoComponentsOnStandalone` (`standalone.go:19`), modelled as `NoComponentsOnStandalone`.
- A collection's `GetOwnershipRules` (`collection.go:230-232`) always returns an empty list,
  even after `SetResources` stored ownership rules at `collection.go:154-156`
  (`Collection.OwnershipRulesNotReported`).

## Model

| member | source | states |
|---|---|---|
| `SpecFields.MergeFields` | internal/workload/v1/collection.go:172-188 | The merged list is no shorter than the base list and at most one entry longer per incoming field. |
| `SpecFields.MergeFieldsIsMerge` | internal/workload/v1/collection.go:171-188 | Merging incoming fields into a base list gives the base entries in order, then the first occurrence of each new name in incoming order. Each entry's documentation is that of the last incoming field of its name with non-empty documentation, or its own if there is none. |
| `SpecFields.ScanEntries` | internal/workload/v1/collection.go:173-183 | The inner scan gives every entry of the incoming field's name that field's documentation when it is non-empty, and leaves everything else alone. It reports a match exactly when some entry has that name. |
| `SpecFields.MergeFieldsLoop` | internal/workload/v1/collection.go:172-188 | The loop over incoming fields (scan the entries, then append the field when no entry matched) computes exactly the merge. |
| `SpecFields.MergeFieldsShape` | internal/workload/v1/collection.go:171-188 | The merged list has one entry per base entry plus one per new name. It starts with the base entries and then has the new fields in incoming order. Each entry keeps its name, type, default and sample, so only the documentation can change. |
| `SpecFields.MergeFieldsNames` | internal/workload/v1/collection.go:171-188 | The set of merged names is the union of the base names and the incoming names. |
| `SpecFields.MergeFieldsUnique` | internal/workload/v1/collection.go:171-188 | If the base names are distinct, no name appears twice in the merged list, even when the incoming list repeats names. |
| `SpecFields.LastDocsUnchanged` | internal/workload/v1/collection.go:176-180 | An entry's documentation stays the same when no incoming field of its name brings non-empty documentation. |
| `SpecFields.LastDocsWins` | internal/workload/v1/collection.go:176-180 | Otherwise the documentation of the last incoming field of that name with non-empty documentation wins. |
| `SpecFields.MergeFieldsConcat` | internal/workload/v1/collection.go:160-189 | Merging one component's fields after another's is the same as merging their concatenation. |
| `SpecFields.DocumentationBackfillExample` | internal/workload/v1/collection.go:172-188 | A `size` field without documentation, merged with a documented `size`, takes the documentation and is not duplicated. |
| `SpecFields.TypeConflictIgnoredExample` | internal/workload/v1/collection.go:175-183 | A same-named field of another type raises no error. The base type stays and the documentation is overwritten. |
| `WorkloadTypes.CheckRequired` | internal/workload/v1/collection.go:23-52 | The check fails exactly when name, domain, group, version or kind is empty. The error lists the paths of all empty fields in the fixed order. |
| `WorkloadTypes.CheckRequiredReportsExactly` | internal/workload/v1/collection.go:24-49 | When the check fails, each of the five paths is listed exactly when its field is empty. The list has between one and five paths. |
| `Collection.Validate` | internal/workload/v1/collection.go:23-52 | A collection is valid exactly when all five required fields are set. Otherwise the error lists every empty field, with the domain reported as `spec.api.domain`. |
| `Collection.ValidateNamesExactlyTheMissing` | internal/workload/v1/collection.go:23-52 | A collection's validation error names `name`, `spec.api.domain`, `spec.api.group`, `spec.api.version` and `spec.api.kind` each exactly when that field is empty. |
| `Collection.ValidateEmptyExample` | internal/workload/v1/collection.go:23-52 | With nothing set, all five paths are reported in order. |
| `Collection.ComponentFieldLists` | internal/workload/v1/collection.go:160-169 | Processing the components succeeds exactly when every component's marker processing succeeds, and yields their spec fields in component order. Otherwise it fails with the error of the first failing component. |
| `Collection.MergeComponentFields` | internal/workload/v1/collection.go:160-189 | The component loop succeeds exactly when every component's marker processing succeeds. Otherwise it returns the error of the first failing component. On success every field the collection started with is still at its position, with only its documentation possibly changed. |
| `Collection.MergeComponentFieldsSpec` | internal/workload/v1/collection.go:158-191 | The component loop either fails with the first component error, or merges the concatenation of all component fields into the collection's own fields. |
| `Collection.SetResources` | internal/workload/v1/collection.go:148-194 | A failure on the collection's own manifests leaves the collection unchanged. A component failure leaves source files, RBAC rules and ownership rules replaced but the spec fields as they were. On success the spec fields are the merge of the collection's own fields with every component's fields, and nothing else changes. |
| `Collection.SetResourcesSpecFields` | internal/workload/v1/collection.go:158-191 | After a successful `SetResources`, the spec fields start with the collection's own fields (only documentation may change). Their names are the union of all input names, and they are distinct if the collection's own names are. |
| `Collection.SetComponents` | internal/workload/v1/collection.go:200-204 | Setting components on a collection always succeeds. `GetComponents` then returns exactly the list given, and nothing else changes. |
| `Collection.GetDependencies` | internal/workload/v1/collection.go:196-198 | A collection reports no dependencies, whatever its state. |
| `Collection.GetOwnershipRules` | internal/workload/v1/collection.go:230-232 | A collection reports no ownership rules, whatever its state. |
| `Collection.OwnershipRulesNotReported` | internal/workload/v1/collection.go:154-156 | `SetResources` stores the processed ownership rules, and the getter still reports none. |
| `Collection.GetComponentResource` | internal/workload/v1/collection.go:234-264 | The resource is namespaced exactly when `clusterScoped` is false. It always has CRD version `v1` and a controller. Its GVK uses the given domain and the collection's group, version and kind. Its path is `<repo>/apis/<group>/<version>`. |
| `Collection.SetNames` | internal/workload/v1/collection.go:266-291 | The package name is always the slug of the name. Without a root-command name both commands are left untouched. With one, the root command keeps its name and a set description; a missing description becomes `Manage <lower-case kind> collection and components`. An unnamed subcommand becomes `collection` and a named one is kept; its missing description becomes `Manage <lower-case kind> workload`. Each command's variable name is its capitalised name and its file name is its name. |
| `Collection.SetNamesIdempotent` | internal/workload/v1/collection.go:266-291 | Calling `SetNames` a second time on a collection changes nothing. |
| `Collection.NamedSubcommands` | internal/workload/v1/collection.go:302-306 | The component subcommands collected are exactly those of components whose subcommand has a name, and each of them has a name. |
| `Collection.NamedSubcommandsAppend` | internal/workload/v1/collection.go:302-306 | Collecting named subcommands distributes over concatenation of the component list, so component order is preserved. |
| `Collection.GetSubcommands` | internal/workload/v1/collection.go:293-309 | The collection's own subcommand comes first exactly when it has manifests of its own (`len(Resources) > 0`). The named components' subcommands follow in component order. |
| `Standalone.Validate` | internal/workload/v1/standalone.go:21-50 | A standalone workload is valid exactly when all five required fields are set. Otherwise the error lists every empty field, with the domain reported as `spec.domain`. |
| `Standalone.ValidateNamesExactlyTheMissing` | internal/workload/v1/standalone.go:21-50 | A standalone validation error names `name`, `spec.domain`, `spec.api.group`, `spec.api.version` and `spec.api.kind` each exactly when that field is empty. |
| `Standalone.ValidateEmptyExample` | internal/workload/v1/standalone.go:21-50 | With nothing set, all five paths are reported in order, the domain as `spec.domain`. |
| `Standalone.SetResources` | internal/workload/v1/standalone.go:147-159 | A marker-processing error leaves the workload unchanged. On success, spec fields, source files, RBAC rules and ownership rules are the processor's outputs, and nothing else changes. |
| `Standalone.SetComponents` | internal/workload/v1/standalone.go:165-167 | Setting components on a standalone workload always fails with `NoComponentsOnStandalone`, for every argument, and changes nothing. |
| `Standalone.NoComponentsOrSubcommands` | internal/workload/v1/standalone.go:103-121 | Components, dependencies and subcommands of a standalone workload are always empty. `HasSubCmdName` is false and all four subcommand getters return the empty string. |
| `Standalone.SetNames` | internal/workload/v1/standalone.go:201-216 | The package name is the slug of the name. Without a root-command name nothing else changes. With one, an empty description becomes `Manage <lower-case kind> workload` and a set description is kept. The variable name is the capitalised command name and the file name is the command name. |
| `Standalone.SetNamesIdempotent` | internal/workload/v1/standalone.go:201-216 | Calling `SetNames` a second time on a standalone workload changes nothing. |
| `Standalone.SetNamesWithoutRootCommand` | internal/workload/v1/standalone_test.go:32-43 | With no root command, `shared-name` gets package name `sharedname` and the root command stays empty. |
| `Standalone.SetNamesFillsDescription` | internal/workload/v1/standalone_test.go:44-71 | Root command `hasrootcommand` without a description and kind `StandaloneWorkloadTest` give description `Manage standaloneworkloadtest workload`, variable name `Hasrootcommand` and file name `hasrootcommand`. |
| `Standalone.SetNamesKeepsDescription` | internal/workload/v1/standalone_test.go:72-100 | A root command that already has a description keeps it and gets the same variable and file names. |
| `Names.SharedNameExample` | internal/workload/v1/standalone_test.go:16-25 | The package name of `shared-name` is `sharedname`. |
| `Names.ToPackageNameIdempotent` | internal/workload/v1/standalone.go:202 | The package-name slug of a slug is itself, so deriving the package name again changes nothing. |
| `Names.ToPackageNameSpec` | internal/workload/v1/standalone.go:202 | The slug is never longer than the name, holds only lower-case letters and digits, and leaves a name that is already a slug unchanged. |
| `Cli.SetCommonValues` | internal/workload/v1/standalone.go:211-215 | Filling a named command keeps its name. It keeps a description that is set, fills a missing one from the template and the lower-cased kind, and derives the variable and file names from the command name. |
| `Cli.SetSubCommandValues` | internal/workload/v1/collection.go:287-290 | Filling the subcommand, whose name the caller has already defaulted, keeps that name and a set description, fills a missing description from the subcommand template and the lower-cased kind, and derives the variable and file names from the name. |
| `Cli.SetCommonValuesIdempotent` | internal/workload/v1/standalone.go:211-215 | Filling a command's values twice is the same as filling them once. |
| `Workload.ExactlyOneVariantFlag` | internal/workload/v1/standalone.go:135-145 | Exactly one of `IsStandalone`, `IsCollection` and `IsComponent` holds, and it matches the variant tag. |
| `Workload.ValidateIsBatch` | internal/workload/v1/collection.go:23-52 | On both variants validation fails exactly when a required field is empty, and lists all empty fields. Only the domain path differs: `spec.domain` for standalone, `spec.api.domain` for collections. |
| `Workload.SetResourcesOwnFailure` | internal/workload/v1/collection.go:149-152 | A marker-processing failure on a workload's own manifests leaves either variant unchanged and is returned. The variant never changes. |
| `Workload.SetComponents` | internal/workload/v1/standalone.go:165-167 | Setting components succeeds exactly on collections, which then report those components. On a standalone workload it fails and changes nothing. |
| `Workload.NoDependencies` | internal/workload/v1/collection.go:196-198 | Neither variant reports dependencies. |
| `Workload.ChildResourcesAndSubcommands` | internal/workload/v1/collection.go:206-208 | Both variants have child resources exactly when they list manifests. A standalone workload has no subcommands, and a collection with manifests lists its own subcommand first. |
| `Workload.SetNamesIdempotent` | internal/workload/v1/standalone.go:201-209 | On both variants `SetNames` is idempotent and keeps the name. The package name depends on the name alone. |
| `Workload.ComponentResourceOnlyOnCollections` | internal/workload/v1/standalone.go:197-199 | A standalone workload answers with the empty resource (no API, no controller), while a collection always describes a controller resource with an API (collection.go:234-264). |

## Left out

- The bodies of `processMarkers`, `getFuncNames` and kubebuilder's `resource.RegularPlural` are not part of this model. Marker processing is a parameter, and the function-name lists and the resource's plural are not modelled.
- Marker lexing, RBAC rule deduplication, ownership extraction and dependency ordering between components have no code in `collection.go` or `standalone.go`. They are not modelled.
- Plain getters that only return a stored field (`GetName`, `GetAPIGroup`, `GetRootCmdName`, `GetSourceFiles`, `GetRBACRules`, `GetWorkloadKind`, …) are read directly from the records.
- File reading of manifests is not modelled, and neither is pointer aliasing of `[]*APISpecField` or `[]*ComponentWorkload`. Fields and components are values. In the source, documentation written through a pointer to an appended component field also changes that component's own field object; the model does not track this.
- Error text formatting (`fmt.Errorf("%w: %s", …)`) is not modelled. An error is the structured value `MissingRequiredFields(paths)`.
- `ComponentWorkload` has only the parts a collection uses: name, config path, manifest paths and subcommand. Its own methods are in a file that is not part of this model.
- `Names.ToPackageName`: the body of `utils.ToPackageName` is not part of this model. The model uses the slug rule "lower-case, drop every character that is not an ASCII letter or digit". It agrees with the unit test's `shared-name` → `sharedname`. Only ASCII letters are case-mapped.
- `Cli.SetCommonValues`: the bodies of the source's `setCommonValues`, `hasName` and `hasDescription` are not part of this model. The model reads `hasName` and `hasDescription` as "the string is non-empty", fills the description only when it is empty, sets the variable name to the command name with its first ASCII letter upper-cased, and sets the file name to the command name. The real conversions are not shown and may differ from the model's for names with separators or capitals; the two agree on the single-word names of the unit test. The kind in a filled description is lower-cased only on ASCII letters.
- `Cli.SetSubCommandValues`: the body of the source's `setSubCommandValues` is not part of this model. The model applies the same rules as `Cli.SetCommonValues` to the subcommand whose name the caller has already defaulted, so it shares that line's approximations.
- `Workload.IsComponent` is false on both variants. A component workload is not a variant of the `Workload` sum here; its own file is not part of this model.
- The template files for controllers, API resource definitions and the CLI `main.go` only render source text. They are not modelled.
