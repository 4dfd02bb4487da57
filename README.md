# External-mode bootstrap of ocs-operator, in Dafny

In external mode a StorageCluster does not run its own Ceph cluster. It
connects to one described by the Secret `rook-ceph-external-cluster-details`.
The bootstrap in `pkg/controller/storagecluster/external_resources.go` works
in these steps:

- It reads that Secret and decodes the JSON list under
  `external_cluster_details` into descriptors `{kind, name, data}`.
- It walks the list in order:
  - a `ConfigMap` or `Secret` descriptor is created in the cluster's
    namespace, owned by the cluster, unless an object of that name already
    exists (a Secret's values are stored as their UTF-8 bytes);
  - a `StorageClass` descriptor selects one of three templates by name
    (`cephfs`, `ceph-rbd`, `ceph-rgw`), copies its data into that template's
    parameters, and lists the template for creation; `ceph-rgw` also records
    its `endpoint` value with every `:` turned into `_`.
- It creates the listed StorageClasses.
- It sets `ROOK_CSI_ENABLE_CEPHFS` in `rook-ceph-operator-config` to
  `"true"` or `"false"`, according to whether a `cephfs` StorageClass was
  described. The Update is skipped when the value already matches.
- On success it sets `Status.ExternalSecretFound`. Once that flag is set,
  the whole bootstrap is skipped.

The files:

- `wrappers.dfy`: `Option` and `Result`.
- `utf8.dfy`: Go's `[]byte(s)` conversion as a UTF-8 encoder, with a decoder
  and a proved round trip.
- `store.dfy`: the Kubernetes client.
  - The pure model is `World`: the objects keyed by kind, namespace and
    name, plus the log of calls made.
  - A `Faults` plan says which Get, Create or Update fails for which key.
  - The `Client` class performs the same operations in place, and each of
    its methods is proved equal to the pure one.
- `external_resources.dfy`: the constants, the descriptor type and one pure
  specification per Go function.
  - `CreateIfAbsent`, `Step`/`Steps` for the loop, `CreateStorageClassesEffect`,
    `SetRookCSICephFSEffect`, `Materialize` and `Ensure`.
  - The `Reconciler` class has one method for each Go function of the file:
    `setRookCSICephFS`, `ensureExternalStorageClusterResources`,
    `createExternalStorageClusterResources`, `createExternalStorageClusterConfigMap`
    and `createExternalStorageClusterSecret`.
    - `CreateStorageClasses` stands for the `createStorageClasses` call. That
      function's body is not part of this model.
    - `MergeStorageClass` is the `"StorageClass"` case of the loop, not a Go
      function.
    - `newStorageClasses` has no method. The pure `NewStorageClasses` stands
      for it.
    - Each method mirrors the Go control flow and is proved to leave exactly
      the state, and return exactly the outcome, of its specification.
  - The package-level `externalRgwEndpoint` is a field of `Reconciler`.
  - The status flag is the field `externalSecretFound` of `StorageCluster`.
- `properties.dfy`: what the bootstrap promises, proved as lemmas on those
  specifications:
  - the status gate;
  - the create-if-absent rules;
  - that the loop stops at the first failure;
  - how StorageClass parameters are merged (every key, the last descriptor
    winning);
  - that `availableSCs` has one entry per StorageClass descriptor, in order;
  - that only described templates are created;
  - the CephFS flag and the sanitised endpoint;
  - that a second run after a successful one changes no object.

The outcome of each operation is `Done`, `Failed(err)` or `Panicked(cause)`.
`Panicked` records a nil dereference that crashes the Go code:

- An unknown StorageClass name leaves the template pointer `sc` nil.
  - With data to copy, the write at line 169 panics
    (`NilStorageClassParameters`).
  - With no data, the nil pointer is appended to `availableSCs`, and the
    StorageClass creation panics when it reaches it (`NilStorageClassEntry`).
- A ConfigMap read back with no data has a nil `Data` map. The flag write
  at line 61 panics when it has to change the value (`NilOperatorConfigData`).

A descriptor of an unknown kind is skipped. A StorageClass descriptor of
an unknown name is not skipped: the nil template crashes the pass, as
described above.
`ExternalResourcesProperties.MaterializeUnknownStorageClassFails` proves
that such a descriptor never lets the bootstrap succeed.

## Model

| member | source | states |
|---|---|---|
| Store.Get | pkg/controller/storagecluster/external_resources.go:78-81 | a Get records one call; it succeeds exactly when the key is stored and no fault is planned, returning the stored object; it reports NotFound exactly when the key is absent and no fault is planned |
| Store.Create | pkg/controller/storagecluster/external_resources.go:194-198 | a Create records one call; it succeeds exactly when no fault is planned and the key is free, and it then adds exactly that object; otherwise the objects are unchanged |
| Store.Update | pkg/controller/storagecluster/external_resources.go:62 | an Update records one call; it succeeds exactly when no fault is planned and the key exists, and it then replaces exactly that object; otherwise the objects are unchanged |
| Store.Client.GetObject | pkg/controller/storagecluster/external_resources.go:78-81 | the in-place client's Get leaves exactly the state, and returns exactly the result, of `Get` |
| Store.Client.CreateObject | pkg/controller/storagecluster/external_resources.go:194-198 | the in-place client's Create leaves exactly the state, and returns exactly the result, of `Create` |
| Store.Client.UpdateObject | pkg/controller/storagecluster/external_resources.go:62 | the in-place client's Update leaves exactly the state, and returns exactly the result, of `Update` |
| Utf8.EncodeChar | pkg/controller/storagecluster/external_resources.go:140 | a character encodes to 1 to 4 bytes; the lead byte announces the length and the others are continuation bytes |
| Utf8.Encode | pkg/controller/storagecluster/external_resources.go:140 | the byte form of a string is at least as long as the string |
| Utf8.CodePointOfEncodeChar | pkg/controller/storagecluster/external_resources.go:140 | the bytes of a character spell its code point |
| Utf8.DecodeEncode | pkg/controller/storagecluster/external_resources.go:140 | decoding the bytes of any string gives that string back |
| ExternalResources.Templates.With | pkg/controller/storagecluster/external_resources.go:149-165 | replacing the template of one role leaves the other two templates as they were |
| ExternalResources.RoleOf | pkg/controller/storagecluster/external_resources.go:150-165 | the name selects the cephfs, ceph-rbd or ceph-rgw template exactly when it is that name, and otherwise none |
| ExternalResources.FormatBool | pkg/controller/storagecluster/external_resources.go:56 | the flag's text is "true" exactly when the flag is set, and it is never empty |
| ExternalResources.ReplaceColons | pkg/controller/storagecluster/external_resources.go:160 | the endpoint keeps its length, every `:` becomes `_`, every other character is kept, and no `:` remains |
| ExternalResources.SecretBytes | pkg/controller/storagecluster/external_resources.go:137-141 | the Secret built from a descriptor has exactly the descriptor's keys |
| ExternalResources.Unmarshal | pkg/controller/storagecluster/external_resources.go:82-87 | an empty or missing payload is a parse error |
| ExternalResources.NewStorageClasses | pkg/controller/storagecluster/external_resources.go:106-110 | the templates are produced exactly when no error is reported, and every template starts with empty parameters |
| ExternalResources.CreateIfAbsent | pkg/controller/storagecluster/external_resources.go:189-205 | if the Get finds the object, nothing changes and nil is returned; if the Get reports not found, one Create of exactly the desired object follows and its error, if any, is returned; any other Get error is returned and nothing is created; the calls made are listed |
| ExternalResources.SelectStorageClass | pkg/controller/storagecluster/external_resources.go:148-171 | an unknown name with data to copy panics and changes nothing else; otherwise the template the name selects takes the data, one entry (nil for an unknown name) is appended to availableSCs, "cephfs" sets the CephFS flag, "ceph-rgw" sets the endpoint to its sanitised "endpoint" value, and the store is untouched |
| ExternalResources.AfterCreate | pkg/controller/storagecluster/external_resources.go:129-133 | a ConfigMap or Secret creation changes only the store and whether the loop goes on |
| ExternalResources.Step | pkg/controller/storagecluster/external_resources.go:115-172 | once an iteration has failed or panicked, no later descriptor changes anything |
| ExternalResources.Steps | pkg/controller/storagecluster/external_resources.go:115-173 | the loop keeps every object under its own key |
| ExternalResources.CreateStorageClassesEffect | pkg/controller/storagecluster/external_resources.go:175-179 | creating the listed StorageClasses fails only on a backend fault planned for the Get or the Create of one of them |
| ExternalResources.CreateStorageClassesFrame | pkg/controller/storagecluster/external_resources.go:175-179 | creating the listed StorageClasses never alters an existing object, and every new object is a listed template exactly as it stands |
| ExternalResources.SetRookCSICephFSEffect | pkg/controller/storagecluster/external_resources.go:46-63 | the operator config is read first; when ROOK_CSI_ENABLE_CEPHFS already holds the wanted value, nothing else happens and nil is returned; otherwise at most one Update follows and it changes only that key; errors are the missing config or a planned backend fault; on success the key holds "true" or "false" as the flag says |
| ExternalResources.Materialize | pkg/controller/storagecluster/external_resources.go:98-186 | a pass keeps every object under its own key |
| ExternalResources.Ensure | pkg/controller/storagecluster/external_resources.go:67-95 | with the status flag already set, nothing is read or written and nil is returned; otherwise the flag ends up set exactly when the outcome is success, and success means the details Secret was read, its `external_cluster_details` payload parsed, and `createExternalStorageClusterResources` on the parsed list succeeded, leaving the resulting store and endpoint |
| ExternalResources.MergeParameters | pkg/controller/storagecluster/external_resources.go:168-170 | copying a descriptor's data into a template's parameters gives the parameters overlaid with the data |
| ExternalResources.SecretData | pkg/controller/storagecluster/external_resources.go:137-141 | the Secret data built by the loop is each descriptor value's UTF-8 bytes, under the same keys |
| ExternalResources.StepsHalted | pkg/controller/storagecluster/external_resources.go:130-133 | a loop that has stopped stays stopped over any remaining descriptors |
| ExternalResources.Reconciler.SetRookCSICephFS | pkg/controller/storagecluster/external_resources.go:46-63 | the method leaves exactly the store, and returns exactly the outcome, of `SetRookCSICephFSEffect` |
| ExternalResources.Reconciler.EnsureExternalStorageClusterResources | pkg/controller/storagecluster/external_resources.go:67-95 | the method leaves exactly the status flag, store and endpoint, and returns exactly the outcome, of `Ensure` |
| ExternalResources.Reconciler.CreateExternalStorageClusterResources | pkg/controller/storagecluster/external_resources.go:98-186 | the method's loop leaves exactly the store and endpoint, and returns exactly the outcome, of `Materialize` |
| ExternalResources.Reconciler.MergeStorageClass | pkg/controller/storagecluster/external_resources.go:148-171 | the StorageClass case of the loop updates the templates, availableSCs, the CephFS flag and the endpoint as `SelectStorageClass` says, or panics on an unknown name with data |
| ExternalResources.Reconciler.CreateExternalStorageClusterConfigMap | pkg/controller/storagecluster/external_resources.go:189-205 | the method leaves exactly the store, and returns exactly the error, of `CreateIfAbsent` |
| ExternalResources.Reconciler.CreateExternalStorageClusterSecret | pkg/controller/storagecluster/external_resources.go:208-224 | the method leaves exactly the store, and returns exactly the error, of `CreateIfAbsent` |
| ExternalResources.Reconciler.CreateStorageClasses | pkg/controller/storagecluster/external_resources.go:175-179 | the method's loop leaves exactly the store, and returns exactly the outcome, of `CreateStorageClassesEffect` |
| ExternalResourcesProperties.StepFacts | pkg/controller/storagecluster/external_resources.go:148-171 | an iteration that goes on merges a StorageClass descriptor's data into the template it names, appends one entry per StorageClass descriptor to availableSCs, sets the CephFS flag for "cephfs", and sets the endpoint for "ceph-rgw" |
| ExternalResourcesProperties.TemplatesMerge | pkg/controller/storagecluster/external_resources.go:168-170 | copying data into a template keeps its name, adds every key of the data with the data's value, keeps the template's other keys, and leaves the other two templates alone |
| ExternalResourcesProperties.StepParameters | pkg/controller/storagecluster/external_resources.go:168-170 | an iteration overlays a template's parameters with the data of a descriptor for that template, and with nothing otherwise |
| ExternalResourcesProperties.StepsCephFSFlag | pkg/controller/storagecluster/external_resources.go:112 | after the loop, enableRookCSICephFS is set exactly when some StorageClass descriptor is named "cephfs" |
| ExternalResourcesProperties.StepsParameters | pkg/controller/storagecluster/external_resources.go:166-170 | after the loop each template's parameters are its initial parameters overlaid with the merged data of its descriptors |
| ExternalResourcesProperties.MergedParametersKeys | pkg/controller/storagecluster/external_resources.go:168-170 | a key is merged into a template exactly when some descriptor for that template carries it |
| ExternalResourcesProperties.MergedParametersLastWins | pkg/controller/storagecluster/external_resources.go:168-170 | the merged value of a key is the one of the last descriptor for that template carrying it |
| ExternalResourcesProperties.StepsAvailable | pkg/controller/storagecluster/external_resources.go:114 | after the loop availableSCs holds one entry per StorageClass descriptor, in descriptor order |
| ExternalResourcesProperties.DescribedStorageClassesRoles | pkg/controller/storagecluster/external_resources.go:171 | a template is listed for creation exactly when a StorageClass descriptor names it |
| ExternalResourcesProperties.StepsAppend | pkg/controller/storagecluster/external_resources.go:115 | running the loop over two lists in a row is running it over their concatenation |
| ExternalResourcesProperties.MaterializeStopsAtFirstFailure | pkg/controller/storagecluster/external_resources.go:129-133 | when descriptor i is the first whose creation fails or that panics, the pass ends with the state after it: later descriptors are not applied, and neither StorageClass creation nor the flag write happens |
| ExternalResourcesProperties.SecretBytesRoundTrip | pkg/controller/storagecluster/external_resources.go:137-141 | every value of a Secret built from a descriptor decodes back to the descriptor's string |
| ExternalResourcesProperties.CreateIfAbsentIdempotent | pkg/controller/storagecluster/external_resources.go:189-205 | applying create-if-absent twice leaves the same objects as applying it once |
| ExternalResourcesProperties.MaterializeSetsCephFSFlag | pkg/controller/storagecluster/external_resources.go:180 | after a successful pass the operator config's ROOK_CSI_ENABLE_CEPHFS is "true" exactly when some StorageClass descriptor is named "cephfs", and "false" otherwise |
| ExternalResourcesProperties.StepsEndpointUnchanged | pkg/controller/storagecluster/external_resources.go:157-161 | without a "ceph-rgw" StorageClass descriptor the endpoint is left as it was |
| ExternalResourcesProperties.StepsEndpoint | pkg/controller/storagecluster/external_resources.go:157-161 | the endpoint is the "endpoint" value of the last "ceph-rgw" descriptor with every `:` replaced by `_`; it contains no `:` and has that value's length |
| ExternalResourcesProperties.ChildObject | pkg/controller/storagecluster/external_resources.go:116-141 | the ConfigMap or Secret built from a descriptor is owned by the cluster and sits under the descriptor's kind, the cluster's namespace and the descriptor's name |
| ExternalResourcesProperties.StepWorld | pkg/controller/storagecluster/external_resources.go:115-147 | an iteration keeps every existing object unchanged, and the only object it can add is its descriptor's own: a ConfigMap carrying the data verbatim, or a Secret carrying each value's bytes |
| ExternalResourcesProperties.StepsWorld | pkg/controller/storagecluster/external_resources.go:115-147 | the loop keeps every existing object unchanged, adds no StorageClass, and each object it adds is the ConfigMap or Secret of the first descriptor with that kind and name, built from that descriptor's data |
| ExternalResourcesProperties.MaterializeStorageClassSource | pkg/controller/storagecluster/external_resources.go:175-184 | a StorageClass that was not there before a pass exists only if the loop completed, and it is one created by the StorageClass step |
| ExternalResourcesProperties.MaterializeCreatesOnlyDescribedStorageClasses | pkg/controller/storagecluster/external_resources.go:166-179 | every StorageClass a pass adds is named "<cluster>-<name>" after a StorageClass descriptor of a known name, and carries the merged data of the descriptors with that name; templates never referenced are never created |
| ExternalResourcesProperties.StepsCreateDescribed | pkg/controller/storagecluster/external_resources.go:166-179 | the StorageClass creation after a completed loop adds only templates named by a descriptor, with their merged parameters |
| ExternalResourcesProperties.TemplateName | pkg/controller/storagecluster/external_resources.go:150-164 | the template a known name selects is named after the cluster and that name |
| ExternalResourcesProperties.StepsHealthy | pkg/controller/storagecluster/external_resources.go:129-147 | with no backend faults no ConfigMap or Secret creation fails, whatever already exists |
| ExternalResourcesProperties.MaterializeHealthy | pkg/controller/storagecluster/external_resources.go:98-186 | with no backend faults a pass can fail only because the operator config is missing |
| ExternalResourcesProperties.StepChildPresent | pkg/controller/storagecluster/external_resources.go:123-147 | an iteration that goes on leaves its ConfigMap or Secret in the store |
| ExternalResourcesProperties.StepsChildrenPresent | pkg/controller/storagecluster/external_resources.go:115-147 | a completed loop leaves every described ConfigMap and Secret in the store |
| ExternalResourcesProperties.StepIdle | pkg/controller/storagecluster/external_resources.go:189-224 | an iteration whose ConfigMap or Secret already exists changes no object, whatever fails |
| ExternalResourcesProperties.StepsIdle | pkg/controller/storagecluster/external_resources.go:115-147 | when every described ConfigMap and Secret exists, the loop changes no object, whatever fails |
| ExternalResourcesProperties.CreateStorageClassesPresent | pkg/controller/storagecluster/external_resources.go:175-179 | a completed StorageClass creation leaves every listed template in the store |
| ExternalResourcesProperties.CreateStorageClassesIdle | pkg/controller/storagecluster/external_resources.go:175-179 | when every listed template exists, the StorageClass creation changes no object, whatever fails |
| ExternalResourcesProperties.StepsTemplateKeys | pkg/controller/storagecluster/external_resources.go:166-170 | the loop changes template parameters only, never their names |
| ExternalResourcesProperties.MaterializeSettledIdle | pkg/controller/storagecluster/external_resources.go:98-186 | a pass over a store where everything described is in place, and the flag holds the wanted value, changes no object, whatever fails |
| ExternalResourcesProperties.MaterializeSettles | pkg/controller/storagecluster/external_resources.go:98-186 | a successful pass leaves every described ConfigMap, Secret and StorageClass, and the wanted flag value, in place |
| ExternalResourcesProperties.MaterializeIdempotent | pkg/controller/storagecluster/external_resources.go:98-186 | running the bootstrap again after it succeeded changes no object, whatever the second run meets |
| ExternalResourcesProperties.DescribedStorageClassesUnknown | pkg/controller/storagecluster/external_resources.go:149-171 | a StorageClass descriptor of an unknown name puts a nil entry into availableSCs |
| ExternalResourcesProperties.CreateStorageClassesNil | pkg/controller/storagecluster/external_resources.go:175 | the StorageClass creation never completes over a list holding a nil entry |
| ExternalResourcesProperties.MaterializeUnknownStorageClassFails | pkg/controller/storagecluster/external_resources.go:149-171 | a StorageClass descriptor of an unknown name never lets the pass succeed |

Helpers without a row, whose facts the rows above state:
- `Templates.At`, `Templates.Merge` (the copy at lines 168-170), `TemplateKey` and `IsStorageClassFor`;
- `DescriptorMeta` (the `objectMeta` at lines 116-120) and `OwnerOf` (the `ownerRef` at lines 100-105);
- `DetailsKey`, `OperatorConfigKey`, `MapGet`, `MapGetBytes` and `InitialAcc`;
- `StepsUnfold`, `MapUnionAssociative`, `MapUnionEmpty`, `DivMod64` and `KeyOf`;
- the predicates `NamesCephFS`, `OwnedChild`, `IsChild`, `FirstChild`, `ChildrenPresent` and `Settled`, and the functions `Contribution`, `ChildKey`, `MergedParameters` and `DescribedStorageClasses`.

## Left out

- Logging (`reqLogger`, the `fmt.Sprintf` messages) and `context.TODO()`: they have no effect on the behaviour.
- The real Kubernetes client and the network. The store is an in-memory map with a call log. Update conflicts on a stale resource version are not modelled: an Update fails only by a planned fault or a missing object.
- Faults: the fault plan names, for each operation, the keys on which it fails. A planned fault hits every call of that operation on that key for the whole pass. A fault that hits one call and spares a later call on the same key is not modelled. An example is a failure of only the second Get of a StorageClass listed twice.
- `json.Unmarshal` at line 83 is a function given to the reconciler. The model fixes only that an empty or missing payload is a parse error. The JSON grammar is not modelled.
- `newStorageClasses` is not part of this model. It is taken to return three templates, named "<cluster>-cephfs", "<cluster>-ceph-rbd" and "<cluster>-ceph-rgw", each with an empty, non-nil parameter map, or an injected error. Provisioners, reclaim policies and the other StorageClass fields are left out.
- `createStorageClasses` is not part of this model. It is taken to create each listed template in order, create-if-absent as for ConfigMaps, to stop at the first error, and to panic on a nil entry.
- The owner reference keeps only the cluster's UID and name. Its APIVersion and Kind, and the other metadata fields, are left out.
- The package-level `externalRgwEndpoint` is a field of the reconciler. Its later use on the NooBaa resource is left out.
- Go's map iteration order is random. The loops over descriptor data take keys in an arbitrary order, and their contracts hold for every order.
- That a ConfigMap read back with no data has a nil `Data` map is taken from Kubernetes' JSON encoding, which omits empty maps.
- ExternalResources.Materialize: its own contract states only that objects stay under their keys. What a pass does is stated by the lemmas in ExternalResourcesProperties.
