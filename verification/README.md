# Service bindings: bind, unbind, rebind

A Dafny model of the Service Binding Operator: how a ServiceBinding is written
into workloads, taken out again, and moved when a workload resource mapping
changes. The model keeps the form of the code. Objects that are edited in place
are classes, loops are loops, and each is proved against functions on values;
the laws of the system are lemmas about those functions, over every document,
every run and every failure of the calls to the cluster.

## Layers

- `Documents`, `Entries`, `Pods`, `Views`, `Finding`: a workload as a JSON tree, a location
  as a path into it, the lists that are edited (env, envFrom, volumeMounts,
  volumes), the search for containers, and why edits of one list disturb neither
  the other lists nor the search.
- `Application`, `Anchors`: the application object with its working copy. Its
  loops read and write through handles on containers; a handle is a location.
- `Projection`, `Slots`, `Laws`, `Stored`, `Theorems`, `Pairs`, `Standard`: binding
  and unbinding one workload, as edits of lists, and the laws of whole passes that
  read a workload, edit it and store it: convergence, inverse, two bindings on one
  workload, changing secrets, containers matched twice. `Standard` shows that
  workloads with pod templates under the default mapping meet the hypotheses.
- `Contents`, `Delivery`, `Failing`: what a bound workload holds, field by field and
  from a whole reconcile; and exactly when passes fail and what a run then keeps.
- `Marks`: nil slices. Appending no variables to an empty env writes a nil slice,
  which is sent as null and dropped by the cluster. The stored document keeps a
  mark in its place; no pass sees the marks, so the laws, also those about
  sequences of passes, carry over to the documents that the cluster holds.
- `Templates`, `Webhook`: validation and choice of mapping templates, and the
  annotation of bindings before a mapping changes.
- `Pipeline`, `Protocol`, `Reconciler`: flow control and the two flows of handlers;
  the cluster as a state machine with steps for mappings (creation, update,
  deletion), for the binding (creation, deletion) and for reconciling, in which
  every call may fail; and the reconciler as it works on its objects, running the
  handlers of its flow up to the first stop and refining that machine.
- `Signs`, `Rebinding`, `Lifecycle`, `Finalizing`, `References`, `Cycle`, `Closing`:
  a sign of a binding is a volume or mount of its name, a reference to its secret,
  or a variable. Invariants over all runs, what a rebind achieves, what the
  finalizer guarantees, when a change of the mapping leaves signs behind, and what
  is left after create and delete. All of it holds for each kind of sign, and so
  in file mode and in environment mode.
- `PodRealms`, `Witness`: the same from the beginning for workloads with pod
  templates, and a deployment in a cluster at which the hypotheses hold and the
  failing properties fail.
- `Annotations`, `Definitions`, `Readings`, `Collect`, `Collecting`, `Secrets`: parsing
  binding annotations, reading and flattening values, the handlers that collect,
  provisioned secrets with their cache, renaming, and the secret that is finally
  projected.

## Facts of the code that the model keeps

- Unbind removes variables by secret key, although projection adds them under the
  variable name. `Theorems.Undone` says exactly when this undoes a projection, and
  `Pairs.Independent` exactly when another binding is left as if alone.
- SERVICE_BINDING_ROOT is never removed. Where another binding set it first, the
  variables of a file-mode binding stand behind it (`Witnesses.RootMoves`).
- A failed lookup of applications, and a status without a secret, end Unbind
  quietly. A deleted binding then loses its finalizer while workloads stay bound
  (`Finalizing.LostSecret`, with an input in `Witnesses.LostSecretHere`).
  `Finalizing.GuardKeepsIff` says exactly when a reconcile does this.
- A refused application write persists the annotation as already cleared; a second
  mapping update overwrites a pending annotation; a mapping that does not accept
  the workload's resource annotates nothing, and neither does the creation or
  deletion of a mapping. Each strands signs for good (`Lifecycle`, with inputs in
  `Witness`). A step on the mapping keeps the signs in place if and only if the
  binding notices it with nothing pending or no sign is foreign to the mapping
  then in force (`Rebinding.ChangeKeepsIff`). A reconcile does if and only if it
  clears no annotation or its writes reach every workload with a sign in a list
  foreign to the stored mapping (`Rebinding.ReconcileKeepsIff`).
- A secret that cannot be persisted does not stop a run (`Secrets.BindingContext.PreFlightCheck`).
- An annotated secret among the services ends DirectSecretReference, so that later
  secrets are passed over (`Collecting.Collection.DirectSecretReference`).
- Acceptance compares with `resource.group` even for the core group, so mappings of
  core resources are never accepted (`Templates.AcceptsIffChosen`).
- The containers path of a binding is appended as soon as one container has another
  path, also when a different container has exactly that path.
- A `[*]` that meets an empty list ends the evaluation of a containers path with what
  was found before it (`Finding.EmptyListCuts`).
- Unbinding a workload without containers panics, which is a retry for ever: the
  annotation and the finalizer stay (`Failing.Obstructed`).
- Reading a provisioned secret that decodes only in part leaves a partial cache, so
  that a second reading differs from the first (`Secrets.SteadyIff`).

## Model

| member | source | states |
|---|---|---|
| `Documents.PutGet` | pkg/reconcile/pipeline/mapping.go:162-195 | reading the location of a successful write gives back exactly what was written |
| `Documents.PutOther` | pkg/reconcile/pipeline/mapping.go:162-195 | a write changes nothing at any location that is neither above nor below its own, although maps are created on the way |
| `Documents.PutPut` | pkg/reconcile/pipeline/mapping.go:162-195 | a second write to the same location makes the first one invisible |
| `Documents.GetPut` | pkg/reconcile/pipeline/mapping.go:162-195 | writing back what is there changes nothing |
| `Documents.Cover` | pkg/reconcile/pipeline/context/impl.go:489-498 | two stored documents that agree at a set of lists and everywhere outside them are equal |
| `Documents.WalkEnds` | vendor/k8s.io/apimachinery/pkg/apis/meta/v1/unstructured/helpers.go:53-70 | a lookup ends at the first value that it cannot pass, with an access error exactly where a key meets something that is neither a map nor null |
| `Documents.CanPutIff` | pkg/reconcile/pipeline/mapping.go:162-195 | a write goes through if and only if on the way every value that is there is a map, or a list with the position, and only keys are missing |
| `Entries.ApplyEffect` | pkg/reconcile/pipeline/mapping.go:197-381 | an edit of a readable and writable list succeeds, leaves exactly the edited entries there, and touches no location that is unrelated to it |
| `Entries.ReadNorm` | pkg/reconcile/pipeline/context/impl.go:489-498 | the write-back through ToUnstructured does not change what a list reads as, whichever of the two list representations it had, nil slices included |
| `Pods.PodsAlike` | pkg/reconcile/pipeline/context/application.go:44-97 | the containers found depend only on the shape of the locations that the search visits |
| `Pods.PutSteady` | pkg/reconcile/pipeline/context/application.go:44-97 | an edit that is neither above a missing visited location nor at or above a visited one does not move the containers |
| `Finding.FindsExactly` | pkg/reconcile/pipeline/context/application.go:44-114 | for any mapping: containers are found if and only if the paths lead to nothing but maps and one of these has a wanted name; then exactly the maps with a wanted name are found, each with the field paths of the mapping entry that led to it |
| `Finding.EvalComplete` | vendor/k8s.io/client-go/util/jsonpath/jsonpath.go:290-344 | the result of a path is exactly what the document has along it, unless a `[*]` meets an empty list on the way |
| `Finding.EmptyListCuts` | vendor/k8s.io/client-go/util/jsonpath/jsonpath.go:316-328 | an input: items of the lists after an empty one are not found |
| `Views.ApplyFollows` | pkg/reconcile/pipeline/mapping.go:197-381 | editing one of several separate lists acts on the view of the document as on that list alone, and keeps all other lists, containers and locations |
| `Views.Determined` | pkg/reconcile/pipeline/context/impl.go:489-502 | a stored document is determined by the document it was edited from and the contents of the edited lists |
| `Projection.ProjectRefines` | pkg/reconcile/pipeline/handler/project/impl.go:81-187 | BindingsAsEnv followed by BindingsAsFiles on an application succeeds and refines the same edits on the view of its lists |
| `Projection.UnbindRefines` | pkg/reconcile/pipeline/handler/project/impl.go:205-231 | Unbind on an application succeeds and refines the same removals on the view of its lists |
| `Failing.UnbindsIff` | pkg/reconcile/pipeline/handler/project/impl.go:205-231 | for separate lists Unbind is done if and only if containers are found and the lists it looks at can be read, and panics if and only if none are found |
| `Failing.AsEnvIff` | pkg/reconcile/pipeline/handler/project/impl.go:81-138 | BindingsAsEnv succeeds if and only if there is nothing to do, or containers are found whose lists can be read and written; without containers exactly for a secret path |
| `Failing.AsFilesIff` | pkg/reconcile/pipeline/handler/project/impl.go:140-187 | the same for files and the list of volumes |
| `Failing.EntryDecodes` | pkg/converter/unstructured.go:35-71 | which entries of each kind of list can be decoded: maps whose name, value and mountPath are texts, and whose valueFrom, secret and secretRef are maps |
| `Applications.NestedResources` | pkg/converter/unstructured.go:35-71 | the reader over both list representations: not found, the decoded entries in order, or an error, exactly as the list reads |
| `Applications.Application.SetSlice` | pkg/reconcile/pipeline/mapping.go:162-195 | the loop that walks and creates maps is an atomic write: on error the whole document is unchanged, on success it is one put of the list |
| `Applications.Application.AddRaw` | pkg/reconcile/pipeline/mapping.go:197-209 | appending refines the append edit, error cases included; appending nothing to an absent or empty list writes a nil slice |
| `Applications.Application.Remove` | pkg/reconcile/pipeline/mapping.go:228-245 | the loop that cuts out the first entry of a name (also for envFrom, mounts and volumes) refines the drop edit; a name that is not there is not rewritten |
| `Applications.Application.AddOrReplace` | pkg/reconcile/pipeline/mapping.go:279-362 | the loops of AddVolumeMount and AddVolume replace every entry of the name or append one |
| `Applications.Application.AddEnvVars` | pkg/reconcile/pipeline/mapping.go:211-226 | variables of the same names are removed, errors ignored, and the new ones appended in order, or a nil slice is left when there is nothing |
| `Applications.Application.AddEnvFromVar` | pkg/reconcile/pipeline/mapping.go:247-258 | the reference is removed, errors ignored, and appended |
| `Applications.Application.MountPath` | pkg/reconcile/pipeline/mapping.go:122-157 | SERVICE_BINDING_ROOT is taken from the first variable of that name or appended, and the mount path is below it |
| `Applications.Application.BindablePods` | pkg/reconcile/pipeline/context/application.go:44-97 | the nested loops over paths, results and maps collect exactly the containers of the specification, with its errors |
| `Applications.Application.ForEachContainer` | pkg/reconcile/pipeline/handler/project/impl.go:206-231 | the loop over containers, with early exit, refines the sweep over containers |
| `Applications.Application.BindAsEnv` | pkg/reconcile/pipeline/handler/project/impl.go:81-138 | on one application: outcome and document of the specified projection as environment, for every document |
| `Applications.Application.BindAsFiles` | pkg/reconcile/pipeline/handler/project/impl.go:140-187 | on one application: outcome and document of the specified projection as files, for every document |
| `Applications.Application.Unbind` | pkg/reconcile/pipeline/handler/project/impl.go:205-231 | on one application: done, failed, or the panic on a missing pod spec, with the document each leaves |
| `Anchors.SeparatedAnchors` | pkg/reconcile/pipeline/context/application.go:90-114 | for a mapping whose edited lists never lie at or above its containers, locations stand for container maps in every document |
| `Anchors.PodSeparated` | apis/spec/v1beta1/clusterworkloadresourcemapping_types.go:93-111 | mappings over the container lists of pod templates, the default among them, are of that kind |
| `Theorems.Converges` | pkg/reconcile/pipeline/handler/project/impl.go:81-187 | for every workload without duplicate names: the third pass stores what the second stored; without environment mappings the second stores what the first did; with them the second only reorders variables |
| `Contents.Delivered` | pkg/reconcile/pipeline/handler/project/impl.go:81-187 | after a pass every container shows each mapped variable once, with the name and key of its secret; in file mode every volume of the binding's name shows the secret and every mount of it has the path root, slash, name, the root being the first SERVICE_BINDING_ROOT or /bindings; in environment mode one reference names the secret; all other entries keep value and order |
| `Deliveries.Arrives` | controllers/common.go:81-124 | from the binding to the fields of stored workloads with pod templates: after a reconcile with successful calls exactly the containers whose names are asked for have mounts, variables or references of the collected secret, the others are unchanged, the volume shows the secret, and the status records it |
| `Witnesses.ArrivesHere` | controllers/common.go:81-124 | an input: the binding arrives at both containers of a deployment |
| `Marks.BoundUnseen` | vendor/k8s.io/apimachinery/pkg/runtime/converter.go:735-740 | binding a workload and binding it as the cluster holds it, with the fields of nil slices dropped, leave the same workload in the cluster |
| `Marks.UnboundUnseen` | vendor/k8s.io/apimachinery/pkg/runtime/converter.go:735-740 | the same for unbinding |
| `Marks.HeldConverges` | pkg/reconcile/pipeline/handler/project/impl.go:81-187 | convergence for what the cluster holds between passes: from the second pass on nothing changes, and without mappings not even the second pass changes anything |
| `Marks.HeldReleased` | pkg/reconcile/pipeline/handler/project/impl.go:81-238 | what the cluster holds after binding and then unbinding is what the two passes in a row leave, so that Undone speaks about the cluster too |
| `Marks.HeldPair` | pkg/reconcile/pipeline/handler/project/impl.go:81-238 | the same for binding A, binding B and unbinding A, so that Independent does |
| `Marks.HeldRun` | vendor/k8s.io/apimachinery/pkg/runtime/converter.go:735-740 | over any sequence of binding and unbinding passes, by any bindings, the cluster holds what the passes in a row leave, without the fields of nil slices |
| `Marks.HeldSecrets` | pkg/reconcile/pipeline/handler/project/impl.go:81-187 | the same for a sequence of secrets, and every list reads as in the workload that Forgets, LatestVolume and LatestReference speak about |
| `Pairs.EnvSeparates` | pkg/reconcile/pipeline/handler/project/impl.go:215-221 | bind A, bind B, unbind A: up to SERVICE_BINDING_ROOT the environment is that of B alone if and only if A's variables that B does not overwrite are removed by key and no key of A names a variable of B or of the container |
| `Pairs.EnvExactly` | pkg/reconcile/pipeline/mapping.go:122-157 | it is exactly that of B alone if and only if, in addition, the root does not move: it was set before, A adds none, or B is in file mode without mappings |
| `Pairs.Independent` | pkg/reconcile/pipeline/handler/project/impl.go:81-238 | for any modes and mappings: volumes and everything outside the lists are as under B alone; mounts, references and environment of each container are so exactly under stated conditions; in file mode the stored documents are equal if and only if these hold in every container |
| `Witnesses.RootMoves` | pkg/reconcile/pipeline/mapping.go:122-157 | an input: after A the variable of B stands behind the root instead of before it, and the documents differ |
| `Theorems.Undone` | pkg/reconcile/pipeline/handler/project/impl.go:81-238 | bind then unbind restores volumes, mounts and references in value and order and every other location; the environment comes back, up to SERVICE_BINDING_ROOT, if and only if removal by secret key catches exactly the added variables |
| `Witnesses.VariableStays` | pkg/reconcile/pipeline/handler/project/impl.go:215-221 | an input: a variable of a deployment that is not named like its key is still there after unbinding |
| `Theorems.Forgets` | pkg/reconcile/pipeline/handler/project/impl.go:81-187 | over any sequence of secrets in file mode the stored workload is that of the last secret alone: of one pass with it, or of two when variables are mapped and other secrets came before |
| `Theorems.LatestVolume` | pkg/reconcile/pipeline/mapping.go:334-362 | in file mode, with any mappings, after any sequence of secrets exactly one volume has the binding's name, the secretName in it is the latest secret, and all others keep value and order |
| `Theorems.LatestReference` | pkg/reconcile/pipeline/mapping.go:247-277 | in environment mode, with any mappings, every secret of the sequence, the latest included, is referenced exactly once: older references stay |
| `Theorems.MatchedTwice` | pkg/reconcile/pipeline/context/application.go:44-97 | two selections that find the same containers, in any order and any number of times, store the same workload when binding and when unbinding |
| `Standard.PodWorkable` | pkg/reconcile/pipeline/context/application.go:44-97 | every stored workload with a pod template whose lists can be read satisfies the hypotheses of the laws above |
| `Standard.DefaultMapping` | pkg/reconcile/pipeline/context/impl.go:542-616 | without a mapping the template is the default one, and a containers path that repeats a default path is appended |
| `Standard.RepeatedPath` | pkg/reconcile/pipeline/context/impl.go:594-608 | repeating a default path in containersPath changes neither what binding nor what unbinding stores |
| `Finding.DefaultFinds` | pkg/reconcile/pipeline/context/application.go:44-97 | without a mapping the containers found are, in order, the items of containers and then of initContainers whose name field is one of the names asked for, or all of them if no names are; nothing is found if there are none |
| `Witnesses.SomeDeployment` | pkg/reconcile/pipeline/context/application.go:44-97 | a deployment with a container, an init container and no lists meets all hypotheses about workloads, under the default mapping and under mappings to either list |
| `Witnesses.SomeCluster` | controllers/common.go:81-124 | a cluster with that deployment, a new binding and any of these mappings meets the hypotheses about the beginning of a run |
| `Templates.FieldPath` | pkg/reconcile/pipeline/mapping.go:77-117 | the accepting checker returns the in-order field names of the tree, or an error exactly when the tree has a node of another kind |
| `Templates.PathErrors` | apis/spec/v1beta1/clusterworkloadresourcemapping_webhook.go:109-142 | the rejecting checker reports an error exactly when the tree has a node of another kind |
| `Templates.Validate` | apis/spec/v1beta1/clusterworkloadresourcemapping_webhook.go:54-107 | no errors are reported if and only if every restricted path and container path is well formed and versions are distinct |
| `Templates.ValidIff` | apis/spec/v1beta1/clusterworkloadresourcemapping_webhook.go:54-142 | a mapping is valid if and only if its versions are distinct and not blank, no node of the tree of a restricted path is anything but a field or a list, at any depth, and every container has a path that parses |
| `Templates.FromTemplate` | pkg/reconcile/pipeline/mapping.go:41-75 | the conversion loop yields the containers in order with default field paths, or an error |
| `Templates.Converted` | pkg/reconcile/pipeline/mapping.go:41-90 | each container keeps its place and path and gets the fields of its own name, env and volumeMounts paths, or the defaults; volumes likewise |
| `Templates.FieldsConcat` | pkg/reconcile/pipeline/mapping.go:95-117 | the field path of a list of nodes is the concatenation of those of its parts |
| `Templates.AcceptedConverts` | pkg/reconcile/pipeline/mapping.go:41-117 | every template that the webhook accepts is converted without error |
| `Templates.SelectIs` | pkg/reconcile/pipeline/context/impl.go:576-588 | selection takes the first exact match, else the last wildcard, else the fallback |
| `Templates.OrderFree` | pkg/reconcile/pipeline/context/impl.go:576-588 | for mappings that the webhook accepts the resulting workload mapping does not depend on the order of versions |
| `Templates.AcceptsGVR` | apis/spec/v1beta1/clusterworkloadresourcemapping_webhook.go:144-160 | the scan decides whether the mapping is named for the resource and offers its version or a wildcard |
| `Templates.AcceptsIffChosen` | apis/spec/v1beta1/clusterworkloadresourcemapping_webhook.go:144-160 | for a mapping named for the resource, acceptance holds if and only if the template comes from the mapping and the group is not the core group |
| `Templates.WorkloadResourceTemplate` | pkg/reconcile/pipeline/context/impl.go:542-616 | the selection loop, the default containers and the appended containers path |
| `Templates.OwnPath` | pkg/reconcile/pipeline/context/impl.go:594-608 | the containers path of a binding adds one container with default field paths if and only if some container of the template has another path |
| `Standard.EmptyTemplate` | pkg/reconcile/pipeline/context/impl.go:590-592 | a template without containers stands for containers and initContainers of the pod template, with their default field paths |
| `Templates.ValidResolves` | pkg/reconcile/pipeline/context/impl.go:542-616 | a mapping that the webhook accepted always yields a workload mapping |
| `Protocol.MaybeAddFinalizer` | apis/common.go:22-31 | the finalizer is appended unless present, and the result says which |
| `Protocol.MaybeRemoveFinalizer` | apis/common.go:33-42 | the first occurrence of the finalizer is removed, and the result says whether there was one |
| `Reconcilers.UnbindEach` | pkg/reconcile/pipeline/handler/project/impl.go:205-231 | the loop over applications: all done, the first failure, or the first panic |
| `Reconcilers.BindEachAsEnv` | pkg/reconcile/pipeline/handler/project/impl.go:106-138 | the loop over applications stops at the first failure and otherwise projects all of them |
| `Reconcilers.BindEachAsFiles` | pkg/reconcile/pipeline/handler/project/impl.go:140-187 | the loop over applications stops at the first failure and otherwise projects all of them |
| `Reconcilers.Context.Applications` | pkg/reconcile/pipeline/context/impl.go:253-327 | applications are fetched once, with the mapping in force, in the order of the cluster |
| `Reconcilers.Context.Unbind` | pkg/reconcile/pipeline/handler/project/impl.go:189-238 | the handler leaves documents, binding and flow in the state of the specified unbind pass, quiet ends, panic and cleared annotation included, and what it called on flow control is possible for it |
| `Reconcilers.Context.PreFlightCheck` | pkg/reconcile/pipeline/handler/project/impl.go:14-52 | the run is halted, or the secret is recorded and applications are found, or an unpersisted secret lets it go on; its calls on flow control are possible for it |
| `Reconcilers.Context.BindingsAsEnv` | pkg/reconcile/pipeline/handler/project/impl.go:81-138 | the handler binds every application, fetching them if nobody did, or stops with an error in the state of the specified pass; its calls are possible for it |
| `Reconcilers.Context.BindingsAsFiles` | pkg/reconcile/pipeline/handler/project/impl.go:140-187 | the same for files |
| `Reconcilers.Context.PostFlightCheck` | pkg/reconcile/pipeline/handler/project/impl.go:54-60 | the context is in the state of the specified projecting pass, with a scheduled repetition exactly for a label selector |
| `Reconcilers.Context.Handle` | pkg/reconcile/pipeline/builder/pipeline.go:82-110 | any handler of either flow, run in its turn, ends the run in the state of the specified pass or leaves the state that the next handler needs, and what it reports is possible for it |
| `Reconcilers.InvokeHandler` | pkg/reconcile/pipeline/builder/pipeline.go:73-80 | with a panic turned into a retry, the flow status is that of a possible conduct of the handler |
| `Reconcilers.Context.WriteBack` | pkg/reconcile/pipeline/context/impl.go:487-513 | changed or never copied applications are written in turn up to the first refusal |
| `Reconcilers.Context.PersistBinding` | pkg/reconcile/pipeline/context/impl.go:411-429 | status first, then metadata |
| `Reconcilers.Context.Close` | pkg/reconcile/pipeline/context/impl.go:482-516 | no application is written after an error, and a refused write still persists the binding as it is in memory |
| `Reconcilers.Process` | pkg/reconcile/pipeline/builder/pipeline.go:21-45 | the loop over the handlers of the flow runs them up to the first stop, with conducts that are possible for them, then Close; the result is the specified pass; without error a retry means an unbinding request or a label selector, and if unbinding is requested one handler runs |
| `Reconcilers.Reconcile` | controllers/common.go:81-124 | the whole reconcile refines the protocol step on the cluster, finalizer handling included |
| `Webhooks.SerializeGroup` | apis/webhooks/validator.go:94-130 | exactly the relevant bindings before the first one that cannot be classified or written are annotated |
| `Webhooks.ValidateUpdate` | apis/webhooks/validator.go:62-178 | an update is admitted if and only if it is valid and both groups of bindings can be listed, classified and written; then exactly the bindings on accepted resources carry the old mapping, and nothing else of any binding changed |
| `Webhooks.EachBinding` | apis/webhooks/validator.go:81-178 | seen from one binding, any outcome of the loops is an update, a late refusal or a refusal of the protocol |
| `Rebinding.ReconcileApps` | controllers/common.go:81-124 | under all failures a reconcile leaves a workload alone, or stores its unbound or bound form at the mapping in force |
| `Rebinding.AnnotationCleared` | pkg/reconcile/pipeline/context/impl.go:487-513 | an annotation leaves the stored binding if and only if the reconcile comes to unbind, every workload could be unbound and the binding is stored; then a workload is stored unbound if no needed write up to it was refused, and is as before otherwise |
| `Signs.ProjectSign` | pkg/reconcile/pipeline/handler/project/impl.go:81-187 | through a projecting pass a list of the site shows a sign at least once if the binding leaves it, and every other list shows it as often as before |
| `Signs.UnbindSign` | pkg/reconcile/pipeline/handler/project/impl.go:205-231 | through an unbinding pass a list of the site that showed a removed sign at most once shows none, and every other list shows it as often as before |
| `Rebinding.ChangeKeepsIff` | apis/webhooks/validator.go:53-178 | creating, updating or deleting a mapping keeps a binding's signs in place if and only if the binding notices an update with nothing pending, or no sign is in a list foreign to the mapping then in force |
| `Rebinding.ReconcileKeepsIff` | pkg/reconcile/pipeline/context/impl.go:482-516 | a reconcile, under all failures, keeps a binding's signs in place if and only if it does not clear a pending annotation, or no needed write is refused up to each workload with a sign in a list foreign to the stored mapping |
| `Rebinding.StepInPlace` | apis/webhooks/validator.go:53-178 | one orderly step keeps every sign of the binding at places of the mapping in force, at most once per list: volumes and mounts, references, or variables |
| `Rebinding.RunInPlace` | apis/webhooks/validator.go:53-178 | the same over every orderly run of steps on mappings, creation and deletion of the binding, and reconciles with arbitrary failures |
| `PodRealms.PodRuns` | apis/webhooks/validator.go:53-178 | the same from the beginning, for workloads with pod templates that show no sign of the binding yet, and mappings over their container lists with volumes in any other field of the pod spec |
| `Lifecycle.UnbindStores` | pkg/reconcile/pipeline/handler/project/impl.go:189-238 | with successful calls an unbinding run stores every workload unbound with the secret on record, clears the annotation, and asks for a retry exactly if there was one |
| `Lifecycle.UnbindRun` | pkg/reconcile/pipeline/handler/project/impl.go:189-238 | afterwards no list of any workload shows the sign |
| `Lifecycle.ProjectStores` | pkg/reconcile/pipeline/handler/project/impl.go:81-187 | with successful calls a projecting run stores every workload bound, records the secret that it persisted, and is repeated exactly for a label selector |
| `Lifecycle.ProjectRun` | pkg/reconcile/pipeline/handler/project/impl.go:81-187 | afterwards every list of the mapping in force that can show a sign left by the binding shows it once, and no other list does |
| `Lifecycle.Rebound` | apis/webhooks/validator.go:81-178 | annotate, unbind, rebind: afterwards each sign that the binding leaves is exactly at the places of the new mapping, in file mode and in environment mode |
| `Witnesses.ReboundHere` | apis/webhooks/validator.go:81-178 | an input: the sign moves from the container to the init container |
| `Lifecycle.OrphanStays` | pkg/reconcile/pipeline/context/impl.go:542-616 | signs in a list that no usable mapping designates are never removed, under all failures |
| `Lifecycle.SecondUpdateStrands` | apis/webhooks/validator.go:114-122 | a second update while an annotation is pending strands the signs of the first for good |
| `Witnesses.SecondUpdateHere` | apis/webhooks/validator.go:114-122 | an input: two updates in a row |
| `Lifecycle.UnnoticedUpdateStrands` | apis/webhooks/validator.go:109-112 | an update of a mapping that did not accept the resource strands signs at the default places for good |
| `Witnesses.UnnoticedUpdateHere` | apis/webhooks/validator.go:109-112 | an input: a mapping without versions is replaced |
| `Lifecycle.CreationStrands` | apis/webhooks/validator.go:53-60 | the creation of a mapping, which annotates nothing, strands signs at the default places for good |
| `Witnesses.CreationHere` | apis/webhooks/validator.go:53-60 | an input: the first mapping of a resource is created |
| `Lifecycle.DeletionStrands` | apis/webhooks/validator.go:77-79 | the deletion of a mapping, which annotates nothing, strands signs at places that the default template does not have |
| `Witnesses.DeletionHere` | apis/webhooks/validator.go:77-79 | an input: a mapping with volumes in another field is deleted |
| `Lifecycle.RefusedWriteStrands` | pkg/reconcile/pipeline/context/impl.go:503-510 | whenever ReconcileKeepsIff fails it is for good: the annotation is cleared all the same, and a workload that the writes do not reach keeps its signs foreign to the stored mapping under all later reconciles |
| `Witnesses.RefusedWriteHere` | pkg/reconcile/pipeline/context/impl.go:503-510 | an input: the write of the unbound deployment is refused |
| `Lifecycle.NeverRebinds` | pkg/reconcile/pipeline/handler/project/impl.go:201-204 | a binding annotated before it recorded a secret never projects, over any number of reconciles |
| `Failing.Obstructed` | pkg/reconcile/pipeline/handler/project/impl.go:205-238 | unbinding with a workload in the way, without containers or with an unreadable list, ends with an error, and workloads, annotation, secret and finalizers stay whatever becomes of the writes; the error comes with a retry exactly if the first such workload has no containers, where the handler panics, or the binding could not be stored |
| `Failing.Containerless` | pkg/reconcile/pipeline/handler/project/impl.go:106-117 | a workload without containers and without secret path ends a projecting run with an error and without a retry; no workload is written, and the secret is recorded |
| `Failing.LookupFails` | pkg/reconcile/pipeline/handler/project/impl.go:14-60 | a failed lookup ends a projecting run before any workload is touched, with an error and a retry exactly if the secret was persisted, and otherwise with a repetition exactly for a label selector, unless the binding could not be stored |
| `Failing.HaltedEarly` | pkg/reconcile/pipeline/builder/pipeline.go:21-45 | a run that is halted before projection leaves workloads alone, is reported as its handler did, and stores a secret that was recorded |
| `References.StaleStays` | pkg/reconcile/pipeline/handler/project/impl.go:222-225 | references to a secret that the status no longer names are never touched again, over every run |
| `Finalizing.ProjectsOnlyFinalized` | controllers/common.go:98-108 | a workload of a deleted or annotated binding is only ever unbound; any other change happens under a stored finalizer |
| `Finalizing.FinalizerLeaves` | controllers/common.go:109-117 | the finalizer leaves only under a deletion timestamp after a run without retry and error; if the handler had ended quietly every workload is as before, otherwise signs that were in place are gone |
| `Finalizing.GuardKeepsIff` | controllers/common.go:81-124 | a reconcile keeps the signs guarded by the finalizer if and only if no workload shows one, or it does not release the binding: it is not deleted, the finalizer is not there exactly once, unbinding does not end quietly, or a call that is still made fails |
| `Finalizing.RunGuarded` | controllers/common.go:81-124 | over every run in which no binding is released while a workload shows its sign, each kind of sign in a workload is guarded by the finalizer, and a binding created anew finds none |
| `Finalizing.DeletedGone` | controllers/common.go:109-117 | with successful calls the finalizer of every deleted binding is gone after two reconciles, and after one exactly if no annotation is pending or unbinding ends quietly; unless it ends quietly no list shows the sign, be it volume, mount, reference or variable |
| `Cycles.UndoneRun` | controllers/common.go:81-124 | reconcile a new binding, delete it, reconcile: the binding is gone and every workload is restored as Undone says; the secret that is removed is the one that the first reconcile persisted and recorded |
| `Witnesses.LostSecretHere` | pkg/reconcile/pipeline/handler/project/impl.go:201-204 | an input: the deployment stays bound although the binding is gone |
| `Finalizing.LostSecret` | pkg/reconcile/pipeline/handler/project/impl.go:201-204 | if the first status write fails and the binding is deleted next, the finalizer goes and the workloads stay bound |
| `Pipelines.InvokeConduct` | pkg/reconcile/pipeline/builder/pipeline.go:73-80 | the calls of a handler in turn, and a retry with an error if it panics |
| `Pipelines.ErrorStops` | pkg/reconcile/pipeline/builder/pipeline.go:82-110 | no handler of either flow leaves an error without a stop; only Unbind and PreFlightCheck stop without an error |
| `Pipelines.ProcessHandlers` | pkg/reconcile/pipeline/builder/pipeline.go:21-45 | the handlers that run are a prefix that ends at the first stop; Close is called exactly once per obtained context; the result is the last status or a retry with an error |
| `Pipelines.RunEnds` | pkg/reconcile/pipeline/builder/pipeline.go:82-110 | how a run of either flow can end: a retry without error comes from Unbind or a label selector, and if unbinding is requested nothing but Unbind runs |
| `Closings.ReadyMeansWritten` | pkg/reconcile/pipeline/context/impl.go:482-516 | once the status is stored, Ready holds if and only if there was no error and no needed write was refused, and then every changed application is stored |
| `Collect.Collector.CollectItems` | pkg/reconcile/pipeline/handler/collect/impl.go:244-270 | in any order of map keys: the items added belong to distinct leaves; errors, each with a stop, are reported if and only if a map holds nil; without nil no leaf is missed |
| `Collect.Collector.CollectBinding` | pkg/reconcile/pipeline/handler/collect/impl.go:86-94 | the same for a bound value; it panics if and only if a root key holds nil, and other values than maps are a retry |
| `Collect.NamesJoin` | pkg/reconcile/pipeline/handler/collect/impl.go:248-268 | item names are the keys on the way joined by underscores |
| `Collect.DigitsDecimal` | pkg/reconcile/pipeline/handler/collect/impl.go:260-267 | the index of a slice element is written as the decimal numeral of it |
| `Collect.ElementNames` | pkg/reconcile/pipeline/handler/collect/impl.go:260-267 | elements of a slice are items of different names |
| `Definitions.MapOrNothing` | pkg/reconcile/pipeline/handler/collect/impl.go:77-91 | a definition yields a map, or nothing exactly when it is optional and its path finds nothing, which is when it is skipped |
| `Definitions.Apply` | pkg/binding/definition.go:67-374 | the Apply methods of all six kinds of definitions, with their error cases |
| `Readings.MapOfFields` | pkg/binding/definition.go:188-247 | a map definition yields exactly the fields of the named object, decoded for a secret and as they are for a config map, under their keys or the source field under the output name; it fails if and only if a field is no text or one that is taken cannot be decoded |
| `Readings.TextOfField` | pkg/binding/definition.go:122-169 | a string definition over data yields that field alone, decoded for a secret; it fails if and only if it is missing, no text, or cannot be decoded |
| `Readings.ObjectNeeded` | pkg/binding/definition.go:122-222 | without exactly one name at the path, or without data in the named object, either fails |
| `Readings.SingleValue` | pkg/binding/definition.go:74-104 | plain definitions yield their value or the only one at the path, map definitions (lines 264-290) the map that it is |
| `Readings.NothingFound` | pkg/binding/definition.go:86-92 | a path that finds nothing yields nothing for an optional definition of any kind, and otherwise an error |
| `Readings.SliceOfMaps` | pkg/binding/definition.go:307-343 | a definition over slices of maps maps what the source key of each map shows to its source value, at any nesting, the last map winning |
| `Readings.SliceOfStrings` | pkg/binding/definition.go:360-393 | a definition over slices of strings yields the texts, or the source values of the maps, at any nesting, in order and without a gap |
| `Definitions.CopyFields` | pkg/binding/definition.go:224-247 | in any order of fields: the copied fields, or an error exactly when one of them cannot be decoded |
| `Definitions.CollectSourceValues` | pkg/binding/definition.go:376-393 | the recursive collector flattens nested slices in order and keeps texts, or entries of maps, only |
| `Definitions.CollectSourceValuesWithKey` | pkg/binding/definition.go:329-343 | the recursive collector merges keyed values, later ones winning |
| `Definitions.Build` | pkg/binding/annotationmapper.go:84-163 | which definition an annotation becomes; one that reads the resource has a path with balanced braces, one that reads other objects names their kind, and unrecognised values become plain ones |
| `Readings.SpelledOut` | pkg/binding/annotationmapper.go:84-163 | for an annotation text with every option: which definition it becomes for each element and object type, with path, keys and optionality, or an error |
| `Readings.Abbreviated` | pkg/binding/model.go:45-139 | for texts with a path alone, with an object type, and with a source key: the definition that the defaults give |
| `Readings.PathNeeded` | pkg/binding/model.go:59-68 | options without a path are an error |
| `Readings.WhichAnnotations` | pkg/binding/annotationmapper.go:50-69 | which annotation names are about bindings, and which are an error |
| `Definitions.CollectDefinition` | pkg/reconcile/pipeline/handler/collect/impl.go:77-94 | one definition is applied and flattened; it reports nothing if and only if it applies without nil, panics if and only if a root key holds nil, and the branch for data that is not a map is never taken |
| `Collecting.Collection.PreFlight` | pkg/reconcile/pipeline/handler/collect/impl.go:33-39 | a retry exactly if the services cannot be read |
| `Collecting.Collection.ProvisionedService` | pkg/reconcile/pipeline/handler/collect/impl.go:99-134 | the secrets that services name are added in order, with a retry exactly if one is wanted and cannot be had |
| `Collecting.ProvidedInOrder` | pkg/reconcile/pipeline/handler/collect/impl.go:99-134 | the secrets added are those named by services, all of them and in the order of the services |
| `Collecting.UnprovidedIff` | pkg/reconcile/pipeline/handler/collect/impl.go:104-132 | when a secret is wanted and cannot be had: a name that is no text or cannot be read, or none where the definition promises one or cannot be read |
| `Collecting.Collection.DirectSecretReference` | pkg/reconcile/pipeline/handler/collect/impl.go:136-160 | secrets that are services are added up to the first annotated one, with a retry exactly if one of these cannot be read |
| `Collecting.DirectUpTo` | pkg/reconcile/pipeline/handler/collect/impl.go:136-160 | these are all services that are secrets before the first of them with an annotation that starts with service.binding |
| `Collecting.Collection.AddDefinitions` | pkg/reconcile/pipeline/handler/collect/impl.go:56-69 | in any order of annotations the service gets exactly the definitions that they build, and an error is reported exactly if one cannot be built |
| `Collecting.OwnAnnotations` | pkg/reconcile/pipeline/handler/collect/impl.go:46-58 | an annotation of the service overrides that of its definition, and no other is lost |
| `Collecting.Collection.BindingDefinitions` | pkg/reconcile/pipeline/handler/collect/impl.go:41-70 | nothing is reported if and only if all annotations can be read and built, and what is reported is possible for the handler |
| `Collecting.Collection.BindingItems` | pkg/reconcile/pipeline/handler/collect/impl.go:72-97 | nothing is reported if and only if every definition of every service applies without nil, and then no leaf is missed; what is reported, panics included, is possible for the handler |
| `Collecting.Collection.OwnedResources` | pkg/reconcile/pipeline/handler/collect/impl.go:207-242 | nothing is reported if and only if all owned resources of a bindable kind have data without nil, and then every leaf of it is an item under its output name; what is reported, panics included, is possible for the handler |
| `Collecting.OwnedItems` | pkg/reconcile/pipeline/handler/collect/impl.go:167-205 | which items that are: clusterIP of a service, host of a route, the decoded data of a secret and the texts of a config map under their keys |
| `Collecting.DecodeEntries` | pkg/reconcile/pipeline/handler/collect/impl.go:172-190 | in any order of keys the data of a secret is decoded altogether, or not at all if a value cannot be |
| `Collecting.Collection.Mapping` | pkg/reconcile/pipeline/handler/mapping/impl.go:11-42 | in any order every mapping is evaluated and added, or the first that fails stops the run with an error; what is reported is possible for the handler |
| `Annotations.NewModel` | pkg/binding/model.go:45-139 | the nested loops over segments and keys and the defaults that follow |
| `Annotations.Unambiguous` | pkg/binding/model.go:49-57 | no two key prefixes match the same segment |
| `Annotations.RoundTrip` | pkg/binding/model.go:45-139 | printing settings with comma-free values, in any order and with repetitions, and parsing them gives the model of the last setting of each key, with the defaults |
| `Annotations.PlainValue` | pkg/binding/model.go:59-68 | a value in which no segment starts with a key sets no option |
| `Secrets.AsMap` | pkg/reconcile/pipeline/api.go:240-247 | the loop builds the map in which later items win |
| `Secrets.MergeMaps` | pkg/util/util.go:3-14 | in any order of keys the source overrides the destination |
| `Secrets.MapOfBoth` | pkg/reconcile/pipeline/context/impl.go:344-401 | the map of concatenated items is the merge of the maps |
| `Secrets.MergedPrecedence` | pkg/reconcile/pipeline/context/impl.go:388-401 | in the collected data the last own item of a name wins over every source, and among sources the last one that has the key |
| `Secrets.SecretBackedBindings.Items` | pkg/reconcile/pipeline/secretbackedbindings.go:22-46 | cached items, or the decoded data in some order; a failing first reading leaves what it had appended |
| `Secrets.SecretBackedBindings.Source` | pkg/reconcile/pipeline/secretbackedbindings.go:48-68 | the secret is its own source exactly if nothing is cached or every cached name is one of its keys |
| `Secrets.SourceAfterReading` | pkg/reconcile/pipeline/secretbackedbindings.go:22-68 | once read, a secret is its own source unless it has no data |
| `Secrets.SteadyIff` | pkg/reconcile/pipeline/secretbackedbindings.go:22-46 | repeated readings agree in every order of keys if and only if the data decodes altogether or not at all |
| `Secrets.BindingContext.BindingItems` | pkg/reconcile/pipeline/context/impl.go:344-357 | sources are only read; if all are steady, the map of their items is the collected data |
| `Secrets.BindingContext.BindingItemMap` | pkg/reconcile/pipeline/context/impl.go:388-401 | if all sources are steady, the merge of their maps is the same collected data |
| `Secrets.BindingContext.BindingSecretName` | pkg/reconcile/pipeline/context/impl.go:364-386 | the name of the reused secret or one computed from the collected data; with steady sources asking again gives the same name |
| `Secrets.BindingContext.PersistSecret` | pkg/reconcile/pipeline/context/impl.go:431-480 | a reused secret is recorded and not written; after a failed write store and status are as before; with steady sources the collected data, with the precedence above, is stored under the name that later calls give, unless empty |
| `Secrets.BindingContext.PreFlightCheck` | pkg/reconcile/pipeline/handler/project/impl.go:14-52 | what it reports is possible for it, and nothing exactly if it passes or the secret could not be persisted; a failed lookup or no data is a retry, no applications a stop, a missing key an error; with steady sources it passes if and only if all conditions hold, and then the secret that projection names is stored, holds exactly the collected data unless it is a reused one with renamed items, and has every mandatory key |
| `Secrets.SecretBackedBindings.NameItems` | pkg/reconcile/pipeline/handler/naming/impl.go:11-26 | items are renamed in place, in the cache that later readings return; what is reported is possible for the handler |
| `Secrets.SecretBackedBindings.ReuseAfterNaming` | pkg/reconcile/pipeline/context/impl.go:368-373 | a decodable secret that is reused after naming has every projected name as a key |
| `Secrets.ReuseFaithful` | pkg/reconcile/pipeline/context/impl.go:364-401 | a reused secret holds exactly the collected items if and only if the renaming merges no keys and renamed keys hold equal values |
| `Secrets.ReuseOfTemplates` | pkg/reconcile/pipeline/handler/naming/impl.go:11-26 | renamings that are idempotent, or lengthen whatever they change, are faithful unless they merge keys |
| `Secrets.MergedKeysLose` | pkg/reconcile/pipeline/handler/naming/impl.go:11-26 | a renaming that merges two keys is not faithful although the secret is reused |

## Left out

- Failing.Obstructed: for workloads whose lists do not overlap, as `Failing.UnbindsIff`.
- JSONPath beyond field access and `[*]`: paths are taken as parsed trees, and filters, slices and unions are not modelled.
- InjectSecretRef and the field that a secret path names: only the leniency towards workloads without containers is modelled.
- Applications.NestedResources: decoding of list entries checks the fields that the operator reads, not all fields of the Kubernetes types.
- Applications.Application.MountPath: without the cleaning done by path.Join; a mount path is the root, a slash and the name.
- Applications.Application.BindablePods: for paths of field access and `[*]`.
- Closings.ReadyMeansWritten: in environment mode a workload whose only change is a nil slice is sent to the cluster in every pass; the state machine, whose stored document keeps the mark, counts it as unchanged.
- Permission reviews, requester annotations, REST mapping and the client library: a call succeeds or fails.
- Resource versions and conflicts: a write is accepted or refused as a whole.
- Other writers: in a run nobody but the operator edits the workloads, and the set of workloads stays the same.
- Several bindings in one run: the state machine follows one ServiceBinding; `Webhooks.EachBinding` ties the webhook's loops to it.
- Mapping serialisation: the annotation holds the mapping itself.
- Reconcilers.Context.Applications: applications that were fetched before a later part of the same lookup failed stay cached in the code; a failed lookup has none in the model.
- Reconcilers.Context.Handle: the handlers that collect take their result from the fate of a run, restricted to what is possible for them, because their bodies work on services that the state machine does not hold; that the bodies do nothing else is shown in `Collecting`, `Definitions`, `Collect` and `Secrets`.
- Reconcilers.Context.PreFlightCheck: the same; its body is `Secrets.BindingContext.PreFlightCheck`.
- Pipelines.InvokeConduct: a handler is the list of its calls on flow control; the bodies are invoked in `Reconcilers.InvokeHandler`.
- Bindings without a UID, whose status and metadata the code does not write.
- Conditions other than Ready, log messages, error texts and events.
- Hashing and base64: a computed secret name is a function of the collected data, and how a value decodes is part of the input.
- Go templates: renaming is an arbitrary function that may fail.
- Collecting.Collection.Mapping: the evaluation of a mapping is an arbitrary function of its text that may fail.
- Injectivity of computed secret names, which the code does not provide.
- The CRD controller, the registry of bindable kinds, generated code, command line and deployment files: lookups and plumbing.
- Applications.Application.BindAsEnv: requires that no edited list lies at or above a container, because there a Go handle keeps a map that the document no longer holds; `Anchors.SeparatedAnchors` reduces this to the mapping.
- Applications.Application.BindAsFiles: the same requirement.
- Applications.Application.Unbind: the same requirement.
- Reconcilers.Context.Unbind: the same requirement.
- Reconcilers.Context.BindingsAsEnv: the same requirement.
- Reconcilers.Context.BindingsAsFiles: the same requirement.
- Secrets.SecretBackedBindings.NameItems: naming for the items of one source, which is the case in which a secret can be reused.
- Secrets.BindingContext.PreFlightCheck: says which secret is stored for data that decodes altogether or not at all, because otherwise the name can change between calls (`Secrets.SteadyIff`); for reused secrets with renamed items see `Secrets.ReuseFaithful`.
- Secrets.BindingContext.BindingItems: the same restriction on the data.
- Secrets.BindingContext.BindingItemMap: the same restriction on the data.
- Secrets.BindingContext.BindingSecretName: the same restriction on the data.
- Secrets.BindingContext.PersistSecret: the same restriction on the data.
- Reconcilers.Reconcile: requires stored documents, a mapping whose lists and containers do not overlap, and a label selector without matches to count as a failed lookup, as it does in the code.
- Pairs.EnvExactly: for mappings that are not called SERVICE_BINDING_ROOT; `Pairs.EnvSeparates` has no such restriction.
- PodRealms.PodRuns: for mappings over the containers and initContainers of pod templates; `Rebinding.RunInPlace` has no such restriction.
- Rebinding.RunInPlace: for signs that unbinding with the recorded secret removes. These are volumes and mounts always, references as long as the secret stays the same (otherwise `References.StaleStays`), and variables that are named like their key (otherwise `Witnesses.VariableStays`); SERVICE_BINDING_ROOT is not a sign.
