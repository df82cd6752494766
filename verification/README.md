# Datashim: webhook, controllers, CSI volumes and ceph plugin

A Dafny model of the parts of Datashim that decide what happens to a cluster, with
proofs about every input and every run.  `dafny verify dfyconfig.toml` checks all of it.

* **The pod webhook** (`GoText`, `DatasetLabels`, `PodPatch`, `DatasetPatch`, `Webhook`).
  Methods follow the Go loops that read dataset labels, look up the Datasets, plan mounts
  and injections and emit JSON Patch operations; each is proved against a function.
  `Apply` is "add" of section 4.1 of RFC 6902.  `LabelTheorems`, `PatchTheorems`,
  `InjectionTheorems` and `EnvironmentTheorems` show what those functions mean: when the
  parse depends on map iteration, that the patch computes a declarative injection,
  that a second invocation has nothing to do, that mounts name volumes, and that every
  variable has one value.
  `LabelMeaning` and `PodOutcome` say in terms of the keys as they are spelled, and of the
  patched pod itself, what comes out.  Where Go iterates over a map, the order is a
  parameter.
* **The DatasetInternal controller for COS datasets** (`InternalController`,
  `InternalReconcile`).  The cluster is a class.  Before each API call other actors may
  take any steps allowed by `Others`; each call may fail, also after it took effect.  The
  class records the run, and every write must be a step that `Does` describes, so the theorems are
  about every run.  With nobody else at work and no failures (`quiet`, `reliable`) the
  methods are proved equal to a reconcile function.  `InternalObjects` says what the objects
  it makes hold.
* **The Dataset controller** (`NameCheck`, `DatasetController`, `DatasetReconcile`,
  `DatasetOutcome`), in the same form: a two-field status machine, plugin selection, provisioning, label sync.
* **The `remove-on-delete` pipeline** (`Volumes`, `RemoveOnDelete`): the CSI driver over an
  object store, and the value of the label from the Dataset to the bucket.
* **The ceph caching plugin** (`CephPlugin`, `CephReconcile`, `CephTheorems`): all Datasets
  of one name compete for objects called after that name; the rados ConfigMap is the lock.
  A step is justified by what the plugin has read before, not by what holds when it is
  taken; that it holds still is proved over interleavings of all namespaces.

Places where the code does something else than one might expect, kept as they are:

* The duplicate flag for uses is never reset within a label, so the uses kept are the
  longest prefix without a repetition (`UsesOfLabel`).
* The list of sources for containers without envFrom grows from container to container
  (`Accumulated`); the variables come out the same anyway (`EffectiveEnvironment`).
* Patching fails when an array that "add" needs is absent; `PatchCorrect` says exactly when.
* Keys such as `dataset.0.id` and `dataset.00.id` mean the same index.  Two useas labels of
  one index may lose uses, and two id labels, one of them empty, may fail, depending on the
  iteration order.  `ConfluenceExact` says exactly when the order matters.
* A reconcile that read a DatasetInternal before it was marked for deletion may still
  create objects for it; `RankInFlight` says exactly when.  They are covered by the
  finalizer, and once the mark is read nothing is created any more.
* The `ClaimLost` case of the Dataset controller does nothing and the reconcile goes on.
* `finalizeDataset` of the ceph plugin returns the error of the lookup before the one that
  failed; `SwallowedError` says exactly when objects are left behind for that reason.
  It does not check labels before deleting.  `DeletesOnlyOwn` shows that this is harmless
  unless a finalisation is resumed after it deleted its ConfigMap, `LostUpdate` shows that
  another Dataset can lose its objects then, and `ForeignDeleteNeedsResumption` that there
  is no other way.

## Model

| member | source | states |
|---|---|---|
| DatasetLabels.DatasetInputFromPod | src/dataset-operator/admissioncontroller/mutatingwebhook.go:139-217 | the loop over the labels fails or succeeds as the fold over the iteration order does and fills the same requests; the inputs in the map are distinct objects |
| DatasetLabels.AddRequestedUses | src/dataset-operator/admissioncontroller/mutatingwebhook.go:190-204 | once one token is present already, no later token of the label is added |
| DatasetLabels.RetrieveDatasets | src/dataset-operator/admissioncontroller/mutatingwebhook.go:219-248 | succeeds exactly when every dataset is found, and then sets the specification of each |
| LabelTheorems.UsesOfLabel | src/dataset-operator/admissioncontroller/mutatingwebhook.go:190-204 | the uses of a label are the longest duplicate-free prefix of its trimmed tokens |
| LabelMeaning.KeyMeaning | src/dataset-operator/admissioncontroller/mutatingwebhook.go:149-188 | a key that does not start with "dataset." is passed over; "dataset.<number>.id" names its index, "dataset.<number>.useas" gives it uses, for every way to write the number |
| LabelMeaning.LabelMeaning | src/dataset-operator/admissioncontroller/mutatingwebhook.go:139-217 | after a successful parse every non-empty id names its index, the only useas label of an index gives it the longest duplicate-free prefix of its tokens, and nothing else makes a request, a name or a use |
| LabelMeaning.FailureMeaning | src/dataset-operator/admissioncontroller/mutatingwebhook.go:149-188 | parsing fails if and only if some "dataset." key is of neither form, or two ids have equal values or are for one index that the earlier one named |
| GoText.AtoiExact | src/dataset-operator/admissioncontroller/mutatingwebhook.go:158-168 | exactly the decimal numerals of 64-bit integers, perhaps with zeros and a sign in front, read back as their values |
| GoText.SplitOfJoin | src/dataset-operator/admissioncontroller/mutatingwebhook.go:151 | splitting a join of parts without separators gives the parts |
| LabelTheorems.ParseExact | src/dataset-operator/admissioncontroller/mutatingwebhook.go:139-217 | when the labels of each index agree, in particular when no two keys decode alike, parsing succeeds if and only if all dataset labels are well formed and id values are pairwise distinct, and the result is what the labels describe |
| LabelTheorems.Confluence | src/dataset-operator/admissioncontroller/mutatingwebhook.go:149-214 | label sets that fail in every order, or whose labels agree for each index, parse alike in every iteration order |
| LabelTheorems.ConfluenceExact | src/dataset-operator/admissioncontroller/mutatingwebhook.go:149-214 | for every label set: all iteration orders give the same if and only if all of them fail (a malformed label, two equal ids, two names for one index) or no index has two id labels and the useas labels of each index ask for the same uses |
| LabelTheorems.ParseOrder | src/dataset-operator/admissioncontroller/mutatingwebhook.go:149-214 | for every label set and order: success exactly when each label passes what was read before it, and the uses are those gathered in that order |
| LabelTheorems.ParsedRequestsAccepted | src/dataset-operator/admissioncontroller/mutatingwebhook.go:139-248 | after parsing and lookup, clashing or not, names are distinct and no use repeats |
| DatasetPatch.PatchPodWithDatasetLabels | src/dataset-operator/admissioncontroller/mutatingwebhook.go:250-328 | emits the compiled patch for the requests in index order, or fails as the plan does |
| DatasetPatch.PatchPodSpecWithDatasetPVCs | src/dataset-operator/admissioncontroller/mutatingwebhook.go:330-386 | volume operations at consecutive indices from the old length, then the mounts of init and main containers |
| DatasetPatch.PatchContainersWithDatasetVolumes | src/dataset-operator/admissioncontroller/mutatingwebhook.go:388-429 | for each container one mount per dataset it lacks, at consecutive indices from its old length |
| DatasetPatch.PatchContainersWithDatasetMaps | src/dataset-operator/admissioncontroller/mutatingwebhook.go:431-521 | appends the unreferred pairs where envFrom exists, else sets envFrom to the accumulated list |
| PatchTheorems.PatchCorrect | src/dataset-operator/admissioncontroller/mutatingwebhook.go:250-521 | applying the patch in order gives exactly the declarative injection, for every iteration order, if the arrays it inserts into exist, and fails otherwise |
| InjectionTheorems.PlanExact | src/dataset-operator/admissioncontroller/mutatingwebhook.go:277-317 | planning fails exactly on an unknown use; else it mounts the unclaimed datasets in index order and injects every config |
| InjectionTheorems.Reinvocation | src/dataset-operator/admissioncontroller/mutatingwebhook.go:261-296 | patching the patched pod for the same requests yields the empty patch, for all iteration orders of both runs |
| InjectionTheorems.MountsNameVolumes | src/dataset-operator/admissioncontroller/mutatingwebhook.go:330-429 | if every mount names a volume or a dataset about to be mounted, every mount of the patched pod names one of its volumes |
| InjectionTheorems.VolumeNamesDistinct | src/dataset-operator/admissioncontroller/mutatingwebhook.go:277-386 | volume names are distinct afterwards if and only if they were and none equals a dataset about to be mounted |
| EnvironmentTheorems.EffectiveEnvironment | src/dataset-operator/admissioncontroller/mutatingwebhook.go:431-521 | for names without underscore, each variable of each container has the value that one injection of each dataset gives, whatever the orders and copies |
| EnvironmentTheorems.SameNamesSameEnv | src/dataset-operator/admissioncontroller/mutatingwebhook.go:472-505 | only which datasets are named decides the variables, not how often or in which order |
| Webhook.Handle | src/dataset-operator/admissioncontroller/mutatingwebhook.go:43-88 | answers every create request as the specification from labels to patch does, and lets other requests pass |
| Webhook.WebhookIdempotent | src/generate-keys/webhook.yaml.template:11 | for settled labels, invoked again on its own result, in any order, the webhook allows the pod without a patch |
| Webhook.WebhookOrderIndependent | src/dataset-operator/admissioncontroller/mutatingwebhook.go:43-88 | for settled labels (the condition of ConfluenceExact) all iteration orders give the same kind of response and the same plan |
| Webhook.WebhookOutcome | src/dataset-operator/admissioncontroller/mutatingwebhook.go:43-88 | for settled labels, two patches for one pod apply both or neither, and the pods agree on volumes, mounts and every variable |
| Webhook.PatchedEnvironment | src/dataset-operator/admissioncontroller/mutatingwebhook.go:431-521 | in a patched pod every variable of every container has the value it has when each planned dataset is injected once |
| PodOutcome.VolumesAfter | src/dataset-operator/admissioncontroller/mutatingwebhook.go:330-386 | the patched pod has its old volumes, then, in index order, one for each dataset asked to be mounted whose PVC no volume claims, read-only exactly if the dataset says "true" |
| PodOutcome.MountsAfter | src/dataset-operator/admissioncontroller/mutatingwebhook.go:388-429 | every init and main container has its old mounts, then, in index order, one at /mnt/datasets/<name> for each such dataset it did not mount |
| PodOutcome.VariableAfter | src/dataset-operator/admissioncontroller/mutatingwebhook.go:447-505 | for a dataset d asked for as configmap that the container's own sources do not name, variable d_key has the value in Secret d, else in ConfigMap d, else the value it had |
| PodOutcome.OtherVariableAfter | src/dataset-operator/admissioncontroller/mutatingwebhook.go:447-505 | variables that no such dataset prefixes keep their value |
| PodOutcome.RestUnchanged | src/dataset-operator/admissioncontroller/mutatingwebhook.go:250-328 | nothing else of the pod is changed |
| PodOutcome.ErrorMeaning | src/dataset-operator/admissioncontroller/mutatingwebhook.go:56-78 | a pod is refused exactly when its labels do not parse, a named dataset is not to be had, or a use is neither "mount" nor "configmap" |
| InternalReconcile.Reconcile | src/dataset-operator/controllers/datasetinternal_controller.go:72-180 | every step is a legal one whatever others do and whichever calls fail; undisturbed it equals the reconcile function; for a marked object the rank never rises |
| InternalReconcile.Finalize | src/dataset-operator/controllers/datasetinternal_controller.go:105-149 | deletes the PVC, then the Secret, then drops the finalizer, one per reconcile, and never raises the rank |
| InternalReconcile.ProcessLocalDatasetCOS | src/dataset-operator/controllers/datasetinternal_controller.go:422-566 | undisturbed, stops after some number of the three writes, or makes all of them if no call fails |
| InternalObjects.ObjectsAreMade | src/dataset-operator/controllers/datasetinternal_controller.go:422-566 | an undisturbed reconcile leaves ConfigMap, PVC and Secret if the keys are to be had, and does nothing otherwise |
| InternalObjects.ConfigMapMeaning | src/dataset-operator/controllers/datasetinternal_controller.go:434-493 | a missing ConfigMap gets exactly endpoint, region, bucket and folder of the specification, the bucket cut at its first slash; an existing one is left alone |
| InternalObjects.ClaimMeaning | src/dataset-operator/controllers/datasetinternal_controller.go:504-545 | a new PVC is ReadOnlyMany if and only if "readonly" parses as true; an existing one is left alone |
| InternalObjects.SecretMeaning | src/dataset-operator/controllers/datasetinternal_controller.go:444-478 | a new Secret holds the keys, the place, what to extract or "false", and the three options as booleans |
| InternalObjects.PlacesAgree | src/dataset-operator/controllers/datasetinternal_controller.go:464-489 | a new ConfigMap and a new Secret agree on endpoint, region, bucket and folder |
| InternalObjects.ForeignSecretIsIgnored | src/dataset-operator/controllers/datasetinternal_controller.go:362-380 | when the specification names another namespace no keys come from any Secret |
| InternalReconcile.CheckAndExtractObjectStorageAccess | src/dataset-operator/controllers/datasetinternal_controller.go:354-420 | takes the keys from a Secret of the dataset's own namespace or from the specification |
| InternalReconcile.CreateConfigMapForDataset | src/dataset-operator/controllers/datasetinternal_controller.go:1025-1063 | creates the ConfigMap if and only if there is none |
| InternalReconcile.CheckIfEditableValueChangeAndUpdate | src/dataset-operator/controllers/datasetinternal_controller.go:568-590 | writes the remove-on-delete value into the Secret when it differs, and nothing else |
| InternalReconcile.NoLeak | src/dataset-operator/controllers/datasetinternal_controller.go:95-103 | in every state of every run a PVC or Secret of the COS path implies a DatasetInternal that carries the finalizer |
| InternalReconcile.VanishedLeavesNothing | src/dataset-operator/controllers/datasetinternal_controller.go:95-149 | a DatasetInternal that is gone has left neither PVC nor Secret |
| InternalReconcile.TeardownOrder | release-tools/manifests/dlf.yaml:144-145 | the controller removes the Secret only once the PVC is gone, the finalizer only once both are, and nothing from an object not marked for deletion |
| InternalReconcile.TeardownCompletes | src/dataset-operator/controllers/datasetinternal_controller.go:105-149 | three undisturbed reconciles, with marked PVCs released, end every teardown; the object is gone if and only if it had no other finalizer |
| InternalReconcile.TeardownProgress | src/dataset-operator/controllers/datasetinternal_controller.go:105-149 | an effective reconcile of a marked object lowers the rank, and rank zero means all is gone |
| InternalReconcile.RankNeverRises | src/dataset-operator/controllers/datasetinternal_controller.go:105-149 | over every run, no step of anybody raises the rank of a marked object once the controller has read it marked |
| InternalReconcile.MarkStaysRead | src/dataset-operator/controllers/datasetinternal_controller.go:76-103 | a mark that was read stays read as long as the finalizer keeps the object |
| InternalReconcile.RankInFlight | src/dataset-operator/controllers/datasetinternal_controller.go:422-566 | a reconcile that read the object before it was marked raises its rank if and only if credentials are to be had and the PVC or the Secret among its remaining writes is missing |
| InternalReconcile.CrashConvergence | src/dataset-operator/controllers/datasetinternal_controller.go:422-590 | stopping after any number of writes any number of times and then finishing gives what one run gives, and another run changes nothing |
| NameCheck.NameCheckExact | src/dataset-operator/controllers/dataset_controller.go:93-100 | deleting all leftmost-longest matches leaves nothing exactly for the empty string and for lower-case alphanumeric names with inner hyphens |
| DatasetReconcile.DatasetHasCachingAnnotationsSet | src/dataset-operator/controllers/dataset_controller.go:428-444 | says whether both annotations are there, and the plugin's name |
| DatasetReconcile.SetUpCaching | src/dataset-operator/controllers/dataset_controller.go:105-174 | undisturbed, disables caching, assigns a plugin or accepts the annotations, as specified |
| DatasetOutcome.NamedPluginChosen | src/dataset-operator/controllers/dataset_controller.go:132-150 | with cache.plugin and a pod of that name, its labels become the annotations, and the next reconcile assigns caching to that plugin |
| DatasetOutcome.FirstPluginChosen | src/dataset-operator/controllers/dataset_controller.go:132-141 | without cache.plugin the first pod that serves caching is taken |
| DatasetOutcome.AnnotationsDecide | src/dataset-operator/controllers/dataset_controller.go:162-170 | annotations already set assign caching to the plugin they name, if any plugin is listed |
| DatasetOutcome.NoPluginDisables | src/dataset-operator/controllers/dataset_controller.go:152-174 | without any plugin, or without the one named, caching is disabled |
| DatasetOutcome.DisabledByUser | src/dataset-operator/controllers/dataset_controller.go:107-119 | cache.disable that parses as true disables caching |
| DatasetReconcile.TrackProvisioning | src/dataset-operator/controllers/dataset_controller.go:260-312 | undisturbed, moves provisioning with the phase of the PVC; a lost claim is passed over |
| DatasetOutcome.FirstReconcile | src/dataset-operator/controllers/dataset_controller.go:90-103 | the first reconcile moves both statuses to Initializing for a valid or empty name and to Fail for any other |
| DatasetOutcome.ProvisionFollowsClaim | src/dataset-operator/controllers/dataset_controller.go:260-312 | provisioning becomes Pending without a PVC, Pending with the last event for a pending one, OK for a bound one, and stays for a lost one |
| DatasetOutcome.InternalIsMade | src/dataset-operator/controllers/dataset_controller.go:178-254 | a DatasetInternal with the specification and labels of the Dataset is made if and only if caching is disabled and there is none |
| DatasetOutcome.LabelIsSynced | src/dataset-operator/controllers/dataset_controller.go:281-364 | the editable label reaches an existing DatasetInternal if and only if provisioning is at an end or the PVC is lost, and nothing else of it changes |
| DatasetReconcile.CheckIfEditableLabelsChangedAndUpdate | src/dataset-operator/controllers/dataset_controller.go:330-364 | undisturbed, the DatasetInternal gets or loses the one editable label and keeps the others |
| DatasetReconcile.Reconcile | src/dataset-operator/controllers/dataset_controller.go:70-328 | every write is a legal step of the status machine whatever others do; undisturbed it equals the reconcile function |
| DatasetReconcile.StatusMoves | src/dataset-operator/controllers/dataset_controller.go:90-312 | along every run caching moves only Empty to Initializing or Fail and on to Disabled or Pending, provision only Empty to Initializing or Fail, then Pending and OK |
| DatasetReconcile.TerminalStays | src/dataset-operator/controllers/dataset_controller.go:90-312 | terminal caching values and the provision values OK and Fail are never left |
| DatasetReconcile.OkMeansBound | src/dataset-operator/controllers/dataset_controller.go:260-312 | a Dataset that becomes OK had its PVC bound in an earlier state |
| DatasetReconcile.InvalidNameNoInternal | src/dataset-operator/controllers/dataset_controller.go:90-103 | this operator makes no DatasetInternal for an invalid name |
| DatasetReconcile.PluginSelectionEnds | src/dataset-operator/controllers/dataset_controller.go:105-174 | two undisturbed reconciles move caching out of Initializing |
| DatasetReconcile.AnnotatedFromPlugin | src/dataset-operator/controllers/dataset_controller.go:446-459 | annotations copied from a listed pod satisfy the annotation check |
| DatasetReconcile.ContentFixpoint | src/dataset-operator/controllers/dataset_controller.go:70-328 | with the PVC bound, five undisturbed reconciles reach a state that further ones leave as it is |
| Volumes.SanitizeIdempotent | src/csi-s3/pkg/s3/controllerserver.go:269-277 | the sanitized id has at most 63 characters and sanitizing again changes nothing |
| Volumes.SanitizeMeaning | src/csi-s3/pkg/s3/controllerserver.go:269-277 | up to 63 characters the id is the name in lower case, beyond that the digest of it |
| Volumes.CreateMeaning | src/csi-s3/pkg/s3/controllerserver.go:52-116 | exactly when a create succeeds, and that it makes at most the bucket that the secrets name, or else the one of the lower-case volume name, and changes no other |
| Volumes.DeleteMeaning | src/csi-s3/pkg/s3/controllerserver.go:118-156 | exactly when a delete succeeds, and that it takes that bucket if and only if remove-on-delete parses as true, and no other |
| Volumes.Store.CreateVolume | src/csi-s3/pkg/s3/controllerserver.go:52-116 | with failures too: at most the bucket that the secrets or else the volume name give is made, only when provisioning is asked for; success means that it is there |
| Volumes.Store.DeleteVolume | src/csi-s3/pkg/s3/controllerserver.go:118-156 | with failures too: at most the bucket that the secrets or else the id give is touched, only when removal is asked for; success with that option means that it is gone |
| Volumes.Store.RemoveBucket | src/csi-s3/pkg/s3/s3-client.go:75-119 | success means the bucket is gone; a failure may have removed some of its objects |
| Volumes.BucketsAreSafe | src/csi-s3/pkg/s3/controllerserver.go:52-156 | over any calls with any failures, a bucket keeps its objects unless a delete with the option targets it |
| Volumes.NoBucketFromNowhere | src/csi-s3/pkg/s3/controllerserver.go:52-116 | a bucket that no call targets never comes into being |
| Volumes.CreateTwice | src/csi-s3/pkg/s3/controllerserver.go:52-116 | repeating a create, also under the returned id, changes nothing and answers the same |
| Volumes.DeleteTwice | src/csi-s3/pkg/s3/controllerserver.go:118-156 | repeating a delete changes nothing and answers the same |
| Volumes.Lifecycle | src/csi-s3/pkg/s3/controllerserver.go:52-156 | deleting the id a create returned works on the bucket the create chose, and only on that |
| RemoveOnDelete.Convergence | src/dataset-operator/controllers/dataset_controller.go:314-364 | after any schedule of edits, reconciles and interrupted reconciles with enough whole ones past the last edit, the Secret's value, read by the client, equals the parsed label, false if absent or unparsable |
| RemoveOnDelete.DistanceRun | src/dataset-operator/controllers/datasetinternal_controller.go:568-590 | the number of layers still to come into line never exceeds what the schedule leaves of it |
| RemoveOnDelete.FrameRun | src/dataset-operator/controllers/dataset_controller.go:314-364 | over every schedule all other labels, Secret keys, Secrets and fields stay as they were |
| RemoveOnDelete.LabelReachesClient | src/csi-s3/pkg/s3/s3-client.go:48-65 | a Secret in line with the labels gives the client the parsed label |
| RemoveOnDelete.LabelDecidesBucket | src/csi-s3/pkg/s3/controllerserver.go:118-156 | deleting the volume then takes the bucket that the Secret or else the id names if and only if the label says so, and no other |
| RemoveOnDelete.DatasetDecidesBucket | src/csi-s3/pkg/s3/controllerserver.go:118-156 | with the Secret made on the way, that bucket is the one the Dataset names before its first slash |
| RemoveOnDelete.SpecReachesClient | src/dataset-operator/controllers/datasetinternal_controller.go:428-530 | keys, endpoint, region, bucket, folder and flags of a Dataset reach the client's configuration unchanged |
| RemoveOnDelete.DatasetStepsAreOthers | src/dataset-operator/controllers/dataset_controller.go:178-254 | what the Dataset controller does is what the DatasetInternal controller expects of others |
| RemoveOnDelete.InternalStepsAreOthers | src/dataset-operator/controllers/datasetinternal_controller.go:95-149 | what the DatasetInternal controller does is what the Dataset controller expects of others |
| CephPlugin.LabelsIdentify | plugins/ceph-cache-plugin/pkg/controller/dataset/ceph_related_objects.go:14-154 | the labels written for one Dataset are taken as another's own if and only if both are the same |
| CephReconcile.Reconcile | plugins/ceph-cache-plugin/pkg/controller/dataset/dataset_controller.go:93-344 | from every state, whatever others do and whichever calls fail, every step is one the relation describes and rests on what was read before; if the last two writes of finalisations do not fail, none is resumed after it deleted its ConfigMap; undisturbed it equals the reconcile function |
| CephReconcile.FinalizeDataset | plugins/ceph-cache-plugin/pkg/controller/dataset/dataset_finalizer.go:15-85 | for any marked Dataset with the finalizer; undisturbed it leaves and returns what the specification says for every pattern of failing lookups |
| CephReconcile.ProvisionChain | plugins/ceph-cache-plugin/pkg/controller/dataset/dataset_controller.go:175-344 | makes each object only after having seen those before it carry the labels; undisturbed it takes exactly one link of the chain |
| CephReconcile.UpdateCachingPlacements | plugins/ceph-cache-plugin/pkg/controller/dataset/dataset_controller.go:351-414 | when it succeeds, both lists are extended by one entry per pod of two lists that were given and not empty |
| CephTheorems.Invariant | plugins/ceph-cache-plugin/pkg/controller/dataset/dataset_controller.go:335-339 | over every interleaving without a resumed finalisation, what the chain has seen still holds, and a Dataset with the finalizer owns all that goes by its name, except between the last two writes of its finalisation |
| CephTheorems.StepsAreOthers | plugins/ceph-cache-plugin/pkg/controller/dataset/dataset_controller.go:93-344 | what the plugin does for one namespace, foreign deletes included, is what it expects of others for every other |
| CephTheorems.InterleavingIsRun | plugins/ceph-cache-plugin/pkg/controller/dataset/dataset_controller.go:93-344 | in any interleaving of steps for any namespaces each namespace sees a run as its reconciles assume |
| CephTheorems.Exclusion | plugins/ceph-cache-plugin/pkg/controller/dataset/dataset_controller.go:175-258 | over every interleaving without a resumed finalisation, while the ConfigMap carries one Dataset's labels no reconcile for another namespace touches a shared object or makes a DatasetInternal |
| CephTheorems.MakesOnlyLocked | plugins/ceph-cache-plugin/pkg/controller/dataset/dataset_controller.go:188-333 | under the same hypothesis a store, user or DatasetInternal is made only while the ConfigMap carries the labels of a Dataset in that namespace |
| CephTheorems.DeletesOnlyOwn | plugins/ceph-cache-plugin/pkg/controller/dataset/dataset_finalizer.go:15-85 | under the same hypothesis what a finalisation deletes, without looking at labels, carries the labels of its own Dataset |
| CephTheorems.ForeignDeleteNeedsResumption | plugins/ceph-cache-plugin/pkg/controller/dataset/dataset_finalizer.go:68-84 | a delete that hits somebody else's objects implies that some finalisation was resumed after it deleted its ConfigMap and before its finalizer was removed |
| CephTheorems.FinishedIsOrderly | plugins/ceph-cache-plugin/pkg/controller/dataset/dataset_controller.go:117-127 | reconciles whose last two writes do not fail keep up the hypothesis |
| CephTheorems.OneOwner | plugins/ceph-cache-plugin/pkg/controller/dataset/dataset_controller.go:335-339 | two Datasets of one name never carry the finalizer together, except between the last two writes of a finalisation |
| CephTheorems.SwallowedError | plugins/ceph-cache-plugin/pkg/controller/dataset/dataset_finalizer.go:36-74 | a finalisation reports success and leaves objects exactly when the store or ConfigMap lookup fails after the lookup before it found its object |
| CephTheorems.LostUpdate | plugins/ceph-cache-plugin/pkg/controller/dataset/dataset_controller.go:117-127 | when removing the finalizer fails and another Dataset takes the name, the repeated finalisation takes its store, user and ConfigMap |
| CephTheorems.ProvisionCompletes | plugins/ceph-cache-plugin/pkg/controller/dataset/dataset_controller.go:175-344 | four undisturbed reconciles, with rook at work, take a Dataset from a free name to a guarded DatasetInternal |
| CephTheorems.Handover | plugins/ceph-cache-plugin/pkg/controller/dataset/dataset_controller.go:111-130 | a finalisation that ends hands the name over to another Dataset, which keeps it |
| CephTheorems.InternalIsCos | plugins/ceph-cache-plugin/pkg/controller/dataset/dataset_controller.go:297-325 | the DatasetInternal it makes is one the COS path accepts, with the keys of the ceph user and the endpoint of the gateway, and with bucket, provision, region and labels of the Dataset |
| CephTheorems.MadeWhenReady | plugins/ceph-cache-plugin/pkg/controller/dataset/dataset_controller.go:132-340 | an undisturbed reconcile makes a DatasetInternal, and sets the finalizer, if and only if every object of the chain is there, owned and ready |
| CephTheorems.PlacementsAllOrNothing | plugins/ceph-cache-plugin/pkg/controller/dataset/dataset_controller.go:132-150 | in every state of every run gateways and data locations are both empty or both not |
| CephTheorems.PlacementsStay | plugins/ceph-cache-plugin/pkg/controller/dataset/dataset_controller.go:351-414 | placements once written never change while they are there |
| CephTheorems.PlacementsFilledIn | plugins/ceph-cache-plugin/pkg/controller/dataset/dataset_controller.go:132-150 | an undisturbed reconcile of a Dataset annotated with this plugin fills in missing placements when there are gateway and osd pods; otherwise it changes nothing |
| CephTheorems.OnlyOthersReset | plugins/ceph-cache-plugin/pkg/controller/dataset/dataset_controller.go:132-150 | the plugin itself never takes placements away |
| CephTheorems.PlacementsMatchPods | plugins/ceph-cache-plugin/pkg/controller/dataset/dataset_controller.go:380-410 | they come from the plugin alone and match the gateway and osd pods it was given one for one |

## Left out

- EffectiveEnvironment: stated for names without underscore; PatchedEnvironment derives that from the lookups, taking it as a fact that the API server holds no object whose name is empty or has an underscore.
- ContentFixpoint: about contents; the label sync issues its write even when nothing differs.
- InternalReconcile.Reconcile: reconciles for one key of one controller do not overlap, as with the default single worker; reconciles of different controllers, and of the ceph plugin for different namespaces, do.
- CephReconcile.Reconcile: as for the other two controllers, other actors do not add or remove a controller's finalizer; users who do are not modelled.
- Exclusion: users and other controllers leave the ConfigMap alone while it is labelled and neither make nor relabel a store or user then; they may delete stores and users.
- NoLeak, TeardownOrder: lookups read the live cluster, while the managers' clients (src/dataset-operator/main.go:104-112) read from a cache; a stale answer that a PVC or Secret is not there would drop the finalizer early.  The ceph plugin's client reads from a cache too, so MakesOnlyLocked and DeletesOnlyOwn rest on the same assumption.
- SanitizeIdempotent: volume names are ASCII, so that characters are bytes; SHA-1 is any function to 40 hexadecimal digits.
- OneOwner: two Datasets of the same namespace and name follow each other, never coexist; the lock of a Dataset that was deleted before it had the finalizer is never given up.
- LostUpdate: a deletion of the ConfigMap that is reported as failed after it took effect has the same consequence; the state it starts from is the same one.
- JSON pointers are structured values, not strings; the JSON of pods is decoded already.
- DatasetInternals of type NFS, HOST, H3 and ARCHIVE, and remote catalogues: create-if-absent with less state, or calls to other services.
- Owner references and what the garbage collector does; the ConfigMap of a COS dataset and the DatasetInternal have one.
- Resource versions: an update of a stale copy is rejected by comparing contents, so a change and its reversal in between go unnoticed.
- Storage classes, access modes other than read-only, sizes and the rados configuration text; node affinity of the gateway.
- Mounters, node server, credentials files, and the channels inside emptyBucket: some objects may stay and the store then keeps the bucket.
- Logging, contexts, requeue delays, manager and server setup, generated clients.
