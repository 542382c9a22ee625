# Verification of the workflow and pod reconciler

The controller secures the images that Argo workflow pods produce: it discovers the image a pod reports, has it
signed, has an SBOM and SLSA provenance attached, and records each step in annotations of the pod and in one label
of the workflow. Those annotations and the label are its only durable memory. Every call to the API server, the
signer or the registry can fail, or take effect and still report a failure, and the process can stop at any point.

The project models that machine and proves what holds over whole runs: any number of passes, any faults, stopped
anywhere. `dafny verify dfyconfig.toml` checks everything.

## How it is organised

| files | content |
|---|---|
| `Metadata`, `MergePatch`, `Nodes`, `Environment`, `Lists` | annotation maps, merge patches, workflow nodes and pod names, the environment and its oracles |
| `Protocol`, `Theorems`, `Runs` | the durable state as a state machine whose every action is one write or one external effect; invariants of every step; theorems about every run |
| `Cluster`, `StatusUpdater`, `Provenance`, `SbomOci`, `PodStatus`, `WorkflowStatus`, `Controller` | the code's classes, methods and loops; each method is proved to take enabled actions of the state machine only, so the theorems hold of what it does |
| `PassSpec`, `FaultFree`, `Witness`, `Operation` | what an undisturbed pass comes to, as a function of the pods as its visits find them; order independence, resumption and convergence; concrete worlds and the reconciliations in them that end otherwise than one would expect; any number of passes against one server |

`Cluster.Server` carries a ghost history: the trace of the controller's actions, and a second store that only other
clients have written to. `Server.Valid` says that the trace is legal, that the real store holds the state the trace
leads to, that outside the controller's own keys the two stores are equal, and that the calls and requests the history
refers to have been made. Every method keeps it, so the theorems of `Runs` apply to the trace after every single write.
An action that stands for a request to signer or registry carries the answer, and is enabled only if the oracle gives
it (`Protocol.Answered`); a recorded Completed, Attached or Error is enabled only after such an answer. What is stored
can therefore be traced back to replies (`Operation.StoredTruth`).

## What is assumed of the environment

- One controller at a time; nobody else writes `argo.slsa.io/{status,artifacts,signed,sbom,provenance}` on pods or
  `argo.slsa.io/status` on workflows. All other keys may be changed by others before any call, also between a Get
  and the Patch that follows it. Reads see all earlier writes.
- Pods start without the five annotations. A pod that has succeeded stays Succeeded. Which pods exist does not change,
  but any call may answer that the object is not there. What a node shows once it is terminal
  (whether it is in Error, and its output parameters) does not change (`World.fates`).
- Node IDs are the workflow's name, a dash, and a suffix without dashes.
- Parsing image references is an arbitrary function that does not take `No-Artifacts-Found` for a digest reference.
- The API server's replies are an oracle (`World.tape`): ok, conflict, not found, another failure, or applied with a
  failure reported. The replies of signer and registry are another (`World.net`); a request that reports success has
  taken effect. A stopped process is a pass in which every later call fails: what it held in memory is lost either
  way. In the state machine, a stop is a trace that ends.
- The Go map order of nodes and of labels is an arbitrary choice.
- Errors are told apart by kind where the code compares error texts, and the controller's annotation keys and values
  are constructors with their texts given by `KeyText` and `ValueText`.
- "Undisturbed" (`PassSpec.Undisturbed`): no call of the pass fails, the registry answers the same request the same
  way each time, every node phase is known, and every pod of a finished node exists. Pods may succeed at any time,
  also during the pass; what counts is the phase that the first call of a pod's visit finds (`PassSpec.FoundBy`).

## Where the code and its intent part

Each of these is modelled as the code has it.

- `internal/workflow-pod-reconciler/pod_status.go:269` counts any recorded `signed` value as signed; line 203 wants
  `Completed`. A workflow can therefore end Completed with a failed signature: `Runs.CompletedMeans` says exactly when,
  `FaultFree.FailureForgotten` shows how it comes about, and `Witness.ForgetFailure` does it: two reconciliations in
  which no call fails.
- `internal/workflow-pod-reconciler/pod_status.go:155` has the arguments of `HasPrefix` reversed: it accepts the four
  names that are prefixes of "OCI" (`Nodes.AcceptedNames`).
- `internal/workflow-pod-reconciler/pod_status.go:67-70` leaves `pod` nil for skipped and omitted nodes and line 310
  dereferences it. The model keeps the panic: a validated snapshot with such a node always ends in one, and such a
  workflow is never Completed (`Controller.AsSpecified`, `Controller.Reconcile`).
- `internal/controller/workflow_controller.go:177-187` turns a conflict into a requeue that its callers at lines 123,
  145, 161 and 169 drop, and line 142 requeues after zero seconds, which is no requeue. `Controller.Reconcile` says
  exactly when it stops without being finished, and whose requeue was dropped.
- `internal/controller/workflow_controller.go:118-122` stops at a terminal label, which speaks only of the pods of one
  snapshot; the phase of the workflow itself is never read. A node that appears later is not secured
  (`Witness.MissLatecomer`).
- `internal/workflow-pod-reconciler/pod_status.go:104-106` skips a pod that is not yet Succeeded although its node is
  done, for good: the one exception to resumability (`FaultFree.ResumedAsOnce`), which `Witness.SkipTooEarly` runs into.
- `internal/workflow-pod-reconciler/pod_status.go:125-129`: a failed SBOM is recorded as `Error` and never tried again.
- `pkg/sbom/oci/oci.go:82`: only Docker manifest lists count as multi-platform; an OCI image index is scanned as one
  image. `Runs.PlatformsCovered` says when `sbom=Attached` covers all platforms, and `Witness.ScanIndex` ends with an
  attached SBOM and a listed image that has none.

## Model

| member | source | states |
|---|---|---|
| Metadata.SlsaKeyText | pkg/provenance/workflow/common/Internalparameters/Internalparameters.go:20 | the reserved keys are exactly those whose text starts with `argo.slsa.io/` |
| Metadata.TextsDistinct | internal/workflow-pod-reconciler/pod_status.go:25-50 | the values the controller stores all have different texts, so a stored value means one thing |
| Metadata.KeysDistinct | internal/workflow-pod-reconciler/pod_status.go:25-50 | so do its keys |
| MergePatch.RoundTrip | pkg/statusupdater/updater.go:36-54 | applying the diff of two maps to the first yields the second |
| MergePatch.SetOneKey | pkg/statusupdater/updater.go:41-54 | the patch for one changed key, applied to any target, sets that key and nothing else (section 2 of RFC 7396) |
| MergePatch.Untouched | pkg/statusupdater/updater.go:36-54 | the half of the metadata that was not changed is left as the server has it by now |
| MergePatch.DisjointCommute | pkg/statusupdater/updater.go:52-54 | patches of different keys commute, so concurrent writers of different keys lose nothing |
| Nodes.DiscoverLast | internal/workflow-pod-reconciler/pod_status.go:147-170 | the recorded artifact is the value of the last accepted parameter if that is a digest reference, else none, even when an earlier one was valid |
| Nodes.DiscoverExactly | internal/workflow-pod-reconciler/pod_status.go:147-170 | a text is recorded if and only if it is a digest reference and the value of the last parameter with one of the four accepted names; nothing is recorded as found if and only if the last such parameter, if there is one, is no digest reference, and so whenever no name is accepted |
| Nodes.PhaseKinds | internal/workflow-pod-reconciler/pod_status.go:236-246 | which node phases are without a pod, unfinished, finished or unknown |
| Nodes.DiscoverParses | internal/workflow-pod-reconciler/pod_status.go:134-174 | an artifact is recorded if and only if what is recorded parses as a digest reference, so later passes can parse what they read |
| Nodes.AcceptedNames | internal/workflow-pod-reconciler/pod_status.go:155 | the accepted parameter names are the empty name, `O`, `OC` and `OCI` |
| Nodes.PodNamesDistinct | internal/workflow-pod-reconciler/workflow_pod_reconciler.go:50-56 | nodes of one workflow with the same pod name are the same node |
| Nodes.PodNameForm | internal/workflow-pod-reconciler/workflow_pod_reconciler.go:50-56 | the pod of a node with an ID of Argo's form is named workflow, template and suffix |
| Nodes.PodNamesCollide | internal/workflow-pod-reconciler/workflow_pod_reconciler.go:50-56 | without the assumption on node IDs two nodes can claim one pod |
| Theorems.InvStep | internal/workflow-pod-reconciler/pod_status.go:81-338 | every single write or effect keeps the invariants of pods, pass, label and SBOMs |
| Theorems.Reachable | internal/workflow-pod-reconciler/pod_status.go:81-338 | every state of every run, with any faults and restarts, satisfies those invariants |
| Protocol.PrefixLegal | internal/workflow-pod-reconciler/pod_status.go:66-132 | a run stopped anywhere is a run |
| Runs.AlwaysConsistent | internal/workflow-pod-reconciler/pod_status.go:95-132 | after every write: signed needs artifacts; signed is Skipped exactly for a recorded absence of artifacts; Completed needs an artifact signed, Error one whose signing failed; Skipped has no artifact; provenance comes after a final status |
| Runs.Monotone | internal/workflow-pod-reconciler/pod_status.go:257-304 | recorded artifacts, signed, sbom and provenance never change; a final status stays and only provenance can follow; a terminal label stays |
| Runs.Quiescent | internal/controller/workflow_controller.go:118-122 | once the label is terminal no action of the controller is possible |
| Runs.Frozen | internal/controller/workflow_controller.go:118-122 | annotations, label and pass stay as they were when the label became terminal |
| Runs.WriteBound | internal/workflow-pod-reconciler/pod_status.go:86-131 | any run over n pods, with any faults and restarts, changes values at most 6n + 2 times |
| Runs.Resumable | internal/workflow-pod-reconciler/pod_status.go:95-132 | with fixed signing verdicts, status, artifacts and signed of every pod at any time are part of what one undisturbed pass records, and equal to it once final, unless the pod was skipped for not being Succeeded |
| Runs.FinishAlike | internal/workflow-pod-reconciler/pod_status.go:95-132 | two runs that finish the same pod agree on its status, artifacts and signed if and only if both have left the pod out (its node in error, or the pod not yet Succeeded) or neither has |
| Runs.SigningAccount | internal/workflow-pod-reconciler/pod_status.go:176-205 | signing requests for a pod are exactly one for each pass of the trace that asks and does not record, and one for the pass that records; so at most 1 plus the passes cut, and at most one in a pass; all are for the recorded artifact; signed=Completed means a granted request and exactly that reference published |
| Runs.NoSecondSigning | internal/workflow-pod-reconciler/pod_status.go:183-204 | after signed is recorded no later pass signs the pod |
| Runs.SignedMeans | internal/workflow-pod-reconciler/pod_status.go:183-201 | signed=Completed means that a request to sign the recorded artifact was answered with success, Error that one was refused or that a pass had no known signer type |
| Runs.CompletedMeans | internal/controller/workflow_controller.go:138-171 | a Completed label means that all pods of that pass are final, with provenance, and with signed recorded where an artifact was found; all of these signatures succeeded if and only if no pod had status Error when the pass began |
| Runs.CompletedPod | internal/workflow-pod-reconciler/workflow_pod_reconciler.go:69-79 | pod by pod: the artifact is the node's, and signed is Completed unless the pod's failure was on record when the pass began |
| Runs.CompletedStays | internal/controller/workflow_controller.go:118-122 | and so it stays ever after |
| Runs.ErrorMeans | internal/controller/workflow_controller.go:144-166 | an Error label means that some pod of that pass failed signing in it, with signed=Error and status=Error on record, or that all pods had been validated and then a statement asked for was refused or the last call of the provenance step failed |
| Runs.AttestationCovers | internal/workflow-pod-reconciler/workflow_pod_reconciler.go:81-103 | whatever is attested names, once each, the repository and digest of the artifacts of all pods of the pass that found one, and nothing else; all statements of a pass are equal |
| Runs.SameSubjects | internal/workflow-pod-reconciler/workflow_pod_reconciler.go:81-96 | two validated passes over the same pods build the same multiset of subjects |
| Runs.ProvenanceMeans | internal/workflow-pod-reconciler/pod_status.go:313-336 | provenance=Attached means that a request to attest the pod's artifact was answered with success, Error that one was refused or that a pass had no known signer type; the request was for a statement that names the artifact's repository and digest |
| Runs.AttachedMeans | internal/workflow-pod-reconciler/pod_status.go:214-231 | sbom=Attached means that for every image that is scanned for the artifact the scan and a request to attest its SBOM were answered with success, and the SBOM is published |
| Runs.UndescribedMeans | internal/workflow-pod-reconciler/pod_status.go:214-231 | sbom=Error means that a request for the manifest, a scan or an attestation was refused, that the manifest does not decode or the reference of a manifest list does not parse, or that a pass had no known signer type |
| Runs.SbomsWanted | internal/workflow-pod-reconciler/pod_status.go:124-129 | while no configuration asks for SBOMs, no pod is given an SBOM value and none is published |
| Runs.ScannedOnly | pkg/sbom/oci/oci.go:31-74 | SBOMs are attested only for images that are scanned for some pod's artifact |
| Runs.PlatformsCovered | pkg/sbom/oci/oci.go:31-87 | with sbom=Attached every image a Docker manifest list names has an SBOM; the images of another index have one if and only if the index lists nothing but itself, unless another pod's artifact has them scanned |
| Cluster.Server.Get | pkg/statusupdater/updater.go:31-33 | after whatever others have changed meanwhile, the copy in memory is the stored object and the nodes are those of this reply |
| Cluster.Server.Patch | pkg/statusupdater/updater.go:52-54 | if applied, the patch changes one key of the object as it is now and nothing else, whether or not success is reported; if not applied, nothing |
| Cluster.OneKeyPatch | pkg/statusupdater/updater.go:41-54 | the merge patch of labels and annotations together sets the one key |
| StatusUpdater.TryPatch | pkg/statusupdater/updater.go:24-55 | one attempt writes at most once, and not at all when it reports a conflict; success leaves the key at the value, the controller's other keys as they were and every other key as its writers have it now |
| StatusUpdater.PatchMetadata | pkg/statusupdater/updater.go:13-65 | the same over at most three attempts and six calls; a conflict is what it ends with exactly when there have been three, any other failure ends the loop; the error is that of the last call, conflict and not-found as one |
| StatusUpdater.PatchAnnotations | pkg/statusupdater/updater.go:67-73 | the same for an annotation of a pod: no error, a conflict or not-found, or another failure, exactly as the last call was answered |
| StatusUpdater.PatchLabels | pkg/statusupdater/updater.go:75-81 | the same for the status label of the workflow |
| Provenance.FilterIdempotent | pkg/provenance/workflow/common/Internalparameters/Internalparameters.go:18-25 | filtering the live maps again changes nothing, so every statement of a pass quotes the same metadata |
| Provenance.FilteredExactly | pkg/provenance/workflow/common/Internalparameters/Internalparameters.go:18-25 | a key is kept, with its value, exactly when its text does not start with `argo.slsa.io/` or it is `argo.slsa.io/enable` |
| Provenance.RemoveArgoSlsaInfo | pkg/provenance/workflow/common/Internalparameters/Internalparameters.go:18-25 | in any order of the keys, the live map ends without the reserved keys except `enable`, and is what is returned |
| Provenance.GetInternalParams | pkg/provenance/workflow/common/Internalparameters/Internalparameters.go:9-16 | labels and annotations of the live object are both filtered in place and quoted |
| Provenance.GenerateSlsaV1Provenance | pkg/provenance/workflow/v1alpha1/GenerateSlsaV1Provenance.go:11-31 | a statement quotes the given subjects and the filtered metadata; there is none exactly when one of its two requests fails, and then the live object is as before or filtered |
| SbomOci.AttachOne | pkg/sbom/oci/oci.go:43-53 | success if and only if the scan and the attestation of this image were both granted; the attestation is entered in the history as it was answered, and only if the scan was granted |
| SbomOci.AttachChildren | pkg/sbom/oci/oci.go:31-60 | every child is scanned, in order, whatever became of the earlier ones; success means that the SBOMs of all were attested, failure that something on the way was refused |
| Environment.World.TargetsAreChildren | pkg/sbom/oci/oci.go:76-87 | the images scanned are those the manifest lists, under the image's repository, if and only if its media type is Docker's, unless it lists only itself; an image that is no Docker manifest list is itself the one image scanned |
| SbomOci.CheckIfMultiPlatformImage | pkg/sbom/oci/oci.go:76-87 | an error exactly for a manifest that does not decode; multi-platform exactly for Docker's media type |
| SbomOci.GenerateSBOMforOCI | pkg/sbom/oci/oci.go:18-74 | success means that the SBOM of every scanned image was attested, failure that something on the way was refused; what is scanned are the listed images if and only if the media type is Docker's |
| PassSpec.SbomValueExactly | pkg/sbom/oci/oci.go:18-74 | with stable answers the SBOM value is Attached if and only if the signer type is one of the three and the manifest, and for each listed image of a manifest list, or else for the image itself, scan and attestation are granted |
| PassSpec.SettleTable | internal/workflow-pod-reconciler/pod_status.go:95-132 | what one undisturbed visit records for an untouched pod, value by value: left out, without an artifact, or with one whose signing ends either way, with SBOMs wanted or not; and what it asks to be signed |
| PassSpec.SettleRest | internal/workflow-pod-reconciler/pod_status.go:176-234 | a visit that finds a signing result on record keeps it, takes the status from it, signs nothing, and adds the SBOM value only if it is wanted and missing |
| PassSpec.ProvenanceTable | internal/workflow-pod-reconciler/pod_status.go:306-339 | what the provenance step records for a pod, value by value |
| PodStatus.SignWithConfigOpts | pkg/signer/signer.go:17-28 | success if and only if the signer type is one of the three and the signer grants this request for the recorded artifact; the request is entered in the history as it was answered |
| PodStatus.AttestWithConfigOpts | pkg/signer/signer.go:30-41 | success if and only if the signer type is one of the three and this request for the pod's artifact, with the pass's statement, is granted; it is entered in the history as it was answered |
| PodStatus.GenerateSBOMWithConfigOpts | pkg/sbom/sbom.go:12-23 | success means a known signer type and that the SBOM of every image to be scanned was attested; failure, which is entered in the history, that the signer type is unknown or something on the way was refused |
| PodStatus.PodStatus.Annotate | internal/workflow-pod-reconciler/pod_status.go:108-112 | success leaves the pod's annotations as before but for the one key, and the copy in memory current |
| PodStatus.PodStatus.GetPod | internal/workflow-pod-reconciler/pod_status.go:248-255 | a fresh current copy of the pod if it exists and the call succeeds, else a failure |
| PodStatus.PodStatus.CurrentReconciliationStatus | internal/workflow-pod-reconciler/pod_status.go:257-280 | the flags as the annotations have them: done when the status is final, signed when any signed value is there |
| PodStatus.PodStatus.MarkPodAsSkipped | internal/workflow-pod-reconciler/pod_status.go:282-285 | only the status changes, to Skipped |
| PodStatus.PodStatus.HandleArtifactInfo | internal/workflow-pod-reconciler/pod_status.go:147-174 | the loop over the parameters computes `Discover` (see Nodes.DiscoverExactly); an artifact already recorded is kept; the error is what the last call was answered |
| PodStatus.PodStatus.SignAndRecord | internal/workflow-pod-reconciler/pod_status.go:183-201 | one request for the recorded artifact; the recorded value is Completed if and only if the signer type is known and this request was granted |
| PodStatus.PodStatus.HandleArtifactSigning | internal/workflow-pod-reconciler/pod_status.go:176-205 | at most one request, none when signed is recorded; the annotations and the flag as specified |
| PodStatus.PodStatus.HandleSBOMGeneration | internal/workflow-pod-reconciler/pod_status.go:207-234 | only the SBOM value changes, as specified, and is never overwritten |
| PodStatus.PodStatus.GenerateAndRecord | internal/workflow-pod-reconciler/pod_status.go:214-231 | the recorded value is what the request came to |
| PodStatus.PodStatus.UpdateFinalStatus | internal/workflow-pod-reconciler/pod_status.go:287-304 | the final status that artifact and signing result call for |
| PodStatus.PodStatus.HandlePodReconciliation | internal/workflow-pod-reconciler/pod_status.go:95-132 | success leaves a final status, an error is what the last call was answered; without disturbance the annotations are `Settle` and the signatures asked for `ToSign` of what was there |
| PodStatus.PodStatus.ReconcilePod | internal/workflow-pod-reconciler/pod_status.go:66-93 | touches no other pod, and none at all for an unfinished node; at most 31 calls, one signing and one SBOM request; the error is a conflict or not-found if and only if the last call ended so and was not the first, which fetches the pod; the flags mean what validation takes them for; without disturbance it is `Settle` of the pod as its first call finds it |
| PodStatus.PodStatus.HandleProvenanceAttachment | internal/workflow-pod-reconciler/pod_status.go:306-339 | panics exactly on a pod that was never fetched; else only the provenance value changes, as specified |
| PodStatus.PodStatus.GenerateStatement | internal/workflow-pod-reconciler/pod_status.go:318-321 | the statement with these subjects and the filtered metadata, or a refusal entered in the history with the number of its request |
| PodStatus.PodStatus.AttestAndRecord | internal/workflow-pod-reconciler/pod_status.go:323-335 | one attestation request; the recorded value is Attached if and only if the signer type is known and this request was granted; the error is what the last call was answered |
| PodStatus.PodStatus.AttachProvenance | internal/workflow-pod-reconciler/pod_status.go:313-336 | an error is that of the last call, or of a statement refused just now; the recorded value is what the attestation came to |
| WorkflowStatus.WorkflowStatus.GetPodInfo | internal/workflow-pod-reconciler/workflow_pod_reconciler.go:26-48 | one entry for every Pod node and no other, with distinct pods, in some order; an error exactly when there is none |
| WorkflowStatus.WorkflowStatus.ValidateAllPodsReconciled | internal/workflow-pod-reconciler/workflow_pod_reconciler.go:69-79 | the first entry with a problem decides the error; no error exactly when there is no problem |
| WorkflowStatus.WorkflowStatus.VisitAll | internal/workflow-pod-reconciler/workflow_pod_reconciler.go:59-64 | only pods of finished nodes change, at the cost of 1 to 31 calls each; an error ends the visits, and is a conflict or not-found if and only if the last call ended so and was not the first of its visit; without disturbance each pod is as its own visit leaves it, and the signatures are those of all visits in order |
| WorkflowStatus.WorkflowStatus.Reconcile | internal/workflow-pod-reconciler/workflow_pod_reconciler.go:59-79 | the pass is validated exactly when no error is returned; a signing error is a failure of this pass on record; any other error but the wish to wait broke off the visits, and its kind is that of the last call; without disturbance the error is the first problem |
| WorkflowStatus.WorkflowStatus.CollectSubjects | internal/workflow-pod-reconciler/workflow_pod_reconciler.go:82-96 | the subjects are, in order and once each, repository and digest of the recorded artifacts of all pods of the pass that found one |
| WorkflowStatus.WorkflowStatus.AttestArtifacts | internal/workflow-pod-reconciler/workflow_pod_reconciler.go:81-104 | without error every pod has a provenance value, or some node had no pod and the process panics; an error is that of the last call or of a statement refused in this step; every statement has these subjects |
| Controller.UpdateWorkflowStatus | internal/controller/workflow_controller.go:177-187 | the label has the value, or an error is reported, or its last call ended in conflict or not-found: exactly then a requeue is asked for, and nothing was written |
| Controller.Fetch | internal/controller/workflow_controller.go:94-130 | goes on exactly for a workflow that is there, enabled and not terminal |
| Controller.Prepare | internal/controller/workflow_controller.go:80-130 | the early ends and their reasons; no pod is touched |
| Controller.Dispatch | internal/controller/workflow_controller.go:138-158 | which error leads to which result; Error is set for a signing failure only, and then the result is what that patch was answered |
| Controller.Close | internal/controller/workflow_controller.go:160-171 | the terminal label by the outcome of the provenance step; the result is a failure exactly when the last call failed otherwise than by conflict or not-found |
| Controller.AttestAndClose | internal/controller/workflow_controller.go:160-174 | Completed only without a pod-less node; an error is owed to a statement refused, or to the last call failed, since the pods were validated; without disturbance Completed, or a panic when there is such a node |
| Controller.Conclude | internal/controller/workflow_controller.go:137-174 | what follows from the verdict on the pods, with the same guarantees |
| Controller.SecurePods | internal/controller/workflow_controller.go:137-174 | the contract of `Reconcile` from the snapshot on |
| Controller.Reconcile | internal/controller/workflow_controller.go:80-175 | at most 37n + 14 calls and n signing, SBOM and attestation requests; it asks to be tried again if and only if there is no Pod node or the visits were broken off by a conflict or not-found, which is how the last call ended, and that was not the first call of its visit; for every ending the result follows from the replies, and a label patch reports a failure exactly when its last call failed otherwise; it ends quietly with a non-terminal label only if the workflow is gone, not enabled, some pod is pending or running and the first problem found, or the last label patch's requeue was dropped; a label that becomes Error is owed to a pod that failed signing in this pass, on record, or to a failure of the provenance step after the visits; Completed never with a pod-less node; pods without a finished node in the snapshot stay as they were; the pass enters the history with the statuses stored before; an undisturbed pass is determined by the pods as its visits find them (`AsSpecified`) |
| Operation.WhatHolds | internal/controller/workflow_controller.go:80-175 | at any time: the stored keys of the controller are the history's state, all other keys of all objects are as other clients alone would have left them, every earlier state was consistent, the write bound holds, no pod was signed more often than there were passes, and an Error label has its reason within the calls and requests made |
| Operation.StoredTruth | internal/workflow-pod-reconciler/pod_status.go:147-338 | the stored annotations of a pod at any time: the artifact is the value of the last parameter looked at, or there is none to find; signed, sbom and provenance say Completed or Attached only if requests for that artifact, or for every image scanned for it, were granted, and Error only if one was refused or some pass had no known signer type |
| Operation.Operate | internal/controller/workflow_controller.go:80-175 | the same after any number of reconciliations, with the call and request bounds summed up; a pass of the history is a reconciliation that had Pod nodes to look at, and each of these asks for at most one signature of a pod; the stored annotations of all pods are as the replies of signer and registry have it (`AllTruthful`), an Error without a refusal only if some configuration had no known signer type, and without a configuration that wants SBOMs there is no SBOM value |
| Operation.CompletedSnapshot | internal/controller/workflow_controller.go:168-174 | when a pass has set Completed, the stored annotations of the pod of every Pod node it was shown are final, with provenance, and with signed=Completed for an artifact unless the pod's status was Error before the pass |
| Operation.SecureOnce | internal/controller/workflow_controller.go:80-175 | one reconciliation in terms of the annotations stored before and after: if it completes the workflow, all artifacts of its snapshot are recorded as signed if and only if no pod of the snapshot had status Error stored before |
| FaultFree.OrderIndependent | internal/workflow-pod-reconciler/workflow_pod_reconciler.go:31-79 | undisturbed passes over the same pods in different orders leave every pod of the workflow with the same annotations, ask for the same multiset of signatures, and validate both or neither |
| FaultFree.WhichError | internal/workflow-pod-reconciler/workflow_pod_reconciler.go:69-79 | the returned error is independent of the order if and only if all problems are the same |
| FaultFree.VerdictsStable | pkg/signer/signer.go:17-28 | while the signer's answers are stable and every pass has a known signer type, the signing verdicts of a run are fixed, and are those an undisturbed pass meets |
| FaultFree.ResumedAsOnce | internal/workflow-pod-reconciler/pod_status.go:66-132 | one undisturbed visit after any run, however cut, gives the status, artifact and signing result of one undisturbed visit of the untouched pod, if and only if the pod was not skipped before it was Succeeded |
| FaultFree.ResumedPass | internal/controller/workflow_controller.go:80-175 | the same for all pods of an undisturbed pass, in the phases in which its visits find them |
| FaultFree.Converges | internal/controller/workflow_controller.go:137-174 | an undisturbed pass that finds all nodes finished, and none without a pod, ends with a terminal label; it is Completed if and only if every pod is done and is without an artifact, signed, or was final before |
| FaultFree.FailureForgotten | internal/workflow-pod-reconciler/pod_status.go:257-271 | signing failures met by a pass that then waits for another pod do not keep the next pass from setting Completed, and stay on record |
| Witness.ForgetFailure | internal/workflow-pod-reconciler/pod_status.go:257-271 | two reconciliations in which no call fails: if the first lists the running node first, the stored label is Completed and the stored annotation of the other pod is signed=Error; the other way round the label is Error |
| Witness.SubjectOfImage | internal/workflow-pod-reconciler/workflow_pod_reconciler.go:85-92 | the subject of `registry/app@sha256:0` is named `registry/app` with the sha256 `0`, and no other subject identifies it |
| Witness.SkipTooEarly | internal/workflow-pod-reconciler/pod_status.go:103-106 | two reconciliations in which no call fails leave a Succeeded pod with an image skipped, where one visit of the untouched pod would sign it |
| Witness.ScanIndex | pkg/sbom/oci/oci.go:76-87 | a reconciliation in which nothing fails leaves an OCI index with sbom=Attached and the image it lists without an SBOM |
| Witness.MissLatecomer | internal/controller/workflow_controller.go:118-122 | a Pod node that appears, done and with an image, after the workflow is Completed is never secured: its pod stays without annotations through any number of reconciliations |

## Left out

- Watches, the work queue, leader election, the informer cache and back-off times; a requeue is a result, not a later pass.
- What signer, SBOM generator and registry do: oracle replies and the log of requests and publications.
- The parsing of image references beyond the two parts the code uses, and docker-hub name normalisation.
- JSON and protobuf encoding of the statement, external parameters, byproducts, resolved dependencies and run metadata; a statement is its subjects and the quoted workflow metadata.
- `pkg/auth`, `pkg/config`, `pkg/crane`, `cmd/main.go`, manifests, logging, and the flags `sbomAttached` and `provenanceAttached`, which nothing reads.
- A failure to read the controller's namespace, which ends a pass like a missing config map.
- The absence of a `labels` or `annotations` member as opposed to an empty one.
- FaultFree.ResumedAsOnce: says nothing of `sbom`, because a failed SBOM is recorded and kept, so it does depend on where a run was cut; that the signer gives one verdict for a reference throughout is a hypothesis, which `FaultFree.VerdictsStable` reduces to stable answers.
