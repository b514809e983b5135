# special-resource-operator reconciliation engine, in Dafny

This project models the reconciliation engine of the special-resource-operator
(`pkg/controller/specialresource`) and the dependency walk that drives it
(`controllers/specialresource.go`), and proves properties of that model.

The engine takes one manifest of YAML documents at a time. Each document goes through
three stages, in order:

- **Prefix stage.** A hook is chosen by the object's `callback` annotation and may rewrite
  the object in place or fan it out into a per-node list.
- **CRUD stage.** The object is created or updated in the object store. Some kinds have
  their live `resourceVersion` and `clusterIP` carried forward.
- **Postfix stage.** An image-pull check runs for driver containers. As written it ends the
  process on the first pod it lists (see "## Findings"). The model's check reads the Pod
  API's paths, and there a pull failure on an object naming a vendor sets the global
  `updateVendor`. Then a readiness wait runs. The DaemonSet wait also sets the global
  `node.count`.

The runtime facts come from the first cached node. These are the operating system, the
kernel version and the cluster version. They are substituted into serialised objects that
opt in.

The model is split into modules:

- `Outcomes`: errors and the three-way outcome. `Done` means success and `Failed` a
  returned Go error. `Fatal` covers `os.Exit` through `checkNestedFields` and `exitOnError`,
  and `panic`.
- `Objects`: the unstructured JSON object tree, with the typed nested getters, the setter
  and the metadata accessors of `unstructured.Unstructured`.
- `Text`: `strings.NewReplacer` as a single left-to-right pass, `strings.Replace` with
  `-1`, and `strconv.FormatUint(·, 16)`.
- `Adler32`: the Adler-32 checksum of RFC 1950, section 2.2 and section 9.
- `Globals`: the callback registries, and the package globals as fields of a `Reconciler`
  class.
- `Runtime`: `runtime.go`.
- `PrefixHooks`: `callbacks_prefix.go`.
- `WaitFor`: `waitfor.go`.
- `Callbacks`: `callbacks.go`.
- `Resources`: `resources.go`.
- `SpecialResources`: the two `specialresource.go` files.

Methods that change state are tied to specification functions of the old state. For
example, `CRUD` is tied to `CrudRun` and `EachResourceListItem` to `EachItem`, and the
properties are proved about those functions.

Every answer from the cluster is an input to the model. This covers a `Get`, a `List`, a
secret, a log stream and the controller reference. A `wait.Poll` gets the sequence of
answers for its condition checks. With a 5 s interval and a 15 s timeout, that is at most three
ticks plus one last check when the poller closes at the deadline: four checks in all.

The code departs in places from what its names and comments suggest. The model follows the code:

- Injection replaces four tokens. The update-vendor token is logged but never substituted
  (`Runtime.VendorTokenKept`).
- In the DaemonSet readiness rule, a present `numberAvailable` overrides the
  `numberUnavailable` test.
- The image-pull check never clears `updateVendor`. An empty pod list is an error, not a
  success.
- Only a `NotFound` fetch creates an object. Any other fetch error is only logged.
- `createFromYAML` does not call `injectRuntimeInformation`.

The Go code at this revision does not compile. The model resolves each inconsistency as follows:

- **`prefixResourceCallback`.** It is declared to return one value, but `createFromYAML`
  unpacks two. The model returns the hook's result together with the error. The object
  itself (`SameObject`) is returned when no hook runs.
- **Prefix hooks.** They return `(interface{}, error)` but are stored in a map of
  `error`-returning functions. The model keeps their two results.
- **`waitFor`.** It is declared in both `callbacks.go` and `waitfor.go`.
  `Globals.Registry.constructor` models the `init` registration, and
  `Globals.Registry.SetupCallbacks` the later one. The engine reads the registry after
  setup.
- **`waitForDaemonSetLogs`.** It takes a third argument, a pattern. The pattern test is an
  input predicate `matches`.
- **The stray `list.`** in `prefixNVIDIAdriverValdiation` is ignored.
- **`postfixResourceCallback`.** It returns one value, but `createFromYAML` unpacks two.
  The model uses its single error.
- **`injectRuntimeInformation`.** It calls `exitOnError` with one argument (runtime.go:15),
  where two are declared. The model ends the process on a decode error, as either reading
  would.
- **`checkForImagePullBackOff`.** It logs `waiting.(type)` in the default branch
  (callbacks.go:143), outside the type switch's guard. The log is left out, and the branch
  keeps the previous reason.

## Model

| member | source | states |
|---|---|---|
| Objects.NestedString | pkg/controller/specialresource/resources.go:184-185 | a string is reported exactly when the path leads to a string value, and it is that value |
| Objects.NestedInt64 | pkg/controller/specialresource/waitfor.go:117-118 | an int64 is reported exactly when the path leads to an integer value, and it is that value |
| Objects.NestedSlice | pkg/controller/specialresource/callbacks.go:134-135 | a slice is reported exactly when the path leads to a list value, and it is that list |
| Objects.SetNested | pkg/controller/specialresource/resources.go:187-190 | a successful set adds at most the path's first key to the top level and keeps every other top-level entry |
| Objects.RemoveNested | pkg/controller/specialresource/resources.go:209 | after removal the path reads as absent, and other top-level entries are kept |
| Objects.SetThenGet | pkg/controller/specialresource/resources.go:187 | after a successful set, the path reads back the value set |
| Objects.SetSucceedsIndependently | pkg/controller/specialresource/callbacks_prefix.go:172 | whether a set fails depends only on the object and the path, not on the value |
| Objects.NestedBelow | pkg/controller/specialresource/callbacks.go:134-135 | reading a longer path reads its prefix, then the rest inside the map found there; a null reads as absent and any other non-map is a mismatch |
| Objects.SetLeavesBranches | pkg/controller/specialresource/callbacks_prefix.go:41-47 | a set leaves every path that branches off the set path reading as before |
| Objects.SetKeepsOtherSettable | pkg/controller/specialresource/callbacks_prefix.go:41-47 | a set does not change whether a path branching off it can be set |
| Objects.SetLeavesOtherPaths | pkg/controller/specialresource/resources.go:187-202 | a set leaves every path that diverges from the set path unchanged |
| Objects.FoundIsSettable | pkg/controller/specialresource/resources.go:197 | a path that already holds a value can be set |
| Objects.SetSameValue | pkg/controller/specialresource/resources.go:187 | setting a path to the value it already holds leaves the object unchanged |
| Objects.StringMapAt | pkg/controller/specialresource/callbacks.go:50 | every annotation or label read is a string field of the object's map at that path; a map of strings is read whole; one non-string value, or no map at the path, gives no annotations at all |
| Objects.SetNamespace | pkg/controller/specialresource/resources.go:209 | an empty namespace clears the field; otherwise the namespace is set when the metadata is settable; nothing outside metadata changes |
| Objects.Unstructured.DeepCopy | pkg/controller/specialresource/resources.go:212 | the copy is a fresh object with the same content |
| Text.MatchAt | pkg/controller/specialresource/runtime.go:30-34 | picks the first replacer pair, in argument order, whose token starts at the position, or none |
| Text.ReplaceWithoutOccurrence | pkg/controller/specialresource/runtime.go:36 | text without any token is left unchanged by the replacer |
| Text.ReplaceAtMatch | pkg/controller/specialresource/runtime.go:36 | at a match, the replacement is emitted and the scan resumes after the token, so inserted values are never rescanned |
| Text.ReplaceAppend | pkg/controller/specialresource/runtime.go:36 | replacing a concatenation cut where no token straddles the cut is the concatenation of the two replacements |
| Text.FormatHex | pkg/controller/specialresource/callbacks_prefix.go:165 | the hex text is non-empty, lowercase hex digits, and has no leading zero unless the value is 0 |
| Text.DigitValue | pkg/controller/specialresource/callbacks_prefix.go:165 | a hex digit's value is below 16 and names that digit |
| Text.ParseFormatHex | pkg/controller/specialresource/callbacks_prefix.go:165 | reading the hex text back gives the number formatted |
| Adler32.Utf8 | pkg/controller/specialresource/callbacks_prefix.go:164 | the UTF-8 bytes of a name are at least as many as its characters; an ASCII name, as a node name is, encodes as one byte per character, that character's code |
| Adler32.Utf8Append | pkg/controller/specialresource/callbacks_prefix.go:164 | the encoding of a string and one more character is the string's encoding followed by that character's |
| Adler32.EncodeChar | pkg/controller/specialresource/callbacks_prefix.go:164 | each character takes one to four bytes, and ASCII is one byte of its own value |
| Adler32.Sums | pkg/controller/specialresource/callbacks_prefix.go:164 | both running sums stay below 65521 |
| Adler32.Checksum | pkg/controller/specialresource/callbacks_prefix.go:164 | the checksum fits in 32 bits |
| Adler32.SumsMatchDefinition | pkg/controller/specialresource/callbacks_prefix.go:164 | the incremental sums equal A = 1 + the byte sum and B = the sum of the A values, both mod 65521 (RFC 1950, section 2.2) |
| Adler32.ChecksumMatchesDefinition | pkg/controller/specialresource/callbacks_prefix.go:164 | the checksum is B * 65536 + A, as RFC 1950 section 2.2 defines it |
| Globals.Registry.constructor | pkg/controller/specialresource/waitfor.go:23-30 | the package init registers waiters for Pod, DaemonSet and BuildConfig and no prefix hook |
| Globals.Registry.SetupCallbacks | pkg/controller/specialresource/callbacks.go:20-37 | only the grafana hook is a prefix hook (the driver DaemonSet and internal hooks are not); the waiters are Pod, DaemonSet, BuildConfig and the driver DaemonSet log check |
| Runtime.RenderOperatingSystem | pkg/controller/specialresource/runtime.go:60-83 | rhel8 exactly for (rhcos, 4) and (rhel, 8), rhel7 exactly for (rhel, 7), and the empty string for every other pair |
| Runtime.GetOperatingSystem | pkg/controller/specialresource/runtime.go:40-58 | an empty node cache gives ""; otherwise it fails exactly when the first node's release ID or major version label is empty or missing, and renders those two labels |
| Runtime.GetKernelVersion | pkg/controller/specialresource/runtime.go:85-102 | an empty node cache gives ""; otherwise it fails exactly when the first node lacks the kernel label, and returns its value even when empty |
| Runtime.GetClusterVersion | pkg/controller/specialresource/runtime.go:104-106 | always the empty string, without error |
| Runtime.RuntimeRules | pkg/controller/specialresource/runtime.go:30-34 | four replacer pairs with non-empty tokens |
| Runtime.InjectRuntimeInformation | pkg/controller/specialresource/runtime.go:10-38 | undecodable JSON ends the process; without the annotation equal to "true" the bytes are unchanged; otherwise they are the single-pass replacement of the four tokens with the globals |
| Runtime.TokensDisagree | pkg/controller/specialresource/runtime.go:31-34 | no token starts with another token, so the order of the pairs never decides a match |
| Runtime.InjectToken | pkg/controller/specialresource/runtime.go:30-36 | each of the four tokens is replaced by its value and the scan continues after it |
| Runtime.InjectTokenFree | pkg/controller/specialresource/runtime.go:36 | text without tokens is unchanged by injection |
| Runtime.VendorTokenKept | pkg/controller/specialresource/runtime.go:27-34 | the update-vendor token is left as it is, because updateVendor is logged but not substituted |
| Runtime.NoTokenAfterComma | pkg/controller/specialresource/runtime.go:30-34 | no token starts at a comma |
| Runtime.InjectRepeatedToken | pkg/controller/specialresource/runtime.go:30-36 | repeated occurrences of the kernel token are all replaced identically |
| PrefixHooks.InPlace | pkg/controller/specialresource/callbacks_prefix.go:146-151 | a hook that edits in place returns the same object with the edit; on an error the object is as before |
| PrefixHooks.KernelFullVersion | pkg/controller/specialresource/callbacks_prefix.go:65-90 | the first listed GPU node's kernel label, or "" when that node lacks it, when no node is listed or when the listing fails |
| PrefixHooks.Credentials | pkg/controller/specialresource/callbacks_prefix.go:92-129 | a secret read error or undecodable JSON is returned; a missing datasources list ends the process; only the first datasource is read, an empty list or non-map entry gives empty strings, and a map entry must hold url and basicAuthPassword strings |
| PrefixHooks.GetPromURLPass | pkg/controller/specialresource/callbacks_prefix.go:92-129 | the loop that breaks after the first datasource computes exactly the credentials above |
| PrefixHooks.GrafanaRewrite | pkg/controller/specialresource/callbacks_prefix.go:131-152 | a missing prometheus data string ends the process; a credentials error is returned unchanged; on success the data string becomes the three sequential replacements, and every other path, including the other entries of `data`, reads as before |
| PrefixHooks.PrefixNVIDIAgrafanaConfigMap | pkg/controller/specialresource/callbacks_prefix.go:131-152 | the hook's result and the object's new content are the in-place rewrite; on an error the object is untouched |
| PrefixHooks.PromRewriteIsSequential | pkg/controller/specialresource/callbacks_prefix.go:141-143 | the three replacements are sequential, not simultaneous: a URL equal to the password token picks up the password, unlike a single-pass replacer |
| PrefixHooks.ReplaceWhole | pkg/controller/specialresource/callbacks_prefix.go:32 | replacing a whole string that is the target yields the replacement |
| PrefixHooks.PatchContainer | pkg/controller/specialresource/callbacks_prefix.go:26-38 | a non-map container panics; a driver container without an image string ends the process; only the driver container's image is rewritten, every KERNEL_FULL_VERSION replaced |
| PrefixHooks.PatchContainers | pkg/controller/specialresource/callbacks_prefix.go:26-39 | succeeds exactly when every container patches, keeping the length, and patches each container independently |
| PrefixHooks.DriverDaemonSetPatch | pkg/controller/specialresource/callbacks_prefix.go:19-50 | a missing container list ends the process; the patch succeeds exactly when the containers are a list, each one patches and the node selector can be set; on success the containers are the patched ones, the node selector holds the kernel version, and every path off both reads as before |
| PrefixHooks.WriteBack | pkg/controller/specialresource/callbacks_prefix.go:41-47 | the write-back succeeds exactly when the node selector can be set on the original object; then the container list and the kernel node selector hold the given values, and every path off both reads as before |
| PrefixHooks.PatchEachContainer | pkg/controller/specialresource/callbacks_prefix.go:26-39 | the loop computes exactly the patched containers |
| PrefixHooks.PatchStopsAt | pkg/controller/specialresource/callbacks_prefix.go:26-39 | the first container that cannot be patched ends the run, whatever follows |
| PrefixHooks.PrefixNVIDIAdriverDaemonset | pkg/controller/specialresource/callbacks_prefix.go:19-50 | the hook returns the same object, patched in place with the first GPU node's kernel version |
| PrefixHooks.SetContainersAndSelector | pkg/controller/specialresource/callbacks_prefix.go:41-49 | the object's new content is the write-back, and the hook returns the same object |
| PrefixHooks.PatchOnlyDriverImage | pkg/controller/specialresource/callbacks_prefix.go:29-35 | every field of every container is kept, except the driver container's image |
| PrefixHooks.FannedOut | pkg/controller/specialresource/callbacks_prefix.go:163-183 | one item per node, in node order, each the renamed copy; it fails only when there is a node and the name cannot be set |
| PrefixHooks.AllRenamable | pkg/controller/specialresource/callbacks_prefix.go:170-175 | when the name can be set once, every per-node copy can be renamed |
| PrefixHooks.FanOut | pkg/controller/specialresource/callbacks_prefix.go:163-183 | the node loop computes exactly the fanned-out items |
| PrefixHooks.ListOfItems | pkg/controller/specialresource/callbacks_prefix.go:185 | the list's items field is a JSON list holding each item as an object, in order |
| PrefixHooks.ValidationAsWritten | pkg/controller/specialresource/callbacks_prefix.go:154-192 | as written, the list's items field holds a Go slice of objects, one per node, and not a JSON list |
| PrefixHooks.Validation | pkg/controller/specialresource/callbacks_prefix.go:154-192 | corrected: the items field is a JSON list of one renamed copy per node, in node order; the object itself is untouched |
| PrefixHooks.PrefixNVIDIAdriverValidationAsWritten | pkg/controller/specialresource/callbacks_prefix.go:154-192 | the method computes the list as written |
| PrefixHooks.PrefixNVIDIAdriverValidation | pkg/controller/specialresource/callbacks_prefix.go:154-192 | the method computes the corrected list |
| PrefixHooks.ItemDiffersOnlyInName | pkg/controller/specialresource/callbacks_prefix.go:168-175 | a per-node item has the new name, and every path that diverges from metadata.name reads as in the original |
| PrefixHooks.ItemNameEncodesChecksum | pkg/controller/specialresource/callbacks_prefix.go:164-168 | an item's name is the original name, a dash, and hex text that reads back as the Adler-32 of the node name |
| WaitFor.Ticks | pkg/controller/specialresource/waitfor.go:34-37 | a poll makes one condition check per answer, and never more than timeout / interval = 3 ticks plus the last check at the deadline, 4 in all |
| WaitFor.LastCheckAtDeadline | pkg/controller/specialresource/waitfor.go:172-183 | an object that is missing at the three ticks and present at the last check at the deadline makes the availability poll succeed |
| WaitFor.FieldEqualsAt | pkg/controller/specialresource/waitfor.go:40-80 | ends the process exactly when the field is missing or has the wrong type, or the expected value is of another type; otherwise it holds exactly when the field equals the expected value |
| WaitFor.DaemonSetReadiness | pkg/controller/specialresource/waitfor.go:108-132 | a missing desiredNumberScheduled ends the process; a present numberAvailable decides, ready iff it equals desired; otherwise ready iff numberUnavailable is present and 0 |
| WaitFor.WaitForDaemonSetCallback | pkg/controller/specialresource/waitfor.go:108-132 | the readiness above, with desiredNumberScheduled stored into node.count |
| WaitFor.FirstSettledFrom | pkg/controller/specialresource/waitfor.go:172-182 | the first tick whose answer is not NotFound, or the deadline |
| WaitFor.AvailabilityDecided | pkg/controller/specialresource/waitfor.go:169-184 | the availability poll skips NotFound answers, succeeds on the first fetched object, fails with the first other error, and times out when the ticks run out |
| WaitFor.WaitForResourceAvailability | pkg/controller/specialresource/waitfor.go:169-184 | the polling loop computes exactly the availability outcome |
| WaitFor.ReadinessFrom | pkg/controller/specialresource/waitfor.go:186-204 | a field-equality poll never changes node.count |
| WaitFor.FirstDecisiveFrom | pkg/controller/specialresource/waitfor.go:190-202 | the first tick that is an error, a process exit or a ready object, or the deadline |
| WaitFor.ReadinessDecided | pkg/controller/specialresource/waitfor.go:186-204 | the readiness poll fails on any fetch error, NotFound included; it ends the process when the predicate does; it succeeds on the first ready copy; it times out otherwise |
| WaitFor.FieldPollIgnoresCount | pkg/controller/specialresource/waitfor.go:186-204 | a field-equality poll's outcome does not depend on node.count |
| WaitFor.NotFoundPolicies | pkg/controller/specialresource/waitfor.go:175-179 | on a NotFound answer the availability poll keeps polling, while the readiness poll fails at once |
| WaitFor.WaitForResourceFullAvailability | pkg/controller/specialresource/waitfor.go:186-204 | the polling loop computes exactly the readiness outcome and the node.count it leaves |
| WaitFor.BuildsCompleteFrom | pkg/controller/specialresource/waitfor.go:159-164 | succeeds exactly when every listed build, in list order, reaches Complete |
| WaitFor.DaemonSetLogs | pkg/controller/specialresource/waitfor.go:206-253 | a list error is wrapped; an empty list succeeds; only the first pod's log is read; a log under 100 bytes is an out-of-range panic; otherwise it succeeds exactly when the last 100 bytes match |
| WaitFor.Waiter | pkg/controller/specialresource/waitfor.go:100-167 | only the DaemonSet waiter changes node.count |
| WaitFor.ResourceWait | pkg/controller/specialresource/waitfor.go:84-98 | a kind without a waiter succeeds without polling; otherwise the waiter's error is wrapped with "Waiting too long for resource" |
| WaitFor.WaitForPod | pkg/controller/specialresource/waitfor.go:100-106 | availability, then the phase must become Succeeded; node.count is unchanged |
| WaitFor.WaitForDaemonSet | pkg/controller/specialresource/waitfor.go:134-140 | availability, then DaemonSet readiness, with node.count as the last readiness check left it |
| WaitFor.WaitForBuild | pkg/controller/specialresource/waitfor.go:142-167 | availability, a wrapped list error, then every build must become Complete; node.count is unchanged |
| WaitFor.WaitForDaemonSetLogs | pkg/controller/specialresource/waitfor.go:206-253 | the pod loop computes exactly the first-pod log outcome |
| WaitFor.OnlyFirstPodCounts | pkg/controller/specialresource/waitfor.go:248-249 | the pods after the first never change the outcome |
| WaitFor.WaitForResource | pkg/controller/specialresource/waitfor.go:84-98 | the registered waiter of the object's kind, with its error wrapped and its effect on node.count |
| WaitFor.DaemonSetExamples | pkg/controller/specialresource/waitfor.go:115-130 | (desired 3, unavailable 0) is ready; (3, available 2) is not; desired alone is never ready; available overrides unavailable; a missing desired count ends the process |
| Callbacks.PrefixStage | pkg/controller/specialresource/callbacks.go:46-60 | no callback annotation, or one naming no registered hook, hands the object on untouched |
| Callbacks.PrefixResourceCallback | pkg/controller/specialresource/callbacks.go:46-60 | the method's result and the object's new content are exactly the prefix stage over the registry |
| Callbacks.OnlyGrafanaIsRewritten | pkg/controller/specialresource/callbacks.go:27-29 | with the registry SetupCallbacks builds, no object is ever fanned out, and only objects annotated for the grafana hook are touched |
| Callbacks.ReasonAfter | pkg/controller/specialresource/callbacks.go:134-146 | a pod without the list ends the process; when its first entry is a map, that entry's reason counts (empty when absent); otherwise the previous pod's reason carries over |
| Callbacks.ScanFrom | pkg/controller/specialresource/callbacks.go:130-158 | the scan fails only with the rebuild request for the object's vendor; it never ends the process when every pod has the list |
| Callbacks.FirstDecidingFrom | pkg/controller/specialresource/callbacks.go:130-158 | the first pod from i on that lacks the list or, with a vendor named, reports a pull failure; no pod before it does |
| Callbacks.ScanDecided | pkg/controller/specialresource/callbacks.go:130-158 | the first deciding pod decides the scan: without the list the process ends, with a pull failure the rebuild of the named vendor is requested, and with no deciding pod the scan returns nil |
| Callbacks.AsWrittenScanEndsProcess | pkg/controller/specialresource/callbacks.go:134-135 | as written, a first pod whose containerStatuses is a list, or is not there yet, ends the process |
| Callbacks.ImagePullCheck | pkg/controller/specialresource/callbacks.go:96-159 | the scan reads the Pod API's paths; a ready DaemonSet succeeds without listing pods; a list error is returned; an empty list is "No Pods found, reconciling"; a rebuild needs a failed wait and a non-empty pod list |
| Callbacks.ImagePullRun | pkg/controller/specialresource/callbacks.go:96-159 | no object is written; updateVendor becomes the vendor on a rebuild and is kept otherwise, so without a vendor annotation it never changes |
| Callbacks.CheckForImagePullBackOff | pkg/controller/specialresource/callbacks.go:96-159 | the method's result and the engine state it leaves are the image-pull run |
| Callbacks.ScanPods | pkg/controller/specialresource/callbacks.go:130-158 | the pod loop computes the scan for either reading of the pod paths, and sets updateVendor only when it asks for a rebuild |
| Callbacks.CarryIsUnobservable | pkg/controller/specialresource/callbacks.go:130-155 | carrying a reason that does not stop the scan has the same effect as starting over from "" |
| Callbacks.BackoffDetected | pkg/controller/specialresource/callbacks.go:148-154 | a pod whose containerStatuses is a list with a first status waiting in ImagePullBackOff, on an object naming a vendor, gives the rebuild request for that vendor |
| Callbacks.PostfixRun | pkg/controller/specialresource/callbacks.go:62-94 | no writes; only the driver-container state runs the image-pull check, and its error skips the wait; when it did not stop, a wait annotation runs the kind's waiter and takes its status and node.count, and otherwise the stage returns nil; without either annotation it returns nil and changes nothing |
| Callbacks.PostfixResourceCallback | pkg/controller/specialresource/callbacks.go:62-94 | the method's result and the engine state it leaves are the postfix run |
| Resources.CarryForward | pkg/controller/specialresource/resources.go:178-204 | the live kind decides: other kinds leave the desired object as it is; SCC, Service, ServiceMonitor and Route get the live resourceVersion, and a Service also gets the live clusterIP; missing live fields end the process; the carry-forward succeeds exactly when every field it needs is live and can be set on the desired object; on success every path off the two carried fields, such as the name, labels and annotations, reads as before |
| Resources.CarryForwardIdempotent | pkg/controller/specialresource/resources.go:178-204 | carrying forward twice gives the same object as carrying forward once |
| Resources.UpdateResource | pkg/controller/specialresource/resources.go:178-204 | the method's result and, on success, the desired object's new content are the carry-forward; on failure the object is as before, except that a Service whose clusterIP cannot be carried keeps the live resourceVersion already set |
| Resources.WithOwner | pkg/controller/specialresource/resources.go:214-217 | setting the owner reference keeps the namespace and everything outside metadata |
| Resources.CrudRun | pkg/controller/specialresource/resources.go:206-250 | at most one write is appended; an owner error comes before any call; NotFound creates once ("Couldn't Create"); a found ServiceAccount or Pod is left alone; another found kind is updated with the carried-forward copy ("Couldn't Update"); other fetch errors write nothing and return nil |
| Resources.CRUD | pkg/controller/specialresource/resources.go:206-250 | the method's result, the writes and the object's new content are the CRUD run |
| Resources.CrudStep | pkg/controller/specialresource/resources.go:111-113 | one CRUD step keeps the earlier writes and appends at most one |
| Resources.CreateWhenAbsent | pkg/controller/specialresource/resources.go:221-227 | CRUD on an object not yet in the store, with a create that succeeds, returns nil and appends exactly one Create |
| Resources.EachItemFrom | pkg/controller/specialresource/resources.go:106-115 | after the last item the walk returns nil; an item that is not a map is "items member is not an object: map[string]interface {}" with nothing written; an item whose CRUD stops gives that CRUD's result and state; at most one write per item, nothing else changes |
| Resources.EachItemSplits | pkg/controller/specialresource/resources.go:106-115 | the items are handled in order: the walk over two runs of items is the walk over the first, then, unless it stopped, the walk over the rest from the state it left |
| Resources.EachItem | pkg/controller/specialresource/resources.go:95-116 | a missing items field is "content is not a list", and a non-list one is that message with its Go type; a list is walked item by item from the first; nothing else changes |
| Resources.EachResourceListItem | pkg/controller/specialresource/resources.go:95-116 | the item loop computes exactly the list run |
| Resources.CreatesOnePerItem | pkg/controller/specialresource/resources.go:106-115 | when every item is an object and nothing exists yet, each item is created once, in order, and the run succeeds |
| Resources.ReconcileRun | pkg/controller/specialresource/resources.go:118-136 | never returns an error, since a CRUD error ends the process; only the writes change; a list leaves the document's object as it is |
| Resources.Exit | pkg/controller/specialresource/resources.go:65-70 | an error becomes a process exit, and success stays success |
| Resources.ReconcileResource | pkg/controller/specialresource/resources.go:118-136 | the method's result, the writes and the object's new content are the reconcile run |
| Resources.AsWrittenFanOutIsFatal | pkg/controller/specialresource/resources.go:102-105 | the fan-out list as written always ends the process with "CRUD exited non-zero" and writes nothing |
| Resources.FanOutCreatesOnePerNode | pkg/controller/specialresource/resources.go:121-125 | the corrected fan-out list creates one object per GPU node and succeeds |
| Resources.DocumentRun | pkg/controller/specialresource/resources.go:144-167 | a prefix error or exit stops the document before CRUD and changes nothing |
| Resources.CreateFromYAML | pkg/controller/specialresource/resources.go:138-176 | the document loop computes exactly the manifest run, each document being prefix, reconcile and postfix over the registry's hooks |
| Resources.StopIgnoresLaterDocuments | pkg/controller/specialresource/resources.go:142-169 | once a document stops the run, later documents and a scanner error are never observed |
| Resources.ScanErrorReportedLast | pkg/controller/specialresource/resources.go:171-175 | a scanner error is reported after all documents were applied, and does not undo their writes |
| SpecialResources.GetSpecialResourceFrom | pkg/controller/specialresource/specialresource.go:13-38 | success returns the fetched resource; an error is wrapped with exactly one context: NotFound, Forbidden or Unexpected |
| SpecialResources.CreateSpecialResourceFrom | controllers/specialresource.go:124-147 | always an empty SpecialResource, without error |
| SpecialResources.Resolve | controllers/specialresource.go:65-70 | the fetched dependency, or the empty resource after any fetch error, not only NotFound |
| SpecialResources.Steps | controllers/specialresource.go:59-89 | a resource's steps are its resolved dependencies in order, then the resource itself |
| SpecialResources.PlanStep | controllers/specialresource.go:52-91 | the plan for one more resource extends the plan by that resource's steps |
| SpecialResources.PlanPrefix | controllers/specialresource.go:52-91 | the plan for the first resources is a prefix of the whole plan |
| SpecialResources.PlanAt | controllers/specialresource.go:52-91 | each step of a resource sits at its position in the whole plan |
| SpecialResources.FirstFailure | controllers/specialresource.go:73-89 | the first planned reconcile that fails, or the end of the plan |
| SpecialResources.FirstFailureAfter | controllers/specialresource.go:73-89 | searching from a position before which every reconcile succeeded finds the same first failure |
| SpecialResources.Reported | controllers/specialresource.go:73-89 | a reconcile error is reported as "Reconciling failed" |
| SpecialResources.Reconcilers | controllers/specialresource.go:32-95 | NotFound on the list is success with no calls; other list errors are returned; the calls are a prefix of the plan, all of it on success; a failure ends the calls at the failing one |
| SpecialResources.DependenciesFirst | controllers/specialresource.go:52-89 | in the plan, every resource comes right after its dependencies, in order |
| SpecialResources.AbortOnFirstFailure | controllers/specialresource.go:73-89 | after a failing reconcile nothing further is reconciled and the run fails |
| SpecialResources.ReconcilersStopAt | controllers/specialresource.go:73-89 | when the n-th planned reconcile is the first to fail, the run reports "Reconciling failed" and has reconciled exactly the first n + 1 steps |
| SpecialResources.ReconcilersComplete | controllers/specialresource.go:52-93 | when every planned reconcile succeeds, the run returns nil after reconciling the whole plan |
| SpecialResources.SpecialResourceReconciler.ReconcileHardwareConfigurations | controllers/specialresource.go:84 | reconciles the current r.specialresource, with the given answer |
| SpecialResources.SpecialResourceReconciler.ReconcileDependency | controllers/specialresource.go:65-78 | r.specialresource becomes the resolved dependency, which is then reconciled |
| SpecialResources.SpecialResourceReconciler.SpecialResourceReconcilers | controllers/specialresource.go:32-95 | the method's result and the resources it reconciled are exactly the run; r.specialresource is left at the last one reconciled |
| SpecialResources.SpecialResourceReconciler.ReconcileWithDependencies | controllers/specialresource.go:59-89 | one resource's dependencies and then the resource are reconciled in plan order, stopping at the first failure |

## Left out

- Metrics registration, manifest-file loading and directory walking are left out. These are
  `controllers/metrics.go`, both `manifests.go` files, `ReconcileClusterResources` and
  `filePathWalkDir`. They are foreign libraries and the filesystem.
- `AddKubeClient`, `Add3dpartyResourcesToScheme` and the scheme are client bootstrap, so they
  are left out.
- YAML scanning, YAML-to-JSON conversion and JSON decoding are library calls. Their results
  are inputs: a `Doc` per document, a scanner error, and the decoded object.
- Regular-expression matching is an input predicate, because it is a library call.
- `controllerutil.SetControllerReference` is an input, because it is a library call. It gives
  an owner reference or an error.
- Real time in `wait.Poll` is not modelled. A poll gets the answers for its condition checks:
  at most three ticks plus the last check at the deadline. Fewer answers stand for a run in
  which the tick at the deadline loses its race with the deadline.
- Pod log streaming is an input. A log arrives as bytes or as a stream or copy error.
- Logging is left out. It has no effect on the outcome.
- Concurrency is left out. The engine's globals are a single-threaded state object.
- Integers are unbounded, so `int64` overflow of the status fields is not modelled. No
  comparison here can overflow.
- Resources.EachResourceListItem: the list items are values, so aliasing between a list item
  and the CRUD's changes to it is not modelled. No later step reads the item.
- `ReconcileHardwareConfigurations` is the per-resource pipeline. It lies outside this
  repository's core files, so its answer is an input per call.
- The "Dependency creation failed" return is not modelled. `createSpecialResourceFrom` never
  returns an error, so that path cannot run.
- `ReconcileResource`'s default branch is not modelled. The prefix stage hands on only an
  object or a list, so that branch cannot run.
- Runtime.InjectRuntimeInformation: the outcome of `UnmarshalJSON` is an input, as the
  decoded object or none.
- SpecialResources.CreateSpecialResourceFrom: the recipe directory walk is left out. When
  the directory is missing, `filepath.Walk` calls its function with a nil `info`, and
  `info.IsDir()` panics (controllers/manifests.go:34-35). The "no error" result holds only when
  the directory exists.
- Resources.CRUD: `client.Create` decodes the server's reply into the object it sends, the
  document's own object. That is not modelled; the object keeps the content CRUD gave it.
  The postfix stage reads only its annotations and kind, which the model takes the reply to
  keep. `client.Update` decodes into the copy it sends, which nothing reads afterwards.
- Callbacks.ImagePullCheck: the engine's image-pull check reads the Pod API's paths
  (`PodStatus`), not the paths callbacks.go:134 reads. As written every listed pod ends the
  process (see "## Findings"). `Callbacks.ImagePullRun`, `Callbacks.CheckForImagePullBackOff`
  and the postfix and manifest runs built on them model the corrected reading. The as-written
  reading is modelled only by `ScanFrom` and `ScanPods` with the `AsWritten` layout.
- SpecialResources.GetSpecialResourceFrom: the two copies of this function are identical up
  to the API version. One member models both.

## Findings

| source | as written | input that shows it | evidently intended | confidence | as-written member | corrected member |
|---|---|---|---|---|---|---|
| pkg/controller/specialresource/callbacks_prefix.go:185 | The fan-out hook stores `list.Items`, a `[]unstructured.Unstructured`, under `items`. `EachResourceListItem` (resources.go:102-105) asserts `[]interface{}`, so the assertion fails and `ReconcileResource` ends the process. | Any object routed to the validation hook with a successful fan-out, even over zero nodes. | `items` holds a JSON list of the per-node objects, and each one is created. | not executed; latent, because SetupCallbacks registers no validation hook (Callbacks.OnlyGrafanaIsRewritten) | PrefixHooks.ValidationAsWritten, Resources.AsWrittenFanOutIsFatal | PrefixHooks.Validation, Resources.FanOutCreatesOnePerNode |
| pkg/controller/specialresource/callbacks.go:134-135 | The scan reads `status.containerStatuses.state.waiting` as one nested slice, and `checkNestedFields` ends the process when it is not found or not a slice. In a Pod, `containerStatuses` is a list, and `state.waiting` is a map. | Any pod listed while the DaemonSet is not ready: its `containerStatuses` is a list, or is not there yet. | Read `containerStatuses` as the list, and the reason at `state.waiting.reason` in its first entry. A pull failure with a vendor named then asks for the rebuild. | not executed; high that the path cannot match a Pod; the first-entry reading keeps the loop's `break` | Callbacks.AsWrittenScanEndsProcess | Callbacks.ScanDecided, Callbacks.BackoffDetected |
