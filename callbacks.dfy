/**
 * The callback dispatch around each reconciled object: the prefix stage picks
 * a registered hook by the object's `callback` annotation; the postfix stage
 * checks a driver container for image pull failures and waits for objects
 * that ask to be waited for.
 */
module Callbacks {
  import opened Outcomes
  import opened Objects
  import opened Globals
  import opened PrefixHooks
  import opened WaitFor

  const CallbackAnnotation := "callback"
  const StateAnnotation := "specialresource.openshift.io/state"
  const WaitAnnotation := "specialresource.openshift.io/wait"
  const VendorAnnotation := "specialresource.openshift.io/driver-container-vendor"

  /* ----- prefixResourceCallback ----- */

  /** The object store answers a prefix hook may need. */
  datatype PrefixEnv = PrefixEnv(secret: SecretRead, gpuNodes: Fetch<seq<Node>>)

  /** The hook registered under the object's callback annotation, if both exist. */
  function HookFor(prefix: map<string, PrefixHook>, content: Fields): Option<PrefixHook>
  {
    var annotations := Annotations(content);
    if CallbackAnnotation in annotations && annotations[CallbackAnnotation] in prefix then
      Some(prefix[annotations[CallbackAnnotation]])
    else None
  }

  /** What each hook does to an object. */
  function RunHook(hook: PrefixHook, content: Fields, env: PrefixEnv): Prefixed
  {
    match hook
    case GrafanaConfigMap => InPlace(GrafanaRewrite(content, env.secret), content)
    case DriverDaemonSet => InPlace(DriverDaemonSetPatch(content, FirstKernelLabel(AllNodesWithLabel(env.gpuNodes))), content)
    case DriverValidation => Validation(content, env.gpuNodes)
  }

  /**
   * The prefix stage: an object without a callback annotation, or with one no
   * hook is registered under, is handed on as it is.
   */
  function PrefixStage(prefix: map<string, PrefixHook>, content: Fields, env: PrefixEnv): (p: Prefixed)
    ensures CallbackAnnotation !in Annotations(content) ==> p == Prefixed(Done(SameObject), content)
    ensures CallbackAnnotation in Annotations(content) && Annotations(content)[CallbackAnnotation] !in prefix ==>
              p == Prefixed(Done(SameObject), content)
  {
    match HookFor(prefix, content)
    case Some(hook) => RunHook(hook, content, env)
    case None => Prefixed(Done(SameObject), content)
  }

  /** prefixResourceCallback: dispatch through the prefix registry. */
  method PrefixResourceCallback(r: Reconciler, obj: Unstructured, env: PrefixEnv) returns (res: Outcome<Modified>)
    modifies obj
    ensures Prefixed(res, obj.content) == PrefixStage(r.registry.prefix, old(obj.content), env)
  {
    var annotations := Annotations(obj.content);
    if CallbackAnnotation !in annotations {
      return Done(SameObject);
    }
    var todo := annotations[CallbackAnnotation];
    if todo !in r.registry.prefix {
      return Done(SameObject);
    }
    match r.registry.prefix[todo] {
      case GrafanaConfigMap => res := PrefixNVIDIAgrafanaConfigMap(obj, env.secret);
      case DriverDaemonSet => res := PrefixNVIDIAdriverDaemonset(obj, env.gpuNodes);
      case DriverValidation => res := PrefixNVIDIAdriverValidation(obj, env.gpuNodes);
    }
  }

  /**
   * With the registry SetupCallbacks builds, only the grafana ConfigMap is
   * rewritten: every other object passes the prefix stage unchanged, and no
   * object is ever fanned out into a list.
   */
  lemma OnlyGrafanaIsRewritten(content: Fields, env: PrefixEnv)
    ensures var p := PrefixStage(map["nvidia-grafana-configmap" := GrafanaConfigMap], content, env);
            !p.res.Done? || p.res.value == SameObject
    ensures !AnnotationIs(content, CallbackAnnotation, "nvidia-grafana-configmap") ==>
              PrefixStage(map["nvidia-grafana-configmap" := GrafanaConfigMap], content, env)
              == Prefixed(Done(SameObject), content)
  {
  }

  /* ----- checkForImagePullBackOff ----- */

  /** The object store answers the postfix stage may need. */
  datatype PostfixEnv = PostfixEnv(
    daemonSet: WaitEnv,          // the DaemonSet wait of checkForImagePullBackOff
    pods: Fetch<seq<Fields>>,    // the List of the DaemonSet's pods by its app label
    wait: WaitEnv)               // the wait of waitForResource

  /** Where the scan finds a pod's list of entries, and where in an entry it finds the reason. */
  datatype PodLayout = PodLayout(entries: seq<string>, reason: seq<string>)

  type Layout = l: PodLayout | |l.entries| > 0 && |l.reason| > 0 witness PodLayout(["status"], ["reason"])

  /** The paths as callbacks.go reads them: a `waiting` list under a `containerStatuses` map. */
  const AsWritten: Layout := PodLayout(["status", "containerStatuses", "state", "waiting"], ["reason"])

  /** The paths of the Pod API: `containerStatuses` is the list, an entry holds `state.waiting.reason`. */
  const PodStatus: Layout := PodLayout(["status", "containerStatuses"], ["state", "waiting", "reason"])

  /** checkNestedFields ending the process on a pod without the list. */
  const EntriesMissing := "pod status list missing or not a list"

  predicate IsPullFailure(reason: string)
  {
    reason == "ImagePullBackOff" || reason == "ErrImagePull"
  }

  function BackoffError(vendor: string): Error
  {
    Message("ImagePullBackOff need to rebuild " + vendor + " driver-container")
  }

  /** The driver-container vendor annotation, if the object has one. */
  function Vendor(content: Fields): Option<string>
  {
    if VendorAnnotation in Annotations(content) then Some(Annotations(content)[VendorAnnotation]) else None
  }

  /**
   * The reason the scan holds after a pod: the list must be there (else the
   * process ends); its first entry's reason when that entry is a map, and the
   * previous pod's reason otherwise.
   */
  function ReasonAfter(pod: Fields, layout: Layout, previous: string): (res: Outcome<string>)
    ensures !res.Failed?
    ensures res.Fatal? <==> !NestedSlice(pod, layout.entries).Present?
    ensures res.Done? && |NestedSlice(pod, layout.entries).v| > 0 && NestedSlice(pod, layout.entries).v[0].Obj? ==>
              res.value == StringOrEmpty(NestedString(NestedSlice(pod, layout.entries).v[0].fields, layout.reason))
    ensures res.Done? && !(|NestedSlice(pod, layout.entries).v| > 0 && NestedSlice(pod, layout.entries).v[0].Obj?) ==>
              res.value == previous
  {
    match NestedSlice(pod, layout.entries)
    case Present(entries) =>
      if |entries| > 0 && entries[0].Obj? then Done(StringOrEmpty(NestedString(entries[0].fields, layout.reason)))
      else Done(previous)
    case _ => Fatal(EntriesMissing)
  }

  /**
   * The pod scan from pod i on: the first pod whose reason is a pull failure
   * stops it with the rebuild request, provided the object names a vendor.
   */
  function ScanFrom(pods: seq<Fields>, i: nat, reason: string, layout: Layout, vendor: Option<string>): (res: Status)
    requires i <= |pods|
    ensures res.Failed? ==> vendor.Some? && res.error == BackoffError(vendor.value)
    ensures (forall j :: i <= j < |pods| ==> NestedSlice(pods[j], layout.entries).Present?) ==> !res.Fatal?
    decreases |pods| - i
  {
    if i == |pods| then Ok
    else match ReasonAfter(pods[i], layout, reason)
      case Done(next) =>
        if IsPullFailure(next) && vendor.Some? then Failed(BackoffError(vendor.value))
        else ScanFrom(pods, i + 1, next, layout, vendor)
      case Failed(e) => Failed(e)
      case Fatal(message) => Fatal(message)
  }

  /** Whether the pod's first entry is a map whose reason is a pull failure. */
  predicate ReportsPullFailure(pod: Fields, layout: Layout)
  {
    var entries := NestedSlice(pod, layout.entries);
    entries.Present? && |entries.v| > 0 && entries.v[0].Obj?
    && IsPullFailure(StringOrEmpty(NestedString(entries.v[0].fields, layout.reason)))
  }

  /** Whether a pod decides the scan: it lacks the list, or it reports a pull failure and a vendor is named. */
  predicate Decides(pod: Fields, layout: Layout, vendor: Option<string>)
  {
    !NestedSlice(pod, layout.entries).Present? || (vendor.Some? && ReportsPullFailure(pod, layout))
  }

  /** The first pod from i on that decides the scan, or |pods| when none does. */
  function FirstDecidingFrom(pods: seq<Fields>, i: nat, layout: Layout, vendor: Option<string>): (k: nat)
    requires i <= |pods|
    ensures i <= k <= |pods|
    ensures k < |pods| ==> Decides(pods[k], layout, vendor)
    ensures forall j :: i <= j < k ==> !Decides(pods[j], layout, vendor)
    decreases |pods| - i
  {
    if i == |pods| || Decides(pods[i], layout, vendor) then i else FirstDecidingFrom(pods, i + 1, layout, vendor)
  }

  /**
   * The scan is decided by the first deciding pod: a pod without the list ends
   * the process, a pull failure asks for the rebuild of the named vendor, and
   * when no pod decides the scan succeeds.
   */
  lemma {:induction false} ScanDecided(pods: seq<Fields>, i: nat, reason: string, layout: Layout, vendor: Option<string>)
    requires i <= |pods|
    requires !IsPullFailure(reason) || vendor.None?
    ensures var k := FirstDecidingFrom(pods, i, layout, vendor);
            ScanFrom(pods, i, reason, layout, vendor)
            == if k == |pods| then Ok
               else if !NestedSlice(pods[k], layout.entries).Present? then Fatal(EntriesMissing)
               else Failed(BackoffError(vendor.value))
    decreases |pods| - i
  {
    if i < |pods| && !Decides(pods[i], layout, vendor) {
      ScanDecided(pods, i + 1, ReasonAfter(pods[i], layout, reason).value, layout, vendor);
    }
  }

  /**
   * As written, the scan looks for the waiting list through containerStatuses
   * as if that were a map.  In a Pod it is a list, or not there yet, so the
   * first pod listed ends the process and no rebuild is ever asked for.
   */
  lemma AsWrittenScanEndsProcess(pods: seq<Fields>, reason: string, vendor: Option<string>)
    requires |pods| > 0
    requires Nested(pods[0], PodStatus.entries).Absent?
             || (Nested(pods[0], PodStatus.entries).Found? && Nested(pods[0], PodStatus.entries).value.Arr?)
    ensures ScanFrom(pods, 0, reason, AsWritten, vendor) == Fatal(EntriesMissing)
  {
    assert AsWritten.entries == PodStatus.entries + ["state", "waiting"];
    NestedBelow(pods[0], PodStatus.entries, ["state", "waiting"]);
  }

  /**
   * checkForImagePullBackOff's verdict: a DaemonSet that becomes ready is
   * fine; otherwise its pods are listed, an empty list is an error, and the
   * pods are scanned for a pull failure.
   */
  function ImagePullCheck(daemonSet: Status, pods: Fetch<seq<Fields>>, vendor: Option<string>): (res: Status)
    ensures daemonSet.Done? ==> res == Ok
    ensures pods.Fetched? && |pods.item| == 0 && daemonSet.Failed? ==> res == Failed(Message("No Pods found, reconciling"))
    ensures daemonSet.Fatal? ==> res == daemonSet
    ensures daemonSet.Failed? && pods.FetchFailed? ==> res == Failed(ClientError(pods.error))
    ensures Rebuild(res, vendor) ==> daemonSet.Failed? && pods.Fetched? && |pods.item| > 0
  {
    if daemonSet.Done? then Ok
    else if daemonSet.Fatal? then daemonSet
    else match pods
      case FetchFailed(e) => Failed(ClientError(e))
      case Fetched(ps) => if |ps| == 0 then Failed(Message("No Pods found, reconciling")) else ScanFrom(ps, 0, "", PodStatus, vendor)
  }

  /** Whether the verdict asks for a rebuild, which is what sets updateVendor. */
  predicate Rebuild(res: Status, vendor: Option<string>)
  {
    vendor.Some? && res == Failed(BackoffError(vendor.value))
  }

  /** The verdict and the engine state afterwards: node.count from the DaemonSet wait, updateVendor on a rebuild. */
  function ImagePullRun(content: Fields, env: PostfixEnv, s: State): (out: (Status, State))
    ensures out.1.writes == s.writes
    ensures Vendor(content).None? ==> out.1.updateVendor == s.updateVendor
    ensures Rebuild(out.0, Vendor(content)) ==> out.1.updateVendor == Vendor(content).value
    ensures !Rebuild(out.0, Vendor(content)) ==> out.1.updateVendor == s.updateVendor
  {
    var waited := Waiter(WaitDaemonSet, env.daemonSet, s.nodeCount);
    var res := ImagePullCheck(waited.status, env.pods, Vendor(content));
    var vendor := if Rebuild(res, Vendor(content)) then Vendor(content).value else s.updateVendor;
    (res, s.(nodeCount := waited.nodeCount, updateVendor := vendor))
  }

  /** checkForImagePullBackOff. */
  method CheckForImagePullBackOff(r: Reconciler, obj: Unstructured, env: PostfixEnv) returns (res: Status)
    modifies r
    ensures (res, r.Snapshot()) == ImagePullRun(obj.content, env, old(r.Snapshot()))
  {
    var waited := WaitForDaemonSet(r, env.daemonSet);
    if waited.Done? {
      return Ok;
    } else if waited.Fatal? {
      return waited;
    }
    if env.pods.FetchFailed? {
      return Failed(ClientError(env.pods.error));
    }
    var pods := env.pods.item;
    if |pods| == 0 {
      return Failed(Message("No Pods found, reconciling"));
    }
    res := ScanPods(r, obj, pods, PodStatus);
  }

  /** The pod loop of checkForImagePullBackOff, carrying the last reason seen from pod to pod. */
  method ScanPods(r: Reconciler, obj: Unstructured, pods: seq<Fields>, layout: Layout) returns (res: Status)
    modifies r
    ensures res == ScanFrom(pods, 0, "", layout, Vendor(obj.content))
    ensures r.Snapshot() == if Rebuild(res, Vendor(obj.content)) then old(r.Snapshot()).(updateVendor := Vendor(obj.content).value)
                            else old(r.Snapshot())
  {
    var reason := "";
    for i := 0 to |pods|
      invariant ScanFrom(pods, i, reason, layout, Vendor(obj.content)) == ScanFrom(pods, 0, "", layout, Vendor(obj.content))
      invariant r.Snapshot() == old(r.Snapshot())
    {
      var entries := NestedSlice(pods[i], layout.entries);
      if !entries.Present? {
        return Fatal(EntriesMissing);
      }
      for k := 0 to |entries.v|
        invariant k == 0
      {
        match entries.v[k] {
          case Obj(entry) => reason := StringOrEmpty(NestedString(entry, layout.reason));
          case _ =>
        }
        break;
      }
      if IsPullFailure(reason) {
        var annotations := Annotations(obj.content);
        if VendorAnnotation in annotations {
          r.updateVendor := annotations[VendorAnnotation];
          return Failed(BackoffError(r.updateVendor));
        }
      }
    }
    return Ok;
  }

  /**
   * The reason carried over from an earlier pod never changes the verdict
   * unless it is itself a pull failure with a vendor named, which the scan
   * never carries: scanning with it is scanning with "".
   */
  lemma {:induction false} CarryIsUnobservable(pods: seq<Fields>, i: nat, reason: string, layout: Layout, vendor: Option<string>)
    requires i <= |pods|
    requires !IsPullFailure(reason) || vendor.None?
    ensures ScanFrom(pods, i, reason, layout, vendor) == ScanFrom(pods, i, "", layout, vendor)
    decreases |pods| - i
  {
    if i < |pods| && NestedSlice(pods[i], layout.entries).Present? {
      var next := ReasonAfter(pods[i], layout, reason).value;
      var next' := ReasonAfter(pods[i], layout, "").value;
      if !(IsPullFailure(next) && vendor.Some?) {
        CarryIsUnobservable(pods, i + 1, next, layout, vendor);
        CarryIsUnobservable(pods, i + 1, next', layout, vendor);
      }
    }
  }

  /** A pod whose first container status is waiting in ImagePullBackOff asks for a rebuild of the named vendor. */
  lemma BackoffDetected(vendor: string)
    ensures var pod := map["status" := Obj(map["containerStatuses" := Arr([Obj(map["state" := Obj(map[
                "waiting" := Obj(map["reason" := Str("ImagePullBackOff")])])])])])];
            ScanFrom([pod], 0, "", PodStatus, Some(vendor)) == Failed(BackoffError(vendor))
  {
    var waiting := map["reason" := Str("ImagePullBackOff")];
    var state := map["waiting" := Obj(waiting)];
    var entry := map["state" := Obj(state)];
    var status := map["containerStatuses" := Arr([Obj(entry)])];
    var pod := map["status" := Obj(status)];
    assert Nested(pod, PodStatus.entries) == Found(Arr([Obj(entry)]));
    assert Nested(state, ["waiting", "reason"]) == Found(Str("ImagePullBackOff"));
    assert Nested(entry, PodStatus.reason) == Found(Str("ImagePullBackOff"));
    assert ReasonAfter(pod, PodStatus, "") == Done("ImagePullBackOff");
  }

  /* ----- postfixResourceCallback ----- */

  /**
   * The postfix stage: the image pull check for a driver container (an error
   * stops the stage), then the wait for objects annotated to be waited for.
   */
  function PostfixRun(waitFor: map<string, WaitHook>, content: Fields, env: PostfixEnv, s: State): (out: (Status, State))
    ensures out.1.writes == s.writes
    ensures !AnnotationIs(content, StateAnnotation, "driver-container") ==> out.1.updateVendor == s.updateVendor
    ensures !AnnotationIs(content, StateAnnotation, "driver-container") && !AnnotationIs(content, WaitAnnotation, "true") ==>
              out == (Ok, s)
    ensures AnnotationIs(content, StateAnnotation, "driver-container") && ImagePullRun(content, env, s).0.Stops() ==>
              out == ImagePullRun(content, env, s)
    ensures var pulled := if AnnotationIs(content, StateAnnotation, "driver-container") then ImagePullRun(content, env, s) else (Ok, s);
            pulled.0.Done? ==>
              if AnnotationIs(content, WaitAnnotation, "true") then
                var waited := ResourceWait(waitFor, Kind(content), env.wait, pulled.1.nodeCount);
                out == (waited.status, pulled.1.(nodeCount := waited.nodeCount))
              else out == (Ok, pulled.1)
  {
    var (pulled, s') := if AnnotationIs(content, StateAnnotation, "driver-container") then ImagePullRun(content, env, s)
                        else (Ok, s);
    if pulled.Stops() then (pulled, s')
    else if AnnotationIs(content, WaitAnnotation, "true") then
      var waited := ResourceWait(waitFor, Kind(content), env.wait, s'.nodeCount);
      (waited.status, s'.(nodeCount := waited.nodeCount))
    else (Ok, s')
  }

  /** postfixResourceCallback. */
  method PostfixResourceCallback(r: Reconciler, obj: Unstructured, env: PostfixEnv) returns (res: Status)
    modifies r
    ensures (res, r.Snapshot()) == PostfixRun(r.registry.waitFor, obj.content, env, old(r.Snapshot()))
  {
    var annotations := Annotations(obj.content);
    if StateAnnotation in annotations && annotations[StateAnnotation] == "driver-container" {
      res := CheckForImagePullBackOff(r, obj, env);
      if res.Stops() {
        return;
      }
    }
    if WaitAnnotation in annotations && annotations[WaitAnnotation] == "true" {
      res := WaitForResource(r, obj, env.wait);
      if res.Stops() {
        return;
      }
      assert res.value == ();
    }
    return Ok;
  }
}
