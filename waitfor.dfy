/**
 * The readiness waiter: typed field-equality predicates, the DaemonSet
 * readiness rule, the two polling loops of wait.Poll, the per-kind waiters and
 * the pod log check.  Every answer of the object store during a wait is an
 * input; a poll gets the answers for the ticks that fall before its deadline.
 */
module WaitFor {
  import opened Outcomes
  import opened Objects
  import opened Globals
  import opened Adler32

  /** wait.Poll(retryInterval, timeout): 5 s between ticks, 15 s in all. */
  const RetryInterval := 5
  const Timeout := 15

  /**
   * The condition checks of one poll: one per tick (at 5, 10 and 15 s), and one
   * more when the poller closes its channel at the deadline.
   */
  const MaxPolls := Timeout / RetryInterval + 1

  /** The checks a poll makes: one per answer given, and never more than the deadline allows. */
  function Ticks<T>(responses: seq<T>): (n: nat)
    ensures n <= |responses| && n <= MaxPolls
    ensures n == |responses| || n == MaxPolls
  {
    if |responses| < MaxPolls then |responses| else MaxPolls
  }

  /* ----- makeStatusCallback ----- */

  /** The value a status callback was built with, by its dynamic Go type. */
  datatype Expected = ExpectInt64(i: int) | ExpectInt(i: int) | ExpectString(s: string) | ExpectOther

  /** Whether a field value has the Go type the expected value asks for. */
  predicate Typed(expected: Expected, v: Value)
  {
    match expected
    case ExpectInt64(_) => v.Int?
    case ExpectInt(_) => v.Int?
    case ExpectString(_) => v.Str?
    case ExpectOther => false
  }

  /** Whether a field value equals the expected one. */
  predicate Holds(expected: Expected, v: Value)
  {
    match expected
    case ExpectInt64(i) => v == Int(i)
    case ExpectInt(i) => v == Int(i)
    case ExpectString(s) => v == Str(s)
    case ExpectOther => false
  }

  /**
   * The predicate makeStatusCallback builds, applied to an object: the field
   * must be there with the expected type (else the process ends), and the
   * predicate holds iff it equals the expected value.
   */
  function FieldEqualsAt(expected: Expected, path: seq<string>, m: Fields): (res: Outcome<bool>)
    requires |path| > 0
    ensures !res.Failed?
    ensures res.Fatal? <==> !(Nested(m, path).Found? && Typed(expected, Nested(m, path).value))
    ensures res.Done? ==> (res.value <==> Holds(expected, Nested(m, path).value))
  {
    match expected
    case ExpectInt64(i) =>
      (match NestedInt64(m, path)
       case Present(current) => Done(current == i)
       case _ => Fatal("int64 status field missing"))
    case ExpectInt(i) =>
      (match NestedInt64(m, path)
       case Present(current) => Done(current == i)
       case _ => Fatal("int status field missing"))
    case ExpectString(s) =>
      (match NestedString(m, path)
       case Present(current) => Done(current == s)
       case _ => Fatal("string status field missing"))
    case ExpectOther => Fatal("cannot extract type")
  }

  /** A readiness predicate a poll applies to each freshly fetched copy. */
  datatype Check = FieldEquals(expected: Expected, path: seq<string>) | DaemonSetReady

  predicate ValidCheck(c: Check)
  {
    c.FieldEquals? ==> |c.path| > 0
  }

  /* ----- waitForDaemonSetCallback ----- */

  const DesiredPath := ["status", "desiredNumberScheduled"]
  const UnavailablePath := ["status", "numberUnavailable"]
  const AvailablePath := ["status", "numberAvailable"]

  /**
   * The DaemonSet readiness rule: desiredNumberScheduled must be there (else
   * the process ends); numberAvailable, when present, must equal it and
   * overrides the numberUnavailable test; otherwise numberUnavailable must be
   * 0; with neither field the DaemonSet is never ready.
   */
  function DaemonSetReadiness(m: Fields): (res: Outcome<bool>)
    ensures !res.Failed?
    ensures res.Fatal? <==> !NestedInt64(m, DesiredPath).Present?
    ensures res.Done? ==>
              (res.value <==>
                 if NestedInt64(m, AvailablePath).Present? then
                   NestedInt64(m, AvailablePath).v == NestedInt64(m, DesiredPath).v
                 else
                   NestedInt64(m, UnavailablePath).Present? && NestedInt64(m, UnavailablePath).v == 0)
  {
    match NestedInt64(m, DesiredPath)
    case Present(desired) =>
      if NestedInt64(m, AvailablePath).Present? then FieldEqualsAt(ExpectInt64(desired), AvailablePath, m)
      else if NestedInt64(m, UnavailablePath).Present? then FieldEqualsAt(ExpectInt(0), UnavailablePath, m)
      else Done(false)
    case _ => Fatal("status.desiredNumberScheduled missing")
  }

  /**
   * waitForDaemonSetCallback: stores desiredNumberScheduled into node.count,
   * then picks its predicate by reassigning it field by field.
   */
  method WaitForDaemonSetCallback(r: Reconciler, m: Fields) returns (res: Outcome<bool>)
    modifies r
    ensures res == DaemonSetReadiness(m)
    ensures res.Done? ==> r.Snapshot() == old(r.Snapshot()).(nodeCount := NestedInt64(m, DesiredPath).v)
    ensures res.Fatal? ==> r.Snapshot() == old(r.Snapshot())
  {
    var desired := NestedInt64(m, DesiredPath);
    if !desired.Present? {
      return Fatal("status.desiredNumberScheduled missing");
    }
    r.nodeCount := desired.v;
    var callback: Option<Check> := None;
    if NestedInt64(m, UnavailablePath).Present? {
      callback := Some(FieldEquals(ExpectInt(0), UnavailablePath));
    }
    if NestedInt64(m, AvailablePath).Present? {
      callback := Some(FieldEquals(ExpectInt64(r.nodeCount), AvailablePath));
    }
    if callback.None? {
      return Done(false);
    }
    return FieldEqualsAt(callback.value.expected, callback.value.path, m);
  }

  /** The predicate a Check stands for. */
  function CheckOn(check: Check, m: Fields): Outcome<bool>
    requires ValidCheck(check)
  {
    if check.DaemonSetReady? then DaemonSetReadiness(m) else FieldEqualsAt(check.expected, check.path, m)
  }

  /* ----- the two polling loops ----- */

  /** waitForResourceAvailability's poll from tick i on: NotFound means "not yet", any other error ends it. */
  function AvailabilityFrom(responses: seq<Fetch<Fields>>, i: nat): Status
    decreases Ticks(responses) - i
  {
    if i >= Ticks(responses) then Failed(WaitTimeout)
    else match responses[i]
      case Fetched(_) => Ok
      case FetchFailed(e) => if e.NotFound? then AvailabilityFrom(responses, i + 1) else Failed(ClientError(e))
  }

  function Availability(responses: seq<Fetch<Fields>>): Status
  {
    AvailabilityFrom(responses, 0)
  }

  /** The tick at which waitForResourceAvailability stops: the first answer that is not NotFound. */
  function FirstSettledFrom(responses: seq<Fetch<Fields>>, i: nat): (k: nat)
    requires i <= Ticks(responses)
    ensures i <= k <= Ticks(responses)
    ensures k < Ticks(responses) ==> !IsNotFound(responses[k])
    ensures forall j :: i <= j < k ==> IsNotFound(responses[j])
    decreases Ticks(responses) - i
  {
    if i == Ticks(responses) || !IsNotFound(responses[i]) then i else FirstSettledFrom(responses, i + 1)
  }

  /**
   * The availability poll is decided by the first answer that is not NotFound:
   * a fetched object succeeds, another error is returned, and when every tick
   * answers NotFound the poll times out.
   */
  lemma {:induction false} AvailabilityDecided(responses: seq<Fetch<Fields>>, i: nat)
    requires i <= Ticks(responses)
    ensures var k := FirstSettledFrom(responses, i);
            AvailabilityFrom(responses, i)
            == if k == Ticks(responses) then Failed(WaitTimeout)
               else if responses[k].Fetched? then Ok
               else Failed(ClientError(responses[k].error))
    decreases Ticks(responses) - i
  {
    if i < Ticks(responses) && IsNotFound(responses[i]) {
      AvailabilityDecided(responses, i + 1);
    }
  }

  /** waitForResourceAvailability: one Get per tick until the object is there. */
  method WaitForResourceAvailability(responses: seq<Fetch<Fields>>) returns (res: Status)
    ensures res == Availability(responses)
  {
    var i := 0;
    while i < Ticks(responses)
      invariant i <= Ticks(responses)
      invariant AvailabilityFrom(responses, i) == Availability(responses)
    {
      match responses[i] {
        case Fetched(_) => return Ok;
        case FetchFailed(e) =>
          if !e.NotFound? {
            return Failed(ClientError(e));
          }
      }
      i := i + 1;
    }
    return Failed(WaitTimeout);
  }

  /** How a readiness poll ends, and node.count afterwards. */
  datatype Polled = Polled(status: Status, nodeCount: int)

  /**
   * waitForResourceFullAvailability's poll from tick i on: any fetch error ends
   * it, NotFound included; a fetched copy that passes the predicate ends it
   * successfully.  Evaluating the DaemonSet predicate updates node.count.
   */
  function ReadinessFrom(check: Check, responses: seq<Fetch<Fields>>, i: nat, count: int): (p: Polled)
    requires ValidCheck(check)
    ensures check.FieldEquals? ==> p.nodeCount == count
    decreases Ticks(responses) - i
  {
    if i >= Ticks(responses) then Polled(Failed(WaitTimeout), count)
    else match responses[i]
      case FetchFailed(e) => Polled(Failed(ClientError(e)), count)
      case Fetched(found) =>
        var ready := CheckOn(check, found);
        var count' := if check.DaemonSetReady? && ready.Done? then NestedInt64(found, DesiredPath).v else count;
        if ready.Fatal? then Polled(Fatal(ready.reason), count')
        else if ready.Done? && ready.value then Polled(Ok, count')
        else ReadinessFrom(check, responses, i + 1, count')
  }

  function Readiness(check: Check, responses: seq<Fetch<Fields>>, count: int): Polled
    requires ValidCheck(check)
  {
    ReadinessFrom(check, responses, 0, count)
  }

  /** Whether the answer at a tick ends the readiness poll. */
  predicate Decisive(check: Check, f: Fetch<Fields>)
    requires ValidCheck(check)
  {
    f.FetchFailed? || CheckOn(check, f.item) != Done(false)
  }

  function FirstDecisiveFrom(check: Check, responses: seq<Fetch<Fields>>, i: nat): (k: nat)
    requires ValidCheck(check) && i <= Ticks(responses)
    ensures i <= k <= Ticks(responses)
    ensures k < Ticks(responses) ==> Decisive(check, responses[k])
    ensures forall j :: i <= j < k ==> !Decisive(check, responses[j])
    decreases Ticks(responses) - i
  {
    if i == Ticks(responses) || Decisive(check, responses[i]) then i else FirstDecisiveFrom(check, responses, i + 1)
  }

  /**
   * The readiness poll is decided by the first answer that is a fetch error
   * (returned as it is, NotFound included) or a copy on which the predicate
   * holds or ends the process; with none, the poll times out.
   */
  lemma {:induction false} ReadinessDecided(check: Check, responses: seq<Fetch<Fields>>, i: nat, count: int)
    requires ValidCheck(check) && i <= Ticks(responses)
    ensures var k := FirstDecisiveFrom(check, responses, i);
            ReadinessFrom(check, responses, i, count).status
            == if k == Ticks(responses) then Failed(WaitTimeout)
               else if responses[k].FetchFailed? then Failed(ClientError(responses[k].error))
               else if CheckOn(check, responses[k].item).Fatal? then Fatal(CheckOn(check, responses[k].item).reason)
               else Ok
    decreases Ticks(responses) - i
  {
    if i < Ticks(responses) && !Decisive(check, responses[i]) {
      var count' := if check.DaemonSetReady? then NestedInt64(responses[i].item, DesiredPath).v else count;
      ReadinessDecided(check, responses, i + 1, count');
    }
  }

  /** A poll on a field-equality predicate ends the same way whatever node.count holds. */
  lemma {:induction false} FieldPollIgnoresCount(check: Check, responses: seq<Fetch<Fields>>, i: nat, c: int, d: int)
    requires ValidCheck(check) && check.FieldEquals?
    ensures ReadinessFrom(check, responses, i, c) == ReadinessFrom(check, responses, i, d).(nodeCount := c)
    decreases Ticks(responses) - i
  {
    if i < Ticks(responses) && responses[i].Fetched? {
      FieldPollIgnoresCount(check, responses, i + 1, c, d);
    }
  }

  /**
   * The check made when the poller closes at the deadline counts: an object
   * that appears only then is found, and the poll succeeds.
   */
  lemma LastCheckAtDeadline(obj: Fields)
    ensures Availability([FetchFailed(NotFound), FetchFailed(NotFound), FetchFailed(NotFound), Fetched(obj)]) == Ok
  {
    var responses := [FetchFailed(NotFound), FetchFailed(NotFound), FetchFailed(NotFound), Fetched(obj)];
    assert Ticks(responses) == 4;
    AvailabilityDecided(responses, 0);
    assert !IsNotFound(responses[3]);
  }

  /** The two polls disagree on NotFound: one keeps waiting, the other gives up. */
  lemma NotFoundPolicies(check: Check, responses: seq<Fetch<Fields>>, count: int)
    requires ValidCheck(check) && Ticks(responses) > 0 && responses[0] == FetchFailed(NotFound)
    ensures Availability(responses) == AvailabilityFrom(responses, 1)
    ensures Readiness(check, responses, count).status == Failed(ClientError(NotFound))
  {
  }

  /** waitForResourceFullAvailability: one Get per tick, the predicate on each fresh copy. */
  method WaitForResourceFullAvailability(r: Reconciler, check: Check, responses: seq<Fetch<Fields>>)
    returns (res: Status)
    requires ValidCheck(check)
    modifies r
    ensures var p := Readiness(check, responses, old(r.nodeCount));
            res == p.status && r.Snapshot() == old(r.Snapshot()).(nodeCount := p.nodeCount)
  {
    var i := 0;
    while i < Ticks(responses)
      invariant i <= Ticks(responses)
      invariant ReadinessFrom(check, responses, i, r.nodeCount) == Readiness(check, responses, old(r.nodeCount))
      invariant r.updateVendor == old(r.updateVendor) && r.writes == old(r.writes)
    {
      match responses[i] {
        case FetchFailed(e) => return Failed(ClientError(e));
        case Fetched(found) =>
          var ready: Outcome<bool>;
          if check.DaemonSetReady? {
            ready := WaitForDaemonSetCallback(r, found);
          } else {
            ready := FieldEqualsAt(check.expected, check.path, found);
          }
          if ready.Fatal? {
            return Fatal(ready.reason);
          }
          if ready.Done? && ready.value {
            return Ok;
          }
      }
      i := i + 1;
    }
    return Failed(WaitTimeout);
  }

  /* ----- the waiters ----- */

  /** A pod log as the stream delivers it. */
  datatype LogRead = StreamFailed(text: string) | CopyFailed(text: string) | LogBytes(bytes: seq<Byte>)

  /** The object store answers a waiter may need, and the log pattern test. */
  datatype WaitEnv = WaitEnv(
    available: seq<Fetch<Fields>>,        // the availability poll on the object itself
    full: seq<Fetch<Fields>>,             // the readiness poll on the object itself
    builds: Fetch<seq<Fields>>,           // the List of builds in the namespace
    buildPolls: seq<seq<Fetch<Fields>>>,  // the readiness poll of each build, in list order
    pods: Fetch<seq<Fields>>,             // the List of the object's pods
    podLog: Fields -> LogRead,            // the log stream of a pod
    matches: seq<Byte> -> bool)           // regexp.MatchString(pattern, ·)

  const PhasePath := ["status", "phase"]
  const PodSucceeded := FieldEquals(ExpectString("Succeeded"), PhasePath)
  const BuildComplete := FieldEquals(ExpectString("Complete"), PhasePath)

  function BuildPoll(env: WaitEnv, i: nat): seq<Fetch<Fields>>
  {
    if i < |env.buildPolls| then env.buildPolls[i] else []
  }

  /** The builds from index i on, in list order, each until it is Complete; the first failure ends it. */
  function BuildsCompleteFrom(env: WaitEnv, builds: seq<Fields>, i: nat): (res: Status)
    requires i <= |builds|
    ensures res.Done? <==> forall j :: i <= j < |builds| ==> Readiness(BuildComplete, BuildPoll(env, j), 0).status.Done?
    decreases |builds| - i
  {
    if i == |builds| then Ok
    else
      var s := Readiness(BuildComplete, BuildPoll(env, i), 0).status;
      if s.Stops() then s else BuildsCompleteFrom(env, builds, i + 1)
  }

  /** The outcome of waitForDaemonSetLogs: the first listed pod's last 100 log bytes must match. */
  function DaemonSetLogs(env: WaitEnv): (res: Status)
    ensures env.pods.FetchFailed? ==> res == Failed(Wrapped("Could not get PodList", ClientError(env.pods.error)))
    ensures env.pods.Fetched? && |env.pods.item| == 0 ==> res == Ok
    ensures env.pods.Fetched? && |env.pods.item| > 0 ==>
              var log := env.podLog(env.pods.item[0]);
              (res.Fatal? <==> log.LogBytes? && |log.bytes| < 100)
              && (res.Done? <==> log.LogBytes? && |log.bytes| >= 100 && env.matches(log.bytes[|log.bytes| - 100..]))
  {
    match env.pods
    case FetchFailed(e) => Failed(Wrapped("Could not get PodList", ClientError(e)))
    case Fetched(pods) =>
      if |pods| == 0 then Ok
      else match env.podLog(pods[0])
        case StreamFailed(text) => Failed(Wrapped("Error in opening stream", Message(text)))
        case CopyFailed(text) => Failed(Wrapped("Error in copy information from podLogs to buf", Message(text)))
        case LogBytes(bytes) =>
          if |bytes| < 100 then Fatal("slice bounds out of range")
          else if env.matches(bytes[|bytes| - 100..]) then Ok
          else Failed(Message("Not yet done. Not matched against \\+ wait \\d+ "))
  }

  /** The waiter registered for a kind, run against the answers in `env`. */
  function Waiter(hook: WaitHook, env: WaitEnv, count: int): (p: Polled)
    ensures hook != WaitDaemonSet ==> p.nodeCount == count
  {
    match hook
    case WaitPod =>
      var available := Availability(env.available);
      if available.Stops() then Polled(available, count) else Readiness(PodSucceeded, env.full, count)
    case WaitDaemonSet =>
      var available := Availability(env.available);
      if available.Stops() then Polled(available, count) else Readiness(DaemonSetReady, env.full, count)
    case WaitBuild =>
      var available := Availability(env.available);
      if available.Stops() then Polled(available, count)
      else
        (match env.builds
         case FetchFailed(e) => Polled(Failed(Wrapped("Could not get BuildList", ClientError(e))), count)
         case Fetched(builds) => Polled(BuildsCompleteFrom(env, builds, 0), count))
    case WaitDaemonSetLogs => Polled(DaemonSetLogs(env), count)
  }

  /** waitForResource: the waiter of the object's kind, if one is registered; its errors are wrapped. */
  function ResourceWait(waitFor: map<string, WaitHook>, kind: string, env: WaitEnv, count: int): (p: Polled)
    ensures kind !in waitFor ==> p == Polled(Ok, count)
    ensures kind in waitFor ==>
              p == Polled(Wrap("Waiting too long for resource", Waiter(waitFor[kind], env, count).status),
                          Waiter(waitFor[kind], env, count).nodeCount)
  {
    if kind in waitFor then
      var p := Waiter(waitFor[kind], env, count);
      Polled(Wrap("Waiting too long for resource", p.status), p.nodeCount)
    else Polled(Ok, count)
  }

  method WaitForPod(r: Reconciler, env: WaitEnv) returns (res: Status)
    modifies r
    ensures res == Waiter(WaitPod, env, old(r.nodeCount)).status
    ensures r.Snapshot() == old(r.Snapshot())
  {
    res := WaitForResourceAvailability(env.available);
    if res.Stops() {
      return;
    }
    res := WaitForResourceFullAvailability(r, PodSucceeded, env.full);
  }

  method WaitForDaemonSet(r: Reconciler, env: WaitEnv) returns (res: Status)
    modifies r
    ensures var p := Waiter(WaitDaemonSet, env, old(r.nodeCount));
            res == p.status && r.Snapshot() == old(r.Snapshot()).(nodeCount := p.nodeCount)
  {
    res := WaitForResourceAvailability(env.available);
    if res.Stops() {
      return;
    }
    res := WaitForResourceFullAvailability(r, DaemonSetReady, env.full);
  }

  /** waitForBuild: the BuildConfig must appear, then every build is awaited in list order. */
  method WaitForBuild(r: Reconciler, env: WaitEnv) returns (res: Status)
    modifies r
    ensures res == Waiter(WaitBuild, env, old(r.nodeCount)).status
    ensures r.Snapshot() == old(r.Snapshot())
  {
    res := WaitForResourceAvailability(env.available);
    if res.Stops() {
      return;
    }
    if env.builds.FetchFailed? {
      return Failed(Wrapped("Could not get BuildList", ClientError(env.builds.error)));
    }
    var builds := env.builds.item;
    for i := 0 to |builds|
      invariant BuildsCompleteFrom(env, builds, i) == BuildsCompleteFrom(env, builds, 0)
      invariant r.Snapshot() == old(r.Snapshot())
    {
      FieldPollIgnoresCount(BuildComplete, BuildPoll(env, i), 0, r.nodeCount, 0);
      res := WaitForResourceFullAvailability(r, BuildComplete, BuildPoll(env, i));
      if res.Stops() {
        return;
      }
    }
    return Ok;
  }

  /** waitForDaemonSetLogs: a loop over the listed pods that leaves after the first one. */
  method WaitForDaemonSetLogs(env: WaitEnv) returns (res: Status)
    ensures res == DaemonSetLogs(env)
  {
    if env.pods.FetchFailed? {
      return Failed(Wrapped("Could not get PodList", ClientError(env.pods.error)));
    }
    var pods := env.pods.item;
    for i := 0 to |pods|
      invariant i == 0
    {
      match env.podLog(pods[i]) {
        case StreamFailed(text) => return Failed(Wrapped("Error in opening stream", Message(text)));
        case CopyFailed(text) => return Failed(Wrapped("Error in copy information from podLogs to buf", Message(text)));
        case LogBytes(str) =>
          if |str| < 100 {
            return Fatal("slice bounds out of range");
          }
          var lastBytes := str[|str| - 100..];
          if !env.matches(lastBytes) {
            return Failed(Message("Not yet done. Not matched against \\+ wait \\d+ "));
          }
      }
      break;
    }
    return Ok;
  }

  /** Only the first listed pod counts: the pods after it never change the outcome. */
  lemma OnlyFirstPodCounts(env: WaitEnv, rest: seq<Fields>)
    requires env.pods.Fetched? && |env.pods.item| > 0
    ensures DaemonSetLogs(env) == DaemonSetLogs(env.(pods := Fetched([env.pods.item[0]] + rest)))
  {
  }

  /** waitForResource: dispatch on the object's kind through the waitFor registry. */
  method WaitForResource(r: Reconciler, obj: Unstructured, env: WaitEnv) returns (res: Status)
    modifies r
    ensures var p := ResourceWait(r.registry.waitFor, Kind(obj.content), env, old(r.nodeCount));
            res == p.status && r.Snapshot() == old(r.Snapshot()).(nodeCount := p.nodeCount)
  {
    var kind := Kind(obj.content);
    if kind !in r.registry.waitFor {
      return Ok;
    }
    match r.registry.waitFor[kind] {
      case WaitPod => res := WaitForPod(r, env);
      case WaitDaemonSet => res := WaitForDaemonSet(r, env);
      case WaitBuild => res := WaitForBuild(r, env);
      case WaitDaemonSetLogs => res := WaitForDaemonSetLogs(env);
    }
    res := Wrap("Waiting too long for resource", res);
  }

  /* ----- the DaemonSet rule on concrete status blocks ----- */

  function DaemonSetStatus(status: map<string, Value>): Fields
  {
    map["status" := Obj(status)]
  }

  lemma DaemonSetExamples()
    ensures DaemonSetReadiness(DaemonSetStatus(map["desiredNumberScheduled" := Int(3), "numberUnavailable" := Int(0)]))
            == Done(true)
    ensures DaemonSetReadiness(DaemonSetStatus(map["desiredNumberScheduled" := Int(3), "numberAvailable" := Int(2)]))
            == Done(false)
    ensures DaemonSetReadiness(DaemonSetStatus(map["desiredNumberScheduled" := Int(3)])) == Done(false)
    ensures DaemonSetReadiness(DaemonSetStatus(map["desiredNumberScheduled" := Int(3), "numberUnavailable" := Int(0),
                                                   "numberAvailable" := Int(2)])) == Done(false)
    ensures DaemonSetReadiness(DaemonSetStatus(map["numberUnavailable" := Int(0)])).Fatal?
  {
  }
}
