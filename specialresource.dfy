/**
 * Dependency resolution: the classification of a failed SpecialResource
 * fetch, the creation stub, and the reconciler's walk that reconciles every
 * dependency of a SpecialResource before the resource itself.
 * The hardware-configuration reconcile of one resource is an input: the
 * answer of the k-th call.
 */
module SpecialResources {
  import opened Outcomes

  datatype Dependency = Dependency(name: string, namespace: string)

  /** The parts of a SpecialResource the walk reads. */
  datatype SpecialResource = SpecialResource(name: string, namespace: string, dependsOn: seq<Dependency>)

  const Empty := SpecialResource("", "", [])

  const NotFoundContext := "Is not found Error"
  const ForbiddenContext := "Forbidden check Role, ClusterRole and Bindings for operator"
  const UnexpectedContext := "Unexpected error"

  /** getSpecialResourceFrom: the fetched resource, or the fetch error wrapped with its class. */
  function GetSpecialResourceFrom(fetched: Fetch<SpecialResource>): (res: Outcome<SpecialResource>)
    ensures !res.Fatal?
    ensures res.Done? <==> fetched.Fetched?
    ensures res.Done? ==> res.value == fetched.item
    ensures res.Failed? ==> res.error.Wrapped? && res.error.cause == ClientError(fetched.error)
    ensures res.Failed? ==> (res.error.context == NotFoundContext <==> fetched.error.NotFound?)
    ensures res.Failed? ==> (res.error.context == ForbiddenContext <==> fetched.error.Forbidden?)
    ensures res.Failed? ==> (res.error.context == UnexpectedContext <==> fetched.error.OtherApiError?)
  {
    match fetched
    case Fetched(sr) => Done(sr)
    case FetchFailed(e) =>
      if e.NotFound? then Failed(Wrapped(NotFoundContext, ClientError(e)))
      else if e.Forbidden? then Failed(Wrapped(ForbiddenContext, ClientError(e)))
      else Failed(Wrapped(UnexpectedContext, ClientError(e)))
  }

  /** createSpecialResourceFrom: creation is not implemented; the empty resource comes back without error. */
  function CreateSpecialResourceFrom(dependency: Dependency): (res: Outcome<SpecialResource>)
    ensures res == Done(Empty)
  {
    Done(Empty)
  }

  /** The resource the walk reconciles for a dependency: the fetched one, or what creation gives. */
  function Resolve(dependency: Dependency, fetched: Fetch<SpecialResource>): (sr: SpecialResource)
    ensures fetched.Fetched? ==> sr == fetched.item
    ensures fetched.FetchFailed? ==> sr == Empty
  {
    var found := GetSpecialResourceFrom(fetched);
    if found.Done? then found.value else CreateSpecialResourceFrom(dependency).value
  }

  /** The resources reconciled for one SpecialResource: its dependencies in order, then itself. */
  function Steps(sr: SpecialResource, lookup: Dependency -> Fetch<SpecialResource>): (steps: seq<SpecialResource>)
    ensures |steps| == |sr.dependsOn| + 1 && steps[|sr.dependsOn|] == sr
    ensures forall j :: 0 <= j < |sr.dependsOn| ==> steps[j] == Resolve(sr.dependsOn[j], lookup(sr.dependsOn[j]))
  {
    seq(|sr.dependsOn|, j requires 0 <= j < |sr.dependsOn| => Resolve(sr.dependsOn[j], lookup(sr.dependsOn[j]))) + [sr]
  }

  /** Every reconcile the listed resources call for, in order. */
  function Plan(items: seq<SpecialResource>, lookup: Dependency -> Fetch<SpecialResource>): seq<SpecialResource>
  {
    if |items| == 0 then [] else Plan(items[..|items| - 1], lookup) + Steps(items[|items| - 1], lookup)
  }

  lemma PlanStep(items: seq<SpecialResource>, i: nat, lookup: Dependency -> Fetch<SpecialResource>)
    requires i < |items|
    ensures Plan(items[..i + 1], lookup) == Plan(items[..i], lookup) + Steps(items[i], lookup)
  {
    assert items[..i + 1][..i] == items[..i];
  }

  /** The plan of the first i resources is a prefix of the plan. */
  lemma {:induction false} PlanPrefix(items: seq<SpecialResource>, i: nat, lookup: Dependency -> Fetch<SpecialResource>)
    requires i <= |items|
    ensures |Plan(items[..i], lookup)| <= |Plan(items, lookup)|
    ensures Plan(items, lookup)[..|Plan(items[..i], lookup)|] == Plan(items[..i], lookup)
    decreases |items| - i
  {
    if i == |items| {
      assert items[..i] == items;
    } else {
      PlanStep(items, i, lookup);
      PlanPrefix(items, i + 1, lookup);
      var shorter, longer, plan := Plan(items[..i], lookup), Plan(items[..i + 1], lookup), Plan(items, lookup);
      assert longer[..|shorter|] == shorter;
      assert plan[..|shorter|] == longer[..|shorter|];
    }
  }

  /** Where resource i's reconciles sit in the plan. */
  lemma PlanAt(items: seq<SpecialResource>, i: nat, lookup: Dependency -> Fetch<SpecialResource>, j: nat)
    requires i < |items| && j <= |items[i].dependsOn|
    ensures |Plan(items[..i], lookup)| + j < |Plan(items, lookup)|
    ensures Plan(items, lookup)[|Plan(items[..i], lookup)| + j] == Steps(items[i], lookup)[j]
  {
    PlanStep(items, i, lookup);
    PlanPrefix(items, i + 1, lookup);
    var before, longer := |Plan(items[..i], lookup)|, Plan(items[..i + 1], lookup);
    assert longer[before + j] == Steps(items[i], lookup)[j];
    assert Plan(items, lookup)[..|longer|][before + j] == longer[before + j];
  }

  /** The index of the first reconcile from k on that does not succeed, or the plan's length. */
  function FirstFailure(plan: seq<SpecialResource>, hardware: nat -> Status, k: nat): (n: nat)
    requires k <= |plan|
    ensures k <= n <= |plan|
    ensures forall m :: k <= m < n ==> hardware(m).Done?
    ensures n < |plan| ==> !hardware(n).Done?
    decreases |plan| - k
  {
    if k == |plan| || !hardware(k).Done? then k else FirstFailure(plan, hardware, k + 1)
  }

  /** Skipping over calls that succeeded does not move the first failure. */
  lemma {:induction false} FirstFailureAfter(plan: seq<SpecialResource>, hardware: nat -> Status, k: nat)
    requires k <= |plan| && forall m :: 0 <= m < k ==> hardware(m).Done?
    ensures FirstFailure(plan, hardware, 0) == FirstFailure(plan, hardware, k)
    decreases k
  {
    if k > 0 {
      FirstFailureAfter(plan, hardware, k - 1);
    }
  }

  /** A failed reconcile is reported without its detail; a process end stays one. */
  function Reported(res: Status): (r: Status)
    ensures res.Failed? ==> r == Failed(Message("Reconciling failed"))
    ensures !res.Failed? ==> r == res
  {
    if res.Failed? then Failed(Message("Reconciling failed")) else res
  }

  /** The outcome of SpecialResourceReconcilers and the resources reconciled, in order. */
  datatype Run = Run(status: Status, calls: seq<SpecialResource>)

  function Reconcilers(listed: Fetch<seq<SpecialResource>>, lookup: Dependency -> Fetch<SpecialResource>,
                       hardware: nat -> Status): (out: Run)
    ensures listed.FetchFailed? ==> out.calls == []
    ensures listed == FetchFailed(NotFound) ==> out.status == Ok
    ensures listed.FetchFailed? && !listed.error.NotFound? ==> out.status == Failed(ClientError(listed.error))
    ensures listed.Fetched? ==> out.calls <= Plan(listed.item, lookup)
    ensures listed.Fetched? && out.status.Done? ==> out.calls == Plan(listed.item, lookup)
    ensures listed.Fetched? && !out.status.Done? ==> |out.calls| > 0 && !hardware(|out.calls| - 1).Done?
    ensures forall m :: 0 <= m < |out.calls| - 1 ==> hardware(m).Done?
  {
    match listed
    case FetchFailed(e) => Run(if e.NotFound? then Ok else Failed(ClientError(e)), [])
    case Fetched(items) =>
      var plan := Plan(items, lookup);
      var n := FirstFailure(plan, hardware, 0);
      if n == |plan| then Run(Ok, plan) else Run(Reported(hardware(n)), plan[..n + 1])
  }

  /** The run when the n-th planned reconcile is the first to fail. */
  lemma ReconcilersStopAt(items: seq<SpecialResource>, lookup: Dependency -> Fetch<SpecialResource>,
                          hardware: nat -> Status, n: nat)
    requires n < |Plan(items, lookup)| && !hardware(n).Done?
    requires forall m :: 0 <= m < n ==> hardware(m).Done?
    ensures Reconcilers(Fetched(items), lookup, hardware) == Run(Reported(hardware(n)), Plan(items, lookup)[..n + 1])
  {
    FirstFailureAfter(Plan(items, lookup), hardware, n);
  }

  /** The run when every planned reconcile succeeds. */
  lemma ReconcilersComplete(items: seq<SpecialResource>, lookup: Dependency -> Fetch<SpecialResource>,
                            hardware: nat -> Status)
    requires forall m :: 0 <= m < |Plan(items, lookup)| ==> hardware(m).Done?
    ensures Reconcilers(Fetched(items), lookup, hardware) == Run(Ok, Plan(items, lookup))
  {
    FirstFailureAfter(Plan(items, lookup), hardware, |Plan(items, lookup)|);
  }

  /**
   * Each resource's dependencies are reconciled before the resource itself:
   * when the walk reaches a resource, the reconciles just before it were its
   * dependencies, in their listed order.
   */
  lemma DependenciesFirst(items: seq<SpecialResource>, i: nat, lookup: Dependency -> Fetch<SpecialResource>)
    requires i < |items|
    ensures var before := |Plan(items[..i], lookup)|;
            var deps := items[i].dependsOn;
            var plan := Plan(items, lookup);
            before + |deps| < |plan| && plan[before + |deps|] == items[i]
            && forall j :: 0 <= j < |deps| ==> plan[before + j] == Resolve(deps[j], lookup(deps[j]))
  {
    var deps := items[i].dependsOn;
    PlanAt(items, i, lookup, |deps|);
    forall j | 0 <= j < |deps|
      ensures Plan(items, lookup)[|Plan(items[..i], lookup)| + j] == Resolve(deps[j], lookup(deps[j]))
    {
      PlanAt(items, i, lookup, j);
    }
  }

  /** A resource is reconciled only when every reconcile before it, dependencies included, succeeded. */
  lemma AbortOnFirstFailure(items: seq<SpecialResource>, lookup: Dependency -> Fetch<SpecialResource>,
                            hardware: nat -> Status, k: nat)
    requires k < |Plan(items, lookup)| && !hardware(k).Done?
    ensures |Reconcilers(Fetched(items), lookup, hardware).calls| <= k + 1
    ensures !Reconcilers(Fetched(items), lookup, hardware).status.Done?
  {
  }

  /** The reconciler: the resource being reconciled, and the reconciles issued so far. */
  class SpecialResourceReconciler {
    var specialresource: SpecialResource
    var reconciled: seq<SpecialResource>

    constructor ()
      ensures specialresource == Empty && reconciled == []
    {
      specialresource := Empty;
      reconciled := [];
    }

    /** ReconcileHardwareConfigurations on the current resource; `answer` is what it returns. */
    method ReconcileHardwareConfigurations(answer: Status) returns (res: Status)
      modifies this
      ensures res == answer
      ensures reconciled == old(reconciled) + [specialresource] && specialresource == old(specialresource)
    {
      reconciled := reconciled + [specialresource];
      return answer;
    }

    /** One dependency: fetched, or created when the fetch fails, then reconciled. */
    method ReconcileDependency(dependency: Dependency, lookup: Dependency -> Fetch<SpecialResource>, answer: Status)
      returns (res: Status)
      modifies this
      ensures res == answer
      ensures specialresource == Resolve(dependency, lookup(dependency))
      ensures reconciled == old(reconciled) + [specialresource]
    {
      var found := GetSpecialResourceFrom(lookup(dependency));
      specialresource := if found.Done? then found.value else Empty;
      if !found.Done? {
        var created := CreateSpecialResourceFrom(dependency);
        specialresource := created.value;
      }
      res := ReconcileHardwareConfigurations(answer);
    }

    /**
     * SpecialResourceReconcilers: for each listed resource, its dependencies
     * are fetched (or created) and reconciled, then the resource itself.
     */
    method SpecialResourceReconcilers(listed: Fetch<seq<SpecialResource>>, lookup: Dependency -> Fetch<SpecialResource>,
                                      hardware: nat -> Status) returns (res: Status)
      modifies this
      ensures var run := Reconcilers(listed, lookup, hardware);
              res == run.status && reconciled == old(reconciled) + run.calls
      ensures |reconciled| > |old(reconciled)| ==> specialresource == reconciled[|reconciled| - 1]
      ensures |reconciled| == |old(reconciled)| ==> specialresource == old(specialresource)
    {
      if listed.FetchFailed? {
        if listed.error.NotFound? {
          return Ok;
        }
        return Failed(ClientError(listed.error));
      }
      var items := listed.item;
      ghost var plan := Plan(items, lookup);
      var k := 0;
      for i := 0 to |items|
        invariant k == |Plan(items[..i], lookup)| <= |plan|
        invariant reconciled == old(reconciled) + plan[..k]
        invariant forall m :: 0 <= m < k ==> hardware(m).Done?
        invariant k == 0 ==> specialresource == old(specialresource)
        invariant k > 0 ==> specialresource == plan[k - 1]
      {
        forall j | 0 <= j <= |items[i].dependsOn|
          ensures k + j < |plan| && plan[k + j] == Steps(items[i], lookup)[j]
        {
          PlanAt(items, i, lookup, j);
        }
        PlanStep(items, i, lookup);
        res, k := ReconcileWithDependencies(items[i], lookup, hardware, k, plan, old(reconciled));
        if !res.Done? {
          ReconcilersStopAt(items, lookup, hardware, k);
          return Reported(res);
        }
      }
      assert items[..|items|] == items;
      assert plan[..k] == plan;
      ReconcilersComplete(items, lookup, hardware);
      return Ok;
    }

    /**
     * One turn of the outer loop: the dependencies of a resource, then the
     * resource itself, reconciled from the k-th call of the plan on; `next` is
     * the number of calls so far on success, the failing call otherwise.
     */
    method ReconcileWithDependencies(sr: SpecialResource, lookup: Dependency -> Fetch<SpecialResource>,
                                     hardware: nat -> Status, k: nat, ghost plan: seq<SpecialResource>,
                                     ghost base: seq<SpecialResource>)
      returns (res: Status, next: nat)
      requires k + |sr.dependsOn| < |plan|
      requires forall j :: 0 <= j <= |sr.dependsOn| ==> plan[k + j] == Steps(sr, lookup)[j]
      requires reconciled == base + plan[..k]
      requires forall m :: 0 <= m < k ==> hardware(m).Done?
      modifies this
      ensures k <= next <= k + |sr.dependsOn| + 1
      ensures forall m :: 0 <= m < next ==> hardware(m).Done?
      ensures res.Done? ==> next == k + |sr.dependsOn| + 1
      ensures res.Done? ==> reconciled == base + plan[..next] && specialresource == plan[next - 1]
      ensures !res.Done? ==> next <= k + |sr.dependsOn| && res == hardware(next)
      ensures !res.Done? ==> reconciled == base + plan[..next + 1] && specialresource == plan[next]
    {
      next := k;
      for j := 0 to |sr.dependsOn|
        invariant next == k + j
        invariant reconciled == base + plan[..next]
        invariant forall m :: 0 <= m < next ==> hardware(m).Done?
      {
        assert plan[k + j] == Steps(sr, lookup)[j];
        res := ReconcileDependency(sr.dependsOn[j], lookup, hardware(next));
        assert plan[..next + 1] == plan[..next] + [plan[next]];
        if !res.Done? {
          return;
        }
        next := next + 1;
      }
      assert plan[k + |sr.dependsOn|] == Steps(sr, lookup)[|sr.dependsOn|];
      specialresource := sr;
      res := ReconcileHardwareConfigurations(hardware(next));
      assert plan[..next + 1] == plan[..next] + [plan[next]];
      if !res.Done? {
        return;
      }
      next := next + 1;
    }
  }
}
