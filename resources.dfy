/**
 * The CRUD reconciler: the update patch of the live resourceVersion and
 * clusterIP, the create / update / no-op decision on the fetch result, the
 * iteration over list objects, and the per-document prefix -> CRUD -> postfix
 * loop of a manifest file.  Each object store answer is an input.
 */
module Resources {
  import opened Outcomes
  import opened Objects
  import opened Globals
  import opened PrefixHooks
  import opened WaitFor
  import opened Callbacks

  /* ----- updateResource ----- */

  const ResourceVersionPath := ["metadata", "resourceVersion"]
  const ClusterIPPath := ["spec", "clusterIP"]

  /** The live kinds whose resourceVersion is sent back with an update. */
  predicate KeepsVersion(kind: string)
  {
    kind == "SecurityContextConstraints" || kind == "Service" || kind == "ServiceMonitor" || kind == "Route"
  }

  /**
   * The desired object after updateResource: the live object's kind decides;
   * a kept field missing from the live object ends the process.
   */
  function CarryForward(req: Fields, found: Fields): (res: Outcome<Fields>)
    ensures !KeepsVersion(Kind(found)) ==> res == Done(req)
    ensures KeepsVersion(Kind(found)) && !NestedString(found, ResourceVersionPath).Present? ==> res.Fatal?
    ensures Kind(found) == "Service" && !NestedString(found, ClusterIPPath).Present? ==> res.Stops()
    ensures res.Failed? ==> res.error == SetFieldError
    ensures res.Done? && KeepsVersion(Kind(found)) ==>
              Nested(res.value, ResourceVersionPath) == Nested(found, ResourceVersionPath)
    ensures res.Done? && Kind(found) == "Service" ==> Nested(res.value, ClusterIPPath) == Nested(found, ClusterIPPath)
    ensures res.Done? ==> forall k :: k in req && k != "metadata" && k != "spec" ==> k in res.value && res.value[k] == req[k]
    ensures res.Done? <==>
              !KeepsVersion(Kind(found))
              || (NestedString(found, ResourceVersionPath).Present? && SetNested(req, ResourceVersionPath, Str("")).Some?
                  && (Kind(found) != "Service"
                      || (NestedString(found, ClusterIPPath).Present? && SetNested(req, ClusterIPPath, Str("")).Some?)))
    ensures res.Done? ==>
              forall p :: Branches(p, ResourceVersionPath) && Branches(p, ClusterIPPath) ==> Nested(res.value, p) == Nested(req, p)
  {
    var kind := Kind(found);
    if !KeepsVersion(kind) then Done(req)
    else match NestedString(found, ResourceVersionPath)
      case Present(version) =>
        SetSucceedsIndependently(req, ResourceVersionPath, Str(version), Str(""));
        (match SetNested(req, ResourceVersionPath, Str(version))
         case Some(withVersion) =>
           SetThenGet(req, ResourceVersionPath, Str(version));
           SetLeavesBranches(req, ResourceVersionPath, Str(version));
           if kind != "Service" then Done(withVersion)
           else
             (match NestedString(found, ClusterIPPath)
              case Present(ip) =>
                SetKeepsOtherSettable(req, ResourceVersionPath, Str(version), ClusterIPPath, Str(ip), 0);
                SetSucceedsIndependently(req, ClusterIPPath, Str(ip), Str(""));
                (match SetNested(withVersion, ClusterIPPath, Str(ip))
                 case Some(withIP) =>
                   SetThenGet(withVersion, ClusterIPPath, Str(ip));
                   SetLeavesOtherPaths(withVersion, ClusterIPPath, Str(ip), ResourceVersionPath, 0);
                   SetLeavesBranches(withVersion, ClusterIPPath, Str(ip));
                   Done(withIP)
                 case None => Failed(SetFieldError))
              case _ => Fatal("spec.clusterIP missing"))
         case None => Failed(SetFieldError))
      case _ => Fatal("metadata.resourceVersion missing")
  }

  /** Patching an already patched object again changes nothing. */
  lemma CarryForwardIdempotent(req: Fields, found: Fields)
    requires CarryForward(req, found).Done?
    ensures CarryForward(CarryForward(req, found).value, found) == CarryForward(req, found)
  {
    var once := CarryForward(req, found).value;
    if KeepsVersion(Kind(found)) {
      SetSameValue(once, ResourceVersionPath, Str(NestedString(found, ResourceVersionPath).v));
      if Kind(found) == "Service" {
        SetSameValue(once, ClusterIPPath, Str(NestedString(found, ClusterIPPath).v));
      }
    }
  }

  /** updateResource: the kept fields are set on the desired object in place. */
  method UpdateResource(req: Unstructured, found: Fields) returns (res: Status)
    modifies req
    ensures res == StatusOf(CarryForward(old(req.content), found))
    ensures res.Done? ==> req.content == CarryForward(old(req.content), found).value
    ensures !res.Done? && Kind(found) == "Service" && NestedString(found, ResourceVersionPath).Present?
            && SetNested(old(req.content), ResourceVersionPath, Str(NestedString(found, ResourceVersionPath).v)).Some? ==>
              req.content == SetNested(old(req.content), ResourceVersionPath, Str(NestedString(found, ResourceVersionPath).v)).value
    ensures !res.Done? && !(Kind(found) == "Service" && NestedString(found, ResourceVersionPath).Present?
            && SetNested(old(req.content), ResourceVersionPath, Str(NestedString(found, ResourceVersionPath).v)).Some?) ==>
              req.content == old(req.content)
  {
    var kind := Kind(found);
    if KeepsVersion(kind) {
      var version := NestedString(found, ResourceVersionPath);
      if !version.Present? {
        return Fatal("metadata.resourceVersion missing");
      }
      var withVersion := SetNested(req.content, ResourceVersionPath, Str(version.v));
      if withVersion.None? {
        return Failed(SetFieldError);
      }
      req.content := withVersion.value;
    }
    if kind == "Service" {
      var clusterIP := NestedString(found, ClusterIPPath);
      if !clusterIP.Present? {
        return Fatal("spec.clusterIP missing");
      }
      var withIP := SetNested(req.content, ClusterIPPath, Str(clusterIP.v));
      if withIP.None? {
        return Failed(SetFieldError);
      }
      req.content := withIP.value;
      return Ok;
    }
    return Ok;
  }

  /* ----- CRUD ----- */

  /** What SetControllerReference yields: the owner references to record, or its error. */
  datatype Owner = Owned(refs: Value) | OwnerFailed(error: Error)

  /** The answers CRUD gets: the owner reference, the Get of the object, and the answer to the write it sends. */
  datatype CrudEnv = CrudEnv(owner: Owner, live: Fetch<Fields>, written: Option<ApiError>)

  const OwnerPath := ["metadata", "ownerReferences"]

  /** The object with its owner references recorded; a metadata that is not a map keeps it as it was. */
  function WithOwner(m: Fields, refs: Value): (r: Fields)
    ensures forall k :: k in m && k != "metadata" ==> k in r && r[k] == m[k]
    ensures Nested(r, NamespacePath) == Nested(m, NamespacePath)
  {
    match SetNested(m, OwnerPath, refs)
    case Some(owned) =>
      SetLeavesOtherPaths(m, OwnerPath, refs, NamespacePath, 1);
      owned
    case None => m
  }

  predicate NeverUpdated(kind: string)
  {
    kind == "ServiceAccount" || kind == "Pod"
  }

  /** The answer to a write, with the context CRUD adds to an error. */
  function Respond(written: Option<ApiError>, context: string): Status
  {
    if written.Some? then Failed(Wrapped(context, ClientError(written.value))) else Ok
  }

  /**
   * CRUD: the outcome, the engine state afterwards and the object as CRUD
   * leaves it.  NotFound sends one Create; a found object of a kind other than
   * ServiceAccount and Pod sends one Update of a patched copy; every other
   * fetch answer sends nothing and is not an error.
   */
  function CrudRun(namespace: string, content: Fields, env: CrudEnv, s: State): (out: (Status, State, Fields))
    ensures out.1 == s.(writes := out.1.writes)
    ensures |s.writes| <= |out.1.writes| <= |s.writes| + 1 && out.1.writes[..|s.writes|] == s.writes
    ensures forall k :: k in content && k != "metadata" ==> k in out.2 && out.2[k] == content[k]
    ensures namespace != "" && SetNested(content, NamespacePath, Str(namespace)).Some? ==> Namespace(out.2) == namespace
    ensures env.owner.OwnerFailed? ==> out.0 == Failed(env.owner.error) && out.1 == s
    ensures env.owner.Owned? && env.live == FetchFailed(NotFound) ==>
              out.1.writes == s.writes + [Create(out.2)] && out.0 == Respond(env.written, "Couldn't Create")
    ensures env.owner.Owned? && env.live.Fetched? && NeverUpdated(Kind(content)) ==> out.0 == Ok && out.1 == s
    ensures env.owner.Owned? && env.live.Fetched? && !NeverUpdated(Kind(content)) ==>
              var patched := CarryForward(out.2, env.live.item);
              if patched.Done? then out.1.writes == s.writes + [Update(patched.value)] && out.0 == Respond(env.written, "Couldn't Update")
              else out.0 == StatusOf(patched) && out.1 == s
    ensures env.live.FetchFailed? && !env.live.error.NotFound? ==> out.1 == s && (env.owner.Owned? ==> out.0 == Ok)
  {
    var named := SetNamespace(content, namespace);
    match env.owner
    case OwnerFailed(e) => (Failed(e), s, named)
    case Owned(refs) =>
      var owned := WithOwner(named, refs);
      assert Kind(owned) == Kind(content) by {
        assert Nested(owned, ["kind"]) == Nested(content, ["kind"]);
      }
      match env.live
      case FetchFailed(e) =>
        if e.NotFound? then (Respond(env.written, "Couldn't Create"), s.(writes := s.writes + [Create(owned)]), owned)
        else (Ok, s, owned)
      case Fetched(live) =>
        if NeverUpdated(Kind(owned)) then (Ok, s, owned)
        else match CarryForward(owned, live)
          case Done(required) => (Respond(env.written, "Couldn't Update"), s.(writes := s.writes + [Update(required)]), owned)
          case Failed(e) => (Failed(e), s, owned)
          case Fatal(reason) => (Fatal(reason), s, owned)
  }

  /** CRUD: the namespace and owner reference are set on the object itself, then one write at most. */
  method CRUD(r: Reconciler, obj: Unstructured, env: CrudEnv) returns (res: Status)
    modifies r, obj
    ensures (res, r.Snapshot(), obj.content) == CrudRun(r.namespace, old(obj.content), env, old(r.Snapshot()))
  {
    obj.content := SetNamespace(obj.content, r.namespace);
    var found := obj.DeepCopy();
    match env.owner {
      case OwnerFailed(e) => return Failed(e);
      case Owned(refs) => obj.content := WithOwner(obj.content, refs);
    }
    match env.live {
      case FetchFailed(e) =>
        if e.NotFound? {
          r.writes := r.writes + [Create(obj.content)];
          if env.written.Some? {
            return Failed(Wrapped("Couldn't Create", ClientError(env.written.value)));
          }
          return Ok;
        }
      case Fetched(live) =>
        found.content := live;
        var kind := Kind(obj.content);
        if kind != "ServiceAccount" && kind != "Pod" {
          var required := obj.DeepCopy();
          res := UpdateResource(required, found.content);
          if res.Stops() {
            return;
          }
          r.writes := r.writes + [Update(required.content)];
          if env.written.Some? {
            return Failed(Wrapped("Couldn't Update", ClientError(env.written.value)));
          }
          return Ok;
        }
    }
    return Ok;
  }

  /* ----- EachResourceListItem ----- */

  /** The %T name of a field value, as fmt prints it. */
  function TypeName(v: Value): string
  {
    match v
    case Str(_) => "string"
    case Int(_) => "int64"
    case Bool(_) => "bool"
    case Null => "<nil>"
    case Obj(_) => "map[string]interface {}"
    case Arr(_) => "[]interface {}"
    case ObjectSlice(_) => "[]unstructured.Unstructured"
  }

  /** CRUD's outcome and state, for a walk over many objects. */
  function CrudStep(namespace: string, content: Fields, env: CrudEnv, s: State): (out: (Status, State))
    ensures out.1 == s.(writes := out.1.writes)
    ensures |s.writes| <= |out.1.writes| <= |s.writes| + 1 && out.1.writes[..|s.writes|] == s.writes
  {
    var step := CrudRun(namespace, content, env, s);
    (step.0, step.1)
  }

  const NotAnObject: Error := Message("items member is not an object: map[string]interface {}")

  /** CRUD on the items from index i on, each with its own answers; the first error stops the walk. */
  function EachItemFrom(namespace: string, items: seq<Value>, i: nat, crud: nat -> CrudEnv, s: State): (out: (Status, State))
    requires i <= |items|
    ensures out.1 == s.(writes := out.1.writes)
    ensures |s.writes| <= |out.1.writes| <= |s.writes| + (|items| - i) && out.1.writes[..|s.writes|] == s.writes
    ensures i == |items| ==> out == (Ok, s)
    ensures i < |items| && !items[i].Obj? ==> out == (Failed(NotAnObject), s)
    ensures i < |items| && items[i].Obj? && CrudStep(namespace, items[i].fields, crud(i), s).0.Stops() ==>
              out == CrudStep(namespace, items[i].fields, crud(i), s)
    decreases |items| - i
  {
    if i == |items| then (Ok, s)
    else match items[i]
      case Obj(child) =>
        var step := CrudStep(namespace, child, crud(i), s);
        if step.0.Stops() then step else EachItemFrom(namespace, items, i + 1, crud, step.1)
      case _ => (Failed(NotAnObject), s)
  }

  /** EachResourceListItem with CRUD: `items` must be there and be a list of maps. */
  function EachItem(namespace: string, list: Fields, crud: nat -> CrudEnv, s: State): (out: (Status, State))
    ensures "items" !in list ==> out == (Failed(Message("content is not a list")), s)
    ensures "items" in list && !list["items"].Arr? ==>
              out == (Failed(Message("content is not a list: " + TypeName(list["items"]))), s)
    ensures out.1 == s.(writes := out.1.writes)
    ensures "items" in list && list["items"].Arr? ==> out == EachItemFrom(namespace, list["items"].elems, 0, crud, s)
  {
    if "items" !in list then (Failed(Message("content is not a list")), s)
    else match list["items"]
      case Arr(items) => EachItemFrom(namespace, items, 0, crud, s)
      case other => (Failed(Message("content is not a list: " + TypeName(other))), s)
  }

  /** EachResourceListItem: one fresh object per item, handed to CRUD in order. */
  method EachResourceListItem(r: Reconciler, list: Fields, crud: nat -> CrudEnv) returns (res: Status)
    modifies r
    ensures (res, r.Snapshot()) == EachItem(r.namespace, list, crud, old(r.Snapshot()))
  {
    if "items" !in list {
      return Failed(Message("content is not a list"));
    }
    var field := list["items"];
    if !field.Arr? {
      return Failed(Message("content is not a list: " + TypeName(field)));
    }
    var items := field.elems;
    for i := 0 to |items|
      invariant EachItemFrom(r.namespace, items, i, crud, r.Snapshot()) == EachItem(r.namespace, list, crud, old(r.Snapshot()))
    {
      if !items[i].Obj? {
        return Failed(NotAnObject);
      }
      var child := new Unstructured(items[i].fields);
      res := CRUD(r, child, crud(i));
      if res.Stops() {
        return;
      }
    }
    return Ok;
  }

  /**
   * The items are handled in order: the walk over items followed by more items
   * is the walk over the first ones, then, unless one of them stopped it, the
   * walk over the rest from the state they left.
   */
  lemma {:induction false} EachItemSplits(namespace: string, items: seq<Value>, more: seq<Value>, i: nat,
                                          crud: nat -> CrudEnv, s: State)
    requires i <= |items|
    ensures var first := EachItemFrom(namespace, items, i, crud, s);
            EachItemFrom(namespace, items + more, i, crud, s)
            == if first.0.Stops() then first else EachItemFrom(namespace, items + more, |items|, crud, first.1)
    decreases |items| - i
  {
    if i < |items| {
      assert (items + more)[i] == items[i];
      if items[i].Obj? {
        var step := CrudStep(namespace, items[i].fields, crud(i), s);
        if !step.0.Stops() {
          EachItemSplits(namespace, items, more, i + 1, crud, step.1);
        }
      }
    }
  }

  /** CRUD on an object that is not in the store yet, with a create that succeeds, appends one Create. */
  lemma CreateWhenAbsent(namespace: string, content: Fields, refs: Value, s: State)
    ensures var step := CrudStep(namespace, content, CrudEnv(Owned(refs), FetchFailed(NotFound), None), s);
            step.0 == Ok && |step.1.writes| == |s.writes| + 1 && step.1.writes[|s.writes|].Create?
  {
    var out := CrudRun(namespace, content, CrudEnv(Owned(refs), FetchFailed(NotFound), None), s);
    assert out.1.writes == s.writes + [Create(out.2)];
  }

  /**
   * When every item is a map that is not in the store yet, and every create
   * succeeds, the walk succeeds with one Create per item, in item order.
   */
  lemma {:induction false} CreatesOnePerItem(namespace: string, items: seq<Value>, i: nat, refs: Value, s: State)
    requires i <= |items| && forall j :: i <= j < |items| ==> items[j].Obj?
    ensures var out := EachItemFrom(namespace, items, i, _ => CrudEnv(Owned(refs), FetchFailed(NotFound), None), s);
            out.0 == Ok && |out.1.writes| == |s.writes| + |items| - i
            && forall j :: |s.writes| <= j < |out.1.writes| ==> out.1.writes[j].Create?
    decreases |items| - i
  {
    var crud := (_: nat) => CrudEnv(Owned(refs), FetchFailed(NotFound), None);
    if i < |items| {
      var step := CrudStep(namespace, items[i].fields, crud(i), s);
      CreateWhenAbsent(namespace, items[i].fields, refs, s);
      CreatesOnePerItem(namespace, items, i + 1, refs, step.1);
      var out := EachItemFrom(namespace, items, i + 1, crud, step.1);
      assert out.1.writes[..|step.1.writes|] == step.1.writes;
      assert out.1.writes[|s.writes|] == step.1.writes[|s.writes|];
    }
  }

  /* ----- ReconcileResource ----- */

  /**
   * ReconcileResource on what the prefix stage handed on: the object itself
   * goes to CRUD, a list object to EachResourceListItem.  Any error ends the
   * process, so nothing is ever returned but success.
   */
  function ReconcileRun(namespace: string, content: Fields, modified: Modified, crud: nat -> CrudEnv, s: State)
    : (out: (Status, State, Fields))
    ensures !out.0.Failed?
    ensures out.1 == s.(writes := out.1.writes)
    ensures modified.ItemList? ==> out.2 == content
  {
    match modified
    case SameObject =>
      var step := CrudRun(namespace, content, crud(0), s);
      (Exit(step.0), step.1, step.2)
    case ItemList(list) =>
      var step := EachItem(namespace, list, crud, s);
      (Exit(step.0), step.1, content)
  }

  /** exitOnError(err, "CRUD exited non-zero"), after a process end inside CRUD has already happened. */
  function Exit(res: Status): (r: Status)
    ensures r.Done? == res.Done?
    ensures !r.Failed?
  {
    if res.Failed? then Fatal("CRUD exited non-zero") else res
  }

  method ReconcileResource(r: Reconciler, obj: Unstructured, modified: Modified, crud: nat -> CrudEnv) returns (res: Status)
    modifies r, obj
    ensures (res, r.Snapshot(), obj.content) == ReconcileRun(r.namespace, old(obj.content), modified, crud, old(r.Snapshot()))
  {
    match modified {
      case ItemList(list) =>
        res := EachResourceListItem(r, list, crud);
      case SameObject =>
        res := CRUD(r, obj, crud(0));
    }
    if res.Failed? {
      return Fatal("CRUD exited non-zero");
    }
  }

  /**
   * The list object prefixNVIDIAdriverValdiation builds as written cannot be
   * walked: its items are a typed slice, so reconciling it always ends the
   * process, whatever the nodes and the store answers.
   */
  lemma AsWrittenFanOutIsFatal(namespace: string, content: Fields, listed: Fetch<seq<Node>>, crud: nat -> CrudEnv, s: State)
    requires ValidationAsWritten(content, listed).res.Done?
    ensures ReconcileRun(namespace, content, ValidationAsWritten(content, listed).res.value, crud, s)
            == (Fatal("CRUD exited non-zero"), s, content)
  {
  }

  /**
   * The list the corrected hook builds is walked item by item: with every item
   * new to the store, one Create is sent per GPU node and the stage succeeds.
   */
  lemma FanOutCreatesOnePerNode(namespace: string, content: Fields, listed: Fetch<seq<Node>>, refs: Value, s: State)
    requires Validation(content, listed).res.Done?
    ensures var out := ReconcileRun(namespace, content, Validation(content, listed).res.value,
                                    _ => CrudEnv(Owned(refs), FetchFailed(NotFound), None), s);
            out.0 == Ok && |out.1.writes| == |s.writes| + |AllNodesWithLabel(listed)|
            && forall j :: |s.writes| <= j < |out.1.writes| ==> out.1.writes[j].Create?
  {
    var items := Validation(content, listed).res.value.list["items"].elems;
    CreatesOnePerItem(namespace, items, 0, refs, s);
  }

  /* ----- createFromYAML ----- */

  /** A document of the manifest after YAML-to-JSON conversion and unmarshalling. */
  datatype Doc = Converted(content: Fields) | NotConvertible(error: Error)

  /** The answers the stages of one document get. */
  datatype DocEnv = DocEnv(prefix: PrefixEnv, crud: nat -> CrudEnv, postfix: PostfixEnv)

  /** One document: prefix stage, reconcile of what it hands on, postfix stage on the object. */
  function DocumentRun(prefix: map<string, PrefixHook>, waitFor: map<string, WaitHook>, namespace: string,
                       content: Fields, env: DocEnv, s: State): (out: (Status, State))
    ensures PrefixStage(prefix, content, env.prefix).res.Stops() ==>
              out == (StatusOf(PrefixStage(prefix, content, env.prefix).res), s)
  {
    var p := PrefixStage(prefix, content, env.prefix);
    if p.res.Stops() then (StatusOf(p.res), s)
    else
      var reconciled := ReconcileRun(namespace, p.content, p.res.value, env.crud, s);
      if reconciled.0.Stops() then (reconciled.0, reconciled.1)
      else PostfixRun(waitFor, reconciled.2, env.postfix, reconciled.1)
  }

  /** One document's run, as the manifest loop sees it: its index, its object and the state before it. */
  type DocumentStep = (nat, Fields, State) -> (Status, State)

  /** The run of each document of createFromYAML: prefix, reconcile and postfix with that document's answers. */
  function Runner(prefix: map<string, PrefixHook>, waitFor: map<string, WaitHook>, namespace: string,
                  envs: nat -> DocEnv): (run: DocumentStep)
    ensures forall i: nat, content: Fields, s: State :: run(i, content, s) == DocumentRun(prefix, waitFor, namespace, content, envs(i), s)
  {
    (i: nat, content: Fields, s: State) => DocumentRun(prefix, waitFor, namespace, content, envs(i), s)
  }

  /** The documents from index i on; the first error stops the loop, a scanner error is reported last. */
  function DocumentsFrom(docs: seq<Doc>, i: nat, scanError: Option<Error>, run: DocumentStep, s: State)
    : (out: (Status, State))
    requires i <= |docs|
    decreases |docs| - i
  {
    if i == |docs| then (if scanError.Some? then Failed(scanError.value) else Ok, s)
    else match docs[i]
      case NotConvertible(e) => (Failed(e), s)
      case Converted(content) =>
        var step := run(i, content, s);
        if step.0.Stops() then step else DocumentsFrom(docs, i + 1, scanError, run, step.1)
  }

  /** createFromYAML: each document in turn gets a fresh object. */
  method CreateFromYAML(r: Reconciler, docs: seq<Doc>, scanError: Option<Error>, envs: nat -> DocEnv) returns (res: Status)
    modifies r
    ensures (res, r.Snapshot())
            == DocumentsFrom(docs, 0, scanError, Runner(r.registry.prefix, r.registry.waitFor, r.namespace, envs), old(r.Snapshot()))
  {
    ghost var run := Runner(r.registry.prefix, r.registry.waitFor, r.namespace, envs);
    for i := 0 to |docs|
      invariant run == Runner(r.registry.prefix, r.registry.waitFor, r.namespace, envs)
      invariant DocumentsFrom(docs, i, scanError, run, r.Snapshot()) == DocumentsFrom(docs, 0, scanError, run, old(r.Snapshot()))
    {
      match docs[i] {
        case NotConvertible(e) => return Failed(e);
        case Converted(content) =>
          var obj := new Unstructured(content);
          var modified := PrefixResourceCallback(r, obj, envs(i).prefix);
          if modified.Stops() {
            return StatusOf(modified);
          }
          res := ReconcileResource(r, obj, modified.value, envs(i).crud);
          if res.Stops() {
            return;
          }
          res := PostfixResourceCallback(r, obj, envs(i).postfix);
          if res.Stops() {
            return;
          }
      }
    }
    if scanError.Some? {
      return Failed(scanError.value);
    }
    return Ok;
  }

  /**
   * Once a document stops the loop, nothing scanned after it matters: more
   * documents, or a scanner error, leave the outcome and the state as they are.
   */
  lemma {:induction false} StopIgnoresLaterDocuments(docs: seq<Doc>, more: seq<Doc>, i: nat, scanError: Option<Error>,
                                                   run: DocumentStep, s: State)
    requires i <= |docs| && DocumentsFrom(docs, i, None, run, s).0.Stops()
    ensures DocumentsFrom(docs + more, i, scanError, run, s) == DocumentsFrom(docs, i, None, run, s)
    decreases |docs| - i
  {
    assert (docs + more)[i] == docs[i];
    if docs[i].Converted? {
      var step := run(i, docs[i].content, s);
      if !step.0.Stops() {
        StopIgnoresLaterDocuments(docs, more, i + 1, scanError, run, step.1);
      }
    }
  }

  /** When every document goes through, the scanner's error is what the loop reports. */
  lemma {:induction false} ScanErrorReportedLast(docs: seq<Doc>, i: nat, error: Error, run: DocumentStep, s: State)
    requires i <= |docs| && DocumentsFrom(docs, i, None, run, s).0.Done?
    ensures DocumentsFrom(docs, i, Some(error), run, s) == (Failed(error), DocumentsFrom(docs, i, None, run, s).1)
    decreases |docs| - i
  {
    if i < |docs| && docs[i].Converted? {
      ScanErrorReportedLast(docs, i + 1, error, run, run(i, docs[i].content, s).1);
    }
  }
}
