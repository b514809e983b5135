/**
 * The prefix hooks: rewrites applied to a manifest object before it is
 * reconciled.  The object store answers (the GPU node list, the grafana
 * datasource secret) are inputs.
 */
module PrefixHooks {
  import opened Outcomes
  import opened Objects
  import opened Text
  import opened Adler32
  import opened Globals
  import Runtime

  /** What a hook hands back to the reconciler: the (changed) object itself, or a list object. */
  datatype Modified = SameObject | ItemList(list: Fields)

  /** A hook's outcome together with the content of the object it was given, afterwards. */
  datatype Prefixed = Prefixed(res: Outcome<Modified>, content: Fields)

  /** A hook that edits the object in place: on success the object itself is handed back, edited. */
  function InPlace(edit: Outcome<Fields>, before: Fields): (p: Prefixed)
    ensures edit.Done? ==> p == Prefixed(Done(SameObject), edit.value)
    ensures !edit.Done? ==> p.content == before && p.res.Failed? == edit.Failed? && p.res.Fatal? == edit.Fatal?
  {
    match edit
    case Done(after) => Prefixed(Done(SameObject), after)
    case Failed(e) => Prefixed(Failed(e), before)
    case Fatal(reason) => Prefixed(Fatal(reason), before)
  }

  /** getAllNodesWithLabel: a failed List reads as an empty node list. */
  function AllNodesWithLabel(listed: Fetch<seq<Node>>): seq<Node>
  {
    if listed.Fetched? then listed.item else []
  }

  /** The kernel version the first node carries, or "" when there is no node or no label. */
  function FirstKernelLabel(nodes: seq<Node>): string
  {
    if |nodes| > 0 && Runtime.KernelVersionFull in nodes[0].labels then nodes[0].labels[Runtime.KernelVersionFull]
    else ""
  }

  /** kernelFullVersion: the label of the first GPU node only. */
  method KernelFullVersion(listed: Fetch<seq<Node>>) returns (kernelVersion: string)
    ensures kernelVersion == FirstKernelLabel(AllNodesWithLabel(listed))
    ensures listed.FetchFailed? ==> kernelVersion == ""
  {
    var nodes := AllNodesWithLabel(listed);
    for i := 0 to |nodes|
      invariant i == 0
    {
      var labels := nodes[i].labels;
      if Runtime.KernelVersionFull !in labels {
        return "";
      }
      return labels[Runtime.KernelVersionFull];
    }
    return "";
  }

  /* ----- grafana datasource credentials ----- */

  /** The answer to reading the grafana-datasources secret and decoding its prometheus.yaml entry. */
  datatype SecretRead =
    | SecretFailed(error: ApiError)
    | Undecodable(text: string)         // json.Unmarshal error
    | Decoded(content: Fields)

  /**
   * The Prometheus URL and password of the first datasource.  A missing
   * datasource list, or a first datasource without both strings, ends the
   * process; a first datasource that is not a map, or an empty list, gives "".
   */
  function Credentials(secret: SecretRead): (res: Outcome<(string, string)>)
    ensures secret.SecretFailed? ==> res == Failed(ClientError(secret.error))
    ensures secret.Undecodable? ==> res == Failed(Message(secret.text))
    ensures secret.Decoded? && !NestedSlice(secret.content, ["datasources"]).Present? ==> res.Fatal?
    ensures secret.Decoded? && NestedSlice(secret.content, ["datasources"]).Present? ==>
              var ds := NestedSlice(secret.content, ["datasources"]).v;
              (|ds| == 0 || !ds[0].Obj? ==> res == Done(("", "")))
              && (|ds| > 0 && ds[0].Obj? ==>
                    (res.Done? <==> NestedString(ds[0].fields, ["url"]).Present?
                                    && NestedString(ds[0].fields, ["basicAuthPassword"]).Present?)
                    && (res.Done? ==> res.value == (NestedString(ds[0].fields, ["url"]).v,
                                                    NestedString(ds[0].fields, ["basicAuthPassword"]).v)))
  {
    match secret
    case SecretFailed(e) => Failed(ClientError(e))
    case Undecodable(text) => Failed(Message(text))
    case Decoded(sec) =>
      match NestedSlice(sec, ["datasources"])
      case Present(ds) =>
        if |ds| == 0 || !ds[0].Obj? then Done(("", ""))
        else
          var url := NestedString(ds[0].fields, ["url"]);
          var pass := NestedString(ds[0].fields, ["basicAuthPassword"]);
          if url.Present? && pass.Present? then Done((url.v, pass.v))
          else Fatal("datasource without url or basicAuthPassword")
      case _ => Fatal("secret without datasources")
  }

  /** getPromURLPass: a loop over the datasources that leaves after the first one. */
  method GetPromURLPass(secret: SecretRead) returns (res: Outcome<(string, string)>)
    ensures res == Credentials(secret)
  {
    var sec: Fields;
    match secret {
      case SecretFailed(e) => return Failed(ClientError(e));
      case Undecodable(text) => return Failed(Message(text));
      case Decoded(content) => sec := content;
    }
    var datasources := NestedSlice(sec, ["datasources"]);
    if !datasources.Present? {
      return Fatal("secret without datasources");
    }
    var promURL, promPass := "", "";
    for i := 0 to |datasources.v|
      invariant i == 0 && promURL == "" && promPass == ""
    {
      match datasources.v[i] {
        case Obj(datasource) =>
          var url := NestedString(datasource, ["url"]);
          if !url.Present? {
            return Fatal("datasource without url or basicAuthPassword");
          }
          var pass := NestedString(datasource, ["basicAuthPassword"]);
          if !pass.Present? {
            return Fatal("datasource without url or basicAuthPassword");
          }
          promURL, promPass := url.v, pass.v;
        case _ =>
      }
      break;
    }
    return Done((promURL, promPass));
  }

  /* ----- prefixNVIDIAgrafanaConfigMap ----- */

  const PromDataPath := ["data", "ocp-prometheus.yml"]

  /** The three placeholder rewrites of the grafana hook, applied one after the other. */
  function PromRewrite(data: string, url: string, pass: string): string
  {
    ReplaceAll(ReplaceAll(ReplaceAll(data, "REPLACE_PROM_URL", url), "REPLACE_PROM_PASS", pass), "REPLACE_PROM_USER", "internal")
  }

  /**
   * The object after prefixNVIDIAgrafanaConfigMap: the config blob must be
   * there (else the process ends); a credentials error is returned; otherwise
   * the blob is rewritten and nothing outside `data` changes.
   */
  function GrafanaRewrite(content: Fields, secret: SecretRead): (res: Outcome<Fields>)
    ensures !NestedString(content, PromDataPath).Present? ==> res.Fatal?
    ensures NestedString(content, PromDataPath).Present? && Credentials(secret).Failed? ==>
              res == Failed(Credentials(secret).error)
    ensures NestedString(content, PromDataPath).Present? && Credentials(secret).Fatal? ==> res.Fatal?
    ensures NestedString(content, PromDataPath).Present? && Credentials(secret).Done? ==>
              var (url, pass) := Credentials(secret).value;
              res.Done?
              && Nested(res.value, PromDataPath)
                 == Found(Str(PromRewrite(NestedString(content, PromDataPath).v, url, pass)))
              && res.value.Keys == content.Keys
              && (forall k :: k in content && k != "data" ==> res.value[k] == content[k])
              && forall p :: Branches(p, PromDataPath) ==> Nested(res.value, p) == Nested(content, p)
  {
    match NestedString(content, PromDataPath)
    case Present(data) =>
      (match Credentials(secret)
       case Done(credentials) =>
         var rewritten := Str(PromRewrite(data, credentials.0, credentials.1));
         FoundIsSettable(content, PromDataPath, rewritten);
         SetThenGet(content, PromDataPath, rewritten);
         SetLeavesBranches(content, PromDataPath, rewritten);
         Done(SetNested(content, PromDataPath, rewritten).value)
       case Failed(e) => Failed(e)
       case Fatal(reason) => Fatal(reason))
    case _ => Fatal("missing data.ocp-prometheus.yml")
  }

  /** prefixNVIDIAgrafanaConfigMap: the blob is rewritten in the object itself. */
  method PrefixNVIDIAgrafanaConfigMap(obj: Unstructured, secret: SecretRead) returns (res: Outcome<Modified>)
    modifies obj
    ensures Prefixed(res, obj.content) == InPlace(GrafanaRewrite(old(obj.content), secret), old(obj.content))
  {
    var found := NestedString(obj.content, PromDataPath);
    if !found.Present? {
      return Fatal("missing data.ocp-prometheus.yml");
    }
    var promData := found.v;
    var credentials := GetPromURLPass(secret);
    if credentials.Failed? {
      return Failed(credentials.error);
    } else if credentials.Fatal? {
      return Fatal(credentials.reason);
    }
    var (promURL, promPass) := credentials.value;
    promData := ReplaceAll(promData, "REPLACE_PROM_URL", promURL);
    promData := ReplaceAll(promData, "REPLACE_PROM_PASS", promPass);
    promData := ReplaceAll(promData, "REPLACE_PROM_USER", "internal");
    FoundIsSettable(obj.content, PromDataPath, Str(promData));
    var updated := SetNested(obj.content, PromDataPath, Str(promData));
    if updated.None? {
      return Failed(SetFieldError);
    }
    obj.content := updated.value;
    return Done(SameObject);
  }

  /**
   * The rewrites run in sequence, not in one pass: a URL that itself holds the
   * password placeholder has it replaced by the password.
   */
  lemma PromRewriteIsSequential(pass: string)
    ensures PromRewrite("REPLACE_PROM_URL", "REPLACE_PROM_PASS", pass)
            == Replace(pass, [Rule("REPLACE_PROM_USER", "internal")])
    ensures Replace("REPLACE_PROM_URL", [Rule("REPLACE_PROM_URL", "REPLACE_PROM_PASS"),
                                         Rule("REPLACE_PROM_PASS", pass),
                                         Rule("REPLACE_PROM_USER", "internal")]) == "REPLACE_PROM_PASS"
  {
    ReplaceWhole("REPLACE_PROM_URL", "REPLACE_PROM_PASS");
    ReplaceWhole("REPLACE_PROM_PASS", pass);
    var rules := [Rule("REPLACE_PROM_URL", "REPLACE_PROM_PASS"), Rule("REPLACE_PROM_PASS", pass),
                  Rule("REPLACE_PROM_USER", "internal")];
    var s := "REPLACE_PROM_URL";
    assert s[..|rules[0].target|] == rules[0].target;
    ReplaceAtMatch(s, rules, 0);
    assert s[|rules[0].target|..] == [];
  }

  /** A text that is exactly the placeholder becomes exactly the value. */
  lemma ReplaceWhole(target: string, replacement: string)
    requires |target| > 0
    ensures ReplaceAll(target, target, replacement) == replacement
  {
    assert target[..|target|] == target;
    ReplaceAtMatch(target, [Rule(target, replacement)], 0);
    assert target[|target|..] == [];
  }

  /* ----- prefixNVIDIAdriverDaemonset ----- */

  const ContainersPath := ["spec", "template", "spec", "containers"]
  const NodeSelectorPath := ["spec", "template", "spec", "nodeSelector", Runtime.KernelVersionFull]
  const DriverContainer := "nvidia-driver-ctr"

  predicate IsDriverContainer(c: map<string, Value>)
  {
    "name" in c && c["name"] == Str(DriverContainer)
  }

  /**
   * One container of the driver DaemonSet: the driver container gets its image
   * rewritten, every other map is kept, a non-map ends the process.
   */
  function PatchContainer(c: Value, kernelVersion: string): (res: Outcome<Value>)
    ensures !res.Failed?
    ensures res.Done? <==> c.Obj? && (IsDriverContainer(c.fields) ==> NestedString(c.fields, ["image"]).Present?)
    ensures res.Done? && !IsDriverContainer(c.fields) ==> res.value == c
    ensures res.Done? && IsDriverContainer(c.fields) ==>
              var image := NestedString(c.fields, ["image"]).v;
              res.value == Obj(c.fields["image" := Str(ReplaceAll(image, "KERNEL_FULL_VERSION", kernelVersion))])
  {
    match c
    case Obj(container) =>
      if !IsDriverContainer(container) then Done(c)
      else
        (match NestedString(container, ["image"])
         case Present(image) =>
           Done(Obj(container["image" := Str(ReplaceAll(image, "KERNEL_FULL_VERSION", kernelVersion))]))
         case _ => Fatal("driver container without image"))
    case _ => Fatal("cannot extract name,image from a non-map container")
  }

  /** All containers patched in order; the first one that cannot be patched ends the process. */
  function PatchContainers(cs: seq<Value>, kernelVersion: string): (res: Outcome<seq<Value>>)
    ensures !res.Failed?
    ensures res.Done? <==> forall i :: 0 <= i < |cs| ==> PatchContainer(cs[i], kernelVersion).Done?
    ensures res.Done? ==> |res.value| == |cs|
    ensures res.Done? ==> forall i :: 0 <= i < |cs| ==> PatchContainer(cs[i], kernelVersion) == Done(res.value[i])
    decreases |cs|
  {
    if cs == [] then Done([])
    else
      match PatchContainers(cs[..|cs| - 1], kernelVersion)
      case Done(ps) =>
        (match PatchContainer(cs[|cs| - 1], kernelVersion)
         case Done(p) => Done(ps + [p])
         case Failed(e) => Failed(e)
         case Fatal(reason) => Fatal(reason))
      case Failed(e) => Failed(e)
      case Fatal(reason) => Fatal(reason)
  }

  /**
   * The object after prefixNVIDIAdriverDaemonset: the containers must be there
   * (else the process ends), the driver container's image gets the kernel
   * version, and the node selector is pinned to that version.
   */
  function DriverDaemonSetPatch(content: Fields, kernelVersion: string): (res: Outcome<Fields>)
    ensures !res.Failed?
    ensures !NestedSlice(content, ContainersPath).Present? ==> res.Fatal?
    ensures res.Done? <==>
              NestedSlice(content, ContainersPath).Present?
              && PatchContainers(NestedSlice(content, ContainersPath).v, kernelVersion).Done?
              && SetNested(content, NodeSelectorPath, Str(kernelVersion)).Some?
    ensures res.Done? ==>
              forall p :: Branches(p, ContainersPath) && Branches(p, NodeSelectorPath) ==> Nested(res.value, p) == Nested(content, p)
    ensures res.Done? ==>
              NestedSlice(content, ContainersPath).Present?
              && PatchContainers(NestedSlice(content, ContainersPath).v, kernelVersion).Done?
              && Nested(res.value, ContainersPath)
                 == Found(Arr(PatchContainers(NestedSlice(content, ContainersPath).v, kernelVersion).value))
              && Nested(res.value, NodeSelectorPath) == Found(Str(kernelVersion))
  {
    match NestedSlice(content, ContainersPath)
    case Present(cs) =>
      (match PatchContainers(cs, kernelVersion)
       case Done(patched) => WriteBack(content, patched, kernelVersion)
       case Failed(e) => Failed(e)
       case Fatal(reason) => Fatal(reason))
    case _ => Fatal("missing spec.template.spec.containers")
  }

  /** The patched containers written back over the old ones, then the node selector pinned. */
  function WriteBack(content: Fields, patched: seq<Value>, kernelVersion: string): (res: Outcome<Fields>)
    requires Nested(content, ContainersPath).Found?
    ensures !res.Failed?
    ensures res.Done? <==> SetNested(content, NodeSelectorPath, Str(kernelVersion)).Some?
    ensures res.Done? ==>
              Nested(res.value, ContainersPath) == Found(Arr(patched))
              && Nested(res.value, NodeSelectorPath) == Found(Str(kernelVersion))
              && forall p :: Branches(p, ContainersPath) && Branches(p, NodeSelectorPath) ==> Nested(res.value, p) == Nested(content, p)
  {
    FoundIsSettable(content, ContainersPath, Arr(patched));
    var withContainers := SetNested(content, ContainersPath, Arr(patched)).value;
    SetThenGet(content, ContainersPath, Arr(patched));
    SetKeepsOtherSettable(content, ContainersPath, Arr(patched), NodeSelectorPath, Str(kernelVersion), 3);
    SetLeavesBranches(content, ContainersPath, Arr(patched));
    match SetNested(withContainers, NodeSelectorPath, Str(kernelVersion))
    case Some(withSelector) =>
      SetThenGet(withContainers, NodeSelectorPath, Str(kernelVersion));
      SetLeavesOtherPaths(withContainers, NodeSelectorPath, Str(kernelVersion), ContainersPath, 3);
      SetLeavesBranches(withContainers, NodeSelectorPath, Str(kernelVersion));
      Done(withSelector)
    case None => Fatal("value cannot be set because a field on the path is not a map[string]interface{}")
  }

  /** The container loop of prefixNVIDIAdriverDaemonset, one container at a time. */
  method PatchEachContainer(containers: seq<Value>, kernelVersion: string) returns (res: Outcome<seq<Value>>)
    ensures res == PatchContainers(containers, kernelVersion)
  {
    var patched: seq<Value> := [];
    for i := 0 to |containers|
      invariant PatchContainers(containers[..i], kernelVersion) == Done(patched)
    {
      assert containers[..i + 1][..i] == containers[..i];
      var p := PatchContainer(containers[i], kernelVersion);
      if !p.Done? {
        PatchStopsAt(containers, kernelVersion, i);
        return Fatal(p.reason);
      }
      patched := patched + [p.value];
    }
    assert containers[..|containers|] == containers;
    return Done(patched);
  }

  /** The first container that cannot be patched decides the outcome. */
  lemma {:induction false} PatchStopsAt(cs: seq<Value>, kernelVersion: string, i: nat)
    requires i < |cs| && PatchContainers(cs[..i], kernelVersion).Done?
    requires !PatchContainer(cs[i], kernelVersion).Done?
    ensures PatchContainers(cs, kernelVersion) == Fatal(PatchContainer(cs[i], kernelVersion).reason)
    decreases |cs|
  {
    if i < |cs| - 1 {
      assert cs[..|cs| - 1][..i] == cs[..i];
      PatchStopsAt(cs[..|cs| - 1], kernelVersion, i);
    } else {
      assert cs[..|cs| - 1] == cs[..i];
    }
  }

  /**
   * prefixNVIDIAdriverDaemonset: the containers are patched, written back, the
   * node selector is set, and the object itself is handed back.
   */
  method PrefixNVIDIAdriverDaemonset(obj: Unstructured, listed: Fetch<seq<Node>>) returns (res: Outcome<Modified>)
    modifies obj
    ensures Prefixed(res, obj.content)
            == InPlace(DriverDaemonSetPatch(old(obj.content), FirstKernelLabel(AllNodesWithLabel(listed))), old(obj.content))
  {
    ghost var before := obj.content;
    var containers := NestedSlice(obj.content, ContainersPath);
    if !containers.Present? {
      assert DriverDaemonSetPatch(before, FirstKernelLabel(AllNodesWithLabel(listed))).Fatal?;
      return Fatal("missing spec.template.spec.containers");
    }
    var kernelVersion := KernelFullVersion(listed);
    var patched := PatchEachContainer(containers.v, kernelVersion);
    if !patched.Done? {
      assert DriverDaemonSetPatch(before, kernelVersion) == Fatal(patched.reason);
      return Fatal(if patched.Fatal? then patched.reason else "");
    }
    res := SetContainersAndSelector(obj, patched.value, kernelVersion);
  }

  /** The write-back half of prefixNVIDIAdriverDaemonset. */
  method SetContainersAndSelector(obj: Unstructured, patched: seq<Value>, kernelVersion: string)
    returns (res: Outcome<Modified>)
    requires Nested(obj.content, ContainersPath).Found?
    modifies obj
    ensures Prefixed(res, obj.content) == InPlace(WriteBack(old(obj.content), patched, kernelVersion), old(obj.content))
  {
    FoundIsSettable(obj.content, ContainersPath, Arr(patched));
    var withContainers := SetNested(obj.content, ContainersPath, Arr(patched));
    if withContainers.None? {
      return Fatal("value cannot be set because a field on the path is not a map[string]interface{}");
    }
    var withSelector := SetNested(withContainers.value, NodeSelectorPath, Str(kernelVersion));
    if withSelector.None? {
      return Fatal("value cannot be set because a field on the path is not a map[string]interface{}");
    }
    obj.content := withSelector.value;
    return Done(SameObject);
  }

  /** The patch touches the driver container's image and nothing else in any container. */
  lemma PatchOnlyDriverImage(cs: seq<Value>, kernelVersion: string, i: nat, key: string)
    requires PatchContainers(cs, kernelVersion).Done? && i < |cs|
    requires key in cs[i].fields && (key != "image" || !IsDriverContainer(cs[i].fields))
    ensures PatchContainers(cs, kernelVersion).value[i].Obj?
    ensures key in PatchContainers(cs, kernelVersion).value[i].fields
    ensures PatchContainers(cs, kernelVersion).value[i].fields[key] == cs[i].fields[key]
  {
    assert PatchContainer(cs[i], kernelVersion).Done?;
  }

  /* ----- prefixNVIDIAdriverValdiation ----- */

  const NamePath := ["metadata", "name"]

  /** `name-<lower-case hex Adler-32 of the node name>`. */
  function ItemName(name: string, node: Node): string
  {
    name + "-" + FormatHex(Checksum(Utf8(node.name)))
  }

  /** The copy of the object made for one node. */
  function ItemFor(content: Fields, node: Node): Option<Fields>
  {
    SetNested(content, NamePath, Str(ItemName(Name(content), node)))
  }

  /**
   * The renamed copies of prefixNVIDIAdriverValdiation: one per GPU node, in
   * node order.  Renaming fails only when the object's metadata is not a map;
   * the error is returned.
   */
  function FannedOut(content: Fields, nodes: seq<Node>): (res: Outcome<seq<Fields>>)
    ensures !res.Fatal?
    ensures res.Failed? <==> |nodes| > 0 && SetNested(content, NamePath, Str("")).None?
    ensures res.Failed? ==> res.error == SetFieldError
    ensures res.Done? ==> |res.value| == |nodes|
                          && forall i :: 0 <= i < |nodes| ==> ItemFor(content, nodes[i]) == Some(res.value[i])
  {
    if |nodes| > 0 && SetNested(content, NamePath, Str("")).None? then Failed(SetFieldError)
    else
      AllRenamable(content, nodes);
      Done(seq(|nodes|, i requires 0 <= i < |nodes| => ItemFor(content, nodes[i]).value))
  }

  /** Renaming succeeds for every node as soon as it succeeds for one name. */
  lemma AllRenamable(content: Fields, nodes: seq<Node>)
    requires |nodes| > 0 ==> SetNested(content, NamePath, Str("")).Some?
    ensures forall i :: 0 <= i < |nodes| ==> ItemFor(content, nodes[i]).Some?
  {
    forall i | 0 <= i < |nodes|
      ensures ItemFor(content, nodes[i]).Some?
    {
      SetSucceedsIndependently(content, NamePath, Str(ItemName(Name(content), nodes[i])), Str(""));
    }
  }

  /** The node loop of prefixNVIDIAdriverValdiation, one deep copy per node. */
  method FanOut(obj: Unstructured, listed: Fetch<seq<Node>>) returns (res: Outcome<seq<Fields>>)
    ensures res == FannedOut(obj.content, AllNodesWithLabel(listed))
  {
    var name := Name(obj.content);
    var nodes := AllNodesWithLabel(listed);
    var items: seq<Fields> := [];
    for i := 0 to |nodes|
      invariant |items| == i
      invariant forall j :: 0 <= j < i ==> ItemFor(obj.content, nodes[j]) == Some(items[j])
      invariant i > 0 ==> SetNested(obj.content, NamePath, Str("")).Some?
    {
      var fullName := name + "-" + FormatHex(Checksum(Utf8(nodes[i].name)));
      var add := obj.content;
      SetSucceedsIndependently(add, NamePath, Str(fullName), Str(""));
      var renamed := SetNested(add, NamePath, Str(fullName));
      if renamed.None? {
        return Failed(SetFieldError);
      }
      items := items + [renamed.value];
    }
    assert items == FannedOut(obj.content, nodes).value;
    return Done(items);
  }

  /** The list object as the source builds it: a PodList whose items are stored as a typed Go slice. */
  function ListAsWritten(items: seq<Fields>): Fields
  {
    map["apiVersion" := Str("v1"), "kind" := Str("PodList"), "items" := ObjectSlice(items)]
  }

  /** The list object as its consumer expects it: items as a list of maps. */
  function ListOfItems(items: seq<Fields>): (list: Fields)
    ensures "items" in list && list["items"].Arr? && |list["items"].elems| == |items|
    ensures forall i :: 0 <= i < |items| ==> list["items"].elems[i] == Obj(items[i])
  {
    map["apiVersion" := Str("v1"), "kind" := Str("PodList"), "items" := Arr(seq(|items|, i requires 0 <= i < |items| => Obj(items[i])))]
  }

  /** prefixNVIDIAdriverValdiation exactly as written: the items are stored as a typed slice. */
  function ValidationAsWritten(content: Fields, listed: Fetch<seq<Node>>): (p: Prefixed)
    ensures p.content == content && !p.res.Fatal?
    ensures p.res.Done? ==> p.res.value.ItemList? && "items" in p.res.value.list
                            && p.res.value.list["items"].ObjectSlice?
                            && |p.res.value.list["items"].objects| == |AllNodesWithLabel(listed)|
  {
    match FannedOut(content, AllNodesWithLabel(listed))
    case Done(items) => Prefixed(Done(ItemList(ListAsWritten(items))), content)
    case Failed(e) => Prefixed(Failed(e), content)
    case Fatal(reason) => Prefixed(Fatal(reason), content)
  }

  /**
   * prefixNVIDIAdriverValdiation with the items stored as a list of maps: one
   * renamed copy per GPU node, in node order; the object itself is untouched.
   */
  function Validation(content: Fields, listed: Fetch<seq<Node>>): (p: Prefixed)
    ensures p.content == content && !p.res.Fatal?
    ensures p.res.Failed? <==> |AllNodesWithLabel(listed)| > 0 && SetNested(content, NamePath, Str("")).None?
    ensures var nodes := AllNodesWithLabel(listed);
            p.res.Done? ==> p.res.value.ItemList? && "items" in p.res.value.list && p.res.value.list["items"].Arr?
                            && |p.res.value.list["items"].elems| == |nodes|
                            && forall i :: 0 <= i < |nodes| ==>
                                 ItemFor(content, nodes[i]).Some?
                                 && p.res.value.list["items"].elems[i] == Obj(ItemFor(content, nodes[i]).value)
  {
    match FannedOut(content, AllNodesWithLabel(listed))
    case Done(items) => Prefixed(Done(ItemList(ListOfItems(items))), content)
    case Failed(e) => Prefixed(Failed(e), content)
    case Fatal(reason) => Prefixed(Fatal(reason), content)
  }

  method PrefixNVIDIAdriverValidationAsWritten(obj: Unstructured, listed: Fetch<seq<Node>>) returns (res: Outcome<Modified>)
    ensures Prefixed(res, obj.content) == ValidationAsWritten(obj.content, listed)
  {
    var items := FanOut(obj, listed);
    if items.Failed? {
      return Failed(items.error);
    }
    return Done(ItemList(ListAsWritten(items.value)));
  }

  method PrefixNVIDIAdriverValidation(obj: Unstructured, listed: Fetch<seq<Node>>) returns (res: Outcome<Modified>)
    ensures Prefixed(res, obj.content) == Validation(obj.content, listed)
  {
    var items := FanOut(obj, listed);
    if items.Failed? {
      return Failed(items.error);
    }
    return Done(ItemList(ListOfItems(items.value)));
  }

  /**
   * Each fanned-out item carries its node's name and equals the original object
   * on every field path that does not lead through metadata.name.
   */
  lemma ItemDiffersOnlyInName(content: Fields, node: Node, other: seq<string>, j: nat)
    requires ItemFor(content, node).Some?
    requires j < 2 && j < |other| && NamePath[..j] == other[..j] && NamePath[j] != other[j]
    ensures Nested(ItemFor(content, node).value, NamePath) == Found(Str(ItemName(Name(content), node)))
    ensures Nested(ItemFor(content, node).value, other) == Nested(content, other)
  {
    SetThenGet(content, NamePath, Str(ItemName(Name(content), node)));
    SetLeavesOtherPaths(content, NamePath, Str(ItemName(Name(content), node)), other, j);
  }

  /** The name suffix is the Adler-32 checksum, recoverable from the hex text. */
  lemma ItemNameEncodesChecksum(name: string, node: Node)
    ensures ItemName(name, node)[..|name| + 1] == name + "-"
    ensures ParseHex(ItemName(name, node)[|name| + 1..]) == Checksum(Utf8(node.name))
  {
    var suffix := FormatHex(Checksum(Utf8(node.name)));
    assert ItemName(name, node) == (name + "-") + suffix;
    assert ItemName(name, node)[|name| + 1..] == suffix;
    ParseFormatHex(Checksum(Utf8(node.name)));
  }
}
