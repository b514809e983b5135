/**
 * Runtime facts read off the cached node list, and the annotation-gated
 * substitution of the reserved runtime tokens in a serialised manifest.
 */
module Runtime {
  import opened Outcomes
  import opened Objects
  import opened Text
  import opened Globals

  const OsReleaseId := "feature.node.kubernetes.io/system-os_release.ID"
  const OsReleaseMajor := "feature.node.kubernetes.io/system-os_release.VERSION_ID.major"
  const KernelVersionFull := "feature.node.kubernetes.io/kernel-version.full"
  const InjectAnnotation := "specialresource.openshift.io/inject-runtime-info"

  /** renderOperatingSystem: the fixed (release, major version) table; anything else is "". */
  function RenderOperatingSystem(rel: string, ver: string): (os: string)
    ensures os == "rhel8" <==> (rel == "rhcos" && ver == "4") || (rel == "rhel" && ver == "8")
    ensures os == "rhel7" <==> rel == "rhel" && ver == "7"
    ensures os != "rhel8" && os != "rhel7" ==> os == ""
  {
    var rhcos4 := if rel == "rhcos" && ver == "4" then "rhel8" else "";
    var rhel8 := if rel == "rhel" && ver == "8" then "rhel8" else rhcos4;
    if rel == "rhel" && ver == "7" then "rhel7" else rhel8
  }

  /** getOperatingSystem: only the first cached node is read. */
  method GetOperatingSystem(r: Reconciler) returns (res: Outcome<string>)
    ensures |r.nodes| == 0 ==> res == Done("")
    ensures |r.nodes| > 0 ==>
              (res.Failed? <==> Label(r.nodes[0], OsReleaseId) == "" || Label(r.nodes[0], OsReleaseMajor) == "")
    ensures |r.nodes| > 0 && res.Done? ==>
              res.value == RenderOperatingSystem(Label(r.nodes[0], OsReleaseId), Label(r.nodes[0], OsReleaseMajor))
    ensures !res.Fatal?
  {
    var rel, ver := "", "";
    for i := 0 to |r.nodes|
      invariant i == 0 && rel == "" && ver == ""
    {
      rel := Label(r.nodes[i], OsReleaseId);
      ver := Label(r.nodes[i], OsReleaseMajor);
      if |rel| == 0 || |ver| == 0 {
        return Failed(Message("Cannot extract feature.node.kubernetes.io/system-os_release.*, is NFD running? Check node labels"));
      }
      break;
    }
    return Done(RenderOperatingSystem(rel, ver));
  }

  /** getKernelVersion: the first node's label; only an absent key is an error, an empty value is returned. */
  method GetKernelVersion(r: Reconciler) returns (res: Outcome<string>)
    ensures |r.nodes| == 0 ==> res == Done("")
    ensures |r.nodes| > 0 ==> (res.Failed? <==> KernelVersionFull !in r.nodes[0].labels)
    ensures |r.nodes| > 0 && res.Done? ==> res.value == r.nodes[0].labels[KernelVersionFull]
    ensures !res.Fatal?
  {
    var kernelVersion := "";
    for i := 0 to |r.nodes|
      invariant i == 0 && kernelVersion == ""
    {
      var labels := r.nodes[i].labels;
      if KernelVersionFull !in labels {
        return Failed(Message("Label feature.node.kubernetes.io/kernel-version.full not found is NFD running? Check node labels"));
      }
      kernelVersion := labels[KernelVersionFull];
      break;
    }
    return Done(kernelVersion);
  }

  /** getClusterVersion: an extension point that always yields the empty version. */
  function GetClusterVersion(): (res: Outcome<string>)
    ensures res.Done? && res.value == ""
  {
    Done("")
  }

  /* ----- runtime token injection ----- */

  const TokenPrefix := "SPECIALRESOURCE.OPENSHIFT.IO."
  const OsToken := TokenPrefix + "OPERATINGSYSTEM"
  const KernelToken := TokenPrefix + "KERNELVERSION"
  const ClusterToken := TokenPrefix + "CLUSTERVERSION"
  const FeatureToken := TokenPrefix + "NODEFEATURE"
  const VendorToken := TokenPrefix + "UPDATEVENDOR"

  /** The replacer of injectRuntimeInformation, in its argument order; updateVendor has no rule. */
  function RuntimeRules(os: string, kv: string, cv: string, nf: string): (rules: seq<Rule>)
    ensures ValidRules(rules) && |rules| == 4
  {
    [Rule(OsToken, os), Rule(KernelToken, kv), Rule(ClusterToken, cv), Rule(FeatureToken, nf)]
  }

  function ReconcilerRules(r: Reconciler): seq<Rule>
  {
    RuntimeRules(r.operatingSystem, r.kernelVersion, r.clusterVersion, r.nodeFeature)
  }

  /**
   * injectRuntimeInformation: `decoded` is what unmarshalling the text gives
   * (None when it does not parse, which ends the process); `spec` is the new
   * content of the caller's buffer.
   */
  method InjectRuntimeInformation(r: Reconciler, jsonSpec: string, decoded: Option<Fields>)
    returns (res: Status, spec: string)
    ensures res.Fatal? <==> decoded.None?
    ensures !res.Failed?
    ensures res.Done? && !AnnotationIs(decoded.value, InjectAnnotation, "true") ==> spec == jsonSpec
    ensures res.Done? && AnnotationIs(decoded.value, InjectAnnotation, "true") ==>
              spec == Replace(jsonSpec, ReconcilerRules(r))
  {
    spec := jsonSpec;
    if decoded.None? {
      return Fatal("Cannot unmarshall json spec, check your manifests"), spec;
    }
    var annotations := Annotations(decoded.value);
    if InjectAnnotation !in annotations || annotations[InjectAnnotation] != "true" {
      return Ok, spec;
    }
    spec := Replace(jsonSpec, ReconcilerRules(r));
    return Ok, spec;
  }

  /** No reserved token is a prefix of a text that starts with another one. */
  lemma TokensDisagree(k: nat, rest: string, j: nat)
    requires k < 4 && j < 4 && j != k
    ensures !IsPrefix(RuntimeRules("", "", "", "")[j].target, RuntimeRules("", "", "", "")[k].target + rest)
  {
    var rules := RuntimeRules("", "", "", "");
    var s := rules[k].target + rest;
    assert s[29] == rules[k].target[29];
    assert rules[j].target[29] != rules[k].target[29];
  }

  /**
   * A token is replaced by its value, whatever the value holds: the inserted
   * text is never scanned for tokens again.
   */
  lemma InjectToken(os: string, kv: string, cv: string, nf: string, k: nat, rest: string)
    requires k < 4
    ensures var rules := RuntimeRules(os, kv, cv, nf);
            Replace(rules[k].target + rest, rules) == rules[k].replacement + Replace(rest, rules)
  {
    var rules := RuntimeRules(os, kv, cv, nf);
    var s := rules[k].target + rest;
    assert IsPrefix(rules[k].target, s) by {
      assert s[..|rules[k].target|] == rules[k].target;
    }
    forall j | 0 <= j < k
      ensures !IsPrefix(rules[j].target, s)
    {
      TokensDisagree(k, rest, j);
    }
    ReplaceAtMatch(s, rules, k);
    assert s[|rules[k].target|..] == rest;
  }

  /** Text without any token is left as it was. */
  lemma InjectTokenFree(os: string, kv: string, cv: string, nf: string, s: string)
    requires NoOccurrence(s, RuntimeRules(os, kv, cv, nf))
    ensures Replace(s, RuntimeRules(os, kv, cv, nf)) == s
  {
    ReplaceWithoutOccurrence(s, RuntimeRules(os, kv, cv, nf));
  }

  /** The update-vendor marker is not one of the substituted tokens: it survives verbatim. */
  lemma VendorTokenKept(os: string, kv: string, cv: string, nf: string)
    ensures Replace(VendorToken, RuntimeRules(os, kv, cv, nf)) == VendorToken
  {
    var rules := RuntimeRules(os, kv, cv, nf);
    var s := VendorToken;
    forall j, i | 0 <= j < |s| && 0 <= i < |rules|
      ensures !IsPrefix(rules[i].target, s[j..])
    {
      if j == 0 {
        assert s[j..][29] == 'U';
      } else if j == 1 {
        assert s[j..][0] == 'P';
      } else {
        assert |s[j..]| < |rules[i].target|;
      }
    }
    ReplaceWithoutOccurrence(s, rules);
  }

  /** A text that starts with a comma starts with no token. */
  lemma NoTokenAfterComma(os: string, kv: string, cv: string, nf: string, rest: string)
    ensures MatchAt("," + rest, RuntimeRules(os, kv, cv, nf)) == 4
  {
    var rules := RuntimeRules(os, kv, cv, nf);
    var t := "," + rest;
    forall i | 0 <= i < |rules| ensures !IsPrefix(rules[i].target, t) {
      assert t[0] == ',';
      assert rules[i].target[0] == 'S';
    }
  }

  /** Every occurrence of a token is replaced identically, e.g. two kernel-version tokens around a comma. */
  lemma InjectRepeatedToken(os: string, kv: string, cv: string, nf: string)
    ensures Replace(KernelToken + "," + KernelToken, RuntimeRules(os, kv, cv, nf)) == kv + "," + kv
  {
    var rules := RuntimeRules(os, kv, cv, nf);
    var tail := "," + KernelToken;
    assert KernelToken + "," + KernelToken == rules[1].target + tail;
    InjectToken(os, kv, cv, nf, 1, tail);
    NoTokenAfterComma(os, kv, cv, nf, KernelToken);
    assert tail[1..] == KernelToken;
    assert Replace(tail, rules) == [','] + Replace(KernelToken, rules);
    InjectToken(os, kv, cv, nf, 1, "");
    assert rules[1].target + "" == KernelToken;
  }
}
