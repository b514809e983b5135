/**
 * The schema-less object tree of `unstructured.Unstructured` and the nested
 * field helpers of the apimachinery `unstructured` package that the engine
 * calls: NestedFieldNoCopy and its typed variants, SetNestedField,
 * RemoveNestedField and the metadata accessors.
 */
module Objects {
  import opened Outcomes

  /** A decoded JSON value, as the Go code holds it in an `interface{}`. */
  datatype Value =
    | Str(s: string)
    | Int(i: int)                   // int64 as produced by the JSON decoder
    | Bool(b: bool)
    | Null
    | Obj(fields: map<string, Value>)
    | Arr(elems: seq<Value>)        // []interface{}
      /** A Go slice of typed objects ([]unstructured.Unstructured) stored as a
          field value; it is not a []interface{} and fails that type assertion. */
    | ObjectSlice(objects: seq<map<string, Value>>)

  type Fields = map<string, Value>

  /** Result of walking a field path: the value, nothing there, or a non-map on the way. */
  datatype Lookup = Found(value: Value) | Absent | Mismatch

  /** Result of a typed accessor (NestedString, NestedInt64, NestedSlice). */
  datatype Field<+T> = Present(v: T) | Missing | Invalid

  /** NestedFieldNoCopy: a null on the way reads as absent, any other non-map is an error. */
  function Nested(m: Fields, path: seq<string>): (l: Lookup)
    requires |path| > 0
    decreases |path|
  {
    if path[0] !in m then Absent
    else if |path| == 1 then Found(m[path[0]])
    else match m[path[0]]
      case Null => Absent
      case Obj(inner) => Nested(inner, path[1..])
      case _ => Mismatch
  }

  function NestedString(m: Fields, path: seq<string>): (f: Field<string>)
    requires |path| > 0
    ensures f.Present? <==> Nested(m, path).Found? && Nested(m, path).value.Str?
    ensures f.Present? ==> Nested(m, path) == Found(Str(f.v))
  {
    match Nested(m, path)
    case Found(Str(s)) => Present(s)
    case Found(_) => Invalid
    case Absent => Missing
    case Mismatch => Invalid
  }

  function NestedInt64(m: Fields, path: seq<string>): (f: Field<int>)
    requires |path| > 0
    ensures f.Present? <==> Nested(m, path).Found? && Nested(m, path).value.Int?
    ensures f.Present? ==> Nested(m, path) == Found(Int(f.v))
  {
    match Nested(m, path)
    case Found(Int(i)) => Present(i)
    case Found(_) => Invalid
    case Absent => Missing
    case Mismatch => Invalid
  }

  function NestedSlice(m: Fields, path: seq<string>): (f: Field<seq<Value>>)
    requires |path| > 0
    ensures f.Present? <==> Nested(m, path).Found? && Nested(m, path).value.Arr?
    ensures f.Present? ==> Nested(m, path) == Found(Arr(f.v))
  {
    match Nested(m, path)
    case Found(Arr(xs)) => Present(xs)
    case Found(_) => Invalid
    case Absent => Missing
    case Mismatch => Invalid
  }

  /** The string a call site gets when it ignores `found` and `err`. */
  function StringOrEmpty(f: Field<string>): string
  {
    if f.Present? then f.v else ""
  }

  /**
   * SetNestedField: missing maps on the way are created, an existing non-map
   * (null included) on the way is an error and leaves the object unchanged.
   */
  function SetNested(m: Fields, path: seq<string>, v: Value): (r: Option<Fields>)
    requires |path| > 0
    ensures r.Some? ==> r.value.Keys == m.Keys + {path[0]}
    ensures r.Some? ==> forall k :: k in m && k != path[0] ==> r.value[k] == m[k]
    decreases |path|
  {
    if |path| == 1 then Some(m[path[0] := v])
    else
      var child := if path[0] in m then m[path[0]] else Obj(map[]);
      if !child.Obj? then None
      else match SetNested(child.fields, path[1..], v)
        case None => None
        case Some(inner) => Some(m[path[0] := Obj(inner)])
  }

  /** RemoveNestedField: deletes the last key; a non-map on the way leaves the object unchanged. */
  function RemoveNested(m: Fields, path: seq<string>): (r: Fields)
    requires |path| > 0
    ensures !Nested(r, path).Found?
    ensures forall k :: k in m && k != path[0] ==> k in r && r[k] == m[k]
    decreases |path|
  {
    if |path| == 1 then m - {path[0]}
    else if path[0] in m && m[path[0]].Obj? then
      m[path[0] := Obj(RemoveNested(m[path[0]].fields, path[1..]))]
    else m
  }

  lemma {:induction false} SetThenGet(m: Fields, path: seq<string>, v: Value)
    requires |path| > 0 && SetNested(m, path, v).Some?
    ensures Nested(SetNested(m, path, v).value, path) == Found(v)
    decreases |path|
  {
    if |path| > 1 {
      var child := if path[0] in m then m[path[0]] else Obj(map[]);
      SetThenGet(child.fields, path[1..], v);
    }
  }

  /** Whether SetNestedField succeeds depends on the path only, not on the value written. */
  lemma {:induction false} SetSucceedsIndependently(m: Fields, path: seq<string>, v: Value, w: Value)
    requires |path| > 0
    ensures SetNested(m, path, v).Some? <==> SetNested(m, path, w).Some?
    decreases |path|
  {
    if |path| > 1 {
      var child := if path[0] in m then m[path[0]] else Obj(map[]);
      if child.Obj? {
        SetSucceedsIndependently(child.fields, path[1..], v, w);
      }
    }
  }

  /** Reading p + q reads p, then q inside the map found there. */
  lemma {:induction false} NestedBelow(m: Fields, p: seq<string>, q: seq<string>)
    requires |p| > 0 && |q| > 0
    ensures Nested(m, p + q) == match Nested(m, p)
                                case Found(Obj(inner)) => Nested(inner, q)
                                case Found(Null) => Absent
                                case Found(_) => Mismatch
                                case Absent => Absent
                                case Mismatch => Mismatch
    decreases |p|
  {
    assert (p + q)[0] == p[0];
    if p[0] in m {
      if |p| == 1 {
        assert (p + q)[1..] == q;
      } else if m[p[0]].Obj? {
        assert (p + q)[1..] == p[1..] + q;
        NestedBelow(m[p[0]].fields, p[1..], q);
      }
    }
  }

  /** Setting one path leaves every path that branches off it as it was. */
  lemma {:induction false} SetLeavesOtherPaths(m: Fields, path: seq<string>, v: Value, other: seq<string>, j: nat)
    requires |path| > 0 && SetNested(m, path, v).Some?
    requires j < |path| && j < |other| && path[..j] == other[..j] && path[j] != other[j]
    ensures Nested(SetNested(m, path, v).value, other) == Nested(m, other)
    decreases j
  {
    var r := SetNested(m, path, v).value;
    if j > 0 {
      assert path[0] == other[0] by { assert path[..j][0] == other[..j][0]; }
      var child := if path[0] in m then m[path[0]] else Obj(map[]);
      assert |path| > 1;
      var inner := SetNested(child.fields, path[1..], v).value;
      assert r[path[0]] == Obj(inner);
      assert path[1..][..j - 1] == path[..j][1..] && other[1..][..j - 1] == other[..j][1..];
      SetLeavesOtherPaths(child.fields, path[1..], v, other[1..], j - 1);
      if |other| > 1 {
        if path[0] in m {
          assert Nested(m, other) == Nested(child.fields, other[1..]);
        } else {
          AbsentBelowEmpty(other[1..]);
          assert Nested(child.fields, other[1..]) == Absent;
        }
      }
    }
  }

  /** Whether path p leaves path q somewhere: at some depth both go on, with different keys. */
  predicate Branches(p: seq<string>, q: seq<string>)
    decreases |p|
  {
    |p| > 0 && |q| > 0 && (p[0] != q[0] || Branches(p[1..], q[1..]))
  }

  /** The depth at which p leaves q. */
  lemma {:induction false} BranchDepth(p: seq<string>, q: seq<string>) returns (j: nat)
    requires Branches(p, q)
    ensures j < |p| && j < |q| && p[..j] == q[..j] && p[j] != q[j]
    decreases |p|
  {
    if p[0] != q[0] {
      j := 0;
    } else {
      var k := BranchDepth(p[1..], q[1..]);
      j := k + 1;
      assert p[..j] == [p[0]] + p[1..][..k];
      assert q[..j] == [q[0]] + q[1..][..k];
    }
  }

  /** Setting one path leaves every path that branches off it as it was, all at once. */
  lemma SetLeavesBranches(m: Fields, path: seq<string>, v: Value)
    requires |path| > 0 && SetNested(m, path, v).Some?
    ensures forall p :: Branches(p, path) ==> Nested(SetNested(m, path, v).value, p) == Nested(m, p)
  {
    forall p | Branches(p, path)
      ensures Nested(SetNested(m, path, v).value, p) == Nested(m, p)
    {
      var j := BranchDepth(p, path);
      SetLeavesOtherPaths(m, path, v, p, j);
    }
  }

  /** Whether a set succeeds, one level down: the child on the way must be a map, or absent. */
  lemma SettableBelow(m: Fields, path: seq<string>, w: Value)
    requires |path| > 1
    ensures var child := if path[0] in m then m[path[0]] else Obj(map[]);
            SetNested(m, path, w).Some? <==> child.Obj? && SetNested(child.fields, path[1..], w).Some?
  {
  }

  /** Setting one path does not change whether a path that branches off it can be set. */
  lemma {:induction false} SetKeepsOtherSettable(m: Fields, path: seq<string>, v: Value, other: seq<string>, w: Value, j: nat)
    requires |path| > 0 && SetNested(m, path, v).Some?
    requires j < |path| && j < |other| && path[..j] == other[..j] && path[j] != other[j]
    ensures SetNested(SetNested(m, path, v).value, other, w).Some? <==> SetNested(m, other, w).Some?
    decreases j
  {
    var r := SetNested(m, path, v).value;
    if j == 0 {
      if |other| > 1 {
        assert (if other[0] in r then r[other[0]] else Obj(map[])) == (if other[0] in m then m[other[0]] else Obj(map[]));
        SettableBelow(r, other, w);
        SettableBelow(m, other, w);
      }
    } else {
      assert path[0] == other[0] by { assert path[..j][0] == other[..j][0]; }
      var child := if path[0] in m then m[path[0]] else Obj(map[]);
      SettableBelow(m, path, v);
      var inner := SetNested(child.fields, path[1..], v).value;
      assert r == m[path[0] := Obj(inner)];
      assert path[1..][..j - 1] == path[..j][1..] && other[1..][..j - 1] == other[..j][1..];
      SetKeepsOtherSettable(child.fields, path[1..], v, other[1..], w, j - 1);
      SettableBelow(r, other, w);
      SettableBelow(m, other, w);
    }
  }

  /** A path that already leads to a value can always be set again. */
  lemma {:induction false} FoundIsSettable(m: Fields, path: seq<string>, v: Value)
    requires |path| > 0 && Nested(m, path).Found?
    ensures SetNested(m, path, v).Some?
    decreases |path|
  {
    if |path| > 1 {
      FoundIsSettable(m[path[0]].fields, path[1..], v);
    }
  }

  /** Writing the value a path already holds changes nothing. */
  lemma {:induction false} SetSameValue(m: Fields, path: seq<string>, v: Value)
    requires |path| > 0 && Nested(m, path) == Found(v)
    ensures SetNested(m, path, v) == Some(m)
    decreases |path|
  {
    if |path| == 1 {
      assert m[path[0] := v] == m;
    } else {
      SetSameValue(m[path[0]].fields, path[1..], v);
      assert m[path[0] := Obj(m[path[0]].fields)] == m;
    }
  }

  /** The error SetNestedField reports when a field on the path holds something other than a map. */
  const SetFieldError: Error := Message("value cannot be set because a field on the path is not a map[string]interface{}")

  lemma AbsentBelowEmpty(path: seq<string>)
    requires |path| > 0
    ensures Nested(map[], path) == Absent
  {
  }

  /* ----- metadata accessors of unstructured.Unstructured ----- */

  /** NestedStringMap as GetAnnotations / GetLabels use it: a non-string value voids the whole map. */
  function StringMapAt(m: Fields, path: seq<string>): (r: map<string, string>)
    requires |path| > 0
    ensures forall k :: k in r ==>
              (Nested(m, path).Found? && Nested(m, path).value.Obj?
               && k in Nested(m, path).value.fields && Nested(m, path).value.fields[k] == Str(r[k]))
    ensures !(Nested(m, path).Found? && Nested(m, path).value.Obj?) ==> r == map[]
    ensures Nested(m, path).Found? && Nested(m, path).value.Obj? ==>
              var f := Nested(m, path).value.fields;
              if forall k :: k in f ==> f[k].Str? then r.Keys == f.Keys else r == map[]
  {
    match Nested(m, path)
    case Found(Obj(f)) =>
      if forall k :: k in f ==> f[k].Str? then map k | k in f :: f[k].s else map[]
    case _ => map[]
  }

  function Annotations(m: Fields): map<string, string>
  {
    StringMapAt(m, ["metadata", "annotations"])
  }

  function Labels(m: Fields): map<string, string>
  {
    StringMapAt(m, ["metadata", "labels"])
  }

  /** Whether the annotation `key` is present and equal to `value`. */
  predicate AnnotationIs(m: Fields, key: string, value: string)
  {
    key in Annotations(m) && Annotations(m)[key] == value
  }

  function Kind(m: Fields): string
  {
    StringOrEmpty(NestedString(m, ["kind"]))
  }

  function Name(m: Fields): string
  {
    StringOrEmpty(NestedString(m, ["metadata", "name"]))
  }

  const NamespacePath := ["metadata", "namespace"]

  function Namespace(m: Fields): string
  {
    StringOrEmpty(NestedString(m, NamespacePath))
  }

  /**
   * SetNamespace: the empty namespace removes the field; any other is written,
   * and a metadata that is not a map silently keeps the object as it was.
   */
  function SetNamespace(m: Fields, namespace: string): (r: Fields)
    ensures namespace == "" ==> Namespace(r) == ""
    ensures namespace != "" && SetNested(m, NamespacePath, Str(namespace)).Some? ==> Namespace(r) == namespace
    ensures namespace != "" && SetNested(m, NamespacePath, Str(namespace)).None? ==> r == m
    ensures forall k :: k in m && k != "metadata" ==> k in r && r[k] == m[k]
  {
    if namespace == "" then RemoveNested(m, NamespacePath)
    else match SetNested(m, NamespacePath, Str(namespace))
      case Some(named) =>
        SetThenGet(m, NamespacePath, Str(namespace));
        named
      case None => m
  }

  /** An `unstructured.Unstructured`: a pointer to an object tree that callees change in place. */
  class Unstructured {
    var content: Fields

    constructor (content: Fields)
      ensures this.content == content
    {
      this.content := content;
    }

    /** DeepCopy: a new object with the same tree. */
    method DeepCopy() returns (copy: Unstructured)
      ensures fresh(copy) && copy.content == content
    {
      copy := new Unstructured(content);
    }
  }
}
