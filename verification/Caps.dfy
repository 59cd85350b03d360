/** Validation of a typed model output: schema lookup, required fields, depth and element caps. */
module Caps {
  import opened Wrappers

  datatype Member = Member(name: string, value: Json)

  datatype Json = Leaf(text: string) | Arr(items: seq<Json>) | Obj(members: seq<Member>)

  const MAX_DEPTH: nat := 64

  function Children(v: Json): seq<Json> {
    match v
    case Leaf(_) => []
    case Arr(items) => items
    case Obj(members) => seq(|members|, i requires 0 <= i < |members| => members[i].value)
  }

  lemma ChildIsSmaller(v: Json, i: nat)
    requires i < |Children(v)|
    ensures Children(v)[i] < v
  {
    if v.Obj? {
      assert v.members[i] in v.members;
    }
  }

  function Max(a: nat, b: nat): nat {
    if a < b then b else a
  }

  /** Levels of nesting; a leaf or an empty container has one. */
  function Height(v: Json): nat
    decreases v, 1
  {
    1 + TallestOf(v, |Children(v)|)
  }

  function TallestOf(v: Json, n: nat): nat
    requires n <= |Children(v)|
    decreases v, 0, n
  {
    if n == 0 then 0
    else
      ChildIsSmaller(v, n - 1);
      Max(TallestOf(v, n - 1), Height(Children(v)[n - 1]))
  }

  /** All values in the tree, the root included. */
  function Nodes(v: Json): nat
    decreases v, 1
  {
    1 + NodesIn(v, |Children(v)|)
  }

  function NodesIn(v: Json, n: nat): nat
    requires n <= |Children(v)|
    decreases v, 0, n
  {
    if n == 0 then 0
    else
      ChildIsSmaller(v, n - 1);
      NodesIn(v, n - 1) + Nodes(Children(v)[n - 1])
  }

  lemma TallestGrows(v: Json, m: nat, n: nat)
    requires m <= n <= |Children(v)|
    ensures TallestOf(v, m) <= TallestOf(v, n)
  {
  }

  const DEPTH_ERROR := "json depth cap exceeded"
  const ELEMENT_ERROR := "json element cap exceeded"

  /**
   The walk with its running counter, which grows by the size of a container before its members are
   visited. It fails exactly when the tree reaches below the depth cap, and otherwise has counted
   every value below this one.
  */
  method Walk(v: Json, depth: nat, counted: nat) returns (ok: bool, elements: nat)
    requires depth > 0
    ensures ok <==> depth + Height(v) - 1 <= MAX_DEPTH
    ensures ok ==> elements == counted + Nodes(v) - 1
    decreases v
  {
    elements := counted;
    if depth > MAX_DEPTH {
      return false, elements;
    }
    var items := Children(v);
    elements := elements + |items|;
    for i := 0 to |items|
      invariant depth + TallestOf(v, i) <= MAX_DEPTH
      invariant elements == counted + |items| + NodesIn(v, i) - i
    {
      ChildIsSmaller(v, i);
      TallestGrows(v, i + 1, |items|);
      var deep;
      deep, elements := Walk(items[i], depth + 1, elements);
      if !deep {
        return false, elements;
      }
    }
    ok := true;
  }

  /** Accepted exactly when both caps hold; a tree that breaks both is reported as too deep. */
  method ValidateOutputCaps(v: Json, maxElements: nat) returns (r: Result<(), string>)
    ensures r.Ok? <==> Height(v) <= MAX_DEPTH && Nodes(v) <= maxElements
    ensures r == Err(DEPTH_ERROR) <==> Height(v) > MAX_DEPTH
    ensures r == Err(ELEMENT_ERROR) <==> Height(v) <= MAX_DEPTH && Nodes(v) > maxElements
  {
    var ok, elements := Walk(v, 1, 1);
    if !ok {
      return Err(DEPTH_ERROR);
    }
    if elements > maxElements {
      return Err(ELEMENT_ERROR);
    }
    r := Ok(());
  }

  // ------------------------------------------------------------------
  // The whole validation

  datatype Schema = Schema(ref: string, required: seq<string>, maxElements: nat)

  datatype OutputError =
    | Unregistered | NotObject | MissingField(name: string) | CapsExceeded(message: string) | RedactionFailed

  predicate HasField(v: Json, name: string)
    requires v.Obj?
  {
    exists i | 0 <= i < |v.members| :: v.members[i].name == name
  }

  /** The first schema registered under a reference. */
  predicate IsSpec(registry: seq<Schema>, ref: string, i: nat) {
    i < |registry| && registry[i].ref == ref && forall j | 0 <= j < i :: registry[j].ref != ref
  }

  predicate Registered(registry: seq<Schema>, ref: string) {
    exists i | 0 <= i < |registry| :: registry[i].ref == ref
  }

  /** The first required field an object lacks. */
  predicate FirstMissing(v: Json, required: seq<string>, i: nat)
    requires v.Obj?
  {
    i < |required| && !HasField(v, required[i]) && forall j | 0 <= j < i :: HasField(v, required[j])
  }

  method FindSpec(registry: seq<Schema>, ref: string) returns (found: Option<nat>)
    ensures match found case Some(i) => IsSpec(registry, ref, i) case None => !Registered(registry, ref)
  {
    for i := 0 to |registry|
      invariant forall j | 0 <= j < i :: registry[j].ref != ref
    {
      if registry[i].ref == ref {
        return Some(i);
      }
    }
    found := None;
  }

  method FindMissing(v: Json, required: seq<string>) returns (missing: Option<nat>)
    requires v.Obj?
    ensures match missing
      case Some(i) => FirstMissing(v, required, i)
      case None => forall i | 0 <= i < |required| :: HasField(v, required[i])
  {
    for i := 0 to |required|
      invariant forall j | 0 <= j < i :: HasField(v, required[j])
    {
      if !HasField(v, required[i]) {
        return Some(i);
      }
    }
    missing := None;
  }

  /**
   Checks run in a fixed order and the first that fails is reported. Accepted means registered, an
   object with every required field, within both caps, and free of credential-shaped text.
  */
  method ValidateTypedTaskOutput(registry: seq<Schema>, ref: string, v: Json, credentialLike: Json -> bool)
    returns (r: Result<(), OutputError>, ghost at: nat)
    ensures Registered(registry, ref) ==> IsSpec(registry, ref, at)
    ensures r == Err(Unregistered) <==> !Registered(registry, ref)
    ensures r == Err(NotObject) <==> Registered(registry, ref) && !v.Obj?
    ensures Registered(registry, ref) && v.Obj? ==>
      var spec := registry[at];
      && (r.Ok? <==>
          && (forall k | 0 <= k < |spec.required| :: HasField(v, spec.required[k]))
          && Height(v) <= MAX_DEPTH && Nodes(v) <= spec.maxElements
          && !credentialLike(v))
      && ((exists k | 0 <= k < |spec.required| :: !HasField(v, spec.required[k])) ==>
          exists k: nat :: FirstMissing(v, spec.required, k) && r == Err(MissingField(spec.required[k])))
      && (r == Err(CapsExceeded(DEPTH_ERROR)) ==> Height(v) > MAX_DEPTH)
      && (r == Err(CapsExceeded(ELEMENT_ERROR)) ==> Height(v) <= MAX_DEPTH && Nodes(v) > spec.maxElements)
      && (r == Err(RedactionFailed) ==> credentialLike(v) && Height(v) <= MAX_DEPTH && Nodes(v) <= spec.maxElements)
  {
    at := 0;
    var found := FindSpec(registry, ref);
    if found.None? {
      r := Err(Unregistered);
      return;
    }
    at := found.value;
    var spec := registry[found.value];
    if !v.Obj? {
      r := Err(NotObject);
      return;
    }
    var missing := FindMissing(v, spec.required);
    if missing.Some? {
      r := Err(MissingField(spec.required[missing.value]));
      return;
    }
    var caps := ValidateOutputCaps(v, spec.maxElements);
    if caps.Err? {
      r := Err(CapsExceeded(caps.error));
      return;
    }
    if credentialLike(v) {
      r := Err(RedactionFailed);
      return;
    }
    r := Ok(());
  }
}
