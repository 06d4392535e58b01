/**
 * The job's bookkeeping (PathJob.py): resource-clone lookups, the ordered
 * operation group, the tool-controller list, the pre-order walk over the
 * operation tree and the broadcast of the centre of rotation.
 */
module PathJob {
  import opened Wrappers
  import opened Geometry

  const FeaturePython: string := "Path::FeaturePython"
  const FeatureCompound: string := "Path::FeatureCompoundPython"

  /**
   * A document object as the job sees it: its Name, its TypeId (None when
   * the value has no such attribute), its PathResource property if it has
   * one, its Base link, its Group children and, for a clone, the Objects it
   * was made from.  Objects are compared by value.
   */
  datatype DocObject = DocObject(
    name: string,
    typeId: Option<string>,
    pathResource: Option<string>,
    base: Option<DocObject>,
    group: seq<DocObject>,
    objects: seq<DocObject>)

  /** The one failure of these lookups: indexing the Objects of a clone that has none. */
  datatype LookupError = IndexError

  /**
   * isResourceClone (lines 57-60): the object carries a PathResource and,
   * when a resource name is given, it is that name.
   */
  predicate IsResourceClone(link: DocObject, resourceName: Option<string>)
  {
    link.pathResource.Some? && (resourceName.None? || resourceName.value == link.pathResource.value)
  }

  /**
   * A clone as createResourceClone leaves it (lines 67-70): labelled, with
   * PathResource set to the resource name and the original as its object.
   */
  function CloneOf(orig: DocObject, resource: string, name: string): DocObject
  {
    DocObject(name, orig.typeId, Some(resource), None, [], [orig])
  }

  /**
   * A clone of any resource is a resource clone without a name and a clone
   * for exactly its own resource name; an object without PathResource is
   * never one.
   */
  lemma ResourceCloneNames(orig: DocObject, resource: string, name: string, other: string)
    ensures IsResourceClone(CloneOf(orig, resource, name), None)
    ensures IsResourceClone(CloneOf(orig, resource, name), Some(other)) <==> other == resource
    ensures orig.pathResource.None? ==> !IsResourceClone(orig, None) && !IsResourceClone(orig, Some(other))
  {
  }

  /**
   * baseObject (lines 163-167): a Model or Base clone stands for the first
   * of its Objects, any other object for itself.
   */
  function BaseObjectOf(base: DocObject): (r: Result<DocObject, LookupError>)
    ensures r.Err? <==> (IsResourceClone(base, Some("Model")) || IsResourceClone(base, Some("Base"))) && base.objects == []
  {
    if IsResourceClone(base, Some("Model")) || IsResourceClone(base, Some("Base")) then
      if base.objects == [] then Err(IndexError) else Ok(base.objects[0])
    else Ok(base)
  }

  /**
   * baseObject undoes the cloning of a model or base object and leaves objects
   * that are not resource clones, and clones of other resources, as they are.
   */
  lemma BaseObjectOfClone(orig: DocObject, resource: string, name: string)
    ensures BaseObjectOf(CloneOf(orig, resource, name))
         == if resource == "Model" || resource == "Base" then Ok(orig) else Ok(CloneOf(orig, resource, name))
    ensures orig.pathResource.None? ==> BaseObjectOf(orig) == Ok(orig)
  {
  }

  /** The model is a clone, but not of base: it has objects and the first is another one. */
  predicate Misses(base: DocObject, model: DocObject)
  {
    model.objects != [] && model.objects[0] != base
  }

  /**
   * The loop of resourceClone (lines 177-180): the first model whose first
   * object is the base; it fails like b.Objects[0] on a model without
   * objects met before the match.
   */
  function CloneAmong(base: DocObject, models: seq<DocObject>): (r: Result<Option<DocObject>, LookupError>)
    ensures r == Ok(None) <==> forall j :: 0 <= j < |models| ==> Misses(base, models[j])
    ensures r.Ok? && r.value.Some? ==>
              exists i :: 0 <= i < |models| && models[i] == r.value.value && models[i].objects != []
                          && models[i].objects[0] == base && forall j :: 0 <= j < i ==> Misses(base, models[j])
    ensures r.Err? ==>
              exists i :: 0 <= i < |models| && models[i].objects == [] && forall j :: 0 <= j < i ==> Misses(base, models[j])
    decreases |models|
  {
    if models == [] then Ok(None)
    else if models[0].objects == [] then Err(IndexError)
    else if base == models[0].objects[0] then Ok(Some(models[0]))
    else
      var r := CloneAmong(base, models[1..]);
      assert forall j :: 1 <= j < |models| ==> models[j] == models[1..][j - 1];
      r
  }

  /** resourceClone (lines 173-180): a resource clone is its own clone; otherwise the model cloned from it. */
  function ResourceCloneOf(base: DocObject, models: seq<DocObject>): Result<Option<DocObject>, LookupError>
  {
    if IsResourceClone(base, None) then Ok(Some(base)) else CloneAmong(base, models)
  }

  /** Every model group made of clones finds, for each original, the clone made from it. */
  lemma ResourceCloneFindsClone(models: seq<DocObject>, i: nat)
    requires i < |models|
    requires forall j :: 0 <= j < |models| ==> models[j].objects != []
    requires forall j :: 0 <= j < |models| ==> models[j].objects[0].pathResource.None?
    requires forall j :: 0 <= j < i ==> models[j].objects[0] != models[i].objects[0]
    ensures ResourceCloneOf(models[i].objects[0], models) == Ok(Some(models[i]))
  {
    var base := models[i].objects[0];
    var r := CloneAmong(base, models);
    if r.Ok? && r.value.Some? {
      var k :| 0 <= k < |models| && models[k] == r.value.value && models[k].objects != []
               && models[k].objects[0] == base && forall j :: 0 <= j < k ==> Misses(base, models[j]);
      assert !(k < i);
    }
  }

  /**
   * collectBaseOps (lines 146-155) on one object: a FeaturePython operation
   * is listed and then its Base is walked; a compound is listed and then its
   * Group is walked in order; any other object adds nothing.  So only the
   * two operation types are ever listed, and a walk that lists anything
   * lists its starting object first.
   */
  function Collect(op: DocObject): (r: seq<DocObject>)
    ensures forall x :: x in r ==> x.typeId == Some(FeaturePython) || x.typeId == Some(FeatureCompound)
    ensures r != [] <==> op.typeId == Some(FeaturePython) || op.typeId == Some(FeatureCompound)
    ensures r != [] ==> r[0] == op
    decreases op
  {
    match op.typeId
    case None => []
    case Some(t) =>
      if t == FeaturePython then [op] + (if op.base.Some? then Collect(op.base.value) else [])
      else if t == FeatureCompound then [op] + CollectAll(op.group)
      else []
  }

  /** The walks of a sequence of objects, one after the other. */
  function CollectAll(ops: seq<DocObject>): (r: seq<DocObject>)
    ensures forall x :: x in r ==> x.typeId == Some(FeaturePython) || x.typeId == Some(FeatureCompound)
    decreases ops
  {
    if ops == [] then [] else Collect(ops[0]) + CollectAll(ops[1..])
  }

  /** Walking two groups one after the other lists the first group's operations, then the second's. */
  lemma {:induction false} CollectAllAppend(a: seq<DocObject>, b: seq<DocObject>)
    ensures CollectAll(a + b) == CollectAll(a) + CollectAll(b)
    decreases |a|
  {
    if a == [] {
      assert a + b == b;
    } else {
      assert (a + b)[0] == a[0];
      assert (a + b)[1..] == a[1..] + b;
      CollectAllAppend(a[1..], b);
    }
  }

  /** A compound is listed before everything in its group, which follows in group order. */
  lemma CompoundPreOrder(op: DocObject)
    requires op.typeId == Some(FeatureCompound)
    ensures Collect(op) == [op] + CollectAll(op.group)
  {
  }

  /** The walk of a group holds the walk of each member, in place. */
  lemma {:induction false} CollectAllContains(ops: seq<DocObject>, i: nat)
    requires i < |ops|
    ensures CollectAll(ops) == CollectAll(ops[..i]) + Collect(ops[i]) + CollectAll(ops[i + 1..])
  {
    assert ops == ops[..i] + ([ops[i]] + ops[i + 1..]);
    CollectAllAppend(ops[..i], [ops[i]] + ops[i + 1..]);
    assert ([ops[i]] + ops[i + 1..])[0] == ops[i] && ([ops[i]] + ops[i + 1..])[1..] == ops[i + 1..];
  }

  /** The first index of x in s, as list.index finds it. */
  function IndexOf<T(==)>(s: seq<T>, x: T): (r: Option<nat>)
    ensures r.None? <==> x !in s
    ensures r.Some? ==> r.value < |s| && s[r.value] == x && x !in s[..r.value]
    decreases |s|
  {
    if s == [] then None
    else if s[0] == x then Some(0)
    else match IndexOf(s[1..], x)
         case None => None
         case Some(i) =>
           assert s[..i + 1] == [s[0]] + s[1..][..i];
           Some(i + 1)
  }

  /**
   * The group after addOperation (lines 123-134): unchanged when the
   * operation is already there; otherwise inserted before `before` when
   * that is given and found, and appended when it is not given or (the
   * ValueError being caught) not found.
   */
  function Inserted(group: seq<DocObject>, op: DocObject, before: Option<DocObject>): seq<DocObject>
  {
    if op in group then group
    else if before.Some? then
      match IndexOf(group, before.value)
      case Some(i) => group[..i] + [op] + group[i..]
      case None => group + [op]
    else group + [op]
  }

  /** The sequence without any occurrence of x. */
  function Without<T(==)>(s: seq<T>, x: T): (r: seq<T>)
    ensures x !in r
    decreases |s|
  {
    if s == [] then [] else (if s[0] == x then [] else [s[0]]) + Without(s[1..], x)
  }

  lemma {:induction false} WithoutAppend<T>(a: seq<T>, b: seq<T>, x: T)
    ensures Without(a + b, x) == Without(a, x) + Without(b, x)
    decreases |a|
  {
    if a == [] {
      assert a + b == b;
    } else {
      assert (a + b)[0] == a[0];
      assert (a + b)[1..] == a[1..] + b;
      WithoutAppend(a[1..], b, x);
    }
  }

  lemma {:induction false} WithoutAbsent<T>(s: seq<T>, x: T)
    requires x !in s
    ensures Without(s, x) == s
    decreases |s|
  {
    if s != [] {
      assert s[1..] + [] == s[1..];
      WithoutAbsent(s[1..], x);
      assert s == [s[0]] + s[1..];
    }
  }

  predicate Distinct<T(==)>(s: seq<T>)
  {
    forall i, j :: 0 <= i < j < |s| ==> s[i] != s[j]
  }

  /** Removing an element absent from a and b from a + [x] + b gives back a + b. */
  lemma InsertWithout<T>(a: seq<T>, b: seq<T>, x: T)
    requires x !in a && x !in b
    ensures Without(a + [x] + b, x) == a + b
  {
    WithoutAppend(a + [x], b, x);
    WithoutAppend(a, [x], x);
    WithoutAbsent(a, x);
    WithoutAbsent(b, x);
    assert Without([x], x) == [] by { assert [x][1..] == []; }
    assert a + [] == a;
  }

  /**
   * Inserting an absent x at i puts it at index i, followed by the element
   * that was there, and removing it again gives back the sequence.
   */
  lemma InsertAt<T>(s: seq<T>, i: nat, x: T)
    requires i < |s| && x !in s
    ensures var r := s[..i] + [x] + s[i..];
            r[i] == x && r[i + 1] == s[i] && Without(r, x) == s
  {
    assert x !in s[..i] && x !in s[i..] by {
      assert forall y :: y in s[..i] || y in s[i..] ==> y in s;
    }
    InsertWithout(s[..i], s[i..], x);
    assert s[..i] + s[i..] == s;
  }

  /** Inserting an element adds exactly that element to the multiset. */
  lemma InsertMultiset<T>(s: seq<T>, i: nat, x: T)
    requires i <= |s|
    ensures multiset(s[..i] + [x] + s[i..]) == multiset(s) + multiset{x}
  {
    assert s == s[..i] + s[i..];
  }

  /** Inserting an absent element keeps a sequence free of duplicates. */
  lemma InsertDistinct<T>(s: seq<T>, i: nat, x: T)
    requires i <= |s| && x !in s && Distinct(s)
    ensures Distinct(s[..i] + [x] + s[i..])
  {
    var r := s[..i] + [x] + s[i..];
    forall a, c | 0 <= a < c < |r|
      ensures r[a] != r[c]
    {
      var sa := if a < i then a else a - 1;
      var sc := if c < i then c else c - 1;
      if a == i {
        assert r[c] == s[sc];
      } else if c == i {
        assert r[a] == s[sa];
      } else {
        assert r[a] == s[sa] && r[c] == s[sc] && sa < sc;
      }
    }
  }

  /** An operation already in the group leaves it unchanged. */
  lemma InsertedPresent(group: seq<DocObject>, op: DocObject, before: Option<DocObject>)
    requires op in group
    ensures Inserted(group, op, before) == group
  {
  }

  /**
   * A new operation with `before` in the group lands immediately before the
   * first occurrence of `before`, and the other elements keep their order.
   */
  lemma InsertedBefore(group: seq<DocObject>, op: DocObject, b: DocObject)
    requires op !in group && b in group
    ensures IndexOf(group, b).Some?
    ensures var i := IndexOf(group, b).value;
            var r := Inserted(group, op, Some(b));
            && r == group[..i] + [op] + group[i..]
            && r[i] == op && r[i + 1] == b
    ensures Without(Inserted(group, op, Some(b)), op) == group
  {
    InsertAt(group, IndexOf(group, b).value, op);
  }

  /** A new operation without `before`, or with one not in the group, is appended. */
  lemma InsertedAppended(group: seq<DocObject>, op: DocObject, before: Option<DocObject>)
    requires op !in group && (before.None? || before.value !in group)
    ensures Inserted(group, op, before) == group + [op]
  {
  }

  /**
   * A new operation grows the group by exactly that one element, and a
   * group without duplicates stays without duplicates.
   */
  lemma InsertedGrows(group: seq<DocObject>, op: DocObject, before: Option<DocObject>)
    requires op !in group
    ensures multiset(Inserted(group, op, before)) == multiset(group) + multiset{op}
    ensures |Inserted(group, op, before)| == |group| + 1
    ensures Distinct(group) ==> Distinct(Inserted(group, op, before))
  {
    var i := if before.Some? && IndexOf(group, before.value).Some? then IndexOf(group, before.value).value else |group|;
    assert Inserted(group, op, before) == group[..i] + [op] + group[i..] by {
      if i == |group| {
        assert group[..i] == group && group[i..] == [];
      }
    }
    InsertMultiset(group, i, op);
    if Distinct(group) {
      InsertDistinct(group, i, op);
    }
  }

  /** The Name of each object, in order. */
  function Names(s: seq<DocObject>): seq<string>
  {
    seq(|s|, i requires 0 <= i < |s| => s[i].name)
  }

  /** The tool-controller list after addToolController (lines 137-142). */
  function WithController(group: seq<DocObject>, tc: DocObject): seq<DocObject>
  {
    if tc.name in Names(group) then group else group + [tc]
  }

  /**
   * addToolController appends exactly when no controller has the new one's
   * Name, so afterwards one controller carries that name and distinct names
   * stay distinct.
   */
  lemma WithControllerKeepsNamesDistinct(group: seq<DocObject>, tc: DocObject)
    ensures tc.name in Names(WithController(group, tc))
    ensures Distinct(Names(group)) ==> Distinct(Names(WithController(group, tc)))
    ensures |WithController(group, tc)| == |group| + (if tc.name in Names(group) then 0 else 1)
  {
    var r := WithController(group, tc);
    if tc.name !in Names(group) {
      assert Names(r)[|group|] == tc.name;
      if Distinct(Names(group)) {
        forall a, c | 0 <= a < c < |r|
          ensures Names(r)[a] != Names(r)[c]
        {
          assert Names(r)[a] == Names(group)[a];
          if c < |group| {
            assert Names(r)[c] == Names(group)[c];
          }
        }
      }
    }
  }

  /** The Names of the objects in s, as a set. */
  function NameSet(s: seq<DocObject>): set<string>
  {
    set x | x in s :: x.name
  }

  /** The centre map after each of the objects, in order, takes the centre c. */
  function Broadcast(centers: map<string, Vec3>, ops: seq<DocObject>, c: Vec3): map<string, Vec3>
    decreases |ops|
  {
    if ops == [] then centers else Broadcast(centers[ops[0].name := c], ops[1..], c)
  }

  /**
   * After a broadcast every listed object has the centre c, every other
   * entry keeps its centre, and no other entry appears.
   */
  lemma {:induction false} BroadcastSets(centers: map<string, Vec3>, ops: seq<DocObject>, c: Vec3)
    ensures Broadcast(centers, ops, c).Keys == centers.Keys + NameSet(ops)
    ensures forall k :: k in Broadcast(centers, ops, c) ==>
              Broadcast(centers, ops, c)[k] == if k in NameSet(ops) then c else centers[k]
    decreases |ops|
  {
    if ops != [] {
      var m := centers[ops[0].name := c];
      BroadcastSets(m, ops[1..], c);
      assert NameSet(ops) == {ops[0].name} + NameSet(ops[1..]) by {
        assert ops == [ops[0]] + ops[1..];
        forall x | x in ops
          ensures x == ops[0] || x in ops[1..]
        {
        }
      }
    }
  }

  /**
   * The job's document object: its Model group, its Operations compound's
   * group, its tool controllers, and the Path.Center of the job, of the
   * compound and of each operation by Name.
   */
  class Job {
    var models: seq<DocObject>
    var operations: seq<DocObject>
    var toolControllers: seq<DocObject>
    var center: Vec3
    var operationsCenter: Vec3
    var opCenters: map<string, Vec3>

    /** A new job (lines 82-103): empty Model group, empty compound, no tool controllers. */
    constructor ()
      ensures models == [] && operations == [] && toolControllers == []
      ensures center == Vec3(0.0, 0.0, 0.0) && operationsCenter == Vec3(0.0, 0.0, 0.0) && opCenters == map[]
    {
      models := [];
      operations := [];
      toolControllers := [];
      center := Vec3(0.0, 0.0, 0.0);
      operationsCenter := Vec3(0.0, 0.0, 0.0);
      opCenters := map[];
    }

    /**
     * addOperation (lines 123-135): the group as Inserted describes it; a
     * newly added operation takes the compound's centre of rotation.
     */
    method AddOperation(op: DocObject, before: Option<DocObject>)
      modifies this`operations, this`opCenters
      ensures operations == Inserted(old(operations), op, before)
      ensures opCenters == if op in old(operations) then old(opCenters) else old(opCenters)[op.name := operationsCenter]
    {
      var group := operations;
      if op !in group {
        if before.Some? {
          match IndexOf(group, before.value)
          case Some(i) =>
            group := group[..i] + [op] + group[i..];
          case None =>
            group := group + [op];
        } else {
          group := group + [op];
        }
        operations := group;
        opCenters := opCenters[op.name := operationsCenter];
      }
    }

    /** addToolController (lines 137-142). */
    method AddToolController(tc: DocObject)
      modifies this`toolControllers
      ensures toolControllers == WithController(old(toolControllers), tc)
    {
      var group := toolControllers;
      if tc.name !in Names(group) {
        group := group + [tc];
        toolControllers := group;
      }
    }

    /** allOperations (lines 144-158): the walk of every top-level operation, in group order. */
    method AllOperations() returns (ops: seq<DocObject>)
      ensures ops == CollectAll(operations)
    {
      ops := [];
      var i := 0;
      while i < |operations|
        invariant 0 <= i <= |operations|
        invariant ops == CollectAll(operations[..i])
      {
        assert operations[..i + 1] == operations[..i] + [operations[i]];
        CollectAllAppend(operations[..i], [operations[i]]);
        assert [operations[i]][1..] == [];
        ops := ops + Collect(operations[i]);
        i := i + 1;
      }
      assert operations[..i] == operations;
    }

    /** resourceClone (lines 173-180). */
    method ResourceClone(base: DocObject) returns (r: Result<Option<DocObject>, LookupError>)
      ensures r == ResourceCloneOf(base, models)
    {
      if IsResourceClone(base, None) {
        return Ok(Some(base));
      }
      var i := 0;
      while i < |models|
        invariant 0 <= i <= |models|
        invariant CloneAmong(base, models) == CloneAmong(base, models[i..])
      {
        var b := models[i];
        if b.objects == [] {
          return Err(IndexError);
        }
        if base == b.objects[0] {
          return Ok(Some(b));
        }
        assert models[i..][1..] == models[i + 1..];
        i := i + 1;
      }
      return Ok(None);
    }

    /**
     * setCenterOfRotation (lines 182-187): nothing changes when the centre is
     * the job's already; otherwise the job, the compound and every operation
     * the walk lists take the new centre and all other entries are kept.
     */
    method SetCenterOfRotation(c: Vec3)
      modifies this`center, this`operationsCenter, this`opCenters
      ensures old(center) == c ==>
                center == old(center) && operationsCenter == old(operationsCenter) && opCenters == old(opCenters)
      ensures old(center) != c ==>
                center == c && operationsCenter == c && opCenters == Broadcast(old(opCenters), CollectAll(operations), c)
    {
      if c != center {
        center := c;
        operationsCenter := c;
        var ops := AllOperations();
        ghost var target := Broadcast(opCenters, ops, c);
        var i := 0;
        while i < |ops|
          invariant 0 <= i <= |ops|
          invariant center == c && operationsCenter == c
          invariant Broadcast(opCenters, ops[i..], c) == target
        {
          assert ops[i..][0] == ops[i] && ops[i..][1..] == ops[i + 1..];
          opCenters := opCenters[ops[i].name := c];
          i := i + 1;
        }
      }
    }
  }
}
