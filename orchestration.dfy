/** The orchestration response entity and the inference of its logical type
    (instance, storage or master orchestration) from which optional
    sub-collections of its objects are populated. Only the fields that the
    inference reads are kept; a Go slice that is nil and one that is empty
    are both the empty sequence here, since only their length is consulted. */
module Orchestration {
  import opened Wrappers

  /** One instance described inside an instance orchestration object. */
  datatype InstancesOrchestration = InstancesOrchestration(hostname: string, name: string, shape: string)

  /** An object of an object plan: instances are populated for an instance
      orchestration, properties for a storage orchestration. */
  datatype Objects = Objects(name: string, instances: seq<InstancesOrchestration>, properties: seq<string>)

  /** An object plan (oplan). */
  datatype Oplans = Oplans(planLabel: string, objType: string, objects: seq<Objects>)

  datatype Orchestration = Orchestration(name: string, oplans: seq<Oplans>)

  /** The three orchestration types; there is no other value. */
  datatype OType = OInstance | OStorage | OMaster

  /** The string each OType constant stands for. */
  function OTypeName(t: OType): (s: string)
    ensures s == "Instance" || s == "Storage" || s == "Master"
    ensures t == OInstance <==> s == "Instance"
    ensures t == OStorage <==> s == "Storage"
  {
    match t
    case OInstance => "Instance"
    case OStorage => "Storage"
    case OMaster => "Master"
  }

  // ---------------------------------------------------------------------------
  // The code: nested first-match scan with early return

  /** The inner loop over the objects of one oplan: the first object with
      non-empty instances or non-empty properties decides, instances first. */
  function ObjectsType(objects: seq<Objects>): (r: Option<OType>)
    ensures r != Some(OMaster)
  {
    if objects == [] then None
    else if |objects[0].instances| > 0 then Some(OInstance)
    else if |objects[0].properties| > 0 then Some(OStorage)
    else ObjectsType(objects[1..])
  }

  /** The outer loop over the oplans, in order. */
  function OplansType(oplans: seq<Oplans>): (r: Option<OType>)
    ensures r != Some(OMaster)
  {
    if oplans == [] then None
    else match ObjectsType(oplans[0].objects)
      case Some(t) => Some(t)
      case None => OplansType(oplans[1..])
  }

  /** OrchestrationType: OMaster when the scan finds no deciding object. */
  function OrchestrationType(o: Orchestration): (t: OType)
    ensures t == OMaster <==> OplansType(o.oplans) == None
  {
    match OplansType(o.oplans)
    case Some(t) => t
    case None => OMaster
  }

  // ---------------------------------------------------------------------------
  // Reference definition: positions in oplan order, then object order

  /** An object that decides the scan when reached. */
  ghost predicate Classifies(x: Objects)
  {
    |x.instances| > 0 || |x.properties| > 0
  }

  /** What a deciding object decides. */
  ghost function KindOf(x: Objects): OType
    requires Classifies(x)
  {
    if |x.instances| > 0 then OInstance else OStorage
  }

  /** No object in any oplan is deciding. */
  ghost predicate NoneClassifies(oplans: seq<Oplans>)
  {
    forall p, i :: 0 <= p < |oplans| && 0 <= i < |oplans[p].objects| ==> !Classifies(oplans[p].objects[i])
  }

  /** Object i of oplan p is deciding and every object before it (all objects
      of earlier oplans, earlier objects of oplan p) is not. */
  ghost predicate FirstClassifyingAt(oplans: seq<Oplans>, p: int, i: int)
  {
    0 <= p < |oplans| && 0 <= i < |oplans[p].objects| &&
    Classifies(oplans[p].objects[i]) &&
    (forall q, j :: 0 <= q < p && 0 <= j < |oplans[q].objects| ==> !Classifies(oplans[q].objects[j])) &&
    (forall j :: 0 <= j < i ==> !Classifies(oplans[p].objects[j]))
  }

  // ---------------------------------------------------------------------------
  // The inner scan against the reference definition

  lemma {:induction false} ObjectsTypeNone(objects: seq<Objects>)
    ensures ObjectsType(objects) == None <==> forall i :: 0 <= i < |objects| ==> !Classifies(objects[i])
  {
    if objects != [] {
      ObjectsTypeNone(objects[1..]);
      assert forall i :: 1 <= i < |objects| ==> objects[i] == objects[1..][i - 1];
    }
  }

  lemma {:induction false} ObjectsTypeFirst(objects: seq<Objects>, i: int)
    requires 0 <= i < |objects| && Classifies(objects[i])
    requires forall j :: 0 <= j < i ==> !Classifies(objects[j])
    ensures ObjectsType(objects) == Some(KindOf(objects[i]))
  {
    if i > 0 {
      assert !Classifies(objects[0]);
      assert forall j :: 0 <= j < i - 1 ==> objects[1..][j] == objects[j + 1];
      ObjectsTypeFirst(objects[1..], i - 1);
    }
  }

  lemma {:induction false} ObjectsTypeSome(objects: seq<Objects>)
    requires ObjectsType(objects).Some?
    ensures exists i :: (0 <= i < |objects| && Classifies(objects[i]) &&
      (forall j :: 0 <= j < i ==> !Classifies(objects[j])))
  {
    if !Classifies(objects[0]) {
      ObjectsTypeSome(objects[1..]);
      var i :| 0 <= i < |objects[1..]| && Classifies(objects[1..][i]) &&
        (forall j :: 0 <= j < i ==> !Classifies(objects[1..][j]));
      assert Classifies(objects[i + 1]);
      assert forall j :: 0 <= j < i + 1 ==> !Classifies(objects[j]) by {
        forall j | 0 <= j < i + 1 ensures !Classifies(objects[j]) {
          if j > 0 { assert objects[j] == objects[1..][j - 1]; }
        }
      }
    } else {
      assert 0 < |objects| && Classifies(objects[0]);
    }
  }

  // ---------------------------------------------------------------------------
  // The outer scan against the reference definition

  lemma {:induction false} OplansTypeNone(oplans: seq<Oplans>)
    ensures OplansType(oplans) == None <==> NoneClassifies(oplans)
  {
    if oplans != [] {
      OplansTypeNone(oplans[1..]);
      ObjectsTypeNone(oplans[0].objects);
      assert forall p :: 1 <= p < |oplans| ==> oplans[p] == oplans[1..][p - 1];
    }
  }

  lemma {:induction false} OplansTypeFirst(oplans: seq<Oplans>, p: int, i: int)
    requires FirstClassifyingAt(oplans, p, i)
    ensures OplansType(oplans) == Some(KindOf(oplans[p].objects[i]))
  {
    if p == 0 {
      ObjectsTypeFirst(oplans[0].objects, i);
    } else {
      ObjectsTypeNone(oplans[0].objects);
      assert forall q :: 0 <= q < p - 1 ==> oplans[1..][q] == oplans[q + 1];
      OplansTypeFirst(oplans[1..], p - 1, i);
    }
  }

  lemma {:induction false} OplansTypeSome(oplans: seq<Oplans>)
    requires OplansType(oplans).Some?
    ensures exists p, i :: FirstClassifyingAt(oplans, p, i)
  {
    ObjectsTypeNone(oplans[0].objects);
    if ObjectsType(oplans[0].objects).Some? {
      ObjectsTypeSome(oplans[0].objects);
      var i :| 0 <= i < |oplans[0].objects| && Classifies(oplans[0].objects[i]) &&
        (forall j :: 0 <= j < i ==> !Classifies(oplans[0].objects[j]));
      assert FirstClassifyingAt(oplans, 0, i);
    } else {
      OplansTypeSome(oplans[1..]);
      var p, i :| FirstClassifyingAt(oplans[1..], p, i);
      assert oplans[p + 1] == oplans[1..][p];
      forall q, j | 0 <= q < p + 1 && 0 <= j < |oplans[q].objects|
        ensures !Classifies(oplans[q].objects[j])
      {
        if q > 0 { assert oplans[q] == oplans[1..][q - 1]; }
      }
      assert FirstClassifyingAt(oplans, p + 1, i);
    }
  }

  // ---------------------------------------------------------------------------
  // Properties of OrchestrationType

  /** The result is OMaster exactly when no object of any oplan has non-empty
      instances or non-empty properties (this covers no oplans at all and
      oplans without objects). */
  lemma MasterIff(o: Orchestration)
    ensures OrchestrationType(o) == OMaster <==>
      forall p, i :: 0 <= p < |o.oplans| && 0 <= i < |o.oplans[p].objects| ==>
        |o.oplans[p].objects[i].instances| == 0 && |o.oplans[p].objects[i].properties| == 0
  {
    OplansTypeNone(o.oplans);
    if OrchestrationType(o) != OMaster {
      OplansTypeSome(o.oplans);
      var p, i :| FirstClassifyingAt(o.oplans, p, i);
      assert Classifies(o.oplans[p].objects[i]);
    } else {
      forall p, i | 0 <= p < |o.oplans| && 0 <= i < |o.oplans[p].objects|
        ensures |o.oplans[p].objects[i].instances| == 0 && |o.oplans[p].objects[i].properties| == 0
      {
        assert !Classifies(o.oplans[p].objects[i]);
      }
    }
  }

  /** The first deciding object, in oplan order then object order, decides the
      result; within that object non-empty instances win over non-empty
      properties. Nothing after it is consulted. */
  lemma FirstMatchDecides(o: Orchestration, p: int, i: int)
    requires FirstClassifyingAt(o.oplans, p, i)
    ensures OrchestrationType(o) == (if |o.oplans[p].objects[i].instances| > 0 then OInstance else OStorage)
  {
    OplansTypeFirst(o.oplans, p, i);
  }

  /** Every non-master result comes from a first deciding object. */
  lemma NotMasterHasFirstMatch(o: Orchestration)
    requires OrchestrationType(o) != OMaster
    ensures exists p, i :: (FirstClassifyingAt(o.oplans, p, i) &&
      OrchestrationType(o) == (if |o.oplans[p].objects[i].instances| > 0 then OInstance else OStorage))
  {
    OplansTypeSome(o.oplans);
    var p, i :| FirstClassifyingAt(o.oplans, p, i);
    FirstMatchDecides(o, p, i);
  }

  /** An object with both instances and properties, reached first, makes the
      orchestration an instance orchestration. */
  lemma InstancesBeforeProperties(o: Orchestration, p: int, i: int)
    requires FirstClassifyingAt(o.oplans, p, i)
    requires |o.oplans[p].objects[i].properties| > 0
    ensures OrchestrationType(o) == OStorage <==> |o.oplans[p].objects[i].instances| == 0
  {
    FirstMatchDecides(o, p, i);
  }

  /** A storage-only object placed before an instance object wins: the rule is
      first match, not "an instance anywhere wins". */
  lemma EarlierStorageWins(o: Orchestration, p: int, i: int, q: int, j: int)
    requires FirstClassifyingAt(o.oplans, p, i)
    requires |o.oplans[p].objects[i].instances| == 0
    requires 0 <= q < |o.oplans| && 0 <= j < |o.oplans[q].objects| && |o.oplans[q].objects[j].instances| > 0
    ensures OrchestrationType(o) == OStorage
    ensures p < q || (p == q && i < j)
  {
    FirstMatchDecides(o, p, i);
  }

  /** Appending oplans after a decided scan does not change the result. */
  lemma AppendOplans(o: Orchestration, more: seq<Oplans>)
    requires OrchestrationType(o) != OMaster
    ensures OrchestrationType(o.(oplans := o.oplans + more)) == OrchestrationType(o)
  {
    NotMasterHasFirstMatch(o);
    var p, i :| FirstClassifyingAt(o.oplans, p, i);
    var o' := o.(oplans := o.oplans + more);
    assert forall q :: 0 <= q < |o.oplans| ==> o'.oplans[q] == o.oplans[q];
    assert FirstClassifyingAt(o'.oplans, p, i);
    FirstMatchDecides(o, p, i);
    FirstMatchDecides(o', p, i);
  }

  /** Appending objects to the oplan holding the first deciding object does
      not change the result. */
  lemma AppendObjects(o: Orchestration, p: int, i: int, more: seq<Objects>)
    requires FirstClassifyingAt(o.oplans, p, i)
    ensures OrchestrationType(
      o.(oplans := o.oplans[p := o.oplans[p].(objects := o.oplans[p].objects + more)])) == OrchestrationType(o)
  {
    var o' := o.(oplans := o.oplans[p := o.oplans[p].(objects := o.oplans[p].objects + more)]);
    assert forall j :: 0 <= j <= i ==> o'.oplans[p].objects[j] == o.oplans[p].objects[j];
    assert FirstClassifyingAt(o'.oplans, p, i);
    FirstMatchDecides(o, p, i);
    FirstMatchDecides(o', p, i);
  }

  /** Two orchestrations whose objects agree, position by position, on which
      of instances and properties are non-empty. */
  ghost predicate SameShape(a: seq<Oplans>, b: seq<Oplans>)
  {
    |a| == |b| &&
    forall p :: 0 <= p < |a| ==>
      |a[p].objects| == |b[p].objects| &&
      forall i :: 0 <= i < |a[p].objects| ==>
        (|a[p].objects[i].instances| > 0) == (|b[p].objects[i].instances| > 0) &&
        (|a[p].objects[i].properties| > 0) == (|b[p].objects[i].properties| > 0)
  }

  /** Only whether each sub-collection is empty matters, never its contents. */
  lemma OnlyEmptinessMatters(a: Orchestration, b: Orchestration)
    requires SameShape(a.oplans, b.oplans)
    ensures OrchestrationType(a) == OrchestrationType(b)
  {
    OplansTypeNone(a.oplans);
    OplansTypeNone(b.oplans);
    if OrchestrationType(a) != OMaster {
      NotMasterHasFirstMatch(a);
      var p, i :| FirstClassifyingAt(a.oplans, p, i);
      assert FirstClassifyingAt(b.oplans, p, i);
      FirstMatchDecides(a, p, i);
      FirstMatchDecides(b, p, i);
    } else {
      forall p, i | 0 <= p < |b.oplans| && 0 <= i < |b.oplans[p].objects|
        ensures !Classifies(b.oplans[p].objects[i])
      {
        assert !Classifies(a.oplans[p].objects[i]);
      }
    }
  }
}
