/** The KMesh object graph and its deep copy, pointer by pointer. */
module DeepCopies {
  import opened Mesh

  class Destination {
    var value: string
    constructor (value: string)
      ensures this.value == value
    {
      this.value := value;
    }
  }

  class Addressable {
    var url: string
    constructor (url: string)
      ensures this.url == url
    {
      this.url := url;
    }
  }

  // Structs hold pointers and slices; a nil slice is a null array.
  datatype EgressStruct = EgressStruct(destination: Destination?, name: string)
  datatype IngressStruct = IngressStruct(address: Addressable?, name: string, egresses: array?<EgressStruct>)

  // What they mean.
  datatype EgressValue = EgressValue(destination: Option<string>, name: string)
  datatype IngressValue = IngressValue(address: Option<string>, name: string, egresses: Option<seq<EgressValue>>)
  datatype KMeshValue = KMeshValue(meta: string, conditions: string,
                                   brokerClasses: Option<seq<string>>, ingresses: Option<seq<IngressValue>>)

  ghost function EgressPointers(s: seq<EgressStruct>): set<Destination?> {
    set e | e in s :: e.destination
  }

  ghost function EgressValueOf(e: EgressStruct): EgressValue
    reads e.destination
  {
    EgressValue(if e.destination == null then None else Some(e.destination.value), e.name)
  }

  ghost function EgressValues(s: seq<EgressStruct>): (r: seq<EgressValue>)
    reads EgressPointers(s)
    ensures |r| == |s| && forall i :: 0 <= i < |s| ==> r[i] == EgressValueOf(s[i])
  {
    seq(|s|, i requires 0 <= i < |s| reads EgressPointers(s) => EgressValueOf(s[i]))
  }

  method CopyEgress(e: EgressStruct) returns (r: EgressStruct)
    ensures EgressValueOf(r) == EgressValueOf(e)
    ensures r.destination != null ==> fresh(r.destination)
  {
    r := e;
    if e.destination != null {
      var d := new Destination(e.destination.value);
      r := r.(destination := d);
    }
  }

  method CopyEgresses(s: array<EgressStruct>) returns (out: array<EgressStruct>)
    ensures fresh(out)
    ensures forall d :: d in EgressPointers(out[..]) && d != null ==> fresh(d)
    ensures EgressValues(out[..]) == EgressValues(s[..])
  {
    out := new EgressStruct[s.Length](_ => EgressStruct(null, ""));
    for i := 0 to s.Length
      invariant fresh(out) && out.Length == s.Length
      invariant forall j :: 0 <= j < i && out[j].destination != null ==> fresh(out[j].destination)
      invariant forall j :: 0 <= j < i ==> EgressValueOf(out[j]) == EgressValueOf(s[j])
    {
      var e := CopyEgress(s[i]);
      out[i] := e;
    }
  }

  ghost function Destinations(i: IngressStruct): set<Destination?>
    reads i.egresses
  {
    if i.egresses == null then {} else EgressPointers(i.egresses[..])
  }

  ghost function IngressValueOf(i: IngressStruct): IngressValue
    reads i.address, i.egresses, Destinations(i)
  {
    IngressValue(if i.address == null then None else Some(i.address.url), i.name,
                 if i.egresses == null then None else Some(EgressValues(i.egresses[..])))
  }

  /** Nothing an ingress points to existed before. */
  twostate predicate New(new i: IngressStruct)
    reads i.egresses
  {
    && (i.address != null ==> fresh(i.address))
    && (i.egresses != null ==> fresh(i.egresses))
    && forall d :: d in Destinations(i) && d != null ==> fresh(d)
  }

  method CopyIngress(i: IngressStruct) returns (r: IngressStruct)
    ensures IngressValueOf(r) == IngressValueOf(i)
    ensures New(r)
  {
    r := i;
    if i.address != null {
      var a := new Addressable(i.address.url);
      r := r.(address := a);
    }
    if i.egresses != null {
      var e := CopyEgresses(i.egresses);
      r := r.(egresses := e);
    }
  }

  ghost function IngressValues(s: seq<IngressStruct>): (r: seq<IngressValue>)
    reads set i | i in s :: i.address
    reads set i | i in s :: i.egresses
    reads set i, d | i in s && d in Destinations(i) :: d
    ensures |r| == |s| && forall j :: 0 <= j < |s| ==> r[j] == IngressValueOf(s[j])
  {
    if s == [] then [] else IngressValues(s[..|s| - 1]) + [IngressValueOf(s[|s| - 1])]
  }

  /** Ingresses mean the same as long as nothing they point to is written. */
  twostate lemma MeaningKept(held: seq<IngressStruct>)
    requires forall i :: i in held && i.address != null ==> unchanged(i.address)
    requires forall i :: i in held && i.egresses != null ==> unchanged(i.egresses)
    requires forall i, d :: i in held && d in old(Destinations(i)) && d != null ==> unchanged(d)
    ensures forall i :: i in held ==>
        IngressValueOf(i) == old(IngressValueOf(i)) && Destinations(i) == old(Destinations(i))
    ensures IngressValues(held) == old(IngressValues(held))
  {
    forall i | i in held
      ensures IngressValueOf(i) == old(IngressValueOf(i)) && Destinations(i) == old(Destinations(i))
    {
      assert Destinations(i) == old(Destinations(i));
      assert i.egresses != null ==> EgressValues(i.egresses[..]) == old(EgressValues(i.egresses[..]));
    }
    assert forall j :: 0 <= j < |held| ==> held[j] in held;
  }

  /** Fills one slot of a new slice; no ingress already there or in the original changes. */
  method CopyIngressInto(e: IngressStruct, out: array<IngressStruct>, k: nat, ghost held: seq<IngressStruct>)
    requires k < out.Length && e in held
    modifies out
    ensures out[..] == old(out[..])[k := out[k]]
    ensures IngressValueOf(out[k]) == old(IngressValueOf(e))
    ensures New(out[k])
    ensures forall h :: h in held ==>
        Destinations(h) == old(Destinations(h)) && IngressValueOf(h) == old(IngressValueOf(h))
  {
    hide IngressValueOf, IngressValues, EgressValues;
    var r := CopyIngress(e);
    MeaningKept(held);
    label Copied:
    out[k] := r;
    MeaningKept@Copied(held + [r]);
  }

  method FillIngresses(s: array<IngressStruct>, out: array<IngressStruct>)
    requires out != s && out.Length == s.Length
    modifies out
    ensures forall j :: 0 <= j < s.Length ==> New(out[j])
    ensures forall j :: 0 <= j < s.Length ==> IngressValueOf(out[j]) == old(IngressValueOf(s[j]))
    ensures forall j :: 0 <= j < s.Length ==> IngressValueOf(s[j]) == old(IngressValueOf(s[j]))
  {
    hide IngressValueOf, Destinations;
    ghost var copies: seq<IngressStruct> := [];
    ghost var given := s[..];
    for i := 0 to s.Length
      invariant out[..i] == copies
      invariant forall h :: h in given ==> IngressValueOf(h) == old(IngressValueOf(h))
      invariant forall c :: c in copies ==> New(c)
      invariant forall j :: 0 <= j < i ==> IngressValueOf(copies[j]) == old(IngressValueOf(given[j]))
    {
      CopyIngressInto(s[i], out, i, given + copies);
      copies := copies + [out[i]];
    }
  }

  method CopyIngresses(s: array<IngressStruct>) returns (out: array<IngressStruct>)
    ensures fresh(out) && out.Length == s.Length
    ensures forall i :: i in out[..] ==> New(i)
    ensures IngressValues(out[..]) == old(IngressValues(s[..]))
  {
    out := new IngressStruct[s.Length](_ => IngressStruct(null, "", null));
    MeaningKept(s[..]);
    FillIngresses(s, out);
  }

  method CopyStrings(s: array<string>) returns (out: array<string>)
    ensures fresh(out) && out[..] == s[..]
  {
    out := new string[s.Length](i requires 0 <= i < s.Length reads s => s[i]);
  }

  class KMesh {
    var meta: string
    var conditions: string
    var brokerClasses: array?<string>
    var ingresses: array?<IngressStruct>

    constructor ()
      ensures brokerClasses == null && ingresses == null
    {
      meta, conditions, brokerClasses, ingresses := "", "", null, null;
    }

    ghost function Ingresses(): seq<IngressStruct>
      reads this, ingresses
    {
      if ingresses == null then [] else ingresses[..]
    }

    ghost function Value(): KMeshValue
      reads this, brokerClasses, ingresses
      reads set i | i in Ingresses() :: i.address
      reads set i | i in Ingresses() :: i.egresses
      reads set i, d | i in Ingresses() && d in Destinations(i) :: d
    {
      KMeshValue(meta, conditions,
                 if brokerClasses == null then None else Some(brokerClasses[..]),
                 if ingresses == null then None else Some(IngressValues(ingresses[..])))
    }

    /** The plain assignment of the struct, then its own slice of classes; the ingresses there keep their meaning. */
    method CopyFields(out: KMesh, ghost held: seq<IngressStruct>)
      modifies out
      ensures out.meta == old(meta) && out.conditions == old(conditions) && out.ingresses == old(ingresses)
      ensures out.brokerClasses == null <==> old(brokerClasses) == null
      ensures out.brokerClasses != null ==> fresh(out.brokerClasses) && out.brokerClasses[..] == old(brokerClasses[..])
      ensures IngressValues(held) == old(IngressValues(held))
    {
      out.meta, out.conditions, out.brokerClasses, out.ingresses := meta, conditions, brokerClasses, ingresses;
      if brokerClasses != null {
        out.brokerClasses := CopyStrings(brokerClasses);
      }
      MeaningKept(held);
    }

    method DeepCopyInto(out: KMesh)
      modifies out
      ensures out.Value() == old(Value())
      ensures NewStatus(out)
    {
      hide IngressValueOf, Destinations, IngressValues, EgressValues, EgressPointers;
      ghost var given, values := Ingresses(), IngressValues(Ingresses());
      CopyFields(out, given);
      if out.ingresses != null {
        var copies := CopyIngresses(out.ingresses);
        out.ingresses := copies;
        assert IngressValues(copies[..]) == values;
      }
    }

    method DeepCopy() returns (out: KMesh)
      ensures fresh(out)
      ensures out.Value() == old(Value())
      ensures NewStatus(out)
    {
      out := new KMesh();
      MeaningKept(Ingresses());
      DeepCopyInto(out);
    }
  }

  /** Nothing reachable from the status existed before. */
  twostate predicate NewStatus(new k: KMesh)
    reads k, k.ingresses
    reads set i | i in k.Ingresses() :: i.egresses
  {
    && (k.brokerClasses != null ==> fresh(k.brokerClasses))
    && (k.ingresses != null ==> fresh(k.ingresses))
    && forall i :: i in k.Ingresses() ==> New(i)
  }

  /** A nil pointer copies to nil. */
  method DeepCopyPointer(k: KMesh?) returns (out: KMesh?)
    ensures out == null <==> k == null
    ensures k != null ==> fresh(out) && out.Value() == old(k.Value()) == k.Value() && NewStatus(out)
  {
    if k == null {
      return null;
    }
    out := k.DeepCopy();
    MeaningKept(k.Ingresses());
  }

  /** Egresses of one value have the same name and, through their pointers, the same destination. */
  ghost predicate SameEgress(a: EgressStruct, b: EgressStruct)
    reads a.destination, b.destination
  {
    && a.name == b.name
    && (a.destination == null <==> b.destination == null)
    && (a.destination != null && b.destination != null ==> a.destination.value == b.destination.value)
  }

  ghost predicate SameIngress(a: IngressStruct, b: IngressStruct)
    reads a.address, b.address, a.egresses, b.egresses, Destinations(a), Destinations(b)
  {
    && a.name == b.name
    && (a.address == null <==> b.address == null)
    && (a.address != null && b.address != null ==> a.address.url == b.address.url)
    && (a.egresses == null <==> b.egresses == null)
    && (a.egresses != null && b.egresses != null ==>
          && a.egresses.Length == b.egresses.Length
          && forall n :: 0 <= n < a.egresses.Length ==> SameEgress(a.egresses[n], b.egresses[n]))
  }

  lemma EgressExactly(a: EgressStruct, b: EgressStruct)
    ensures EgressValueOf(a) == EgressValueOf(b) <==> SameEgress(a, b)
  {
  }

  lemma IngressExactly(a: IngressStruct, b: IngressStruct)
    ensures IngressValueOf(a) == IngressValueOf(b) ==> SameIngress(a, b)
  {
    if IngressValueOf(a) == IngressValueOf(b) && a.egresses != null && b.egresses != null {
      var x, y := a.egresses[..], b.egresses[..];
      assert |x| == |EgressValues(x)| == |EgressValues(y)| == |y|;
      forall n | 0 <= n < |x| ensures SameEgress(a.egresses[n], b.egresses[n]) {
        assert EgressValues(x)[n] == EgressValueOf(x[n]) && EgressValues(y)[n] == EgressValueOf(y[n]);
        EgressExactly(x[n], y[n]);
      }
    }
  }

  /** Objects of one value agree field by field, nil slices apart from empty ones. */
  lemma ValueExactly(a: KMesh, b: KMesh)
    requires a.Value() == b.Value()
    ensures a.meta == b.meta && a.conditions == b.conditions
    ensures a.brokerClasses == null <==> b.brokerClasses == null
    ensures a.brokerClasses != null ==> a.brokerClasses[..] == b.brokerClasses[..]
    ensures a.ingresses == null <==> b.ingresses == null
    ensures a.ingresses != null ==>
              && a.ingresses.Length == b.ingresses.Length
              && forall n :: 0 <= n < a.ingresses.Length ==> SameIngress(a.ingresses[n], b.ingresses[n])
  {
    if a.ingresses != null {
      var x, y := a.ingresses[..], b.ingresses[..];
      assert |x| == |IngressValues(x)| == |IngressValues(y)| == |y|;
      forall n | 0 <= n < |x| ensures SameIngress(a.ingresses[n], b.ingresses[n]) {
        assert IngressValues(x)[n] == IngressValueOf(x[n]) && IngressValues(y)[n] == IngressValueOf(y[n]);
        IngressExactly(x[n], y[n]);
      }
    }
  }

  /** The publishing step: the new classes and ingresses go into a copy, never into the informer's object. */
  method Publish(kmesh: KMesh, classes: array?<string>, ingresses: array?<IngressStruct>) returns (after: KMesh)
    ensures fresh(after)
    ensures kmesh.Value() == old(kmesh.Value())
    ensures after.brokerClasses == classes && after.ingresses == ingresses
    ensures after.meta == kmesh.meta && after.conditions == kmesh.conditions
  {
    after := kmesh.DeepCopy();
    after.brokerClasses := classes;
    after.ingresses := ingresses;
    MeaningKept(kmesh.Ingresses());
  }

  /** Nothing reachable from a new status existed before: not its slices, and nothing they point to. */
  twostate lemma NewStatusExactly(new k: KMesh)
    requires NewStatus(k)
    ensures k.brokerClasses != null ==> fresh(k.brokerClasses)
    ensures k.ingresses != null ==> fresh(k.ingresses)
    ensures k.ingresses != null ==> forall n :: 0 <= n < k.ingresses.Length ==>
              var i := k.ingresses[n];
              && (i.address != null ==> fresh(i.address))
              && (i.egresses != null ==> fresh(i.egresses))
              && (i.egresses != null ==> forall m :: 0 <= m < i.egresses.Length ==>
                    i.egresses[m].destination != null ==> fresh(i.egresses[m].destination))
  {
    if k.ingresses != null {
      forall n | 0 <= n < k.ingresses.Length ensures New(k.ingresses[n]) {
        assert k.ingresses[n] in k.Ingresses();
      }
      forall n, m | 0 <= n < k.ingresses.Length && k.ingresses[n].egresses != null
                    && 0 <= m < k.ingresses[n].egresses.Length
        ensures k.ingresses[n].egresses[m].destination in Destinations(k.ingresses[n])
      {
        assert k.ingresses[n].egresses[m] in k.ingresses[n].egresses[..];
      }
    }
  }

  class Reference {
    var value: KReference
    constructor (value: KReference)
      ensures this.value == value
    {
      this.value := value;
    }
  }

  class BrokerBindingSpec {
    var classes: array?<string>
    var kmesh: Reference?

    constructor ()
    {
      classes, kmesh := null, null;
    }

    /** The class list (nil or not) and the reference (nil or not). */
    ghost function Value(): (Option<seq<string>>, Option<KReference>)
      reads this, classes, kmesh
    {
      (if classes == null then None else Some(classes[..]), if kmesh == null then None else Some(kmesh.value))
    }

    method DeepCopyInto(out: BrokerBindingSpec)
      modifies out
      ensures out.Value() == old(Value())
      ensures out.classes != null ==> fresh(out.classes)
      ensures out.kmesh != null ==> fresh(out.kmesh)
    {
      out.classes, out.kmesh := classes, kmesh;
      if classes != null {
        out.classes := CopyStrings(classes);
      }
      if kmesh != null {
        out.kmesh := new Reference(kmesh.value);
      }
    }
  }

  /** Specs of one value have the same classes and the same reference, nil apart from empty. */
  lemma SpecExactly(a: BrokerBindingSpec, b: BrokerBindingSpec)
    requires a.Value() == b.Value()
    ensures a.classes == null <==> b.classes == null
    ensures a.classes != null ==> a.classes[..] == b.classes[..]
    ensures a.kmesh == null <==> b.kmesh == null
    ensures a.kmesh != null ==> a.kmesh.value == b.kmesh.value
  {
  }
}
