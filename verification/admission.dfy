/** The two admission webhooks: spec immutability on update, finalizer insertion on creation. */
module Admission {
  import opened Types
  import opened StringSets

  // ---- Semantic equality of specs ----

  /** A nil slice and an empty one are the same to the comparison. */
  predicate Blank(ds: Option<seq<DiskSpec>>) { ds.None? || |ds.value| == 0 }

  predicate DisksEqual(a: Option<seq<DiskSpec>>, b: Option<seq<DiskSpec>>) {
    if Blank(a) != Blank(b) then false
    else if Blank(a) then true
    else |a.value| == |b.value| && forall i :: 0 <= i < |a.value| ==> a.value[i] == b.value[i]
  }

  predicate SemanticEqual(a: Spec, b: Spec) {
    a.machineType == b.machineType && a.bootDisk == b.bootDisk && DisksEqual(a.disks, b.disks)
  }

  /** Two specs compare equal exactly when they ask GCE for the same machine. */
  lemma SemanticEqualExact(a: Spec, b: Spec)
    ensures SemanticEqual(a, b) <==>
            a.machineType == b.machineType && a.bootDisk == b.bootDisk && a.DataDisks() == b.DataDisks()
  {
    if !Blank(a.disks) && !Blank(b.disks) && SemanticEqual(a, b) {
      assert a.disks.value == b.disks.value;
    }
  }

  // ---- Finalizer lists ----

  /** The finalizers of a new record after the mutating webhook. */
  function Mutated(finalizers: seq<string>): seq<string> {
    Canonical(finalizers + [FINALIZER])
  }

  function Dropping(l: seq<string>, x: string): (r: seq<string>)
    ensures Elements(r) == Elements(l) - {x}
  {
    if l == [] then [] else
      assert l == [l[0]] + l[1..];
      var rest := Dropping(l[1..], x);
      ElementsAppend([l[0]], rest);
      if l[0] == x then rest else [l[0]] + rest
  }

  /** The finalizers the controller writes when a machine is gone. */
  function Stripped(finalizers: seq<string>): seq<string> {
    Canonical(Dropping(finalizers, FINALIZER))
  }

  /** The webhook and the controller each write the only sorted duplicate-free list with the right elements. */
  lemma FinalizerListsExact(finalizers: seq<string>, l: seq<string>)
    ensures l == Mutated(finalizers) <==> StrictlySorted(l) && Elements(l) == Elements(finalizers) + {FINALIZER}
    ensures l == Stripped(finalizers) <==> StrictlySorted(l) && Elements(l) == Elements(finalizers) - {FINALIZER}
  {
    ElementsAppend(finalizers, [FINALIZER]);
    var m, s := Mutated(finalizers), Stripped(finalizers);
    assert StrictlySorted(m) && StrictlySorted(s);
    if StrictlySorted(l) && Elements(l) == Elements(m) { SortedUnique(l, m); }
    if StrictlySorted(l) && Elements(l) == Elements(s) { SortedUnique(l, s); }
  }

  /** Inserting twice is inserting once, and removal undoes insertion up to order and duplicates. */
  lemma FinalizerRoundTrip(finalizers: seq<string>)
    ensures Mutated(Mutated(finalizers)) == Mutated(finalizers)
    ensures Stripped(Mutated(finalizers)) == Stripped(finalizers)
    ensures FINALIZER in Mutated(finalizers) && FINALIZER !in Stripped(finalizers)
  {
    var m, s := Mutated(finalizers), Stripped(finalizers);
    FinalizerListsExact(finalizers, m);
    FinalizerListsExact(finalizers, s);
    assert FINALIZER in Elements(m) && FINALIZER !in Elements(s);
    assert Elements(m) == Elements(m) + {FINALIZER};
    FinalizerListsExact(m, m);
    assert Elements(s) == Elements(m) - {FINALIZER};
    FinalizerListsExact(m, s);
  }

  /** A record is released by the removal exactly when nobody else holds it. */
  lemma StrippedEmpty(finalizers: seq<string>)
    ensures Stripped(finalizers) == [] <==> Elements(finalizers) <= {FINALIZER}
  {
    FinalizerListsExact(finalizers, Stripped(finalizers));
    NoElements(Stripped(finalizers));
  }

  // ---- The webhooks ----

  /** An object as the request carries it, after the decoder has run. */
  datatype Decoded = Decoded(vm: VM) | Undecodable(text: string)
  datatype Request = Request(subResource: string, submitted: Decoded, stored: Decoded)

  /** `patched` is the object that the JSON patch of the response produces. */
  datatype Response = Response(allowed: bool, reason: string, message: string, patched: Option<VM>)

  const FROZEN := "Updates to spec are forbidden for VirtualMachines"

  function ErrResponse(text: string): Response { Response(false, "", text, None) }

  /** An update passes when it is to the status, or leaves the spec semantically unchanged. */
  predicate Permits(r: Request) {
    || r.subResource == "status"
    || (r.submitted.Decoded? && r.stored.Decoded? && SemanticEqual(r.stored.vm.spec, r.submitted.vm.spec))
  }

  method Validate(r: Request) returns (response: Response)
    ensures response.allowed <==> Permits(r)
    ensures r.subResource == "status" ==> response.allowed
    ensures r.subResource != "status" ==>
              match r.submitted
              case Undecodable(text) => response == Response(false, "", text, None)
              case Decoded(submitted) => match r.stored
                case Undecodable(text) => response == Response(false, "", text, None)
                case Decoded(stored) =>
                  response.allowed <==>
                    && submitted.spec.machineType == stored.spec.machineType
                    && submitted.spec.bootDisk == stored.spec.bootDisk
                    && submitted.spec.DataDisks() == stored.spec.DataDisks()
    ensures !response.allowed && r.submitted.Decoded? && r.stored.Decoded? ==>
              response == Response(false, "Forbidden", "Updates to spec are forbidden for VirtualMachines", None)
    ensures response.allowed ==> response.patched == None
  {
    var valid := true;
    if r.subResource != "status" {
      if r.submitted.Undecodable? { return ErrResponse(r.submitted.text); }
      if r.stored.Undecodable? { return ErrResponse(r.stored.text); }
      SemanticEqualExact(r.stored.vm.spec, r.submitted.vm.spec);
      if !SemanticEqual(r.stored.vm.spec, r.submitted.vm.spec) {
        valid := false;
      }
    }
    return Response(valid, "Forbidden", FROZEN, None);
  }

  method Mutate(r: Request) returns (response: Response)
    ensures (response.allowed <==> r.submitted.Decoded?) && (response.patched.Some? <==> r.submitted.Decoded?)
    ensures r.submitted.Decoded? ==>
              && response.patched == Some(r.submitted.vm.(finalizers := response.patched.value.finalizers))
              && StrictlySorted(response.patched.value.finalizers)
              && Elements(response.patched.value.finalizers)
                 == Elements(r.submitted.vm.finalizers) + {"virtualmachines.ci.openshift.io"}
    ensures r.submitted.Decoded? ==> response.patched.value.finalizers == Mutated(r.submitted.vm.finalizers)
    ensures r.submitted.Undecodable? ==> response == Response(false, "", r.submitted.text, None)
  {
    if r.submitted.Undecodable? { return ErrResponse(r.submitted.text); }
    var vm := r.submitted.vm;
    var finalizers := set f | f in vm.finalizers;
    finalizers := finalizers + {FINALIZER};
    var listed := List(finalizers);
    FinalizerListsExact(vm.finalizers, listed);
    var updated := vm.(finalizers := listed);
    return Response(true, "", "", Some(updated));
  }
}
