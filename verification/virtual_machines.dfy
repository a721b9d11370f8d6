/** VirtualMachine objects on the heap and their generated deep copies. */
module VirtualMachines {
  import opened Types

  /** A new slice of the same length, filled element by element. */
  method Copy<T(0)>(source: array<T>) returns (target: array<T>)
    ensures fresh(target) && target[..] == source[..]
  {
    target := new T[source.Length];
    for i := 0 to source.Length
      invariant target[..i] == source[..i]
    {
      target[i] := source[i];
    }
  }

  class VirtualMachineSpec {
    var machineType: string
    var bootDisk: BootDiskSpec
    var disks: array?<DiskSpec>

    constructor (spec: Spec)
      ensures Value() == spec && (disks != null ==> fresh(disks))
    {
      machineType := spec.machineType;
      bootDisk := spec.bootDisk;
      disks := null;
      new;
      if spec.disks.Some? {
        disks := new DiskSpec[|spec.disks.value|](i requires 0 <= i < |spec.disks.value| => spec.disks.value[i]);
        assert disks[..] == spec.disks.value;
      }
    }

    /** The slice's nil-ness is part of the value. */
    function Value(): Spec
      reads this, disks
    {
      Spec(machineType, bootDisk, if disks == null then None else Some(disks[..]))
    }

    method DeepCopyInto(out: VirtualMachineSpec)
      requires out != this
      modifies out
      ensures out.Value() == old(Value())
      ensures (out.disks == null) == (disks == null)
      ensures out.disks != null ==> fresh(out.disks)
    {
      out.machineType, out.bootDisk, out.disks := machineType, bootDisk, disks;
      if disks != null {
        out.disks := Copy(disks);
      }
    }
  }

  class VirtualMachine {
    var namespace: string
    var name: string
    var uid: nat
    var resourceVersion: nat
    var deleting: bool
    var finalizers: array?<string>
    const spec: VirtualMachineSpec
    var status: Status

    /** Decoding of an API object. */
    constructor (vm: VM)
      ensures fresh(Repr()) && Value() == vm
    {
      namespace, name, uid, resourceVersion := vm.namespace, vm.name, vm.uid, vm.resourceVersion;
      deleting, status := vm.deleting, vm.status;
      var list := new string[|vm.finalizers|](i requires 0 <= i < |vm.finalizers| => vm.finalizers[i]);
      assert list[..] == vm.finalizers;
      finalizers := list;
      var decoded := new VirtualMachineSpec(vm.spec);
      spec := decoded;
    }

    /** Every object that holds a part of this one. */
    ghost function Repr(): set<object>
      reads this, spec
    {
      {this, spec}
      + (if finalizers == null then {} else {finalizers as object})
      + (if spec.disks == null then {} else {spec.disks as object})
    }

    function FinalizerList(): seq<string>
      reads this, finalizers
    {
      if finalizers == null then [] else finalizers[..]
    }

    function Value(): VM
      reads this, finalizers, spec, spec.disks
    {
      VM(namespace, name, uid, resourceVersion, deleting, FinalizerList(), spec.Value(), status)
    }

    /** Assignment of a list to the finalizers, in a new slice. */
    method AssignFinalizers(list: seq<string>)
      modifies this`finalizers
      ensures Value() == old(Value()).(finalizers := list) && fresh(finalizers)
    {
      var slice := new string[|list|](i requires 0 <= i < |list| => list[i]);
      assert slice[..] == list;
      finalizers := slice;
    }

    /** Writes the whole of the receiver into `out`, whose own arrays are new. */
    method DeepCopyInto(out: VirtualMachine)
      requires out != this && out.spec != spec
      modifies out, out.spec
      ensures out.Value() == old(Value())
      ensures fresh(out.Repr() - {out, out.spec})
      ensures (out.finalizers == null) == (finalizers == null) && (out.spec.disks == null) == (spec.disks == null)
    {
      out.namespace, out.name, out.uid, out.resourceVersion := namespace, name, uid, resourceVersion;
      out.deleting, out.finalizers := deleting, finalizers;
      if finalizers != null {
        out.finalizers := Copy(finalizers);
      }
      spec.DeepCopyInto(out.spec);
      out.status := status;
    }

    method DeepCopy() returns (out: VirtualMachine)
      ensures fresh(out.Repr()) && out.Value() == Value()
      ensures (out.finalizers == null) == (finalizers == null) && (out.spec.disks == null) == (spec.disks == null)
    {
      out := new VirtualMachine.Zero();
      DeepCopyInto(out);
    }

    constructor Zero()
      ensures fresh(this) && fresh(spec) && finalizers == null && spec.disks == null
    {
      namespace, name, uid, resourceVersion, deleting := "", "", 0, 0, false;
      status := Status(ProcessingState("", ""), "", "");
      finalizers := null;
      var zero := new VirtualMachineSpec(Spec("", BootDiskSpec("", DiskSpec(0, "")), None));
      spec := zero;
      new;
    }
  }

  /** No two of the objects share a part. */
  ghost predicate Separate(vms: seq<VirtualMachine>)
    reads vms, set vm | vm in vms :: vm.spec
  {
    forall i, j :: 0 <= i < j < |vms| ==> vms[i].Repr() !! vms[j].Repr()
  }

  /** Copies the items one after the other. */
  method CopyItems(items: seq<VirtualMachine>) returns (copies: seq<VirtualMachine>)
    ensures |copies| == |items| && Separate(copies)
    ensures forall i :: 0 <= i < |items| ==> fresh(copies[i].Repr()) && copies[i].Value() == items[i].Value()
  {
    copies := [];
    ghost var parts: seq<set<object>> := [];
    for k := 0 to |items|
      invariant |copies| == |parts| == k
      invariant forall i :: 0 <= i < k ==> copies[i].Repr() == parts[i] && copies[i].Value() == items[i].Value()
      invariant forall i :: 0 <= i < k ==> fresh(parts[i])
      invariant forall i, j :: 0 <= i < j < k ==> parts[i] !! parts[j]
    {
      var copied := items[k].DeepCopy();
      copies, parts := copies + [copied], parts + [copied.Repr()];
    }
  }

  class VirtualMachineList {
    var resourceVersion: string
    var items: array?<VirtualMachine>

    constructor ()
      ensures items == null
    {
      resourceVersion, items := "", null;
    }

    method DeepCopyInto(out: VirtualMachineList)
      requires out != this
      modifies out
      ensures out.resourceVersion == resourceVersion && (out.items == null) == (items == null)
      ensures items != null ==>
                && fresh(out.items) && out.items.Length == items.Length && Separate(out.items[..])
                && forall i :: 0 <= i < items.Length ==>
                     fresh(out.items[i].Repr()) && out.items[i].Value() == items[i].Value()
    {
      out.resourceVersion, out.items := resourceVersion, items;
      if items != null {
        var copies := CopyItems(items[..]);
        var cells := new VirtualMachine[|copies|](i requires 0 <= i < |copies| => copies[i]);
        assert cells[..] == copies;
        out.items := cells;
      }
    }
  }
}
