/** What a worker's copy of a record is worth while everybody else acts: as long as the record is there, it only moves
    forward; and while only the controller strips the finalizer, it is there, guarded. */
module Records {
  import opened Types
  import Admission
  import opened Protocol
  import opened Worlds
  import opened Origins

  ghost predicate RecordOk(a: Api, key: Key) {
    && key in a.vms
    && Stems(a, key, a.vms[key])
    && (!a.vms[key].deleting ==> a.vms[key].Guarded())
  }

  /** Stored records carry the finalizer unless they are being deleted. */
  ghost predicate GuardsOk(a: Api) {
    forall key :: key in a.vms && !a.vms[key].deleting ==> a.vms[key].Guarded()
  }

  // ---- Copies ----

  /** The record behind a copy may be gone or recreated; if it is not, it is the copy unless its version has
      moved on. */
  ghost predicate Copy(a: Api, key: Key, vm: VM) {
    key in a.vms && a.vms[key].uid == vm.uid ==>
      && vm.resourceVersion <= a.vms[key].resourceVersion
      && (vm.resourceVersion == a.vms[key].resourceVersion ==> a.vms[key] == vm)
      && (vm.deleting ==> a.vms[key].deleting)
  }

  /** The failure that was swallowed is already in the status as read, unless recording it made a new version. */
  ghost predicate SwallowExplained(a: Api, key: Key, pc: Pc) {
    pc.Strip? && pc.reason.Swallowed? && key in a.vms && a.vms[key].uid == pc.vm.uid ==>
      || pc.vm.resourceVersion < a.vms[key].resourceVersion
      || pc.vm.status == Errored(pc.vm.status, pc.reason.text)
  }

  ghost predicate Held(a: Api, key: Key, pc: Pc) {
    && (pc.Begin? ==> pc.key == key)
    && (pc.Holds() ==>
          && Stems(a, key, pc.vm) && Copy(a, key, pc.vm)
          && pc.vm.deleting == Deleting(pc) && (Deleting(pc) ==> pc.vm.Guarded()))
    && SwallowExplained(a, key, pc)
  }

  /** What the others do to a record: it changes only by new versions, keeps a deletion mark, and never comes back. */
  ghost predicate Evolves(a: Api, a': Api, key: Key) {
    && (key in a'.vms && a'.vms[key].uid in a.born ==>
          && key in a.vms && a'.vms[key].uid == a.vms[key].uid
          && a.vms[key].resourceVersion <= a'.vms[key].resourceVersion
          && (a.vms[key].resourceVersion == a'.vms[key].resourceVersion ==> a'.vms[key] == a.vms[key])
          && (a.vms[key].deleting ==> a'.vms[key].deleting))
    && Remembers(a, a')
  }

  lemma HeldIsStable(a: Api, a': Api, key: Key, pc: Pc)
    requires Held(a, key, pc) && Evolves(a, a', key)
    ensures Held(a', key, pc)
  {}

  /** The record behind the copy is there, with the finalizer. */
  ghost predicate Kept(a: Api, key: Key, pc: Pc) {
    pc.Holds() ==> key in a.vms && a.vms[key].uid == pc.vm.uid && a.vms[key].Guarded()
  }

  ghost predicate KeepsGuard(a: Api, a': Api, key: Key) {
    key in a.vms && a.vms[key].Guarded() ==>
      key in a'.vms && a'.vms[key].uid == a.vms[key].uid && a'.vms[key].Guarded()
  }

  // ---- The controller's two writes ----

  ghost predicate Released(a: Api, key: Key) {
    key !in a.vms || !a.vms[key].Guarded()
  }

  /** Recording a failure makes a new version exactly when the status does not say so already. */
  lemma StatusWrite(a: Api, key: Key, text: string)
    requires key in a.vms && a.vms[key].Id() == key && a.vms[key].Guarded()
    ensures var vm := a.vms[key];
            var a' := a.UpdateStatus(vm.(status := Errored(vm.status, text)));
            if vm.status == Errored(vm.status, text) then a' == a
            else && a' == a.(vms := a.vms[key := vm.(status := Errored(vm.status, text),
                                                    resourceVersion := vm.resourceVersion + 1)])
                 && !a'.Current(vm)
  {}

  /** The removal is accepted exactly from the present version. */
  lemma RemovalWrite(a: Api, key: Key, vm: VM)
    requires vm.Id() == key && vm.deleting && vm.Guarded() && (a.Current(vm) ==> a.vms[key] == vm)
    ensures var stripped := vm.(finalizers := Admission.Stripped(vm.finalizers));
            && (a.AcceptsUpdate(stripped) <==> a.Current(vm))
            && (if a.Current(vm) then Released(a.UpdateVM(stripped), key) else a.UpdateVM(stripped) == a)
  {
    Admission.FinalizerRoundTrip(vm.finalizers);
    var stripped := vm.(finalizers := Admission.Stripped(vm.finalizers));
    Admission.SemanticEqualExact(vm.spec, vm.spec);
    assert a.Current(stripped) == a.Current(vm);
  }

  // ---- The controller's calls ----

  lemma StoreEvolves(a: Api, key: Key, vm: VM, other: Key)
    requires key in a.vms && vm.uid == a.vms[key].uid && vm.resourceVersion == a.vms[key].resourceVersion
    requires a.vms[key].deleting ==> vm.deleting
    ensures Evolves(a, a.Store(key, vm), other)
  {}

  lemma CallEvolves(a: Api, key: Key, pc: Pc, c: Choice, other: Key)
    requires Held(a, key, pc)
    ensures Evolves(a, ServedApi(a, pc, c), other)
  {
    if c.Takes() && pc.Holds() && a.Current(pc.vm) {
      if pc.Reporting? {
        StoreEvolves(a, key, a.vms[key].(status := Errored(pc.vm.status, pc.text)), other);
      } else if pc.Strip? {
        var finalizers := Admission.Stripped(pc.vm.finalizers);
        StoreEvolves(a, key, a.vms[key].(finalizers := finalizers, spec := pc.vm.spec), other);
      }
    }
  }

  lemma CallKeepsGuard(a: Api, key: Key, pc: Pc, c: Choice, other: Key)
    requires Held(a, key, pc) && (other != key || !pc.Strip?)
    ensures KeepsGuard(a, ServedApi(a, pc, c), other)
  {}

  lemma CallKeepsGuards(a: Api, pc: Pc, c: Choice)
    requires GuardsOk(a) && (pc.Strip? && a.Current(pc.vm) ==> a.vms[pc.vm.Id()].deleting)
    ensures GuardsOk(ServedApi(a, pc, c))
  {}

  /** The worker's own copy serves it to the end of its reconcile. */
  lemma CallKeepsHeld(w: World, cfg: Config, key: Key, pc: Pc, c: Choice)
    requires Rooted(w.api) && Held(w.api, key, pc) && Sensible(w, pc, c)
    ensures Held(ServedApi(w.api, pc, c), key, After(cfg, pc, Reply(w, cfg, pc, c)))
  {
    if pc.Begin? {
      if key in w.api.vms { assert Stems(w.api, key, w.api.vms[key]); }
    } else if !pc.Strip? {
      var a := Reply(w, cfg, pc, c);
      AfterKeepsCopy(cfg, pc, a);
      CallEvolves(w.api, key, pc, c, key);
      if pc.Reporting? && a == Written { ReportingExplains(w, cfg, key, pc, c); }
    }
  }

  /** A status write that succeeds either makes a new version or finds its message already there. */
  lemma ReportingExplains(w: World, cfg: Config, key: Key, pc: Pc, c: Choice)
    requires Held(w.api, key, pc) && pc.Reporting? && Sensible(w, pc, c) && Reply(w, cfg, pc, c) == Written
    ensures var a := ServedApi(w.api, pc, c);
            key in a.vms ==>
              || pc.vm.resourceVersion < a.vms[key].resourceVersion
              || pc.vm.status == Errored(pc.vm.status, pc.text)
  {
    assert w.api.Current(pc.vm);
  }

  lemma CallKeepsKept(w: World, cfg: Config, key: Key, pc: Pc, c: Choice)
    requires GuardsOk(w.api) && Held(w.api, key, pc) && Kept(w.api, key, pc) && Sensible(w, pc, c)
    ensures Kept(ServedApi(w.api, pc, c), key, After(cfg, pc, Reply(w, cfg, pc, c)))
  {
    if !pc.Begin? && !pc.Strip? {
      AfterKeepsCopy(cfg, pc, Reply(w, cfg, pc, c));
      CallKeepsGuard(w.api, key, pc, c, key);
    }
  }

  // ---- Everybody else ----

  /** Only the controller removes the finalizer. */
  ghost predicate Benign(a: Api, c: Change) {
    c.Edit? && c.key in a.vms && a.vms[c.key].Guarded() ==> FINALIZER in c.finalizers
  }

  lemma ChangeEvolves(w: World, c: Change, key: Key)
    requires Possible(w, c)
    ensures Evolves(w.api, Happen(w, c).api, key)
  {
    var a := w.api;
    match c
    case Edit(k, spec, finalizers) => StoreEvolves(a, k, a.vms[k].(spec := spec, finalizers := finalizers), key);
    case EditStatus(k, status) => StoreEvolves(a, k, a.vms[k].(status := status), key);
    case Delete(k) => StoreEvolves(a, k, a.vms[k].(deleting := true), key);
    case _ =>
  }

  lemma ChangeKeepsGuard(w: World, c: Change, key: Key)
    requires Possible(w, c) && (c.Edit? && c.key == key ==> Benign(w.api, c))
    ensures KeepsGuard(w.api, Happen(w, c).api, key)
  {}

  lemma ChangeKeepsGuards(w: World, c: Change)
    requires GuardsOk(w.api) && Possible(w, c) && Benign(w.api, c)
    ensures GuardsOk(Happen(w, c).api)
  {
    if c.Create? { Admission.FinalizerRoundTrip(c.finalizers); }
  }
}
