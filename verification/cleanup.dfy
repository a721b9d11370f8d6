/** Fault-free reconciles of a record that is being deleted: the instance goes, and then the record is released. */
module Cleanup {
  import opened Types
  import opened Protocol
  import opened Worlds
  import Records
  import opened Machines
  import opened Convergence

  ghost predicate Dying(w: World, key: Key) {
    key in w.api.vms && w.api.vms[key].Id() == key && w.api.vms[key].deleting && w.api.vms[key].Guarded()
  }

  /** The record is gone, or being deleted without the finalizer. */
  ghost predicate LetGo(w: World, key: Key) {
    Records.Released(w.api, key) && (key in w.api.vms ==> w.api.vms[key].Id() == key && w.api.vms[key].deleting)
  }

  // ---- The ways through ----

  lemma {:induction false} FindsInstance(cfg: Config, w: World, vm: VM, s: Setting, n: nat)
    requires vm.name in w.gce.instances && n >= 1
    ensures Quiet(cfg, w, DeleteLookup(vm), s, n) == Quiet(cfg, w, DeleteIssue(vm), s, n - 1)
  {
    QuietStep(cfg, w, DeleteLookup(vm), s, n, w, DeleteIssue(vm));
  }

  lemma {:induction false} FindsNothing(cfg: Config, w: World, vm: VM, s: Setting, n: nat)
    requires vm.name !in w.gce.instances && n >= 1
    ensures Quiet(cfg, w, DeleteLookup(vm), s, n) == Quiet(cfg, w, Strip(vm, Gone), s, n - 1)
  {
    QuietStep(cfg, w, DeleteLookup(vm), s, n, w, Strip(vm, Gone));
  }

  lemma {:induction false} RequestsDeletion(cfg: Config, w: World, vm: VM, s: Setting, n: nat)
    requires vm.name in w.gce.instances && n >= 1
    ensures var w', op := w.(gce := w.gce.Submit(vm.name, Erase)), OpId(vm.name, w.gce.Serial(vm.name));
            Quiet(cfg, w, DeleteIssue(vm), s, n) == Quiet(cfg, w', Pausing(vm, Deletion, op), s, n - 1)
  {
    QuietStep(cfg, w, DeleteIssue(vm), s, n, w.(gce := w.gce.Submit(vm.name, Erase)),
              Pausing(vm, Deletion, OpId(vm.name, w.gce.Serial(vm.name))));
  }

  lemma AcceptsDeletion(g: Gce, name: string)
    requires MachinesOk(g) && name in g.instances
    ensures var g', op := g.Submit(name, Erase), OpId(name, g.Serial(name));
            && MachinesOk(g') && Awaiting(g', name, op) && LastJob(g'.instances[name]).effect == Erase
            && (ErasedFirst(g'.instances[name]) <==> !NoErasure(g, name))
  {
    SubmitOk(g, name, Erase);
    JobAppended(g.instances[name], Job(OpId(name, g.Serial(name)), Erase));
  }

  /** The finalizer update, from the record's present version or an older one. */
  lemma {:induction false} RemovesFinalizer(cfg: Config, w: World, key: Key, vm: VM, reason: StripReason, s: Setting,
                                            n: nat)
    requires vm.Id() == key && vm.deleting && vm.Guarded() && (w.api.Current(vm) ==> w.api.vms[key] == vm) && n >= 1
    ensures var (w', r) := Quiet(cfg, w, Strip(vm, reason), s, n);
            && w'.gce == w.gce && w'.secrets == w.secrets
            && r == (if w.api.Current(vm) then Returned(Nil) else Returned(Error(CONFLICT)))
            && (if w.api.Current(vm) then LetGo(w', key) else w'.api == w.api)
  {
    Records.RemovalWrite(w.api, key, vm);
    QuietStep(cfg, w, Strip(vm, reason), s, n, Served(w, cfg, Strip(vm, reason), Serve),
              if w.api.Current(vm) then Returned(Nil) else Returned(Error(CONFLICT)));
  }

  lemma {:induction false} ReportsDeletion(cfg: Config, w: World, key: Key, text: string, s: Setting, n: nat)
    requires Dying(w, key) && n >= 1
    ensures var vm := w.api.vms[key];
            Quiet(cfg, w, Reporting(vm, Deletion, text), s, n)
            == Quiet(cfg, w.(api := w.api.UpdateStatus(vm.(status := Errored(vm.status, text)))),
                     Strip(vm, Swallowed(text)), s, n - 1)
  {
    var vm := w.api.vms[key];
    QuietStep(cfg, w, Reporting(vm, Deletion, text), s, n,
              w.(api := w.api.UpdateStatus(vm.(status := Errored(vm.status, text)))), Strip(vm, Swallowed(text)));
  }

  /** The failure is recorded first, and the removal then meets a conflict unless it was recorded before. */
  lemma {:induction false} ReportsAndRemoves(cfg: Config, w: World, key: Key, text: string, s: Setting, n: nat)
    requires Dying(w, key) && n >= 2
    ensures var vm := w.api.vms[key];
            var (w', r) := Quiet(cfg, w, Reporting(vm, Deletion, text), s, n);
            && w'.gce == w.gce && w'.secrets == w.secrets
            && (if vm.status == Errored(vm.status, text) then r == Returned(Nil) && LetGo(w', key)
                else r == Returned(Error(CONFLICT)) && Dying(w', key))
  {
    var vm := w.api.vms[key];
    ReportsDeletion(cfg, w, key, text, s, n);
    Records.StatusWrite(w.api, key, text);
    var w1 := w.(api := w.api.UpdateStatus(vm.(status := Errored(vm.status, text))));
    RemovesFinalizer(cfg, w1, key, vm, Swallowed(text), s, n - 1);
  }

  // ---- Convergence of deleted records ----

  /** An awaited deletion reports errors because an earlier one has done its work. */
  ghost predicate Overtaken(w: World, key: Key, s: Setting) {
    !NoErasure(w.gce, key.name) && s.ending != []
  }

  function OvertakenText(s: Setting): string { FailureText(Deletion, Joined(s.ending)) }

  lemma {:induction false} AwaitsDeletion(cfg: Config, w: World, key: Key, op: OpId, s: Setting, n: nat)
    requires Dying(w, key) && MachinesOk(w.gce) && Awaiting(w.gce, key.name, op) && n >= 4
    requires LastJob(w.gce.instances[key.name]).effect == Erase
    ensures var vm := w.api.vms[key];
            var (w', r) := Quiet(cfg, w, Pausing(vm, Deletion, op), s, n);
            var overtaken := ErasedFirst(w.gce.instances[key.name]) && s.ending != [];
            && key.name !in w'.gce.instances && MachinesOk(w'.gce) && w'.secrets == w.secrets
            && (if overtaken ==> vm.status == Errored(vm.status, OvertakenText(s))
                then r == Returned(Nil) && LetGo(w', key)
                else r == Returned(Error(CONFLICT)) && Dying(w', key))
  {
    var vm, w2 := w.api.vms[key], w.(gce := Paused(w.gce, key.name, op, s.ending));
    PauseSettles(w.gce, key.name, op, s.ending);
    Awaits(cfg, w, vm, Deletion, op, s, n);
    if ErasedFirst(w.gce.instances[key.name]) && s.ending != [] {
      ReportsAndRemoves(cfg, w2, key, OvertakenText(s), s, n - 2);
    } else {
      RemovesFinalizer(cfg, w2, key, vm, Erased, s, n - 2);
    }
  }

  /** What a reconcile of a deleted record comes to: no instance, and the record let go, or kept for the next one. */
  ghost predicate Deleted(w: World, key: Key, s: Setting, w': World, r: Pc)
    requires key in w.api.vms
  {
    var status := w.api.vms[key].status;
    && key.name !in w'.gce.instances && MachinesOk(w'.gce) && w'.secrets == w.secrets
    && (if Overtaken(w, key, s) ==> status == Errored(status, OvertakenText(s))
        then r == Returned(Nil) && LetGo(w', key)
        else r == Returned(Error(CONFLICT)) && Dying(w', key))
  }

  lemma {:induction false} AbsentInstance(cfg: Config, w: World, key: Key, s: Setting, n: nat)
    requires Dying(w, key) && MachinesOk(w.gce) && key.name !in w.gce.instances && n >= 1
    ensures var (w', r) := Quiet(cfg, w, Strip(w.api.vms[key], Gone), s, n); Deleted(w, key, s, w', r)
  {
    RemovesFinalizer(cfg, w, key, w.api.vms[key], Gone, s, n);
  }

  lemma {:induction false} DeletesInstance(cfg: Config, w: World, key: Key, s: Setting, n: nat)
    requires Dying(w, key) && MachinesOk(w.gce) && key.name in w.gce.instances && n >= 5
    ensures var (w', r) := Quiet(cfg, w, DeleteIssue(w.api.vms[key]), s, n); Deleted(w, key, s, w', r)
  {
    var w1, op := w.(gce := w.gce.Submit(key.name, Erase)), OpId(key.name, w.gce.Serial(key.name));
    RequestsDeletion(cfg, w, w.api.vms[key], s, n);
    AcceptsDeletion(w.gce, key.name);
    AwaitsDeletion(cfg, w1, key, op, s, n - 1);
  }

  /** From this position the reconcile comes to that. */
  ghost predicate EndsDeleted(cfg: Config, w: World, key: Key, pc: Pc, s: Setting, n: nat)
    requires key in w.api.vms
  {
    var (w', r) := Quiet(cfg, w, pc, s, n); Deleted(w, key, s, w', r)
  }

  lemma {:induction false} StartsDeletion(cfg: Config, w: World, key: Key, s: Setting, n: nat)
    requires Dying(w, key) && n >= 1 && EndsDeleted(cfg, w, key, DeleteLookup(w.api.vms[key]), s, n - 1)
    ensures EndsDeleted(cfg, w, key, Begin(key), s, n)
  {
    QuietStep(cfg, w, Begin(key), s, n, w, DeleteLookup(w.api.vms[key]));
  }

  lemma {:induction false} DeletesPresent(cfg: Config, w: World, key: Key, s: Setting, n: nat)
    requires Dying(w, key) && MachinesOk(w.gce) && key.name in w.gce.instances && n >= 6
    ensures EndsDeleted(cfg, w, key, DeleteLookup(w.api.vms[key]), s, n)
  {
    FindsInstance(cfg, w, w.api.vms[key], s, n);
    DeletesInstance(cfg, w, key, s, n - 1);
  }

  lemma {:induction false} DeletesAbsent(cfg: Config, w: World, key: Key, s: Setting, n: nat)
    requires Dying(w, key) && MachinesOk(w.gce) && key.name !in w.gce.instances && n >= 2
    ensures EndsDeleted(cfg, w, key, DeleteLookup(w.api.vms[key]), s, n)
  {
    FindsNothing(cfg, w, w.api.vms[key], s, n);
    AbsentInstance(cfg, w, key, s, n - 1);
  }

  lemma {:induction false} ReconcilePresent(cfg: Config, w: World, key: Key, s: Setting, n: nat)
    requires Dying(w, key) && MachinesOk(w.gce) && key.name in w.gce.instances && Enough(n)
    ensures EndsDeleted(cfg, w, key, Begin(key), s, n)
  {
    DeletesPresent(cfg, w, key, s, n - 1);
    StartsDeletion(cfg, w, key, s, n);
  }

  lemma {:induction false} ReconcileAbsent(cfg: Config, w: World, key: Key, s: Setting, n: nat)
    requires Dying(w, key) && MachinesOk(w.gce) && key.name !in w.gce.instances && Enough(n)
    ensures EndsDeleted(cfg, w, key, Begin(key), s, n)
  {
    DeletesAbsent(cfg, w, key, s, n - 1);
    StartsDeletion(cfg, w, key, s, n);
  }

  /** From any world, one fault-free reconcile of a deleted record removes the instance of its name. It lets the record
      go too, exactly unless an earlier deletion has overtaken its own and the failure of the second one is news. */
  lemma {:induction false} OneReconcileDeletes(cfg: Config, w: World, key: Key, s: Setting, n: nat)
    requires Dying(w, key) && MachinesOk(w.gce) && Enough(n)
    ensures EndsDeleted(cfg, w, key, Begin(key), s, n)
  {
    if key.name in w.gce.instances { ReconcilePresent(cfg, w, key, s, n); } else { ReconcileAbsent(cfg, w, key, s, n); }
  }

  /** With the record let go, or gone, nothing is left to do. */
  lemma {:induction false} LetGoIsStable(cfg: Config, w: World, key: Key, s: Setting, n: nat)
    requires LetGo(w, key) && Enough(n)
    ensures Quiet(cfg, w, Begin(key), s, n) == (w, Returned(Nil))
  {
    QuietStep(cfg, w, Begin(key), s, n, w, Returned(Nil));
  }

  /** From any world, two fault-free reconciles of a deleted record succeed in removing the instance and letting the
      record go; a third changes nothing. */
  lemma {:induction false} TwoReconcilesRelease(cfg: Config, w: World, key: Key, s: Setting, s': Setting,
                                                s'': Setting, n: nat)
    requires Dying(w, key) && MachinesOk(w.gce) && Enough(n)
    ensures var w1 := Quiet(cfg, w, Begin(key), s, n).0;
            var (w2, r2) := Quiet(cfg, w1, Begin(key), s', n);
            && key.name !in w2.gce.instances && LetGo(w2, key) && r2 == Returned(Nil) && w2.secrets == w.secrets
            && (LetGo(w1, key) ==> w2 == w1)
            && Quiet(cfg, w2, Begin(key), s'', n) == (w2, Returned(Nil))
  {
    OneReconcileDeletes(cfg, w, key, s, n);
    var w1 := Quiet(cfg, w, Begin(key), s, n).0;
    if LetGo(w1, key) {
      LetGoIsStable(cfg, w1, key, s', n);
    } else {
      OneReconcileDeletes(cfg, w1, key, s', n);
    }
    LetGoIsStable(cfg, Quiet(cfg, w1, Begin(key), s', n).0, key, s'', n);
  }
}
