/** The deletion whose failure is swallowed: exactly when it happens, and that it does leak. */
module Leaking {
  import opened Types
  import Admission
  import opened Protocol
  import opened Worlds
  import opened Records
  import opened Reconciles

  lemma ReportingServed(cfg: Config, w: World, key: Key, text: string)
    requires RecordOk(w.api, key)
    ensures var vm := w.api.vms[key];
            var reporting := Reporting(vm, Deletion, text);
            && Next(cfg, w, reporting, Serve) == Strip(vm, Swallowed(text))
            && Served(w, cfg, reporting, Serve) ==
                w.(api := w.api.UpdateStatus(vm.(status := Errored(vm.status, text))))
  {
    assert w.api.Current(w.api.vms[key]);
  }

  lemma StripServed(cfg: Config, w: World, vm: VM, reason: StripReason)
    ensures var strip, stripped := Strip(vm, reason), vm.(finalizers := Admission.Stripped(vm.finalizers));
            && Next(cfg, w, strip, Serve) == Returned(if w.api.AcceptsUpdate(stripped) then Nil else Error(CONFLICT))
            && Served(w, cfg, strip, Serve) == w.(api := w.api.UpdateVM(stripped))
  {}

  /** The deletion of this record's instance fails with this text, for whatever reason; the writes that follow are
      served. The finalizer goes, with the instance still there, exactly when the status already had the text. */
  lemma SwallowedExactly(cfg: Config, w: World, key: Key, text: string)
    requires RecordOk(w.api, key) && w.api.vms[key].deleting && w.api.vms[key].Guarded()
    ensures var vm := w.api.vms[key];
            var (w', pc) := Alone(cfg, w, Reporting(vm, Deletion, text), [Serve, Serve]);
            && w'.gce == w.gce
            && (Released(w'.api, key) <==> vm.status == Errored(vm.status, text))
            && pc == (if Released(w'.api, key) then Returned(Nil) else Returned(Error(CONFLICT)))
            && (!Released(w'.api, key) ==>
                  w'.api.vms == w.api.vms[key := vm.(status := Errored(vm.status, text),
                                                     resourceVersion := vm.resourceVersion + 1)])
  {
    var vm := w.api.vms[key];
    var reporting, strip := Reporting(vm, Deletion, text), Strip(vm, Swallowed(text));
    ReportingServed(cfg, w, key, text);
    StatusWrite(w.api, key, text);
    var w1 := w.(api := w.api.UpdateStatus(vm.(status := Errored(vm.status, text))));
    StripServed(cfg, w1, vm, Swallowed(text));
    RemovalWrite(w1.api, key, vm);
    var w2 := w1.(api := w1.api.UpdateVM(vm.(finalizers := Admission.Stripped(vm.finalizers))));
    assert [Serve, Serve] == [Serve] + ([Serve] + []);
    AloneStep(cfg, w, reporting, Serve, [Serve] + [], w1, strip);
    AloneStep(cfg, w1, strip, Serve, [], w2, Next(cfg, w1, strip, Serve));
  }

  /** A reconcile of a deleted record whose request to delete the instance is refused. */
  function RefusedDeletion(cfg: Config, w: World, key: Key, interfaces: seq<seq<string>>, err: GceError): (World, Pc) {
    Alone(cfg, w, Begin(key), [Serve, Show(interfaces), Refuse(err), Serve, Serve])
  }

  lemma RefusedDeletionReports(cfg: Config, w: World, key: Key, interfaces: seq<seq<string>>, err: GceError)
    requires RecordOk(w.api, key) && w.api.vms[key].deleting && w.api.vms[key].Guarded() && key.name in w.gce.instances
    ensures RefusedDeletion(cfg, w, key, interfaces, err)
            == Alone(cfg, w, Reporting(w.api.vms[key], Deletion, NOT_DELETED + err.text), [Serve, Serve])
  {
    var vm := w.api.vms[key];
    var lookup, issue := DeleteLookup(vm), DeleteIssue(vm);
    var reporting := Reporting(vm, Deletion, NOT_DELETED + err.text);
    assert [Serve, Show(interfaces), Refuse(err), Serve, Serve]
        == [Serve] + ([Show(interfaces)] + ([Refuse(err)] + [Serve, Serve]));
    ReadsRecord(cfg, w, key);
    SeesInstance(cfg, w, vm, interfaces);
    GetsRefusal(cfg, w, vm, err);
    AloneStep(cfg, w, Begin(key), Serve, [Show(interfaces)] + ([Refuse(err)] + [Serve, Serve]), w, lookup);
    AloneStep(cfg, w, lookup, Show(interfaces), [Refuse(err)] + [Serve, Serve], w, issue);
    AloneStep(cfg, w, issue, Refuse(err), [Serve, Serve], w, reporting);
  }

  lemma ReadsRecord(cfg: Config, w: World, key: Key)
    requires RecordOk(w.api, key) && w.api.vms[key].deleting && w.api.vms[key].Guarded()
    ensures Served(w, cfg, Begin(key), Serve) == w && Next(cfg, w, Begin(key), Serve) == DeleteLookup(w.api.vms[key])
  {}

  lemma SeesInstance(cfg: Config, w: World, vm: VM, interfaces: seq<seq<string>>)
    requires vm.name in w.gce.instances
    ensures Served(w, cfg, DeleteLookup(vm), Show(interfaces)) == w
    ensures Next(cfg, w, DeleteLookup(vm), Show(interfaces)) == DeleteIssue(vm)
  {}

  lemma GetsRefusal(cfg: Config, w: World, vm: VM, err: GceError)
    ensures Served(w, cfg, DeleteIssue(vm), Refuse(err)) == w
    ensures Next(cfg, w, DeleteIssue(vm), Refuse(err)) == Reporting(vm, Deletion, NOT_DELETED + err.text)
  {}

  /** The same refusal twice in a row always leaks: the second time the record is let go and the instance stays. */
  lemma SameRefusalTwiceLeaks(cfg: Config, w: World, key: Key, interfaces: seq<seq<string>>, err: GceError)
    requires RecordOk(w.api, key) && w.api.vms[key].deleting && w.api.vms[key].Guarded() && key.name in w.gce.instances
    ensures var (w1, r1) := RefusedDeletion(cfg, w, key, interfaces, err);
            var (w2, r2) := RefusedDeletion(cfg, w1, key, interfaces, err);
            || (r1 == Returned(Nil) && Released(w1.api, key) && key.name in w1.gce.instances)
            || (r1 == Returned(Error(CONFLICT)) && r2 == Returned(Nil)
                && Released(w2.api, key) && key.name in w2.gce.instances)
  {
    var vm, text := w.api.vms[key], NOT_DELETED + err.text;
    RefusedDeletionReports(cfg, w, key, interfaces, err);
    SwallowedExactly(cfg, w, key, text);
    var (w1, r1) := RefusedDeletion(cfg, w, key, interfaces, err);
    if !Released(w1.api, key) {
      assert w1.api.vms[key].status == Errored(vm.status, text);
      assert RecordOk(w1.api, key) by { AloneKeepsBorn(cfg, w, Reporting(vm, Deletion, text), [Serve, Serve]); }
      RefusedDeletionReports(cfg, w1, key, interfaces, err);
      SwallowedExactly(cfg, w1, key, text);
    }
  }

  lemma {:induction false} AloneKeepsBorn(cfg: Config, w: World, pc: Pc, choices: seq<Choice>)
    ensures Alone(cfg, w, pc, choices).0.api.born == w.api.born
    decreases |choices|
  {
    if choices != [] && !pc.Returned? {
      AloneKeepsBorn(cfg, Served(w, cfg, pc, choices[0]), After(cfg, pc, Reply(w, cfg, pc, choices[0])), choices[1..]);
    }
  }
}
