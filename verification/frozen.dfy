/** The spec a record was admitted with is the one its instance is built from, in every run; and its
    disks go with it. */
module Frozen {
  import opened Types
  import Admission
  import opened Protocol
  import opened Worlds
  import opened Systems
  import opened Origins
  import Machines

  /** The boot disk comes first, the data disks follow in order with their sizes, and all of them are deleted
      with the instance. */
  lemma DisksExact(cfg: Config, spec: Spec)
    ensures var ds := Disks(cfg, spec);
            && |ds| == 1 + |spec.DataDisks()|
            && (forall i :: 0 <= i < |ds| ==> ds[i].autoDelete && (ds[i].boot <==> i == 0))
            && ds[0].sizeGB == spec.bootDisk.disk.sizeGB && ds[0].sourceImage == spec.bootDisk.imageFamily
            && ds[0].diskType == DiskTypePath(cfg, spec.bootDisk.disk.diskType)
            && (forall i :: 1 <= i < |ds| ==>
                  && ds[i].sizeGB == spec.DataDisks()[i - 1].sizeGB && ds[i].sourceImage == ""
                  && ds[i].diskType == spec.DataDisks()[i - 1].diskType)
  {}

  /** Specs that the webhook takes for equal make the same request. */
  lemma SameRequest(cfg: Config, name: string, a: Spec, b: Spec, sshKeys: string)
    ensures Admission.SemanticEqual(a, b) ==>
            InstanceRequest(cfg, name, a, sshKeys) == InstanceRequest(cfg, name, b, sshKeys)
  {
    Admission.SemanticEqualExact(a, b);
  }

  /** The instance is the one that the first spec of its record asks for. */
  ghost predicate Built(cfg: Config, w: World, name: string) {
    && name in w.gce.instances
    && var i := w.gce.instances[name];
    && i.owner.uid in w.api.born
    && i.request == InstanceRequest(cfg, name, w.api.born[i.owner.uid], i.request.sshKeys)
  }

  /** The disk was created for an instance that still exists. */
  ghost predicate Attached(g: Gce, d: DiskRef) {
    d.instance in g.instances && g.instances[d.instance].serial == d.serial
    && d.index < |g.instances[d.instance].request.disks|
  }

  ghost predicate Faithful(cfg: Config, w: World) {
    && (forall name :: name in w.gce.instances ==> Built(cfg, w, name))
    && (forall d :: d in w.gce.disks <==> Attached(w.gce, d))
  }

  lemma InsertFaithful(cfg: Config, w: World, vm: VM, sshKeys: string)
    requires Faithful(cfg, w) && Machines.MachinesOk(w.gce)
    requires vm.uid in w.api.born && Admission.SemanticEqual(w.api.born[vm.uid], vm.spec)
    ensures var request := InstanceRequest(cfg, vm.name, vm.spec, sshKeys);
            Faithful(cfg, w.(gce := w.gce.Insert(Owner(vm.Id(), vm.uid), request)))
  {
    var request := InstanceRequest(cfg, vm.name, vm.spec, sshKeys);
    var w' := w.(gce := w.gce.Insert(Owner(vm.Id(), vm.uid), request));
    SameRequest(cfg, vm.name, w.api.born[vm.uid], vm.spec, sshKeys);
    forall name | name in w'.gce.instances ensures Built(cfg, w', name) {
      if name in w.gce.instances { assert Built(cfg, w, name); }
    }
    forall d ensures d in w'.gce.disks <==> Attached(w'.gce, d) {
      assert d in w.gce.disks <==> Attached(w.gce, d);
    }
  }

  lemma RemoveFaithful(cfg: Config, w: World, name: string)
    requires Faithful(cfg, w)
    ensures Faithful(cfg, w.(gce := w.gce.Remove(name)))
  {
    var w' := w.(gce := w.gce.Remove(name));
    forall n | n in w'.gce.instances ensures Built(cfg, w', n) { assert Built(cfg, w, n); }
    if name in w.gce.instances {
      assert Built(cfg, w, name);
      DisksExact(cfg, w.api.born[w.gce.instances[name].owner.uid]);
      forall d ensures d in w'.gce.disks <==> Attached(w'.gce, d) {
        assert d in w.gce.disks <==> Attached(w.gce, d);
        if d.instance == name && d in w.gce.disks {
          assert DiskRef(name, w.gce.instances[name].serial, d.index) == d;
        }
      }
    }
  }

  /** The same instances, but for their keys and operations. */
  ghost predicate SameBuilds(g: Gce, g': Gce) {
    && g'.instances.Keys == g.instances.Keys && g'.disks == g.disks
    && forall n :: n in g.instances ==>
         && g'.instances[n].owner == g.instances[n].owner && g'.instances[n].serial == g.instances[n].serial
         && g'.instances[n].request == g.instances[n].request
  }

  lemma SameFaithful(cfg: Config, w: World, w': World)
    requires Faithful(cfg, w) && SameBuilds(w.gce, w'.gce) && Remembers(w.api, w'.api)
    ensures Faithful(cfg, w')
  {
    forall n | n in w'.gce.instances ensures Built(cfg, w', n) { assert Built(cfg, w, n); }
    forall d ensures d in w'.gce.disks <==> Attached(w'.gce, d) { assert d in w.gce.disks <==> Attached(w.gce, d); }
  }

  lemma PopSame(g: Gce, name: string, errors: seq<string>, sshKeys: string)
    requires name in g.instances && g.instances[name].jobs != []
    ensures SameBuilds(g, g.Pop(name, errors)) && SameBuilds(g, g.Pop(name, errors).SetKeys(name, sshKeys))
  {}

  lemma ProceedFaithful(cfg: Config, w: World, name: string, ending: Ending)
    requires Faithful(cfg, w) && Possible(w, Change.Proceed(name, ending))
    ensures Faithful(cfg, Happen(w, Change.Proceed(name, ending)))
  {
    var job, errors := w.gce.instances[name].jobs[0], if ending.Succeed? then [] else ending.errors;
    var over := w.(gce := w.gce.Pop(name, errors));
    PopSame(w.gce, name, errors, if job.effect.Rekey? then job.effect.sshKeys else "");
    SameFaithful(cfg, w, over);
    RemoveFaithful(cfg, over, name);
    if job.effect.Rekey? { SameFaithful(cfg, w, w.(gce := over.gce.SetKeys(name, job.effect.sshKeys))); }
  }

  lemma CallRemembers(a: Api, pc: Pc, c: Choice)
    ensures ServedApi(a, pc, c).born == a.born
  {}

  lemma CallKeepsBuilds(g: Gce, cfg: Config, pc: Pc, c: Choice)
    requires !(pc.Issue? && pc.create)
    ensures SameBuilds(g, ServedGce(g, cfg, pc, c))
  {}

  lemma CallFaithful(cfg: Config, s: System, w: nat, c: Choice)
    requires Grounded(s) && Faithful(cfg, s.world) && Enabled(cfg, s, Call(w, c))
    ensures Faithful(cfg, Served(s.world, cfg, s.PcOf(w), c))
  {
    var pc := s.PcOf(w);
    assert WorkerCarries(s, w);
    CallRemembers(s.world.api, pc, c);
    if pc.Issue? && pc.create {
      var inserted := s.world.(gce := ServedGce(s.world.gce, cfg, pc, c));
      if c.Takes() { InsertFaithful(cfg, s.world, pc.vm, FormatKey(pc.pair.pub)); }
      assert Faithful(cfg, inserted);
      SameFaithful(cfg, inserted, Served(s.world, cfg, pc, c));
    } else {
      CallKeepsBuilds(s.world.gce, cfg, pc, c);
      SameFaithful(cfg, s.world, Served(s.world, cfg, pc, c));
    }
  }

  lemma StepFaithful(cfg: Config, s: System, e: Event)
    requires Grounded(s) && Faithful(cfg, s.world) && Enabled(cfg, s, e)
    ensures Faithful(cfg, Apply(cfg, s, e).world)
  {
    match e
    case Call(w, c) => CallFaithful(cfg, s, w, c);
    case Env(c) => ChangeFaithful(cfg, s.world, c);
    case _ => assert Apply(cfg, s, e).world == s.world;
  }

  lemma ChangeFaithful(cfg: Config, w: World, c: Change)
    requires Faithful(cfg, w) && Possible(w, c)
    ensures Faithful(cfg, Happen(w, c))
  {
    match c
    case Proceed(name, ending) => ProceedFaithful(cfg, w, name, ending);
    case Vanish(name) => RemoveFaithful(cfg, w, name);
    case _ => SameFaithful(cfg, w, Happen(w, c));
  }

  lemma {:induction false} RunFaithful(cfg: Config, states: seq<System>, events: seq<Event>, n: nat)
    requires Run(cfg, states, events) && n < |states|
    ensures Faithful(cfg, states[n].world)
  {
    if n > 0 {
      RunFaithful(cfg, states, events, n - 1);
      RunGrounded(cfg, states, events, n - 1);
      StepFaithful(cfg, states[n - 1], events[n - 1]);
    }
  }

  /** A record's spec never changes its meaning, however it is edited and whoever writes it. */
  lemma SpecNeverChanges(cfg: Config, states: seq<System>, events: seq<Event>, m: nat, n: nat, key: Key)
    requires Run(cfg, states, events) && m <= n < |states|
    requires key in states[m].world.api.vms && key in states[n].world.api.vms
    requires states[m].world.api.vms[key].uid == states[n].world.api.vms[key].uid
    ensures Admission.SemanticEqual(states[m].world.api.vms[key].spec, states[n].world.api.vms[key].spec)
  {
    RunGrounded(cfg, states, events, m);
    RunGrounded(cfg, states, events, n);
    RunRemembers(cfg, states, events, m, n);
    var a, b := states[m].world.api, states[n].world.api;
    assert Stems(a, key, a.vms[key]) && Stems(b, key, b.vms[key]);
    SameMeaning(a.born[a.vms[key].uid], a.vms[key].spec, b.vms[key].spec);
  }

  /** The record that the instance was made for is there, guarded or not. */
  ghost predicate Recorded(a: Api, o: Owner) { o.key in a.vms && a.vms[o.key].uid == o.uid }

  /** Every instance is the one its record asks for, for as long as both exist. */
  lemma InstanceMatchesRecord(cfg: Config, states: seq<System>, events: seq<Event>, n: nat, name: string)
    requires Run(cfg, states, events) && n < |states|
    requires name in states[n].world.gce.instances
    requires Recorded(states[n].world.api, states[n].world.gce.instances[name].owner)
    ensures var w := states[n].world;
            var i := w.gce.instances[name];
            i.request == InstanceRequest(cfg, name, w.api.vms[i.owner.key].spec, i.request.sshKeys)
  {
    RunGrounded(cfg, states, events, n);
    RunFaithful(cfg, states, events, n);
    var w := states[n].world;
    var i := w.gce.instances[name];
    assert Built(cfg, w, name) && Stems(w.api, i.owner.key, w.api.vms[i.owner.key]);
    SameRequest(cfg, name, w.api.born[i.owner.uid], w.api.vms[i.owner.key].spec, i.request.sshKeys);
  }

  /** The disks in existence are exactly those of the instances in existence. */
  lemma NoDiskLeftBehind(cfg: Config, states: seq<System>, events: seq<Event>, n: nat, d: DiskRef)
    requires Run(cfg, states, events) && n < |states|
    ensures d in states[n].world.gce.disks <==> Attached(states[n].world.gce, d)
  {
    RunFaithful(cfg, states, events, n);
  }
}
