/** What holds in every run, whoever removes finalizers: every stored record, and every copy that a worker acts on,
    asks for the same machine as the spec it was admitted with. */
module Origins {
  import opened Types
  import opened Admission
  import opened Protocol
  import opened Worlds
  import opened Systems
  import Machines
  import Scheduling

  /** The object belongs to the key, and its spec means what it meant when its uid was admitted. */
  ghost predicate Stems(a: Api, key: Key, vm: VM) {
    vm.Id() == key && vm.uid in a.born && SemanticEqual(a.born[vm.uid], vm.spec)
  }

  ghost predicate Rooted(a: Api) {
    forall key :: key in a.vms ==> Stems(a, key, a.vms[key])
  }

  /** The record behind a worker's copy may be gone, released or recreated by now. */
  ghost predicate Carries(a: Api, key: Key, pc: Pc) {
    (pc.Begin? ==> pc.key == key) && (pc.Holds() ==> Stems(a, key, pc.vm))
  }

  /** The specs once admitted are remembered. */
  ghost predicate Remembers(a: Api, a': Api) {
    forall uid :: uid in a.born ==> uid in a'.born && a'.born[uid] == a.born[uid]
  }

  lemma SameMeaning(first: Spec, a: Spec, b: Spec)
    requires SemanticEqual(first, a)
    ensures SemanticEqual(first, b) <==> SemanticEqual(a, b)
  {
    SemanticEqualExact(first, a);
    SemanticEqualExact(first, b);
    SemanticEqualExact(a, b);
  }

  // ---- Writes ----

  lemma StoreRooted(a: Api, key: Key, vm: VM)
    requires Rooted(a) && key in a.vms
    requires vm.Id() == key && vm.uid == a.vms[key].uid && SemanticEqual(a.vms[key].spec, vm.spec)
    ensures Rooted(a.Store(key, vm)) && Remembers(a, a.Store(key, vm))
  {
    assert Stems(a, key, a.vms[key]);
    SameMeaning(a.born[vm.uid], a.vms[key].spec, vm.spec);
    var a' := a.Store(key, vm);
    forall k | k in a'.vms ensures Stems(a', k, a'.vms[k]) { assert k in a.vms && Stems(a, k, a.vms[k]); }
  }

  /** A write to the record of the copy's uid never changes the meaning of its spec. */
  lemma CopyMeansRecord(a: Api, key: Key, vm: VM)
    requires Rooted(a) && Stems(a, key, vm) && key in a.vms && a.vms[key].uid == vm.uid
    ensures SemanticEqual(a.vms[key].spec, vm.spec)
  {
    assert Stems(a, key, a.vms[key]);
    SameMeaning(a.born[vm.uid], a.vms[key].spec, vm.spec);
  }

  lemma CallRooted(a: Api, key: Key, pc: Pc, c: Choice)
    requires Rooted(a) && Carries(a, key, pc)
    ensures Rooted(ServedApi(a, pc, c)) && Remembers(a, ServedApi(a, pc, c))
  {
    if c.Takes() && pc.Holds() && a.Current(pc.vm) {
      CopyMeansRecord(a, key, pc.vm);
      SemanticEqualExact(a.vms[key].spec, a.vms[key].spec);
      if pc.Reporting? {
        StoreRooted(a, key, a.vms[key].(status := Errored(pc.vm.status, pc.text)));
      } else if pc.Strip? {
        StoreRooted(a, key, a.vms[key].(finalizers := Stripped(pc.vm.finalizers), spec := pc.vm.spec));
      }
    }
  }

  lemma CallCarries(w: World, cfg: Config, key: Key, pc: Pc, c: Choice)
    requires Rooted(w.api) && Carries(w.api, key, pc) && Sensible(w, pc, c)
    ensures Carries(ServedApi(w.api, pc, c), key, After(cfg, pc, Reply(w, cfg, pc, c)))
  {
    if pc.Begin? {
      if key in w.api.vms { assert Stems(w.api, key, w.api.vms[key]); }
    } else {
      AfterKeepsCopy(cfg, pc, Reply(w, cfg, pc, c));
      CallRooted(w.api, key, pc, c);
    }
  }

  /** Along a reconcile the copy is the one first read, and the way taken is settled by its deletion mark. */
  lemma AfterKeepsCopy(cfg: Config, pc: Pc, a: Answer)
    requires pc.Holds() && Fits(CallOf(cfg, pc), a)
    ensures var next := After(cfg, pc, a);
            && !next.Begin?
            && (next.Holds() ==> next.vm == pc.vm && Deleting(next) == Deleting(pc))
            && (next.Strip? && next.reason.Swallowed? ==>
                pc.Reporting? && pc.purpose.Deletion? && a == Written && next.reason.text == pc.text)
  {}

  lemma ChangeRooted(w: World, c: Change)
    requires Rooted(w.api) && Possible(w, c)
    ensures Rooted(Happen(w, c).api) && Remembers(w.api, Happen(w, c).api)
  {
    var a := w.api;
    match c
    case Create(key, _, spec, _, _) =>
      SemanticEqualExact(spec, spec);
      var a' := Happen(w, c).api;
      forall k | k in a'.vms ensures Stems(a', k, a'.vms[k]) { if k != key { assert Stems(a, k, a.vms[k]); } }
    case Edit(k, spec, finalizers) =>
      assert Stems(a, k, a.vms[k]);
      StoreRooted(a, k, a.vms[k].(spec := spec, finalizers := finalizers));
    case EditStatus(k, status) =>
      assert Stems(a, k, a.vms[k]);
      SemanticEqualExact(a.vms[k].spec, a.vms[k].spec);
      StoreRooted(a, k, a.vms[k].(status := status));
    case Delete(k) =>
      assert Stems(a, k, a.vms[k]);
      SemanticEqualExact(a.vms[k].spec, a.vms[k].spec);
      StoreRooted(a, k, a.vms[k].(deleting := true));
    case _ =>
  }

  // ---- Runs ----

  ghost predicate WorkerCarries(s: System, w: nat) {
    s.Active(w) ==> Carries(s.world.api, s.KeyOf(w), s.PcOf(w))
  }

  ghost predicate Grounded(s: System) {
    && Scheduling.Disciplined(s) && Rooted(s.world.api) && Machines.MachinesOk(s.world.gce)
    && forall w :: WorkerCarries(s, w)
  }

  lemma CallGrounded(cfg: Config, s: System, w: nat, c: Choice)
    requires Grounded(s) && Enabled(cfg, s, Call(w, c))
    ensures Grounded(Apply(cfg, s, Call(w, c))) && Remembers(s.world.api, Apply(cfg, s, Call(w, c)).world.api)
  {
    var t, key, pc := Apply(cfg, s, Call(w, c)), s.KeyOf(w), s.PcOf(w);
    Scheduling.StepKeeps(cfg, s, Call(w, c));
    assert WorkerCarries(s, w);
    CallRooted(s.world.api, key, pc, c);
    Machines.CallKeepsMachines(s.world.gce, cfg, pc, c);
    CallCarries(s.world, cfg, key, pc, c);
    forall v ensures WorkerCarries(t, v) { assert WorkerCarries(s, v); }
  }

  lemma ChangeGrounded(cfg: Config, s: System, c: Change)
    requires Grounded(s) && Enabled(cfg, s, Env(c))
    ensures Grounded(Apply(cfg, s, Env(c))) && Remembers(s.world.api, Apply(cfg, s, Env(c)).world.api)
  {
    var t := Apply(cfg, s, Env(c));
    Scheduling.StepKeeps(cfg, s, Env(c));
    ChangeRooted(s.world, c);
    Machines.ChangeKeepsMachines(s.world, c);
    forall v ensures WorkerCarries(t, v) { assert WorkerCarries(s, v); }
  }

  lemma QueueGrounded(cfg: Config, s: System, e: Event)
    requires Grounded(s) && Enabled(cfg, s, e) && !e.Call? && !e.Env?
    ensures Grounded(Apply(cfg, s, e)) && Apply(cfg, s, e).world == s.world
  {
    var t := Apply(cfg, s, e);
    Scheduling.StepKeeps(cfg, s, e);
    forall v ensures WorkerCarries(t, v) { assert WorkerCarries(s, v); }
  }

  lemma StepGrounded(cfg: Config, s: System, e: Event)
    requires Grounded(s) && Enabled(cfg, s, e)
    ensures Grounded(Apply(cfg, s, e)) && Remembers(s.world.api, Apply(cfg, s, e).world.api)
  {
    match e
    case Call(w, c) => CallGrounded(cfg, s, w, c);
    case Env(c) => ChangeGrounded(cfg, s, c);
    case _ => QueueGrounded(cfg, s, e);
  }

  lemma {:induction false} RunGrounded(cfg: Config, states: seq<System>, events: seq<Event>, n: nat)
    requires Run(cfg, states, events) && n < |states|
    ensures Grounded(states[n])
  {
    if n > 0 {
      RunGrounded(cfg, states, events, n - 1);
      StepGrounded(cfg, states[n - 1], events[n - 1]);
    }
  }

  ghost predicate RemembersAt(states: seq<System>, m: nat) {
    m + 1 < |states| && Remembers(states[m].world.api, states[m + 1].world.api)
  }

  lemma {:induction false} RemembersThrough(states: seq<System>, m: nat, n: nat)
    requires m <= n < |states| && forall i: nat :: m <= i < n ==> RemembersAt(states, i)
    ensures Remembers(states[m].world.api, states[n].world.api)
  {
    if m < n {
      RemembersThrough(states, m, n - 1);
      assert RemembersAt(states, n - 1);
    }
  }

  lemma RunRemembers(cfg: Config, states: seq<System>, events: seq<Event>, m: nat, n: nat)
    requires Run(cfg, states, events) && m <= n < |states|
    ensures Remembers(states[m].world.api, states[n].world.api)
  {
    forall i: nat | m <= i < n ensures RemembersAt(states, i) {
      RunGrounded(cfg, states, events, i);
      StepGrounded(cfg, states[i], events[i]);
    }
    RemembersThrough(states, m, n);
  }

  /** The validating webhook never stands in the way of the removal: only a version conflict can. */
  lemma RemovalPassesValidation(cfg: Config, states: seq<System>, events: seq<Event>, n: nat, w: nat)
    requires Run(cfg, states, events) && n < |states| && states[n].Active(w) && states[n].PcOf(w).Strip?
    ensures var vm := CallOf(cfg, states[n].PcOf(w)).vm;
            states[n].world.api.Current(vm) <==> states[n].world.api.AcceptsUpdate(vm)
  {
    RunGrounded(cfg, states, events, n);
    var a, vm := states[n].world.api, CallOf(cfg, states[n].PcOf(w)).vm;
    assert WorkerCarries(states[n], w);
    if a.Current(vm) { CopyMeansRecord(a, vm.Id(), vm); }
  }
}
