/** Convergence from every state that a run can reach. */
module Repair {
  import opened Types
  import opened Protocol
  import opened Worlds
  import opened Systems
  import Origins
  import Machines
  import Removals
  import opened Coverage
  import opened Protection
  import opened Agreement
  import opened Convergence
  import Cleanup

  // ---- Every state of every run ----

  /** From any state of any run, with whatever failures, abandoned operations, lost answers, recreated records and names
      shared across namespaces on the way: two fault-free reconciles of a live record complete its instance and secret,
      the second one with success, and a third changes nothing. The first one is enough exactly when both were there or
      no deletion of the instance was in progress. With a new key, the secret opens the instance in the end exactly when
      it did before or there was none. */
  lemma RunsRecover(cfg: Config, states: seq<System>, events: seq<Event>, n: nat, key: Key,
                    s: Setting, s': Setting, s'': Setting, calls: nat)
    requires Run(cfg, states, events) && n < |states| && Enough(calls)
    requires key in states[n].world.api.vms && !states[n].world.api.vms[key].deleting
    ensures var w := states[n].world;
            var w1 := Quiet(cfg, w, Begin(key), s, calls).0;
            var (w2, r2) := Quiet(cfg, w1, Begin(key), s', calls);
            && Complete(w2, key) && r2 == Returned(Nil)
            && Quiet(cfg, w2, Begin(key), s'', calls) == (w2, Returned(Nil))
            && (Complete(w1, key) <==> Complete(w, key) || NoErasure(w.gce, key.name))
            && (Line(s.pair.pub) && s.pair.pub !in w.used ==> (Opens(w2, key) <==> Opens(w, key) || key !in w.secrets))
  {
    var w := states[n].world;
    Origins.RunGrounded(cfg, states, events, n);
    RunKnown(cfg, states, events, n);
    assert Origins.Stems(w.api, key, w.api.vms[key]);
    OneReconcileCompletes(cfg, w, key, s, calls);
    TwoReconcilesSucceed(cfg, w, key, s, s', s'', calls);
    if Line(s.pair.pub) && s.pair.pub !in w.used { ReconcileOpensExactly(cfg, w, key, s, s', calls); }
  }

  /** And of a record that is being deleted: the first removes the instance of its name, the second at the latest lets
      the record go, and a third changes nothing. */
  lemma RunsCleanUp(cfg: Config, states: seq<System>, events: seq<Event>, n: nat, key: Key,
                    s: Setting, s': Setting, s'': Setting, calls: nat)
    requires Run(cfg, states, events) && n < |states| && Enough(calls)
    requires key in states[n].world.api.vms
    requires states[n].world.api.vms[key].deleting && states[n].world.api.vms[key].Guarded()
    ensures var w := states[n].world;
            var (w1, r1) := Quiet(cfg, w, Begin(key), s, calls);
            var (w2, r2) := Quiet(cfg, w1, Begin(key), s', calls);
            && Cleanup.Deleted(w, key, s, w1, r1)
            && key.name !in w2.gce.instances && Cleanup.LetGo(w2, key) && r2 == Returned(Nil)
            && Quiet(cfg, w2, Begin(key), s'', calls) == (w2, Returned(Nil))
  {
    var w := states[n].world;
    Origins.RunGrounded(cfg, states, events, n);
    assert Origins.Stems(w.api, key, w.api.vms[key]);
    Cleanup.OneReconcileDeletes(cfg, w, key, s, calls);
    Cleanup.TwoReconcilesRelease(cfg, w, key, s, s', s'', calls);
  }

  // ---- When one reconcile is enough ----

  /** While the name's instance is being deleted, so is the record it belongs to. */
  ghost predicate Doomed(w: World, name: string) {
    forall t :: name in w.gce.instances && t in w.gce.instances[name].jobs && t.effect == Erase ==>
      var key := w.gce.instances[name].owner.key; key in w.api.vms && w.api.vms[key].deleting
  }

  /** A deletion mark stays. */
  ghost predicate MarksStay(a: Api, a': Api) {
    forall key :: key in a.vms && key in a'.vms && a'.vms[key].uid == a.vms[key].uid && a.vms[key].deleting ==>
        a'.vms[key].deleting
  }

  lemma CallMarksStay(a: Api, pc: Pc, c: Choice)
    ensures MarksStay(a, ServedApi(a, pc, c))
  {}

  lemma ChangeMarksStay(w: World, c: Change)
    requires Possible(w, c)
    ensures MarksStay(w.api, Happen(w, c).api)
  {}

  /** What may be new among the jobs of an instance after a call. */
  lemma CallJobs(g: Gce, cfg: Config, pc: Pc, c: Choice, name: string, t: Job)
    requires name in ServedGce(g, cfg, pc, c).instances && t in ServedGce(g, cfg, pc, c).instances[name].jobs
    requires t.effect == Erase
    ensures name in g.instances && ServedGce(g, cfg, pc, c).instances[name].owner == g.instances[name].owner
    ensures t in g.instances[name].jobs || (pc.DeleteIssue? && pc.vm.name == name)
  {}

  lemma ChangeJobs(w: World, c: Change, name: string, t: Job)
    requires Possible(w, c) && name in Happen(w, c).gce.instances && t in Happen(w, c).gce.instances[name].jobs
    ensures name in w.gce.instances && t in w.gce.instances[name].jobs
    ensures Happen(w, c).gce.instances[name].owner == w.gce.instances[name].owner
  {
    if c.Proceed? && c.name == name {
      assert forall u :: u in w.gce.instances[name].jobs[1..] ==> u in w.gce.instances[name].jobs;
    }
  }

  lemma CallDoomed(cfg: Config, home: string -> string, s: System, w: nat, c: Choice, name: string)
    requires Sound(s) && AllHomed(home, s) && Enabled(cfg, s, Call(w, c))
    requires Doomed(s.world, name) && CoveredAt(s.world, name) && CoveredAt(Apply(cfg, s, Call(w, c)).world, name)
    ensures Doomed(Apply(cfg, s, Call(w, c)).world, name)
  {
    var pc, world, world' := s.PcOf(w), s.world, Apply(cfg, s, Call(w, c)).world;
    assert WorkerKept(s, w) && Removals.WorkerAccounted(s, w) && WorkerHomed(home, s, w);
    CallMarksStay(world.api, pc, c);
    forall t | name in world'.gce.instances && t in world'.gce.instances[name].jobs && t.effect == Erase
      ensures var key := world'.gce.instances[name].owner.key; key in world'.api.vms && world'.api.vms[key].deleting
    {
      CallJobs(world.gce, cfg, pc, c, name, t);
      var o := world.gce.instances[name].owner;
      if t !in world.gce.instances[name].jobs {
        assert Machines.MachineOk(world.gce, name);
        assert Homed(home, o.key);
        assert o.key == s.KeyOf(w);
      }
    }
  }

  lemma ChangeDoomed(w: World, c: Change, name: string)
    requires Possible(w, c) && Doomed(w, name) && CoveredAt(w, name) && CoveredAt(Happen(w, c), name)
    ensures Doomed(Happen(w, c), name)
  {
    var w' := Happen(w, c);
    ChangeMarksStay(w, c);
    forall t | name in w'.gce.instances && t in w'.gce.instances[name].jobs && t.effect == Erase
      ensures var key := w'.gce.instances[name].owner.key; key in w'.api.vms && w'.api.vms[key].deleting
    {
      ChangeJobs(w, c, name, t);
    }
  }

  lemma StepDoomed(cfg: Config, home: string -> string, s: System, e: Event, name: string)
    requires Sound(s) && AllHomed(home, s) && Enabled(cfg, s, e)
    requires Doomed(s.world, name) && CoveredAt(s.world, name) && CoveredAt(Apply(cfg, s, e).world, name)
    ensures Doomed(Apply(cfg, s, e).world, name)
  {
    match e
    case Call(w, c) => CallDoomed(cfg, home, s, w, c, name);
    case Env(c) => ChangeDoomed(s.world, c, name);
    case _ => assert Apply(cfg, s, e).world == s.world;
  }

  /** No instance of this name was forsaken. */
  ghost predicate NeverForsaken(states: seq<System>, events: seq<Event>, n: nat, name: string)
    requires n < |states| && n <= |events|
  {
    forall i, o: Owner :: 0 <= i < n && o.key.name == name ==> !Forsakes(states[i], events[i], o)
  }

  lemma CoveredWhile(cfg: Config, states: seq<System>, events: seq<Event>, n: nat, name: string)
    requires FairRun(cfg, states, events) && n < |states| && NeverForsaken(states, events, n, name)
    ensures CoveredAt(states[n].world, name)
  {
    if name in states[n].world.gce.instances {
      NoLeakedInstance(cfg, states, events, n, name);
      RunSound(cfg, states, events, n);
      assert Machines.MachineOk(states[n].world.gce, name);
    }
  }

  lemma {:induction false} RunDoomed(cfg: Config, home: string -> string, states: seq<System>, events: seq<Event>,
                                     n: nat, name: string)
    requires FairRun(cfg, states, events) && HomedRun(cfg, home, states, events) && n < |states|
    requires NeverForsaken(states, events, n, name)
    ensures Doomed(states[n].world, name)
  {
    if n > 0 {
      RunDoomed(cfg, home, states, events, n - 1, name);
      RunSound(cfg, states, events, n - 1);
      RunHomed(cfg, home, states, events, n - 1);
      CoveredWhile(cfg, states, events, n - 1, name);
      CoveredWhile(cfg, states, events, n, name);
      StepDoomed(cfg, home, states[n - 1], events[n - 1], name);
    }
  }

  /** Under unique names, as long as only the controller strips the finalizer and no instance of the name was forsaken,
      a live record's instance is not being deleted: one fault-free reconcile completes the record. */
  lemma LiveIsNotErased(cfg: Config, home: string -> string, states: seq<System>, events: seq<Event>, n: nat, key: Key,
                        s: Setting, calls: nat)
    requires FairRun(cfg, states, events) && HomedRun(cfg, home, states, events) && n < |states| && Enough(calls)
    requires NeverForsaken(states, events, n, key.name)
    requires key in states[n].world.api.vms && !states[n].world.api.vms[key].deleting
    ensures NoErasure(states[n].world.gce, key.name)
    ensures Complete(Quiet(cfg, states[n].world, Begin(key), s, calls).0, key)
  {
    var w := states[n].world;
    RunDoomed(cfg, home, states, events, n, key.name);
    RunSound(cfg, states, events, n);
    RunHomed(cfg, home, states, events, n);
    CoveredWhile(cfg, states, events, n, key.name);
    if key.name in w.gce.instances {
      var o := w.gce.instances[key.name].owner;
      assert Machines.MachineOk(w.gce, key.name);
      assert Homed(home, o.key) && Homed(home, key);
      assert o.key == key;
    }
    RunsRecover(cfg, states, events, n, key, s, s, s, calls);
  }
}
