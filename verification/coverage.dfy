/** In every run: exactly which events leave an instance without a guarded record, and what a swallowed failure has to
    do with it. */
module Coverage {
  import opened Types
  import opened Protocol
  import opened Worlds
  import opened Systems
  import Scheduling
  import Machines
  import Origins
  import opened Records
  import opened Removals

  ghost predicate Guards(a: Api, o: Owner) {
    o.key in a.vms && a.vms[o.key].uid == o.uid && a.vms[o.key].Guarded()
  }

  /** The instance of this name, if there is one, has its record, and the record has the finalizer. */
  ghost predicate CoveredAt(w: World, name: string) {
    name in w.gce.instances ==> Guards(w.api, w.gce.instances[name].owner)
  }

  ghost predicate Covered(w: World) {
    forall name :: name in w.gce.instances ==> CoveredAt(w, name)
  }

  // ---- The three ways to lose the guard ----

  /** The guards of the path that leaks: the deletion of this owner's instance failed, its failure was swallowed, the
      record as read already told of it, nobody has changed the record since, and the instance is still there. */
  ghost predicate Forsakes(s: System, e: Event, o: Owner) {
    && e.Call? && e.choice.Takes() && s.Active(e.worker)
    && var pc := s.PcOf(e.worker);
    && pc.Strip? && pc.reason.Swallowed? && o == Owner(pc.vm.Id(), pc.vm.uid)
    && pc.vm.status == Errored(pc.vm.status, pc.reason.text)
    && s.world.api.Current(pc.vm)
    && Machines.HasInstance(s.world.gce, o)
  }

  /** A user takes the finalizer off the owner's record while its instance is there. */
  ghost predicate Unguards(s: System, e: Event, o: Owner) {
    && e.Env? && e.change.Edit? && e.change.key == o.key && FINALIZER !in e.change.finalizers
    && Guards(s.world.api, o) && Machines.HasInstance(s.world.gce, o)
  }

  /** A worker makes an instance for a record that is gone or not guarded any more. */
  ghost predicate Strays(s: System, e: Event, o: Owner) {
    && e.Call? && e.choice.Takes() && s.Active(e.worker)
    && var pc := s.PcOf(e.worker);
    && pc.Issue? && pc.create && o == Owner(pc.vm.Id(), pc.vm.uid)
    && pc.vm.name !in s.world.gce.instances && !Guards(s.world.api, o)
  }

  ghost predicate Uncovers(s: System, e: Event, o: Owner) {
    Forsakes(s, e, o) || Unguards(s, e, o) || Strays(s, e, o)
  }

  // ---- Nothing else does ----

  lemma CallCovered(cfg: Config, s: System, w: nat, c: Choice, name: string)
    requires Accounted(s) && Enabled(cfg, s, Call(w, c)) && CoveredAt(s.world, name)
    requires var g' := Apply(cfg, s, Call(w, c)).world.gce;
             name in g'.instances ==> !Uncovers(s, Call(w, c), g'.instances[name].owner)
    ensures CoveredAt(Apply(cfg, s, Call(w, c)).world, name)
  {
    var key, pc, world := s.KeyOf(w), s.PcOf(w), s.world;
    assert WorkerAccounted(s, w);
    if pc.Issue? {
      IssueCovered(cfg, world, pc, c, name);
    } else {
      CallKeepsOwners(world.gce, cfg, pc, c);
      if name in world.gce.instances && name in ServedGce(world.gce, cfg, pc, c).instances {
        assert Machines.MachineOk(world.gce, name);
        RemovalCovered(cfg, s, w, c, world.gce.instances[name].owner);
      }
    }
  }

  lemma CallKeepsOwners(g: Gce, cfg: Config, pc: Pc, c: Choice)
    requires !pc.Issue?
    ensures var g' := ServedGce(g, cfg, pc, c);
            forall name :: name in g'.instances ==>
              name in g.instances && g'.instances[name].owner == g.instances[name].owner
  {}

  /** An instance that was there keeps its owner; a new one is the copy's. */
  lemma IssueOwner(g: Gce, cfg: Config, pc: Pc, c: Choice, name: string)
    requires pc.Issue? && name in ServedGce(g, cfg, pc, c).instances
    ensures var o := ServedGce(g, cfg, pc, c).instances[name].owner;
            if name in g.instances then g.instances[name].owner == o
            else c.Takes() && pc.create && name == pc.vm.name && o == Owner(pc.vm.Id(), pc.vm.uid)
  {}

  lemma IssueCovered(cfg: Config, w: World, pc: Pc, c: Choice, name: string)
    requires pc.Issue? && CoveredAt(w, name)
    requires name in ServedGce(w.gce, cfg, pc, c).instances && name !in w.gce.instances ==>
               Guards(w.api, Owner(pc.vm.Id(), pc.vm.uid))
    ensures CoveredAt(Served(w, cfg, pc, c), name)
  {
    if name in ServedGce(w.gce, cfg, pc, c).instances { IssueOwner(w.gce, cfg, pc, c, name); }
  }

  /** Only the removal of its own record's finalizer costs an owner the guard. */
  lemma RemovalCovered(cfg: Config, s: System, w: nat, c: Choice, o: Owner)
    requires Accounted(s) && Enabled(cfg, s, Call(w, c)) && Guards(s.world.api, o)
    requires Machines.HasInstance(s.world.gce, o)
    requires !Forsakes(s, Call(w, c), o)
    ensures Guards(ServedApi(s.world.api, s.PcOf(w), c), o)
  {
    var key, pc := s.KeyOf(w), s.PcOf(w);
    assert WorkerAccounted(s, w);
    if pc.Strip? && o.key == key {
      if s.world.api.Current(pc.vm) { RemovalWrite(s.world.api, key, pc.vm); }
    } else {
      CallKeepsGuard(s.world.api, key, pc, c, o.key);
    }
  }

  lemma ChangeKeepsOwners(w: World, c: Change)
    requires Possible(w, c)
    ensures var g' := Happen(w, c).gce;
            forall name :: name in g'.instances ==>
              name in w.gce.instances && g'.instances[name].owner == w.gce.instances[name].owner
  {}

  lemma ChangeCovered(cfg: Config, s: System, c: Change, name: string)
    requires Accounted(s) && Enabled(cfg, s, Env(c)) && CoveredAt(s.world, name)
    requires name in s.world.gce.instances ==> !Unguards(s, Env(c), s.world.gce.instances[name].owner)
    ensures CoveredAt(Apply(cfg, s, Env(c)).world, name)
  {
    ChangeKeepsOwners(s.world, c);
    if name in s.world.gce.instances {
      assert Machines.MachineOk(s.world.gce, name);
      ChangeKeepsGuard(s.world, c, s.world.gce.instances[name].owner.key);
    }
  }

  lemma StepKeepsOwner(cfg: Config, s: System, e: Event, name: string)
    requires Enabled(cfg, s, e) && name in s.world.gce.instances && name in Apply(cfg, s, e).world.gce.instances
    ensures Apply(cfg, s, e).world.gce.instances[name].owner == s.world.gce.instances[name].owner
  {}

  lemma StepCovered(cfg: Config, s: System, e: Event, name: string)
    requires Accounted(s) && Enabled(cfg, s, e) && CoveredAt(s.world, name)
    requires var g' := Apply(cfg, s, e).world.gce;
             name in g'.instances ==> !Uncovers(s, e, g'.instances[name].owner)
    ensures CoveredAt(Apply(cfg, s, e).world, name)
  {
    match e
    case Call(w, c) => CallCovered(cfg, s, w, c, name);
    case Env(c) =>
      ChangeKeepsOwners(s.world, c);
      if name in Happen(s.world, c).gce.instances { ChangeCovered(cfg, s, c, name); }
    case _ => assert Apply(cfg, s, e).world == s.world;
  }

  /** An instance without its guard after event m was uncovered by it, or had lost the guard before. */
  ghost predicate Explains(states: seq<System>, events: seq<Event>, m: nat, name: string) {
    && m < |events| && |events| < |states|
    && (name in states[m + 1].world.gce.instances ==>
          var o := states[m + 1].world.gce.instances[name].owner;
          || Guards(states[m + 1].world.api, o)
          || Uncovers(states[m], events[m], o)
          || (name in states[m].world.gce.instances && states[m].world.gce.instances[name].owner == o
              && !Guards(states[m].world.api, o)))
  }

  lemma StepExplains(cfg: Config, s: System, e: Event, name: string)
    requires Accounted(s) && Enabled(cfg, s, e)
    ensures Explains([s, Apply(cfg, s, e)], [e], 0, name)
  {
    var after := Apply(cfg, s, e).world.gce.instances;
    if name in s.world.gce.instances && name in after { StepKeepsOwner(cfg, s, e, name); }
    if CoveredAt(s.world, name) && (name in after ==> !Uncovers(s, e, after[name].owner)) {
      StepCovered(cfg, s, e, name);
    }
  }

  lemma EventExplains(cfg: Config, states: seq<System>, events: seq<Event>, m: nat, name: string)
    requires Run(cfg, states, events) && m < |events|
    ensures Explains(states, events, m, name)
  {
    RunAccounted(cfg, states, events, m);
    StepExplains(cfg, states[m], events[m], name);
  }

  lemma {:induction false} LeaksExplained(states: seq<System>, events: seq<Event>, n: nat, name: string)
    requires n <= |events| < |states| && forall m: nat :: m < n ==> Explains(states, events, m, name)
    requires name !in states[0].world.gce.instances && name in states[n].world.gce.instances
    ensures var o := states[n].world.gce.instances[name].owner;
            Guards(states[n].world.api, o) || exists i :: 0 <= i < n && Uncovers(states[i], events[i], o)
  {
    assert Explains(states, events, n - 1, name);
    if name in states[n - 1].world.gce.instances { LeaksExplained(states, events, n - 1, name); }
  }

  /** In every run of any number of workers, whatever the failures, crashes and lost answers, and whoever else strips
      finalizers: an instance that is there has its record and the record the finalizer, unless one of the three ways to
      lose the guard was taken with that very record. */
  lemma UncoveredIsExplained(cfg: Config, states: seq<System>, events: seq<Event>, n: nat, name: string)
    requires Run(cfg, states, events) && n < |states| && name in states[n].world.gce.instances
    ensures var o := states[n].world.gce.instances[name].owner;
            Guards(states[n].world.api, o) || exists i :: 0 <= i < n && Uncovers(states[i], events[i], o)
  {
    forall m: nat | m < n ensures Explains(states, events, m, name) { EventExplains(cfg, states, events, m, name); }
    LeaksExplained(states, events, n, name);
  }

  // ---- Each of the three does ----

  lemma ForsakenIsUncovered(cfg: Config, s: System, e: Event, o: Owner)
    requires Accounted(s) && Enabled(cfg, s, e) && Forsakes(s, e, o)
    ensures !CoveredAt(Apply(cfg, s, e).world, o.key.name)
  {
    var vm, t := s.PcOf(e.worker).vm, Apply(cfg, s, e).world;
    assert WorkerAccounted(s, e.worker);
    RemovalWrite(s.world.api, vm.Id(), vm);
    assert Released(t.api, vm.Id());
    assert vm.name in t.gce.instances && t.gce.instances[vm.name].owner == o;
  }

  lemma UnguardedIsUncovered(cfg: Config, s: System, e: Event, o: Owner)
    requires Enabled(cfg, s, e) && Unguards(s, e, o)
    ensures !CoveredAt(Apply(cfg, s, e).world, o.key.name)
  {}

  lemma StrayIsUncovered(cfg: Config, s: System, e: Event, o: Owner)
    requires Enabled(cfg, s, e) && Strays(s, e, o)
    ensures !CoveredAt(Apply(cfg, s, e).world, o.key.name)
  {}

  /** A run keeps every instance covered exactly when none of the three ways to lose the guard is taken. */
  lemma CoverageExactly(cfg: Config, states: seq<System>, events: seq<Event>, n: nat)
    requires Run(cfg, states, events) && n < |states|
    ensures (forall i :: 0 <= i <= n ==> Covered(states[i].world)) <==>
            (forall i, o :: 0 <= i < n ==> !Uncovers(states[i], events[i], o))
  {
    if forall i, o :: 0 <= i < n ==> !Uncovers(states[i], events[i], o) {
      forall i | 0 <= i <= n ensures Covered(states[i].world) {
        forall name | name in states[i].world.gce.instances ensures CoveredAt(states[i].world, name) {
          UncoveredIsExplained(cfg, states, events, i, name);
        }
      }
    } else {
      var i, o :| 0 <= i < n && Uncovers(states[i], events[i], o);
      var s, e := states[i], events[i];
      RunAccounted(cfg, states, events, i);
      assert Enabled(cfg, s, e) && states[i + 1] == Apply(cfg, s, e);
      if Forsakes(s, e, o) {
        ForsakenIsUncovered(cfg, s, e, o);
      } else if Unguards(s, e, o) {
        UnguardedIsUncovered(cfg, s, e, o);
      } else {
        StrayIsUncovered(cfg, s, e, o);
      }
      assert !CoveredAt(states[i + 1].world, o.key.name);
    }
  }

  // ---- Swallowed failures ----

  /** A served status write for a failed deletion that changes nothing: the key's record already says so. */
  ghost predicate Swallows(s: System, e: Event, key: Key) {
    && e.Call? && e.choice.Serve? && s.Active(e.worker) && s.KeyOf(e.worker) == key
    && var pc := s.PcOf(e.worker);
    && pc.Reporting? && pc.purpose.Deletion?
    && s.world.api.Current(pc.vm) && s.world.api.vms[pc.vm.Id()].status == Errored(pc.vm.status, pc.text)
  }

  /** A worker that swallowed a failure has an outdated copy. */
  ghost predicate Outdated(a: Api, key: Key, pc: Pc) {
    pc.Strip? && pc.reason.Swallowed? && key in a.vms && a.vms[key].uid == pc.vm.uid ==>
      pc.vm.resourceVersion < a.vms[key].resourceVersion
  }

  ghost predicate WorkerOutdated(s: System, w: nat, key: Key) {
    s.Active(w) && s.KeyOf(w) == key ==> Outdated(s.world.api, key, s.PcOf(w))
  }

  ghost predicate Secure(s: System, key: Key) { forall w :: WorkerOutdated(s, w, key) }

  lemma ReportOutdates(w: World, cfg: Config, key: Key, pc: Pc, c: Choice)
    requires Held(w.api, key, pc) && pc.Reporting? && Sensible(w, pc, c) && Reply(w, cfg, pc, c) == Written
    requires key in w.api.vms && w.api.vms[key].status != Errored(pc.vm.status, pc.text)
    ensures var a := ServedApi(w.api, pc, c); key in a.vms ==> pc.vm.resourceVersion < a.vms[key].resourceVersion
  {
    assert w.api.Current(pc.vm);
  }

  lemma CallOutdatesOwn(cfg: Config, s: System, w: nat, c: Choice)
    requires Accounted(s) && Enabled(cfg, s, Call(w, c)) && !Swallows(s, Call(w, c), s.KeyOf(w))
    requires WorkerOutdated(s, w, s.KeyOf(w))
    ensures var pc := s.PcOf(w);
            Outdated(ServedApi(s.world.api, pc, c), s.KeyOf(w), After(cfg, pc, Reply(s.world, cfg, pc, c)))
  {
    var pc, a := s.PcOf(w), Reply(s.world, cfg, s.PcOf(w), c);
    assert WorkerAccounted(s, w);
    if pc.Holds() {
      Origins.AfterKeepsCopy(cfg, pc, a);
      if pc.Reporting? && pc.purpose.Deletion? && a == Written { ReportOutdates(s.world, cfg, s.KeyOf(w), pc, c); }
    }
  }

  lemma EvolutionOutdates(a: Api, a': Api, key: Key, pc: Pc)
    requires Held(a, key, pc) && Outdated(a, key, pc) && Evolves(a, a', key)
    ensures Outdated(a', key, pc)
  {}

  lemma CallSecure(cfg: Config, s: System, w: nat, c: Choice, key: Key)
    requires Accounted(s) && Secure(s, key) && Enabled(cfg, s, Call(w, c)) && !Swallows(s, Call(w, c), key)
    ensures Secure(Apply(cfg, s, Call(w, c)), key)
  {
    var t := Apply(cfg, s, Call(w, c));
    assert WorkerAccounted(s, w) && WorkerOutdated(s, w, key);
    forall v ensures WorkerOutdated(t, v, key) {
      if t.Active(v) && t.KeyOf(v) == key {
        if v == w {
          CallOutdatesOwn(cfg, s, w, c);
        } else {
          assert WorkerAccounted(s, v) && WorkerOutdated(s, v, key);
          CallEvolves(s.world.api, s.KeyOf(w), s.PcOf(w), c, key);
          EvolutionOutdates(s.world.api, t.world.api, key, s.PcOf(v));
        }
      }
    }
  }

  lemma ChangeSecure(cfg: Config, s: System, c: Change, key: Key)
    requires Accounted(s) && Secure(s, key) && Enabled(cfg, s, Env(c))
    ensures Secure(Apply(cfg, s, Env(c)), key)
  {
    var t := Apply(cfg, s, Env(c));
    ChangeEvolves(s.world, c, key);
    forall v ensures WorkerOutdated(t, v, key) {
      if t.Active(v) && t.KeyOf(v) == key {
        assert WorkerAccounted(s, v) && WorkerOutdated(s, v, key);
        EvolutionOutdates(s.world.api, t.world.api, key, s.PcOf(v));
      }
    }
  }

  lemma QueueSecure(cfg: Config, s: System, e: Event, key: Key)
    requires Secure(s, key) && Enabled(cfg, s, e) && !e.Call? && !e.Env?
    ensures Secure(Apply(cfg, s, e), key)
  {
    var t := Apply(cfg, s, e);
    assert t.world == s.world;
    forall v ensures WorkerOutdated(t, v, key) { assert WorkerOutdated(s, v, key); }
  }

  lemma {:induction false} RunSecure(cfg: Config, states: seq<System>, events: seq<Event>, n: nat, key: Key)
    requires Run(cfg, states, events) && n < |states|
    requires forall i :: 0 <= i < n ==> !Swallows(states[i], events[i], key)
    ensures Secure(states[n], key)
  {
    if n > 0 {
      RunSecure(cfg, states, events, n - 1, key);
      RunAccounted(cfg, states, events, n - 1);
      var s, e := states[n - 1], events[n - 1];
      assert !Swallows(s, e, key);
      match e
      case Call(w, c) => CallSecure(cfg, s, w, c, key);
      case Env(c) => ChangeSecure(cfg, s, c, key);
      case _ => QueueSecure(cfg, s, e, key);
    }
  }

  lemma SecureDoesNotForsake(s: System, e: Event, o: Owner)
    requires Accounted(s) && Secure(s, o.key)
    ensures !Forsakes(s, e, o)
  {
    if e.Call? && s.Active(e.worker) { assert WorkerAccounted(s, e.worker) && WorkerOutdated(s, e.worker, o.key); }
  }

  /** The controller itself costs an instance its guard only after it has swallowed a failure to delete it. */
  lemma ForsakesAfterSwallowing(cfg: Config, states: seq<System>, events: seq<Event>, n: nat, o: Owner)
    requires Run(cfg, states, events) && n < |events| && Forsakes(states[n], events[n], o)
    ensures exists i :: 0 <= i < n && Swallows(states[i], events[i], o.key)
  {
    if forall i :: 0 <= i < n ==> !Swallows(states[i], events[i], o.key) {
      RunSecure(cfg, states, events, n, o.key);
      RunAccounted(cfg, states, events, n);
      SecureDoesNotForsake(states[n], events[n], o);
    }
  }
}
