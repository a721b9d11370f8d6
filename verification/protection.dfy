/** What the finalizer protects while only the controller strips it: an instance never outlives the guard of the record
    it was made for, except through a deletion whose failure was recorded in vain. */
module Protection {
  import opened Types
  import opened Protocol
  import Worlds
  import opened Systems
  import Scheduling
  import opened Records
  import opened Removals
  import opened Coverage

  /** Users may edit and delete records, and add finalizers, but leave the removal of ours to the controller. */
  ghost predicate Fair(s: System, e: Event) {
    e.Env? ==> Benign(s.world.api, e.change)
  }

  ghost predicate FairRun(cfg: Config, states: seq<System>, events: seq<Event>) {
    Run(cfg, states, events) && forall i :: 0 <= i < |events| ==> Fair(states[i], events[i])
  }

  /** The record behind a worker's copy is there, guarded. */
  ghost predicate WorkerKept(s: System, w: nat) {
    s.Active(w) ==> Kept(s.world.api, s.KeyOf(w), s.PcOf(w))
  }

  ghost predicate Sound(s: System) {
    Accounted(s) && GuardsOk(s.world.api) && forall w :: WorkerKept(s, w)
  }

  lemma CallSound(cfg: Config, s: System, w: nat, c: Worlds.Choice)
    requires Sound(s) && Enabled(cfg, s, Call(w, c))
    ensures Sound(Apply(cfg, s, Call(w, c)))
  {
    var t, key, pc := Apply(cfg, s, Call(w, c)), s.KeyOf(w), s.PcOf(w);
    StepAccounted(cfg, s, Call(w, c));
    assert WorkerAccounted(s, w) && WorkerKept(s, w);
    CallKeepsGuards(s.world.api, pc, c);
    forall v ensures WorkerKept(t, v) {
      if v == w {
        CallKeepsKept(s.world, cfg, key, pc, c);
      } else if t.Active(v) {
        assert WorkerKept(s, v) && WorkerAccounted(s, v);
        Scheduling.OthersHaveOtherKeys(s, v, w);
        CallKeepsGuard(s.world.api, key, pc, c, s.KeyOf(v));
      }
    }
  }

  lemma ChangeSound(cfg: Config, s: System, c: Worlds.Change)
    requires Sound(s) && Enabled(cfg, s, Env(c)) && Fair(s, Env(c))
    ensures Sound(Apply(cfg, s, Env(c)))
  {
    var t := Apply(cfg, s, Env(c));
    StepAccounted(cfg, s, Env(c));
    ChangeKeepsGuards(s.world, c);
    forall w ensures WorkerKept(t, w) {
      if t.Active(w) {
        assert WorkerKept(s, w);
        ChangeKeepsGuard(s.world, c, s.KeyOf(w));
      }
    }
  }

  lemma QueueSound(cfg: Config, s: System, e: Event)
    requires Sound(s) && Enabled(cfg, s, e) && !e.Call? && !e.Env?
    ensures Sound(Apply(cfg, s, e))
  {
    var t := Apply(cfg, s, e);
    StepAccounted(cfg, s, e);
    forall w ensures WorkerKept(t, w) { assert WorkerKept(s, w); }
  }

  lemma {:induction false} RunSound(cfg: Config, states: seq<System>, events: seq<Event>, n: nat)
    requires FairRun(cfg, states, events) && n < |states|
    ensures Sound(states[n])
  {
    if n > 0 {
      RunSound(cfg, states, events, n - 1);
      var s, e := states[n - 1], events[n - 1];
      assert Fair(s, e);
      match e
      case Call(w, c) => CallSound(cfg, s, w, c);
      case Env(c) => ChangeSound(cfg, s, c);
      case _ => QueueSound(cfg, s, e);
    }
  }

  /** Only one of the three ways to lose the guard is left. */
  lemma FairUncovers(s: System, e: Event, o: Worlds.Owner)
    requires Sound(s) && Fair(s, e)
    ensures Uncovers(s, e, o) <==> Forsakes(s, e, o)
  {
    if e.Call? && s.Active(e.worker) { assert WorkerKept(s, e.worker) && WorkerAccounted(s, e.worker); }
  }

  /** In every run of any number of workers, whatever the failures, crashes and lost answers: an instance that is there
      has its record and the record the finalizer, unless a removal for that very record passed the guards of the path
      that leaks, a failure to delete its instance having been swallowed before. */
  lemma NoLeakedInstance(cfg: Config, states: seq<System>, events: seq<Event>, n: nat, name: string)
    requires FairRun(cfg, states, events) && n < |states| && name in states[n].world.gce.instances
    ensures var w, o := states[n].world, states[n].world.gce.instances[name].owner;
            && (Guards(w.api, o) || exists i :: 0 <= i < n && Forsakes(states[i], events[i], o))
            && (Guards(w.api, o) || exists i :: 0 <= i < n && Swallows(states[i], events[i], o.key))
  {
    UncoveredIsExplained(cfg, states, events, n, name);
    var o := states[n].world.gce.instances[name].owner;
    if !Guards(states[n].world.api, o) {
      var i :| 0 <= i < n && Uncovers(states[i], events[i], o);
      RunSound(cfg, states, events, i);
      assert Fair(states[i], events[i]);
      FairUncovers(states[i], events[i], o);
      ForsakesAfterSwallowing(cfg, states, events, i, o);
    }
  }

  /** A run keeps every instance covered exactly when no removal passes all of those guards. */
  lemma LeaksExactly(cfg: Config, states: seq<System>, events: seq<Event>, n: nat)
    requires FairRun(cfg, states, events) && n < |states|
    ensures (forall i :: 0 <= i <= n ==> Covered(states[i].world)) <==>
            (forall i, o :: 0 <= i < n ==> !Forsakes(states[i], events[i], o))
  {
    forall i, o | 0 <= i < n ensures Uncovers(states[i], events[i], o) <==> Forsakes(states[i], events[i], o) {
      RunSound(cfg, states, events, i);
      assert Fair(states[i], events[i]);
      FairUncovers(states[i], events[i], o);
    }
    CoverageExactly(cfg, states, events, n);
  }
}
