/** What an accepted removal of the finalizer means, in every run. */
module Removals {
  import opened Types
  import opened Protocol
  import Worlds
  import opened Systems
  import Scheduling
  import Machines
  import Origins
  import Records

  /** A worker's copy is good for what it is used for, and so is its belief that the instance is gone. */
  ghost predicate WorkerAccounted(s: System, w: nat) {
    s.Active(w) ==>
      && Records.Held(s.world.api, s.KeyOf(w), s.PcOf(w))
      && Machines.Clearing(s.world.gce, s.KeyOf(w), s.PcOf(w))
  }

  ghost predicate Accounted(s: System) {
    Origins.Grounded(s) && forall w :: WorkerAccounted(s, w)
  }

  lemma CallAccounted(cfg: Config, s: System, w: nat, c: Worlds.Choice)
    requires Accounted(s) && Enabled(cfg, s, Call(w, c))
    ensures Accounted(Apply(cfg, s, Call(w, c)))
  {
    var t, key, pc := Apply(cfg, s, Call(w, c)), s.KeyOf(w), s.PcOf(w);
    Origins.StepGrounded(cfg, s, Call(w, c));
    assert WorkerAccounted(s, w) && Origins.WorkerCarries(s, w);
    forall v ensures WorkerAccounted(t, v) {
      if v == w {
        Records.CallKeepsHeld(s.world, cfg, key, pc, c);
        Machines.CallClears(s.world, cfg, key, pc, c);
      } else if t.Active(v) {
        assert WorkerAccounted(s, v);
        Scheduling.OthersHaveOtherKeys(s, v, w);
        Records.CallEvolves(s.world.api, key, pc, c, s.KeyOf(v));
        Records.HeldIsStable(s.world.api, t.world.api, s.KeyOf(v), s.PcOf(v));
        Machines.CallKeepsClearing(s.world.gce, cfg, pc, c, s.KeyOf(v), s.PcOf(v));
      }
    }
  }

  lemma ChangeAccounted(cfg: Config, s: System, c: Worlds.Change)
    requires Accounted(s) && Enabled(cfg, s, Env(c))
    ensures Accounted(Apply(cfg, s, Env(c)))
  {
    var t := Apply(cfg, s, Env(c));
    Origins.StepGrounded(cfg, s, Env(c));
    forall w ensures WorkerAccounted(t, w) {
      if t.Active(w) {
        assert WorkerAccounted(s, w);
        Records.ChangeEvolves(s.world, c, s.KeyOf(w));
        Records.HeldIsStable(s.world.api, t.world.api, s.KeyOf(w), s.PcOf(w));
        Machines.ChangeKeepsClearing(s.world, c, s.KeyOf(w), s.PcOf(w));
      }
    }
  }

  lemma QueueAccounted(cfg: Config, s: System, e: Event)
    requires Accounted(s) && Enabled(cfg, s, e) && !e.Call? && !e.Env?
    ensures Accounted(Apply(cfg, s, e))
  {
    var t := Apply(cfg, s, e);
    Origins.StepGrounded(cfg, s, e);
    forall w ensures WorkerAccounted(t, w) { assert WorkerAccounted(s, w); }
  }

  lemma StepAccounted(cfg: Config, s: System, e: Event)
    requires Accounted(s) && Enabled(cfg, s, e)
    ensures Accounted(Apply(cfg, s, e))
  {
    match e
    case Call(w, c) => CallAccounted(cfg, s, w, c);
    case Env(c) => ChangeAccounted(cfg, s, c);
    case _ => QueueAccounted(cfg, s, e);
  }

  lemma {:induction false} RunAccounted(cfg: Config, states: seq<System>, events: seq<Event>, n: nat)
    requires Run(cfg, states, events) && n < |states|
    ensures Accounted(states[n])
  {
    if n > 0 {
      RunAccounted(cfg, states, events, n - 1);
      StepAccounted(cfg, states[n - 1], events[n - 1]);
    }
  }

  /** The worker's finalizer update is accepted. */
  ghost predicate Removes(cfg: Config, s: System, e: Event) {
    && e.Call? && s.Active(e.worker) && s.PcOf(e.worker).Strip?
    && e.choice.Takes() && s.world.api.AcceptsUpdate(CallOf(cfg, s.PcOf(e.worker)).vm)
  }

  /** In every run, whoever else strips finalizers, deletes or recreates records: an accepted removal finds the record
      as this reconcile read it, and the instance gone, unless a failed deletion was swallowed; and then the record,
      when it was read, already had the failure's very message as its status. */
  lemma RemovalExplained(cfg: Config, states: seq<System>, events: seq<Event>, n: nat)
    requires Run(cfg, states, events) && n < |events| && Removes(cfg, states[n], events[n])
    ensures var s, pc := states[n], states[n].PcOf(events[n].worker);
            && s.world.api.vms[pc.vm.Id()] == pc.vm
            && (!Machines.HasInstance(s.world.gce, Worlds.Owner(pc.vm.Id(), pc.vm.uid))
                || (pc.reason.Swallowed? && pc.vm.status == Errored(pc.vm.status, pc.reason.text)))
  {
    RunAccounted(cfg, states, events, n);
    assert WorkerAccounted(states[n], events[n].worker);
  }
}
