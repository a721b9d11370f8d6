/** A run from the empty system to a secret that does not open its instance: one record, one instance
    lost in between. */
module Disagreement {
  import opened Types
  import opened Protocol
  import WorkQueues
  import opened Worlds
  import opened Systems
  import Machines
  import Reconciles
  import Agreement
  import opened Convergence
  import QuietRun
  import opened Reachable

  lemma {:induction false} LeadsReached(cfg: Config, v: nat, s: System, events: seq<Event>, t: System)
    requires Reached(cfg, s) && QuietRun.Leads(cfg, v, s, events, t)
    ensures Reached(cfg, t)
    decreases |events|
  {
    if events != [] {
      Extend(cfg, s, events[0]);
      LeadsReached(cfg, v, Apply(cfg, s, events[0]), events[1..], t);
    }
  }

  /** A fault-free reconcile is part of a run. */
  lemma QuietReached(cfg: Config, w: World, q: WorkQueues.Queue<Key>, key: Key, s: Setting, n: nat)
    requires Reached(cfg, Lone(w, q, Busy(key, Running(Begin(key))))) && Line(s.pair.pub) && s.pair.pub !in w.used
    ensures var (w', pc) := Quiet(cfg, w, Begin(key), s, n); Reached(cfg, Lone(w', q, Busy(key, Running(pc))))
  {
    var start := Lone(w, q, Busy(key, Running(Begin(key))));
    var (w', pc) := Quiet(cfg, w, Begin(key), s, n);
    QuietRun.QuietIsPossible(cfg, 0, start, s, n);
    var end := QuietRun.Placed(start, 0, w', pc);
    assert end == Lone(w', q, Busy(key, Running(pc)));
    var events :| QuietRun.Leads(cfg, 0, start, events, end);
    LeadsReached(cfg, 0, start, events, end);
  }

  /** A fault-free reconcile generates no key but the setting's. */
  lemma {:induction false} QuietUses(cfg: Config, w: World, pc: Pc, s: Setting, n: nat)
    ensures Quiet(cfg, w, pc, s, n).0.used <= w.used + {s.pair.pub}
    decreases n
  {
    if n > 0 && !pc.Returned? {
      var v, c := QuietWorld(w, pc, s), Smooth(pc, s);
      QuietUses(cfg, Served(v, cfg, pc, c), Reconciles.Next(cfg, v, pc, c), s, n - 1);
    }
  }

  // ---- The example ----

  const CALLS: nat := 9
  const FIRST := Setting("192.0.2.1", PAIR, [])
  const SECOND := Setting("192.0.2.2", Keypair("another", "another\n"), [])

  function Completed(cfg: Config): World { Quiet(cfg, WithRecord(), Begin(KEY), FIRST, CALLS).0 }

  function Bereft(cfg: Config): World { Completed(cfg).(gce := Completed(cfg).gce.Remove(KEY.name)) }

  lemma FirstCompletes(cfg: Config)
    ensures var w := Completed(cfg);
            && Quiet(cfg, WithRecord(), Begin(KEY), FIRST, CALLS).1 == Returned(Nil)
            && Live(w, KEY) && Machines.MachinesOk(w.gce) && KEY.name in w.gce.instances && w.used <= {PAIR.pub}
            && KEY in w.secrets && w.secrets[KEY].pub == PAIR.pub
  {
    OneReconcileCompletes(cfg, WithRecord(), KEY, FIRST, CALLS);
    QuietUses(cfg, WithRecord(), Begin(KEY), FIRST, CALLS);
    assert {} + {PAIR.pub} == {PAIR.pub};
  }

  lemma CompletedReached(cfg: Config)
    ensures Reached(cfg, Lone(Completed(cfg), WorkQueues.Empty(), Idle))
  {
    RecordCreated(cfg);
    QuietReached(cfg, WithRecord(), Processing(KEY, map[]), KEY, FIRST, CALLS);
    FirstCompletes(cfg);
    TurnEnds(cfg, Completed(cfg), KEY);
  }

  lemma InstanceLost(cfg: Config, w: World, name: string)
    requires Reached(cfg, Lone(w, WorkQueues.Empty(), Idle)) && name in w.gce.instances
    ensures Reached(cfg, Lone(w.(gce := w.gce.Remove(name)), WorkQueues.Empty(), Idle))
  {
    ExtendTo(cfg, Lone(w, WorkQueues.Empty(), Idle), Env(Vanish(name)),
             Lone(w.(gce := w.gce.Remove(name)), WorkQueues.Empty(), Idle));
  }

  lemma BereftReached(cfg: Config)
    ensures Reached(cfg, Lone(Bereft(cfg), Processing(KEY, map[]), Busy(KEY, Running(Begin(KEY)))))
  {
    CompletedReached(cfg);
    FirstCompletes(cfg);
    InstanceLost(cfg, Completed(cfg), KEY.name);
    TurnStarts(cfg, Bereft(cfg), KEY);
  }

  lemma BereftDisagrees(cfg: Config)
    ensures !Agreement.Agrees(Quiet(cfg, Bereft(cfg), Begin(KEY), SECOND, CALLS).0, KEY)
  {
    FirstCompletes(cfg);
    Machines.RemoveOk(Completed(cfg).gce, KEY.name);
    OneReconcileCompletes(cfg, Bereft(cfg), KEY, SECOND, CALLS);
    if FormatKey(SECOND.pair.pub) == FormatKey(PAIR.pub) { Agreement.FormatInjective(SECOND.pair.pub, PAIR.pub); }
  }

  /** Secret and instance do not always agree: a fair run under unique names, from the empty system, with nothing
      against it but that the instance is lost once, ends with a secret that does not open the instance. */
  lemma DisagreementIsReachable(cfg: Config)
    ensures exists s :: Reached(cfg, s) && !Agreement.Agrees(s.world, KEY)
  {
    BereftReached(cfg);
    FirstCompletes(cfg);
    QuietReached(cfg, Bereft(cfg), Processing(KEY, map[]), KEY, SECOND, CALLS);
    BereftDisagrees(cfg);
    var (w, pc) := Quiet(cfg, Bereft(cfg), Begin(KEY), SECOND, CALLS);
    var s := Lone(w, Processing(KEY, map[]), Busy(KEY, Running(pc)));
    assert Reached(cfg, s) && !Agreement.Agrees(s.world, KEY);
  }
}
