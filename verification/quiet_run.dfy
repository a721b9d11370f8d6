/** The fault-free reconciles of Convergence and Cleanup are behaviours of the system. */
module QuietRun {
  import opened Types
  import opened Protocol
  import opened Worlds
  import opened Systems
  import Reconciles
  import opened Convergence

  /** Nothing but this worker's calls, and operations that end. */
  predicate Calm(e: Event, v: nat) {
    (e.Call? && e.worker == v) || (e.Env? && (e.change.Proceed? || e.change.Conclude?))
  }

  ghost predicate Leads(cfg: Config, v: nat, s: System, events: seq<Event>, t: System)
    decreases |events|
  {
    if events == [] then s == t
    else Enabled(cfg, s, events[0]) && Calm(events[0], v) && Leads(cfg, v, Apply(cfg, s, events[0]), events[1..], t)
  }

  ghost predicate Can(cfg: Config, v: nat, s: System, t: System) {
    exists events :: Leads(cfg, v, s, events, t)
  }

  lemma CanStay(cfg: Config, v: nat, s: System)
    ensures Can(cfg, v, s, s)
  {
    assert Leads(cfg, v, s, [], s);
  }

  lemma CanBegin(cfg: Config, v: nat, s: System, e: Event, t: System)
    requires Enabled(cfg, s, e) && Calm(e, v) && Can(cfg, v, Apply(cfg, s, e), t)
    ensures Can(cfg, v, s, t)
  {
    var events :| Leads(cfg, v, Apply(cfg, s, e), events, t);
    assert ([e] + events)[1..] == events;
    assert Leads(cfg, v, s, [e] + events, t);
  }

  lemma {:induction false} LeadsOn(cfg: Config, v: nat, s: System, events: seq<Event>, t: System, u: System)
    requires Leads(cfg, v, s, events, t) && Can(cfg, v, t, u)
    ensures Can(cfg, v, s, u)
    decreases |events|
  {
    if events != [] {
      LeadsOn(cfg, v, Apply(cfg, s, events[0]), events[1..], t, u);
      CanBegin(cfg, v, s, events[0], u);
    }
  }

  lemma CanGoOn(cfg: Config, v: nat, s: System, t: System, u: System)
    requires Can(cfg, v, s, t) && Can(cfg, v, t, u)
    ensures Can(cfg, v, s, u)
  {
    var events :| Leads(cfg, v, s, events, t);
    LeadsOn(cfg, v, s, events, t, u);
  }

  function WithGce(s: System, g: Gce): System { s.(world := s.world.(gce := g)) }

  lemma {:induction false} CanDrain(cfg: Config, v: nat, s: System, name: string)
    ensures Can(cfg, v, s, WithGce(s, Drain(s.world.gce, name)))
    decreases if name in s.world.gce.instances then |s.world.gce.instances[name].jobs| else 0
  {
    var g := s.world.gce;
    if name !in g.instances || g.instances[name].jobs == [] {
      assert WithGce(s, Drain(g, name)) == s;
      CanStay(cfg, v, s);
    } else {
      var e := Env(Change.Proceed(name, Succeed));
      CanDrain(cfg, v, WithGce(s, g.Proceed(name, Succeed)), name);
      CanBegin(cfg, v, s, e, WithGce(s, Drain(g, name)));
    }
  }

  lemma CanPause(cfg: Config, v: nat, s: System, name: string, op: OpId, ending: seq<string>)
    ensures Can(cfg, v, s, WithGce(s, Paused(s.world.gce, name, op, ending)))
  {
    var drained := Drain(s.world.gce, name);
    var t, u := WithGce(s, drained), WithGce(s, Paused(s.world.gce, name, op, ending));
    CanDrain(cfg, v, s, name);
    CanStay(cfg, v, u);
    if Stranded(drained, op) { CanBegin(cfg, v, t, Env(Change.Conclude(op, ending)), u); }
    CanGoOn(cfg, v, s, t, u);
  }

  /** The setting's key is a line, and new as long as it has not been generated. */
  ghost predicate Fresh(w: World, pc: Pc, setting: Setting) {
    && Line(setting.pair.pub)
    && (pc.Begin? || pc.EnsureLookup? || pc.EnsureSecret? || pc.MakeKey? ==> setting.pair.pub !in w.used)
  }

  lemma SmoothIsSensible(cfg: Config, w: World, pc: Pc, setting: Setting)
    requires Fresh(w, pc, setting) && !pc.Returned?
    ensures Sensible(w, pc, Smooth(pc, setting))
    ensures Fresh(Served(w, cfg, pc, Smooth(pc, setting)), Reconciles.Next(cfg, w, pc, Smooth(pc, setting)), setting)
  {}

  function Placed(s: System, v: nat, w: World, pc: Pc): System
    requires s.Active(v)
  {
    s.(world := w, workers := s.Enter(v, Running(pc)))
  }

  lemma CanCall(cfg: Config, v: nat, s: System, setting: Setting)
    requires s.Active(v) && !s.PcOf(v).Returned? && Fresh(s.world, s.PcOf(v), setting)
    ensures var pc := s.PcOf(v);
            var w := QuietWorld(s.world, pc, setting);
            var c := Smooth(pc, setting);
            Can(cfg, v, s, Placed(s, v, Served(w, cfg, pc, c), Reconciles.Next(cfg, w, pc, c)))
  {
    var pc := s.PcOf(v);
    var w, c := QuietWorld(s.world, pc, setting), Smooth(pc, setting);
    var t, u := s.(world := w), Placed(s, v, Served(w, cfg, pc, c), Reconciles.Next(cfg, w, pc, c));
    if pc.Pausing? {
      CanPause(cfg, v, s, pc.vm.name, pc.op, setting.ending);
      assert t == WithGce(s, Paused(s.world.gce, pc.vm.name, pc.op, setting.ending));
    } else {
      assert t == s;
      CanStay(cfg, v, s);
    }
    SmoothIsSensible(cfg, w, pc, setting);
    CanStay(cfg, v, u);
    CanBegin(cfg, v, t, Call(v, c), u);
    CanGoOn(cfg, v, s, t, u);
  }

  /** In any state, a worker's reconcile can go on as the fault-free one does, with nothing else happening. */
  lemma {:induction false} QuietIsPossible(cfg: Config, v: nat, s: System, setting: Setting, n: nat)
    requires s.Active(v) && Fresh(s.world, s.PcOf(v), setting)
    ensures var (w', pc') := Quiet(cfg, s.world, s.PcOf(v), setting, n); Can(cfg, v, s, Placed(s, v, w', pc'))
    decreases n
  {
    var pc := s.PcOf(v);
    if n == 0 || pc.Returned? {
      assert Placed(s, v, s.world, pc) == s by { assert s.workers[v := s.workers[v]] == s.workers; }
      CanStay(cfg, v, s);
    } else {
      var w, c := QuietWorld(s.world, pc, setting), Smooth(pc, setting);
      var t := Placed(s, v, Served(w, cfg, pc, c), Reconciles.Next(cfg, w, pc, c));
      SmoothIsSensible(cfg, w, pc, setting);
      CanCall(cfg, v, s, setting);
      QuietIsPossible(cfg, v, t, setting, n - 1);
      var (w', pc') := Quiet(cfg, s.world, pc, setting, n);
      assert Placed(t, v, w', pc') == Placed(s, v, w', pc');
      CanGoOn(cfg, v, s, t, Placed(s, v, w', pc'));
    }
  }
}
