/** The controller never strands a secret under a live record: what an instance is created over was left by others. */
module Stranding {
  import opened Types
  import opened Protocol
  import opened Worlds
  import opened Systems
  import Scheduling
  import opened Origins
  import opened Agreement

  /** What others can do to leave a secret without its instance: remove the instance other than by an operation, or use
      the name again before the secret of its last record has been collected. */
  ghost predicate Strands(s: System, e: Event, key: Key) {
    && e.Env?
    && (e.change == Vanish(key.name) || (e.change.Create? && e.change.key == key && key in s.world.secrets))
  }

  // ---- The invariant for one key ----

  ghost predicate Live(a: Api, key: Key) { key in a.vms && !a.vms[key].deleting }

  /** The instance is there and nothing in progress will remove it. */
  ghost predicate Firm(g: Gce, name: string) {
    name in g.instances && forall t :: t in g.instances[name].jobs ==> t.effect.Rekey?
  }

  ghost predicate Sheltered(w: World, key: Key) { Live(w.api, key) && key in w.secrets ==> Firm(w.gce, key.name) }

  /** A worker that deletes sees no secret under a record that has come to live again; any other one finds the instance
      firm under a secret, and there when it publishes one. */
  ghost predicate Shelters(w: World, key: Key, pc: Pc) {
    pc.Holds() ==>
      && (Deleting(pc) ==> !(Live(w.api, key) && key in w.secrets))
      && (!Deleting(pc) && key in w.secrets ==> Firm(w.gce, key.name))
      && (pc.Publish? ==> key.name in w.gce.instances)
      && (pc.vm.deleting <==> Deleting(pc))
  }

  ghost predicate WorkerShelters(s: System, w: nat, key: Key) {
    s.Active(w) && s.KeyOf(w) == key ==> Shelters(s.world, key, s.PcOf(w))
  }

  ghost predicate Safe(s: System, key: Key) {
    Sheltered(s.world, key) && forall w :: WorkerShelters(s, w, key)
  }

  // ---- The key's own worker ----

  lemma LivesOn(a: Api, pc: Pc, c: Choice, key: Key)
    ensures Live(ServedApi(a, pc, c), key) ==> Live(a, key)
  {}

  lemma DeletionShelters(w: World, cfg: Config, key: Key, pc: Pc, c: Choice)
    requires Carries(w.api, key, pc) && pc.Holds() && Deleting(pc) && Shelters(w, key, pc) && Sensible(w, pc, c)
    ensures Sheltered(Served(w, cfg, pc, c), key)
    ensures Shelters(Served(w, cfg, pc, c), key, After(cfg, pc, Reply(w, cfg, pc, c)))
  {
    LivesOn(w.api, pc, c, key);
    AfterKeepsCopy(cfg, pc, Reply(w, cfg, pc, c));
  }

  lemma IssueFirm(g: Gce, cfg: Config, pc: Pc, c: Choice)
    requires pc.Holds() && !Deleting(pc) && Firm(g, pc.vm.name)
    ensures Firm(ServedGce(g, cfg, pc, c), pc.vm.name)
  {}

  /** A secret comes only from the publication, onto an instance without operations. */
  lemma EnsuringFirm(w: World, cfg: Config, key: Key, pc: Pc, c: Choice)
    requires Carries(w.api, key, pc) && pc.Holds() && !Deleting(pc) && Shelters(w, key, pc)
    requires Installs(w.gce, key, pc)
    ensures key in Served(w, cfg, pc, c).secrets ==> Firm(Served(w, cfg, pc, c).gce, key.name)
  {
    if key in w.secrets { IssueFirm(w.gce, cfg, pc, c); }
  }

  lemma EnsuringShelters(w: World, cfg: Config, key: Key, pc: Pc, c: Choice)
    requires Carries(w.api, key, pc) && pc.Holds() && !Deleting(pc) && Shelters(w, key, pc)
    requires Installs(w.gce, key, pc) && Sensible(w, pc, c)
    ensures Sheltered(Served(w, cfg, pc, c), key)
    ensures Shelters(Served(w, cfg, pc, c), key, After(cfg, pc, Reply(w, cfg, pc, c)))
  {
    EnsuringFirm(w, cfg, key, pc, c);
    AfterKeepsCopy(cfg, pc, Reply(w, cfg, pc, c));
  }

  lemma ReadingShelters(w: World, cfg: Config, key: Key, c: Choice)
    requires Rooted(w.api) && Sheltered(w, key) && Sensible(w, Begin(key), c)
    ensures Shelters(w, key, After(cfg, Begin(key), Reply(w, cfg, Begin(key), c)))
  {
    if key in w.api.vms { assert Stems(w.api, key, w.api.vms[key]); }
  }

  lemma OwnCallSafe(cfg: Config, s: System, w: nat, c: Choice)
    requires Grounded(s) && AllInstall(s) && Enabled(cfg, s, Call(w, c)) && Safe(s, s.KeyOf(w))
    ensures Sheltered(Served(s.world, cfg, s.PcOf(w), c), s.KeyOf(w))
    ensures Shelters(Served(s.world, cfg, s.PcOf(w), c), s.KeyOf(w),
                     After(cfg, s.PcOf(w), Reply(s.world, cfg, s.PcOf(w), c)))
  {
    var key, pc := s.KeyOf(w), s.PcOf(w);
    assert WorkerCarries(s, w) && WorkerInstalls(s, w) && WorkerShelters(s, w, key);
    if pc.Begin? {
      ReadingShelters(s.world, cfg, key, c);
      assert Served(s.world, cfg, pc, c) == s.world;
    } else if Deleting(pc) {
      DeletionShelters(s.world, cfg, key, pc, c);
    } else {
      EnsuringShelters(s.world, cfg, key, pc, c);
    }
  }

  // ---- Everybody else ----

  /** The instance is the same in both worlds, and neither a live record nor a secret is new. */
  ghost predicate SameFor(w: World, w': World, key: Key) {
    && (Live(w'.api, key) ==> Live(w.api, key))
    && (key in w'.secrets ==> key in w.secrets)
    && (key.name in w'.gce.instances <==> key.name in w.gce.instances)
    && (key.name in w.gce.instances ==> w'.gce.instances[key.name] == w.gce.instances[key.name])
  }

  lemma SameIsSafe(w: World, w': World, key: Key, pc: Pc)
    requires SameFor(w, w', key)
    ensures Sheltered(w, key) ==> Sheltered(w', key)
    ensures Shelters(w, key, pc) ==> Shelters(w', key, pc)
  {}

  lemma OtherCallSame(cfg: Config, home: string -> string, s: System, w: nat, c: Choice, key: Key)
    requires Grounded(s) && AllHomed(home, s) && Homed(home, key) && Enabled(cfg, s, Call(w, c)) && s.KeyOf(w) != key
    ensures SameFor(s.world, Served(s.world, cfg, s.PcOf(w), c), key)
  {
    assert WorkerCarries(s, w) && WorkerHomed(home, s, w);
    LivesOn(s.world.api, s.PcOf(w), c, key);
    CallElsewhere(s.world.gce, cfg, s.PcOf(w), c, key.name);
  }

  lemma CallSafe(cfg: Config, home: string -> string, s: System, w: nat, c: Choice, key: Key)
    requires Grounded(s) && AllHomed(home, s) && AllInstall(s) && Homed(home, key) && Safe(s, key)
    requires Enabled(cfg, s, Call(w, c))
    ensures Safe(Apply(cfg, s, Call(w, c)), key)
  {
    var t := Apply(cfg, s, Call(w, c));
    if s.KeyOf(w) == key { OwnCallSafe(cfg, s, w, c); } else { OtherCallSame(cfg, home, s, w, c, key); }
    forall v ensures WorkerShelters(t, v, key) {
      if v != w && t.Active(v) && t.KeyOf(v) == key {
        Scheduling.OthersHaveOtherKeys(s, v, w);
        assert WorkerShelters(s, v, key);
        SameIsSafe(s.world, t.world, key, s.PcOf(v));
      }
    }
    if s.KeyOf(w) != key { SameIsSafe(s.world, t.world, key, Begin(key)); }
  }

  lemma ProceedFirm(g: Gce, name: string, ending: Ending, other: string)
    requires name in g.instances && g.instances[name].jobs != []
    ensures Firm(g, other) ==> Firm(g.Proceed(name, ending), other)
    ensures other in g.instances && g.instances[other].jobs == [] ==> other in g.Proceed(name, ending).instances
  {
    if Firm(g, other) && name == other {
      assert g.instances[name].jobs[0] in g.instances[name].jobs;
      assert forall t :: t in g.instances[name].jobs[1..] ==> t in g.instances[name].jobs;
    }
  }

  /** What others do to a firm instance and a published secret, short of stranding it. */
  lemma ChangeFirm(w: World, c: Change, key: Key)
    requires Possible(w, c) && c != Vanish(key.name)
    ensures Firm(w.gce, key.name) ==> Firm(Happen(w, c).gce, key.name)
    ensures key.name in w.gce.instances && w.gce.instances[key.name].jobs == [] ==>
            key.name in Happen(w, c).gce.instances
    ensures key in Happen(w, c).secrets ==> key in w.secrets
  {
    if c.Proceed? { ProceedFirm(w.gce, c.name, c.ending, key.name); }
  }

  lemma ChangeLive(w: World, c: Change, key: Key)
    requires Possible(w, c) && !(c.Create? && c.key == key && key in w.secrets)
    ensures Live(Happen(w, c).api, key) && key in Happen(w, c).secrets ==> Live(w.api, key) && key in w.secrets
  {}

  lemma ChangeSafe(cfg: Config, s: System, c: Change, key: Key)
    requires Safe(s, key) && AllInstall(s) && Enabled(cfg, s, Env(c)) && !Strands(s, Env(c), key)
    ensures Safe(Apply(cfg, s, Env(c)), key)
  {
    var t := Apply(cfg, s, Env(c));
    ChangeFirm(s.world, c, key);
    ChangeLive(s.world, c, key);
    forall v ensures WorkerShelters(t, v, key) { assert WorkerShelters(s, v, key) && WorkerInstalls(s, v); }
  }

  lemma QueueSafe(cfg: Config, s: System, e: Event, key: Key)
    requires Safe(s, key) && Enabled(cfg, s, e) && !e.Call? && !e.Env?
    ensures Safe(Apply(cfg, s, e), key)
  {
    var t := Apply(cfg, s, e);
    assert t.world == s.world;
    forall v ensures WorkerShelters(t, v, key) { assert WorkerShelters(s, v, key); }
  }

  lemma {:induction false} RunSafe(cfg: Config, home: string -> string, states: seq<System>, events: seq<Event>, n: nat,
                                   key: Key)
    requires HomedRun(cfg, home, states, events) && n < |states| && Homed(home, key)
    requires forall i :: 0 <= i < n ==> !Strands(states[i], events[i], key)
    ensures Safe(states[n], key)
  {
    if n > 0 {
      RunSafe(cfg, home, states, events, n - 1, key);
      RunGrounded(cfg, states, events, n - 1);
      RunHomed(cfg, home, states, events, n - 1);
      RunInstalls(cfg, home, states, events, n - 1);
      var s, e := states[n - 1], events[n - 1];
      assert !Strands(s, e, key);
      match e
      case Call(w, c) => CallSafe(cfg, home, s, w, c, key);
      case Env(c) => ChangeSafe(cfg, s, c, key);
      case _ => QueueSafe(cfg, s, e, key);
    }
  }

  lemma SafeDoesNotOverwrite(s: System, e: Event, key: Key)
    requires Grounded(s) && Safe(s, key)
    ensures !Overwrites(s, e, key)
  {
    if e.Call? && s.Active(e.worker) { assert WorkerCarries(s, e.worker) && WorkerShelters(s, e.worker, key); }
  }

  /** Under unique names: an instance is created over a secret only after others have stranded that secret. */
  lemma OverwritesExplained(cfg: Config, home: string -> string, states: seq<System>, events: seq<Event>, n: nat,
                            key: Key)
    requires HomedRun(cfg, home, states, events) && n < |events| && Overwrites(states[n], events[n], key)
    ensures exists i :: 0 <= i < n && Strands(states[i], events[i], key)
  {
    if forall i :: 0 <= i < n ==> !Strands(states[i], events[i], key) {
      RunGrounded(cfg, states, events, n);
      RunHomed(cfg, home, states, events, n);
      OverwriterHomed(home, states[n], events[n], key);
      RunSafe(cfg, home, states, events, n, key);
      SafeDoesNotOverwrite(states[n], events[n], key);
    }
  }

  lemma OverwriterHomed(home: string -> string, s: System, e: Event, key: Key)
    requires AllHomed(home, s) && Overwrites(s, e, key)
    ensures Homed(home, key)
  {}

  /** With unique names, instances removed only by operations, and secrets collected before a name is used again, the
      secret's key opens the instance in every state in which both exist: whatever fails, is lost, or is abandoned. */
  lemma UnstrandedAgree(cfg: Config, home: string -> string, states: seq<System>, events: seq<Event>, n: nat, key: Key)
    requires HomedRun(cfg, home, states, events) && n < |states|
    requires forall i :: 0 <= i < n ==> !Strands(states[i], events[i], key)
    ensures Agrees(states[n].world, key)
  {
    forall i | 0 <= i < n ensures !Overwrites(states[i], events[i], key) {
      if Overwrites(states[i], events[i], key) { OverwritesExplained(cfg, home, states, events, i, key); }
    }
    AgreementExactly(cfg, home, states, events, n, key);
  }
}
