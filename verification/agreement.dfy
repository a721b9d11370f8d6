/** Whether the key in the secret opens the instance: exactly when no instance is created
    over a secret that is still there. */
module Agreement {
  import opened Types
  import opened Protocol
  import opened Worlds
  import opened Systems
  import opened Machines
  import opened Origins
  import Scheduling

  // ---- The format of the metadata ----

  /** The key inside the ssh-keys metadata: what stands between "user:" and " user". */
  function Unformat(sshKeys: string): string
    requires |sshKeys| >= 2 * |SSH_USER| + 2
  {
    sshKeys[|SSH_USER| + 1..|sshKeys| - |SSH_USER| - 1]
  }

  /** Stripping the formatting recovers the key, so different keys have different metadata. */
  lemma FormatRoundTrip(pub: string)
    requires Line(pub)
    ensures |FormatKey(pub)| >= 2 * |SSH_USER| + 2 && Unformat(FormatKey(pub)) + "\n" == pub
  {
    var formatted, trimmed := FormatKey(pub), TrimNewline(pub);
    assert Unformat(formatted) == trimmed;
    assert pub == trimmed + [pub[|pub| - 1]];
  }

  lemma FormatInjective(p: string, q: string)
    requires Line(p) && Line(q) && FormatKey(p) == FormatKey(q)
    ensures p == q
  {
    FormatRoundTrip(p);
    FormatRoundTrip(q);
  }

  // ---- Agreement ----

  /** If an instance and the secret of its record both exist, the secret's key is the instance's. */
  ghost predicate Agrees(w: World, key: Key) {
    key in w.secrets && key.name in w.gce.instances ==>
      w.gce.instances[key.name].sshKeys == FormatKey(w.secrets[key].pub)
  }

  /** An instance is created although a secret for its record is still there. */
  ghost predicate Overwrites(s: System, e: Event, key: Key) {
    && e.Call? && s.Active(e.worker) && e.choice.Takes()
    && var pc := s.PcOf(e.worker);
    && pc.Issue? && pc.create && pc.vm.Id() == key && key.name !in s.world.gce.instances && key in s.world.secrets
  }

  /** Names are unique across namespaces: `home` says where each name may be used. */
  ghost predicate Homed(home: string -> string, key: Key) { key.namespace == home(key.name) }

  ghost predicate HomedRun(cfg: Config, home: string -> string, states: seq<System>, events: seq<Event>) {
    && Run(cfg, states, events)
    && forall i :: 0 <= i < |events| && events[i].Env? && events[i].change.Create? ==> Homed(home, events[i].change.key)
  }

  // ---- What is known of keys in every run ----

  function PairOf(pc: Pc): Option<Keypair> {
    match pc
    case Issue(_, _, pair) => Some(pair)
    case Pausing(_, purpose, _) => if purpose.Keying? then Some(purpose.pair) else None
    case Polling(_, purpose, _) => if purpose.Keying? then Some(purpose.pair) else None
    case Confirm(_, pair) => Some(pair)
    case Publish(_, pair, _, _) => Some(pair)
    case _ => None
  }

  ghost predicate KnowsPair(w: World, key: Key, pc: Pc) {
    && (PairOf(pc).Some? ==> Line(PairOf(pc).value.pub) && PairOf(pc).value.pub in w.used)
    && (pc.Issue? && pc.create && key in w.secrets ==> w.secrets[key].pub != pc.pair.pub)
  }

  ghost predicate WorkerKnows(s: System, w: nat) {
    s.Active(w) ==> KnowsPair(s.world, s.KeyOf(w), s.PcOf(w))
  }

  /** Every key in a secret was generated, and so was every key a worker has. */
  ghost predicate Known(s: System) {
    && (forall key :: key in s.world.secrets ==>
          Line(s.world.secrets[key].pub) && s.world.secrets[key].pub in s.world.used)
    && (forall w :: WorkerKnows(s, w))
  }

  lemma CallKnowsPair(w: World, cfg: Config, key: Key, pc: Pc, c: Choice)
    requires KnowsPair(w, key, pc) && Sensible(w, pc, c)
    requires pc.MakeKey? && key in w.secrets ==> w.secrets[key].pub in w.used
    ensures KnowsPair(Served(w, cfg, pc, c), key, After(cfg, pc, Reply(w, cfg, pc, c)))
  {}

  lemma OthersKeepPair(w: World, cfg: Config, actor: Pc, c: Choice, key: Key, pc: Pc)
    requires KnowsPair(w, key, pc) && (actor.Holds() ==> actor.vm.Id() != key)
    ensures KnowsPair(Served(w, cfg, actor, c), key, pc)
  {}

  lemma CallKnown(cfg: Config, s: System, w: nat, c: Choice)
    requires Grounded(s) && Known(s) && Enabled(cfg, s, Call(w, c))
    ensures Known(Apply(cfg, s, Call(w, c)))
  {
    var t, key, pc := Apply(cfg, s, Call(w, c)), s.KeyOf(w), s.PcOf(w);
    assert WorkerCarries(s, w) && WorkerKnows(s, w);
    CallKnowsSecrets(s.world, cfg, key, pc, c);
    CallKnowsPair(s.world, cfg, key, pc, c);
    forall v ensures WorkerKnows(t, v) {
      if v != w && t.Active(v) {
        assert s.Active(v) && WorkerKnows(s, v);
        Scheduling.OthersHaveOtherKeys(s, v, w);
        OthersKeepPair(s.world, cfg, pc, c, s.KeyOf(v), s.PcOf(v));
      }
    }
  }

  lemma CallKnowsSecrets(w: World, cfg: Config, key: Key, pc: Pc, c: Choice)
    requires KnowsPair(w, key, pc) && (pc.Holds() ==> pc.vm.Id() == key)
    ensures var w' := Served(w, cfg, pc, c);
            forall k :: k in w'.secrets ==>
              || (k in w.secrets && w'.secrets[k] == w.secrets[k])
              || (k == key && pc.Holds() && Line(w'.secrets[k].pub) && w'.secrets[k].pub in w'.used)
  {}

  lemma ChangeKnown(cfg: Config, s: System, c: Change)
    requires Known(s) && Enabled(cfg, s, Env(c))
    ensures Known(Apply(cfg, s, Env(c)))
  {
    var t := Apply(cfg, s, Env(c));
    forall v ensures WorkerKnows(t, v) { assert WorkerKnows(s, v); }
  }

  lemma QueueKnown(cfg: Config, s: System, e: Event)
    requires Known(s) && Enabled(cfg, s, e) && !e.Call? && !e.Env?
    ensures Known(Apply(cfg, s, e))
  {
    var t := Apply(cfg, s, e);
    forall v ensures WorkerKnows(t, v) { assert WorkerKnows(s, v); }
  }

  lemma {:induction false} RunKnown(cfg: Config, states: seq<System>, events: seq<Event>, n: nat)
    requires Run(cfg, states, events) && n < |states|
    ensures Known(states[n])
  {
    if n > 0 {
      RunKnown(cfg, states, events, n - 1);
      RunGrounded(cfg, states, events, n - 1);
      var s, e := states[n - 1], events[n - 1];
      match e
      case Call(w, c) => CallKnown(cfg, s, w, c);
      case Env(c) => ChangeKnown(cfg, s, c);
      case _ => QueueKnown(cfg, s, e);
    }
  }

  /** Records, secrets and the copies that workers act on have their homes. */
  ghost predicate AllHomed(home: string -> string, s: System) {
    && (forall key :: key in s.world.api.vms ==> Homed(home, key))
    && (forall key :: key in s.world.secrets ==> Homed(home, key))
    && (forall w :: WorkerHomed(home, s, w))
  }

  ghost predicate WorkerHomed(home: string -> string, s: System, w: nat) {
    s.Active(w) && s.PcOf(w).Holds() ==> Homed(home, s.KeyOf(w))
  }

  lemma CallKeepsKeys(a: Api, pc: Pc, c: Choice)
    ensures ServedApi(a, pc, c).vms.Keys <= a.vms.Keys
  {}

  lemma CallHomed(cfg: Config, home: string -> string, s: System, w: nat, c: Choice)
    requires Grounded(s) && AllHomed(home, s) && Enabled(cfg, s, Call(w, c))
    ensures AllHomed(home, Apply(cfg, s, Call(w, c)))
  {
    var t, key, pc := Apply(cfg, s, Call(w, c)), s.KeyOf(w), s.PcOf(w);
    assert WorkerCarries(s, w) && WorkerHomed(home, s, w);
    CallKeepsKeys(s.world.api, pc, c);
    CallHomesSecrets(s.world.secrets, key, pc, c);
    CallHomesCopy(s.world, cfg, key, pc, c);
    forall v ensures WorkerHomed(home, t, v) { assert WorkerHomed(home, s, v); }
  }

  lemma CallHomesSecrets(secrets: map<Key, Secret>, key: Key, pc: Pc, c: Choice)
    requires pc.Holds() ==> pc.vm.Id() == key
    ensures forall k :: k in ServedSecrets(secrets, pc, c) ==> k in secrets || (k == key && pc.Holds())
  {}

  lemma CallHomesCopy(w: World, cfg: Config, key: Key, pc: Pc, c: Choice)
    requires Sensible(w, pc, c) && (pc.Begin? ==> pc.key == key)
    ensures After(cfg, pc, Reply(w, cfg, pc, c)).Holds() ==> pc.Holds() || key in w.api.vms
  {}

  lemma ChangeHomed(cfg: Config, home: string -> string, s: System, c: Change)
    requires AllHomed(home, s) && Enabled(cfg, s, Env(c)) && (c.Create? ==> Homed(home, c.key))
    ensures AllHomed(home, Apply(cfg, s, Env(c)))
  {
    var t := Apply(cfg, s, Env(c));
    forall v ensures WorkerHomed(home, t, v) { assert WorkerHomed(home, s, v); }
  }

  lemma QueueHomed(cfg: Config, home: string -> string, s: System, e: Event)
    requires AllHomed(home, s) && Enabled(cfg, s, e) && !e.Call? && !e.Env?
    ensures AllHomed(home, Apply(cfg, s, e))
  {
    var t := Apply(cfg, s, e);
    forall v ensures WorkerHomed(home, t, v) { assert WorkerHomed(home, s, v); }
  }

  lemma {:induction false} RunHomed(cfg: Config, home: string -> string, states: seq<System>, events: seq<Event>,
                                    n: nat)
    requires HomedRun(cfg, home, states, events) && n < |states|
    ensures AllHomed(home, states[n])
  {
    if n > 0 {
      RunHomed(cfg, home, states, events, n - 1);
      RunGrounded(cfg, states, events, n - 1);
      var s, e := states[n - 1], events[n - 1];
      match e
      case Call(w, c) => CallHomed(cfg, home, s, w, c);
      case Env(c) => ChangeHomed(cfg, home, s, c);
      case _ => QueueHomed(cfg, home, s, e);
    }
  }

  /** A secret that an instance is created over does not open it. */
  lemma OverwritingDisagrees(cfg: Config, s: System, e: Event, key: Key)
    requires Grounded(s) && Known(s) && Enabled(cfg, s, e) && Overwrites(s, e, key)
    ensures !Agrees(Apply(cfg, s, e).world, key)
  {
    var w, t := e.worker, Apply(cfg, s, e).world;
    var pc := s.PcOf(w);
    assert WorkerCarries(s, w) && WorkerKnows(s, w);
    assert key in t.secrets && t.gce.instances[key.name].sshKeys == FormatKey(pc.pair.pub);
    var left := s.world.secrets[key].pub;
    if FormatKey(pc.pair.pub) == FormatKey(left) { FormatInjective(pc.pair.pub, left); }
  }

  // ---- What holds as long as nothing is overwritten ----

  ghost predicate NoRekeys(i: Instance) { forall t :: t in i.jobs ==> !t.effect.Rekey? }

  /** The operation a worker waits for is the last on its instance, and will give it the worker's key. */
  ghost predicate Settling(g: Gce, name: string, op: OpId, sshKeys: string) {
    && op.instance == name && op in g.ops
    && (name in g.instances ==>
          var i := g.instances[name];
          match g.ops[op]
          case Pending =>
            && i.jobs != [] && i.jobs[|i.jobs| - 1].id == op
            && (|| i.jobs[|i.jobs| - 1].effect == Rekey(sshKeys)
                || (i.jobs == [Job(op, Launch)] && i.sshKeys == sshKeys))
          case Finished(errors) => errors == [] ==> i.jobs == [] && i.sshKeys == sshKeys)
  }

  ghost predicate Settled(g: Gce, name: string, sshKeys: string) {
    name in g.instances ==> g.instances[name].jobs == [] && g.instances[name].sshKeys == sshKeys
  }

  /** A worker that gives an instance a key has no secret to contradict it. */
  ghost predicate Unpublished(secrets: map<Key, Secret>, key: Key, pc: Pc) {
    match pc
    case MakeKey(_, create) => create || key !in secrets
    case Issue(_, create, _) => create || key !in secrets
    case Pausing(_, purpose, _) => purpose.Deletion? || key !in secrets
    case Polling(_, purpose, _) => purpose.Deletion? || key !in secrets
    case Confirm(_, _) => key !in secrets
    case Publish(_, _, _, _) => key !in secrets
    case _ => true
  }

  ghost predicate Installs(g: Gce, key: Key, pc: Pc) {
    && (Waits(pc) && pc.purpose.Keying? ==> Settling(g, key.name, pc.op, FormatKey(pc.purpose.pair.pub)))
    && (pc.Confirm? || pc.Publish? ==> Settled(g, key.name, FormatKey(pc.pair.pub)))
  }

  ghost predicate WorkerInstalls(s: System, w: nat) {
    s.Active(w) ==> Installs(s.world.gce, s.KeyOf(w), s.PcOf(w))
  }

  ghost predicate AllInstall(s: System) { forall w :: WorkerInstalls(s, w) }

  ghost predicate WorkerUnpublished(s: System, w: nat, key: Key) {
    s.Active(w) && s.KeyOf(w) == key ==> Unpublished(s.world.secrets, key, s.PcOf(w))
  }

  ghost predicate Steady(w: World, key: Key) {
    key in w.secrets && key.name in w.gce.instances ==>
      NoRekeys(w.gce.instances[key.name]) && w.gce.instances[key.name].sshKeys == FormatKey(w.secrets[key].pub)
  }

  ghost predicate Agreed(s: System, key: Key) {
    Steady(s.world, key) && forall w :: WorkerUnpublished(s, w, key)
  }

  // ---- The instance of a name, under the calls of its own worker ----

  lemma IssueInstalls(w: World, cfg: Config, key: Key, pc: Pc, c: Choice)
    requires MachinesOk(w.gce) && pc.Issue? && pc.vm.Id() == key && Sensible(w, pc, c)
    ensures Installs(ServedGce(w.gce, cfg, pc, c), key, After(cfg, pc, Reply(w, cfg, pc, c)))
  {}

  lemma PollInstalls(w: World, cfg: Config, key: Key, pc: Pc, c: Choice)
    requires Installs(w.gce, key, pc) && (pc.Polling? || pc.Pausing?) && Sensible(w, pc, c)
    ensures Installs(w.gce, key, After(cfg, pc, Reply(w, cfg, pc, c)))
  {}

  lemma OtherInstalls(w: World, cfg: Config, key: Key, pc: Pc, c: Choice)
    requires Installs(w.gce, key, pc) && !pc.Issue? && !pc.Polling? && !pc.Pausing? && !pc.DeleteIssue?
    requires Sensible(w, pc, c)
    ensures Installs(ServedGce(w.gce, cfg, pc, c), key, After(cfg, pc, Reply(w, cfg, pc, c)))
  {}

  lemma CallInstalls(w: World, cfg: Config, key: Key, pc: Pc, c: Choice)
    requires MachinesOk(w.gce) && Installs(w.gce, key, pc) && (pc.Holds() ==> pc.vm.Id() == key) && Sensible(w, pc, c)
    ensures Installs(ServedGce(w.gce, cfg, pc, c), key, After(cfg, pc, Reply(w, cfg, pc, c)))
  {
    match pc
    case Issue(_, _, _) => IssueInstalls(w, cfg, key, pc, c);
    case Polling(_, _, _) => PollInstalls(w, cfg, key, pc, c);
    case Pausing(_, _, _) => PollInstalls(w, cfg, key, pc, c);
    case DeleteIssue(_) =>
    case Returned(_) =>
    case _ => OtherInstalls(w, cfg, key, pc, c);
  }

  /** The secret is looked for before a key is replaced; only the creation of an instance does not ask. */
  lemma CallUnpublished(w: World, cfg: Config, key: Key, pc: Pc, c: Choice)
    requires Unpublished(w.secrets, key, pc) && (pc.Holds() ==> pc.vm.Id() == key) && Sensible(w, pc, c)
    requires !(pc.Issue? && pc.create && c.Takes() && pc.vm.name !in w.gce.instances && key in w.secrets)
    ensures Unpublished(ServedSecrets(w.secrets, pc, c), key, After(cfg, pc, Reply(w, cfg, pc, c)))
  {}

  lemma CallSteady(w: World, cfg: Config, key: Key, pc: Pc, c: Choice)
    requires Steady(w, key) && (pc.Holds() ==> pc.vm.Id() == key)
    requires Unpublished(w.secrets, key, pc) && Installs(w.gce, key, pc)
    requires !(pc.Issue? && pc.create && c.Takes() && pc.vm.name !in w.gce.instances && key in w.secrets)
    ensures Steady(Served(w, cfg, pc, c), key)
  {}

  // ---- The instance of a name, under everybody else ----

  /** Calls for one name do not reach the instances of another. */
  ghost predicate SameMachine(g: Gce, g': Gce, name: string) {
    && (name in g'.instances <==> name in g.instances)
    && (name in g.instances ==> g'.instances[name] == g.instances[name])
    && (forall op :: op in g.ops && op.instance == name ==> op in g'.ops && g'.ops[op] == g.ops[op])
  }

  lemma CallElsewhere(g: Gce, cfg: Config, pc: Pc, c: Choice, name: string)
    requires pc.Holds() ==> pc.vm.name != name
    ensures SameMachine(g, ServedGce(g, cfg, pc, c), name)
  {}

  lemma SameInstalls(g: Gce, g': Gce, key: Key, pc: Pc)
    requires Installs(g, key, pc) && SameMachine(g, g', key.name)
    ensures Installs(g', key, pc)
  {}

  lemma PopSettles(g: Gce, name: string, errors: seq<string>, op: OpId, sshKeys: string)
    requires MachinesOk(g) && Settling(g, name, op, sshKeys) && name in g.instances && |g.instances[name].jobs| > 1
    ensures Settling(g.Pop(name, errors), name, op, sshKeys)
  {
    var jobs := g.instances[name].jobs;
    assert MachineOk(g, name) && JobOk(g, name, jobs[0]);
    assert jobs[0].id.serial < jobs[|jobs| - 1].id.serial;
    assert jobs[1..][|jobs| - 2] == jobs[|jobs| - 1];
  }

  lemma LastSettles(g: Gce, name: string, ending: Ending, op: OpId, sshKeys: string)
    requires MachinesOk(g) && Settling(g, name, op, sshKeys) && (ending.Fail? ==> ending.errors != [])
    requires name in g.instances && |g.instances[name].jobs| == 1
    ensures Settling(g.Proceed(name, ending), name, op, sshKeys)
  {
    assert MachineOk(g, name) && JobOk(g, name, g.instances[name].jobs[0]);
  }

  lemma ProceedElsewhere(g: Gce, name: string, ending: Ending, target: string)
    requires MachinesOk(g) && name in g.instances && g.instances[name].jobs != [] && name != target
    ensures SameMachine(g, g.Proceed(name, ending), target)
  {
    assert MachineOk(g, name);
    assert JobOk(g, name, g.instances[name].jobs[0]);
  }

  lemma ProceedSettles(g: Gce, name: string, ending: Ending, target: string, op: OpId, sshKeys: string)
    requires MachinesOk(g) && Settling(g, target, op, sshKeys) && (ending.Fail? ==> ending.errors != [])
    requires name in g.instances && g.instances[name].jobs != []
    ensures Settling(g.Proceed(name, ending), target, op, sshKeys)
  {
    if name != target {
      ProceedElsewhere(g, name, ending, target);
    } else if |g.instances[name].jobs| == 1 {
      LastSettles(g, name, ending, op, sshKeys);
    } else {
      var errors := if ending.Succeed? then [] else ending.errors;
      PopSettles(g, name, errors, op, sshKeys);
    }
  }

  lemma ChangeInstalls(w: World, c: Change, key: Key, pc: Pc)
    requires MachinesOk(w.gce) && Installs(w.gce, key, pc) && Possible(w, c)
    ensures Installs(Happen(w, c).gce, key, pc)
  {
    if Waits(pc) && pc.purpose.Keying? && c.Proceed? {
      ProceedSettles(w.gce, c.name, c.ending, key.name, pc.op, FormatKey(pc.purpose.pair.pub));
    }
  }

  lemma ChangeSteady(w: World, c: Change, key: Key)
    requires Steady(w, key) && Possible(w, c)
    ensures Steady(Happen(w, c), key)
  {
    if c.Proceed? && c.name == key.name {
      var jobs := w.gce.instances[c.name].jobs;
      assert forall t :: t in jobs[1..] ==> t in jobs;
      assert jobs[0] in jobs;
    }
  }

  // ---- Runs ----

  lemma CallAllInstall(cfg: Config, home: string -> string, s: System, w: nat, c: Choice)
    requires Grounded(s) && AllHomed(home, s) && AllInstall(s) && Enabled(cfg, s, Call(w, c))
    ensures AllInstall(Apply(cfg, s, Call(w, c)))
  {
    var t, key, pc := Apply(cfg, s, Call(w, c)), s.KeyOf(w), s.PcOf(w);
    assert WorkerCarries(s, w) && WorkerInstalls(s, w);
    forall v ensures WorkerInstalls(t, v) {
      if v == w {
        CallInstalls(s.world, cfg, key, pc, c);
      } else if t.Active(v) {
        OtherWorkerInstalls(cfg, home, s, w, c, v);
      }
    }
  }

  lemma OtherWorkerInstalls(cfg: Config, home: string -> string, s: System, w: nat, c: Choice, v: nat)
    requires Grounded(s) && AllHomed(home, s) && AllInstall(s) && Enabled(cfg, s, Call(w, c)) && v != w && s.Active(v)
    ensures Installs(Served(s.world, cfg, s.PcOf(w), c).gce, s.KeyOf(v), s.PcOf(v))
  {
    assert WorkerCarries(s, w) && WorkerCarries(s, v) && WorkerInstalls(s, v);
    assert WorkerHomed(home, s, v) && WorkerHomed(home, s, w);
    Scheduling.OthersHaveOtherKeys(s, v, w);
    if s.PcOf(v).Holds() && s.PcOf(w).Holds() {
      assert s.KeyOf(v).name != s.KeyOf(w).name;
      CallElsewhere(s.world.gce, cfg, s.PcOf(w), c, s.KeyOf(v).name);
      SameInstalls(s.world.gce, Served(s.world, cfg, s.PcOf(w), c).gce, s.KeyOf(v), s.PcOf(v));
    }
  }

  lemma ChangeAllInstall(cfg: Config, s: System, c: Change)
    requires Grounded(s) && AllInstall(s) && Enabled(cfg, s, Env(c))
    ensures AllInstall(Apply(cfg, s, Env(c)))
  {
    var t := Apply(cfg, s, Env(c));
    forall v ensures WorkerInstalls(t, v) {
      assert WorkerInstalls(s, v);
      if s.Active(v) { ChangeInstalls(s.world, c, s.KeyOf(v), s.PcOf(v)); }
    }
  }

  lemma QueueAllInstall(cfg: Config, s: System, e: Event)
    requires AllInstall(s) && Enabled(cfg, s, e) && !e.Call? && !e.Env?
    ensures AllInstall(Apply(cfg, s, e))
  {
    var t := Apply(cfg, s, e);
    assert t.world == s.world;
    forall v ensures WorkerInstalls(t, v) { assert WorkerInstalls(s, v); }
  }

  /** Under unique names, the operation a worker waits for is in every state the last on its instance. */
  lemma {:induction false} RunInstalls(cfg: Config, home: string -> string, states: seq<System>, events: seq<Event>,
                                       n: nat)
    requires HomedRun(cfg, home, states, events) && n < |states|
    ensures AllInstall(states[n])
  {
    if n > 0 {
      RunInstalls(cfg, home, states, events, n - 1);
      RunGrounded(cfg, states, events, n - 1);
      RunHomed(cfg, home, states, events, n - 1);
      var s, e := states[n - 1], events[n - 1];
      match e
      case Call(w, c) => CallAllInstall(cfg, home, s, w, c);
      case Env(c) => ChangeAllInstall(cfg, s, c);
      case _ => QueueAllInstall(cfg, s, e);
    }
  }

  lemma CallAgreed(cfg: Config, home: string -> string, s: System, w: nat, c: Choice, key: Key)
    requires Grounded(s) && AllHomed(home, s) && AllInstall(s) && Agreed(s, key)
    requires Enabled(cfg, s, Call(w, c)) && !Overwrites(s, Call(w, c), key)
    ensures Agreed(Apply(cfg, s, Call(w, c)), key)
  {
    var t, pc := Apply(cfg, s, Call(w, c)), s.PcOf(w);
    assert WorkerCarries(s, w) && WorkerInstalls(s, w) && WorkerHomed(home, s, w) && WorkerUnpublished(s, w, key);
    forall v ensures WorkerUnpublished(t, v, key) {
      if t.Active(v) && t.KeyOf(v) == key {
        if v == w {
          CallUnpublished(s.world, cfg, key, pc, c);
        } else {
          assert s.Active(v) && WorkerUnpublished(s, v, key);
          Scheduling.OthersHaveOtherKeys(s, v, w);
        }
      }
    }
    if s.KeyOf(w) == key {
      CallSteady(s.world, cfg, key, pc, c);
    } else if key in t.world.secrets {
      assert key in s.world.secrets;
      CallElsewhere(s.world.gce, cfg, pc, c, key.name);
    }
  }

  lemma ChangeAgreed(cfg: Config, s: System, c: Change, key: Key)
    requires Agreed(s, key) && Enabled(cfg, s, Env(c))
    ensures Agreed(Apply(cfg, s, Env(c)), key)
  {
    var t := Apply(cfg, s, Env(c));
    forall v ensures WorkerUnpublished(t, v, key) { assert WorkerUnpublished(s, v, key); }
    ChangeSteady(s.world, c, key);
  }

  lemma QueueAgreed(cfg: Config, s: System, e: Event, key: Key)
    requires Agreed(s, key) && Enabled(cfg, s, e) && !e.Call? && !e.Env?
    ensures Agreed(Apply(cfg, s, e), key)
  {
    var t := Apply(cfg, s, e);
    assert t.world == s.world;
    forall v ensures WorkerUnpublished(t, v, key) { assert WorkerUnpublished(s, v, key); }
  }

  lemma {:induction false} RunAgreed(cfg: Config, home: string -> string, states: seq<System>, events: seq<Event>,
                                     n: nat, key: Key)
    requires HomedRun(cfg, home, states, events) && n < |states|
    requires forall i :: 0 <= i < n ==> !Overwrites(states[i], events[i], key)
    ensures Agreed(states[n], key)
  {
    if n > 0 {
      RunAgreed(cfg, home, states, events, n - 1, key);
      RunGrounded(cfg, states, events, n - 1);
      RunHomed(cfg, home, states, events, n - 1);
      RunInstalls(cfg, home, states, events, n - 1);
      var s, e := states[n - 1], events[n - 1];
      assert !Overwrites(s, e, key);
      match e
      case Call(w, c) => CallAgreed(cfg, home, s, w, c, key);
      case Env(c) => ChangeAgreed(cfg, s, c, key);
      case _ => QueueAgreed(cfg, s, e, key);
    }
  }

  /** Under unique names, whatever fails, is abandoned, gets lost or is removed from outside: a record's secret and its
      instance agree throughout a run exactly when the instance is never created while the secret is still there. */
  lemma AgreementExactly(cfg: Config, home: string -> string, states: seq<System>, events: seq<Event>, n: nat, key: Key)
    requires HomedRun(cfg, home, states, events) && n < |states|
    ensures (forall i :: 0 <= i <= n ==> Agrees(states[i].world, key)) <==>
            (forall i :: 0 <= i < n ==> !Overwrites(states[i], events[i], key))
  {
    if forall i :: 0 <= i < n ==> !Overwrites(states[i], events[i], key) {
      forall i | 0 <= i <= n ensures Agrees(states[i].world, key) {
        RunAgreed(cfg, home, states, events, i, key);
      }
    } else {
      var i :| 0 <= i < n && Overwrites(states[i], events[i], key);
      RunGrounded(cfg, states, events, i);
      RunKnown(cfg, states, events, i);
      OverwritingDisagrees(cfg, states[i], events[i], key);
      assert states[i + 1] == Apply(cfg, states[i], events[i]);
    }
  }
}
