/** Operations on instances over time: identities, order, and what a finished deletion means. */
module Machines {
  import opened Types
  import opened Protocol
  import opened Worlds

  ghost predicate JobOk(g: Gce, name: string, t: Job) {
    t.id.instance == name && t.id.serial < g.Serial(name) && t.id in g.ops && g.ops[t.id] == OpState.Pending
  }

  ghost predicate MachineOk(g: Gce, name: string) {
    && name in g.instances
    && var i := g.instances[name];
    && i.owner.key.name == name
    && i.serial < g.Serial(name)
    && (forall t :: t in i.jobs ==> JobOk(g, name, t))
    && (forall a, b :: 0 <= a < b < |i.jobs| ==> i.jobs[a].id.serial < i.jobs[b].id.serial)
  }

  /** Operations in progress are pending, numbered in order of submission, and belong to their instance. */
  ghost predicate MachinesOk(g: Gce) {
    && (forall name :: name in g.instances ==> MachineOk(g, name))
    && (forall op :: op in g.ops ==> op.serial < g.Serial(op.instance))
  }

  ghost predicate HasInstance(g: Gce, o: Owner) {
    o.key.name in g.instances && g.instances[o.key.name].owner == o
  }

  /** The deletion that a worker waits for: if it succeeds, the owner's instance is gone. */
  ghost predicate Tracked(g: Gce, o: Owner, op: OpId) {
    && op.instance == o.key.name && op in g.ops
    && (op.instance in g.instances ==>
          forall t :: t in g.instances[op.instance].jobs && t.id == op ==> t.effect == Erase)
    && (HasInstance(g, o) ==>
          && (g.ops[op] == OpState.Pending ==> Job(op, Erase) in g.instances[op.instance].jobs)
          && g.ops[op] != Finished([]))
  }

  ghost predicate Waits(pc: Pc) { pc.Pausing? || pc.Polling? }

  /** What a worker on its way to removing the finalizer knows about the instance. */
  ghost predicate Clearing(g: Gce, key: Key, pc: Pc) {
    && (pc.Strip? && !pc.reason.Swallowed? ==> !HasInstance(g, Owner(key, pc.vm.uid)))
    && (Waits(pc) && pc.purpose.Deletion? ==> Tracked(g, Owner(key, pc.vm.uid), pc.op))
  }

  // ---- Each way in which instances change ----

  lemma SubmitOk(g: Gce, name: string, effect: Effect)
    requires MachinesOk(g)
    ensures MachinesOk(g.Submit(name, effect))
  {
    var g' := g.Submit(name, effect);
    if name in g.instances {
      forall n | n in g'.instances ensures MachineOk(g', n) {
        assert MachineOk(g, n);
        assert forall a :: 0 <= a < |g.instances[n].jobs| ==> JobOk(g, n, g.instances[n].jobs[a]);
        forall t | t in g'.instances[n].jobs ensures JobOk(g', n, t) {
          assert t in g.instances[n].jobs ==> JobOk(g, n, t);
        }
      }
    }
  }

  lemma SubmitKeeps(g: Gce, name: string, effect: Effect, o: Owner, op: OpId)
    requires MachinesOk(g) && Tracked(g, o, op)
    ensures Tracked(g.Submit(name, effect), o, op)
  {}

  /** The operation just accepted on the owner's instance is the one to wait for. */
  lemma SubmitTracks(g: Gce, o: Owner)
    requires MachinesOk(g) && o.key.name in g.instances
    ensures Tracked(g.Submit(o.key.name, Erase), o, OpId(o.key.name, g.Serial(o.key.name)))
  {
    var name := o.key.name;
    assert MachineOk(g, name);
    forall t | t in g.instances[name].jobs ensures t.id.serial < g.Serial(name) { assert JobOk(g, name, t); }
  }

  lemma InsertOk(g: Gce, owner: Owner, request: InsertRequest)
    requires MachinesOk(g) && owner.key.name == request.name
    ensures MachinesOk(g.Insert(owner, request))
  {
    var g' := g.Insert(owner, request);
    if request.name !in g.instances {
      forall n | n in g'.instances ensures MachineOk(g', n) {
        if n != request.name {
          assert MachineOk(g, n);
          assert forall t :: t in g.instances[n].jobs ==> JobOk(g, n, t);
        }
      }
    }
  }

  lemma InsertKeeps(g: Gce, owner: Owner, request: InsertRequest, o: Owner, op: OpId)
    requires MachinesOk(g) && Tracked(g, o, op) && owner != o
    ensures Tracked(g.Insert(owner, request), o, op)
  {}

  lemma RemoveOk(g: Gce, name: string)
    requires MachinesOk(g)
    ensures MachinesOk(g.Remove(name))
  {
    var g' := g.Remove(name);
    forall n | n in g'.instances ensures MachineOk(g', n) {
      assert MachineOk(g, n);
      assert forall t :: t in g.instances[n].jobs ==> JobOk(g, n, t);
    }
  }

  /** The rest of the jobs are as they were, and none of them is the one that is over. */
  lemma PopOk(g: Gce, name: string, errors: seq<string>)
    requires MachinesOk(g) && name in g.instances && g.instances[name].jobs != []
    ensures MachinesOk(g.Pop(name, errors))
  {
    var g', i := g.Pop(name, errors), g.instances[name];
    assert MachineOk(g, name);
    assert JobOk(g, name, i.jobs[0]);
    forall n | n in g'.instances ensures MachineOk(g', n) {
      assert MachineOk(g, n);
      if n == name {
        forall t | t in i.jobs[1..] ensures JobOk(g', n, t) {
          var k :| 0 <= k < |i.jobs[1..]| && i.jobs[1..][k] == t;
          assert i.jobs[k + 1] == t;
          assert JobOk(g, n, t);
        }
      } else {
        forall t | t in g.instances[n].jobs ensures JobOk(g', n, t) { assert JobOk(g, n, t); }
      }
    }
  }

  lemma SetKeysOk(g: Gce, name: string, sshKeys: string)
    requires MachinesOk(g) && name in g.instances
    ensures MachinesOk(g.SetKeys(name, sshKeys))
  {
    var g' := g.SetKeys(name, sshKeys);
    forall n | n in g'.instances ensures MachineOk(g', n) {
      assert MachineOk(g, n);
      forall t | t in g.instances[n].jobs ensures JobOk(g', n, t) { assert JobOk(g, n, t); }
    }
  }

  lemma ProceedOk(g: Gce, name: string, ending: Ending)
    requires MachinesOk(g) && name in g.instances && g.instances[name].jobs != []
    ensures MachinesOk(g.Proceed(name, ending))
  {
    var job, errors := g.instances[name].jobs[0], if ending.Succeed? then [] else ending.errors;
    PopOk(g, name, errors);
    RemoveOk(g.Pop(name, errors), name);
    if job.effect.Rekey? { SetKeysOk(g.Pop(name, errors), name, job.effect.sshKeys); }
  }

  lemma PopKeeps(g: Gce, name: string, errors: seq<string>, o: Owner, op: OpId)
    requires MachinesOk(g) && Tracked(g, o, op) && name in g.instances && g.instances[name].jobs != []
    requires g.instances[name].jobs[0].id != op
    ensures Tracked(g.Pop(name, errors), o, op)
  {
    var jobs := g.instances[name].jobs;
    assert MachineOk(g, name);
    assert JobOk(g, name, jobs[0]);
    if Job(op, Erase) in jobs {
      var k :| 0 <= k < |jobs| && jobs[k] == Job(op, Erase);
      assert jobs[1..][k - 1] == Job(op, Erase);
    }
  }

  lemma AwaitedEnds(g: Gce, name: string, ending: Ending, o: Owner, op: OpId)
    requires MachinesOk(g) && Tracked(g, o, op) && (ending.Fail? ==> ending.errors != [])
    requires name in g.instances && g.instances[name].jobs != [] && g.instances[name].jobs[0].id == op
    ensures Tracked(g.Proceed(name, ending), o, op)
  {
    var jobs := g.instances[name].jobs;
    assert MachineOk(g, name);
    assert JobOk(g, name, jobs[0]);
    assert jobs[0].effect == Erase;
    assert forall k :: 0 < k < |jobs| ==> jobs[0].id.serial < jobs[k].id.serial;
  }

  /** The deletion waited for removes the instance when it succeeds, and reports errors when it fails. */
  lemma ProceedKeeps(g: Gce, name: string, ending: Ending, o: Owner, op: OpId)
    requires MachinesOk(g) && Tracked(g, o, op) && (ending.Fail? ==> ending.errors != [])
    requires name in g.instances && g.instances[name].jobs != []
    ensures Tracked(g.Proceed(name, ending), o, op)
  {
    if g.instances[name].jobs[0].id == op {
      AwaitedEnds(g, name, ending, o, op);
    } else {
      PopKeeps(g, name, if ending.Succeed? then [] else ending.errors, o, op);
    }
  }

  lemma ConcludeOk(g: Gce, op: OpId, errors: seq<string>)
    requires MachinesOk(g) && op in g.ops && g.Orphaned(op)
    ensures MachinesOk(g.Conclude(op, errors))
  {
    var g' := g.Conclude(op, errors);
    forall n | n in g'.instances ensures MachineOk(g', n) {
      assert MachineOk(g, n);
      forall t | t in g.instances[n].jobs ensures JobOk(g', n, t) { assert JobOk(g, n, t); }
    }
  }

  lemma ConcludeKeeps(g: Gce, ended: OpId, errors: seq<string>, o: Owner, op: OpId)
    requires Tracked(g, o, op) && ended in g.ops && g.ops[ended] == OpState.Pending && g.Orphaned(ended)
    ensures Tracked(g.Conclude(ended, errors), o, op)
  {}

  // ---- The controller's calls and everybody else ----

  lemma CallKeepsMachines(g: Gce, cfg: Config, pc: Pc, c: Choice)
    requires MachinesOk(g)
    ensures MachinesOk(ServedGce(g, cfg, pc, c))
  {
    if c.Takes() {
      match pc
      case DeleteIssue(vm) => SubmitOk(g, vm.name, Erase);
      case Issue(vm, create, pair) =>
        if create {
          InsertOk(g, Owner(vm.Id(), vm.uid), InstanceRequest(cfg, vm.name, vm.spec, FormatKey(pair.pub)));
        } else {
          SubmitOk(g, vm.name, Rekey(FormatKey(pair.pub)));
        }
      case _ =>
    }
  }

  lemma ChangeKeepsMachines(w: World, c: Change)
    requires MachinesOk(w.gce) && Possible(w, c)
    ensures MachinesOk(Happen(w, c).gce)
  {
    match c
    case Proceed(name, ending) => ProceedOk(w.gce, name, ending);
    case Conclude(op, errors) => ConcludeOk(w.gce, op, errors);
    case Vanish(name) => RemoveOk(w.gce, name);
    case _ =>
  }

  /** Others never make an instance for this key, and never falsify what a worker knows about its deletion. */
  lemma CallKeepsClearing(g: Gce, cfg: Config, actor: Pc, c: Choice, key: Key, pc: Pc)
    requires MachinesOk(g) && Clearing(g, key, pc) && (actor.Holds() ==> actor.vm.Id() != key)
    ensures Clearing(ServedGce(g, cfg, actor, c), key, pc)
  {
    if c.Takes() && Waits(pc) && pc.purpose.Deletion? {
      var o := Owner(key, pc.vm.uid);
      match actor
      case DeleteIssue(vm) => SubmitKeeps(g, vm.name, Erase, o, pc.op);
      case Issue(vm, create, pair) =>
        if create {
          InsertKeeps(g, Owner(vm.Id(), vm.uid), InstanceRequest(cfg, vm.name, vm.spec, FormatKey(pair.pub)), o, pc.op);
        } else {
          SubmitKeeps(g, vm.name, Rekey(FormatKey(pair.pub)), o, pc.op);
        }
      case _ =>
    }
  }

  lemma ChangeKeepsClearing(w: World, c: Change, key: Key, pc: Pc)
    requires MachinesOk(w.gce) && Clearing(w.gce, key, pc) && Possible(w, c)
    ensures Clearing(Happen(w, c).gce, key, pc)
  {
    if Waits(pc) && pc.purpose.Deletion? {
      var o := Owner(key, pc.vm.uid);
      match c
      case Proceed(name, ending) => ProceedKeeps(w.gce, name, ending, o, pc.op);
      case Conclude(op, errors) => ConcludeKeeps(w.gce, op, errors, o, pc.op);
      case _ =>
    }
  }

  lemma PollClears(w: World, cfg: Config, key: Key, pc: Pc, c: Choice)
    requires Clearing(w.gce, key, pc) && pc.Polling? && Sensible(w, pc, c)
    ensures Clearing(w.gce, key, After(cfg, pc, Reply(w, cfg, pc, c)))
  {}

  lemma IssueClears(w: World, cfg: Config, key: Key, pc: Pc, c: Choice)
    requires MachinesOk(w.gce) && pc.DeleteIssue? && Sensible(w, pc, c) && pc.vm.Id() == key
    ensures Clearing(ServedGce(w.gce, cfg, pc, c), key, After(cfg, pc, Reply(w, cfg, pc, c)))
  {
    if c.Serve? && key.name in w.gce.instances { SubmitTracks(w.gce, Owner(key, pc.vm.uid)); }
  }

  /** The positions that come from other calls know nothing about a deletion yet. */
  lemma OthersClear(g: Gce, cfg: Config, key: Key, pc: Pc, a: Answer)
    requires !pc.Returned? && Fits(CallOf(cfg, pc), a)
    requires !pc.Polling? && !pc.Pausing? && !pc.DeleteIssue? && !pc.DeleteLookup?
    ensures Clearing(g, key, After(cfg, pc, a))
  {}

  /** A worker reaches the removal only through a truthful lookup, a finished deletion, or a swallowed failure. */
  lemma CallClears(w: World, cfg: Config, key: Key, pc: Pc, c: Choice)
    requires MachinesOk(w.gce) && Clearing(w.gce, key, pc) && Sensible(w, pc, c) && (pc.Holds() ==> pc.vm.Id() == key)
    ensures Clearing(ServedGce(w.gce, cfg, pc, c), key, After(cfg, pc, Reply(w, cfg, pc, c)))
  {
    match pc
    case DeleteIssue(_) => IssueClears(w, cfg, key, pc, c);
    case DeleteLookup(_) =>
    case Pausing(_, _, _) =>
    case Polling(_, _, _) => PollClears(w, cfg, key, pc, c);
    case Returned(_) =>
    case _ => OthersClear(ServedGce(w.gce, cfg, pc, c), cfg, key, pc, Reply(w, cfg, pc, c));
  }
}
