/** Fault-free reconciles repair whatever faults have left behind, and then change nothing more. */
module Convergence {
  import opened Types
  import opened Protocol
  import opened Worlds
  import opened Machines
  import Reconciles
  import Agreement

  // ---- A fault-free reconcile ----

  /** What a reconcile meets when nothing fails: the address of the instance, the key generated, and the errors (none,
      perhaps) with which an awaited operation ends if an earlier deletion has taken its instance. */
  datatype Setting = Setting(host: string, pair: Keypair, ending: seq<string>)

  /** All operations in progress on an instance succeed, in order. */
  function Drain(g: Gce, name: string): Gce
    decreases if name in g.instances then |g.instances[name].jobs| else 0
  {
    if name !in g.instances || g.instances[name].jobs == [] then g else Drain(g.Proceed(name, Succeed), name)
  }

  /** The awaited operation has no instance to act on. */
  predicate Stranded(g: Gce, op: OpId) {
    op in g.ops && g.ops[op] == OpState.Pending && g.Orphaned(op)
  }

  /** While the controller pauses, every operation on the instance ends. */
  function Paused(g: Gce, name: string, op: OpId, ending: seq<string>): Gce {
    var drained := Drain(g, name);
    if Stranded(drained, op) then drained.Conclude(op, ending) else drained
  }

  function QuietWorld(w: World, pc: Pc, s: Setting): World {
    if pc.Pausing? then w.(gce := Paused(w.gce, pc.vm.name, pc.op, s.ending)) else w
  }

  /** How a call goes when nothing fails. */
  function Smooth(pc: Pc, s: Setting): Choice {
    match pc
    case DeleteLookup(_) => Show([[s.host]])
    case EnsureLookup(_) => Show([[s.host]])
    case Confirm(_, _) => Show([[s.host]])
    case MakeKey(_, _) => Mint(s.pair)
    case Pausing(_, _, _) => Wake
    case _ => Serve
  }

  function Quiet(cfg: Config, w: World, pc: Pc, s: Setting, n: nat): (World, Pc)
    decreases n
  {
    if n == 0 || pc.Returned? then (w, pc)
    else
      var v, c := QuietWorld(w, pc, s), Smooth(pc, s);
      Quiet(cfg, Served(v, cfg, pc, c), Reconciles.Next(cfg, v, pc, c), s, n - 1)
  }

  /** Nine calls are enough for every way through a reconcile. */
  predicate Enough(n: nat) { n >= 9 }

  lemma {:induction false} QuietStep(cfg: Config, w: World, pc: Pc, s: Setting, n: nat, w': World, pc': Pc)
    requires n > 0 && !pc.Returned?
    requires var v, c := QuietWorld(w, pc, s), Smooth(pc, s);
             w' == Served(v, cfg, pc, c) && pc' == Reconciles.Next(cfg, v, pc, c)
    ensures Quiet(cfg, w, pc, s, n) == Quiet(cfg, w', pc', s, n - 1)
  {}

  // ---- Operations that end ----

  /** No deletion of the instance is in progress. */
  ghost predicate NoErasure(g: Gce, name: string) {
    name in g.instances ==> forall t :: t in g.instances[name].jobs ==> t.effect != Erase
  }

  /** A deletion comes before the last of the instance's operations. */
  ghost predicate ErasedFirst(i: Instance) {
    exists k :: 0 <= k < |i.jobs| - 1 && i.jobs[k].effect == Erase
  }

  function LastJob(i: Instance): Job
    requires i.jobs != []
  {
    i.jobs[|i.jobs| - 1]
  }

  /** The operation is the last on the instance. */
  ghost predicate Awaiting(g: Gce, name: string, op: OpId) {
    name in g.instances && g.instances[name].jobs != [] && LastJob(g.instances[name]).id == op
  }

  ghost predicate Bare(g: Gce, name: string, sshKeys: string) {
    name in g.instances && g.instances[name].jobs == [] && g.instances[name].sshKeys == sshKeys
  }

  /** What a last operation leaves: no instance, or one with its key. */
  ghost predicate Leaves(g: Gce, name: string, i: Instance, effect: Effect) {
    match effect
    case Erase => name !in g.instances
    case Rekey(sshKeys) => Bare(g, name, sshKeys)
    case Launch => |i.jobs| == 1 ==> Bare(g, name, i.sshKeys)
  }

  /** Operations that succeed in order: the last one has its effect and reads as done, unless an earlier deletion has
      removed the instance; then it is left pending. */
  lemma {:induction false} DrainSettles(g: Gce, name: string, op: OpId)
    requires MachinesOk(g) && Awaiting(g, name, op)
    ensures var i, g' := g.instances[name], Drain(g, name);
            && MachinesOk(g') && op in g'.ops
            && (if ErasedFirst(i) then name !in g'.instances && g'.ops[op] == OpState.Pending
                else g'.ops[op] == Finished([]) && Leaves(g', name, i, LastJob(i).effect))
    decreases |g.instances[name].jobs|
  {
    var i, next := g.instances[name], g.Proceed(name, Succeed);
    var jobs := i.jobs;
    assert MachineOk(g, name) && JobOk(g, name, jobs[0]) && JobOk(g, name, LastJob(i));
    ProceedOk(g, name, Succeed);
    if |jobs| > 1 {
      assert jobs[0].id.serial < LastJob(i).id.serial;
      if jobs[0].effect != Erase {
        ErasureAhead(i, next.instances[name]);
        DrainSettles(next, name, op);
      }
    }
  }

  lemma ErasureAhead(i: Instance, next: Instance)
    requires |i.jobs| > 1 && i.jobs[0].effect != Erase && next.jobs == i.jobs[1..]
    ensures ErasedFirst(next) <==> ErasedFirst(i)
    ensures LastJob(next) == LastJob(i)
  {
    if ErasedFirst(i) {
      var k :| 0 <= k < |i.jobs| - 1 && i.jobs[k].effect == Erase;
      assert next.jobs[k - 1].effect == Erase;
    }
    if ErasedFirst(next) {
      var k :| 0 <= k < |next.jobs| - 1 && next.jobs[k].effect == Erase;
      assert i.jobs[k + 1].effect == Erase;
    }
  }

  /** After the pause the awaited operation is over. */
  lemma PauseSettles(g: Gce, name: string, op: OpId, ending: seq<string>)
    requires MachinesOk(g) && Awaiting(g, name, op)
    ensures var i, g' := g.instances[name], Paused(g, name, op, ending);
            && MachinesOk(g') && op in g'.ops
            && (if ErasedFirst(i) then name !in g'.instances && g'.ops[op] == Finished(ending)
                else g'.ops[op] == Finished([]) && Leaves(g', name, i, LastJob(i).effect))
  {
    DrainSettles(g, name, op);
    assert MachineOk(g, name) && JobOk(g, name, LastJob(g.instances[name]));
    var drained := Drain(g, name);
    if Stranded(drained, op) { ConcludeOk(drained, op, ending); }
  }

  // ---- Waiting ----

  lemma {:induction false} Pauses(cfg: Config, w: World, vm: VM, purpose: Purpose, op: OpId, s: Setting, n: nat)
    requires n >= 1
    ensures Quiet(cfg, w, Pausing(vm, purpose, op), s, n)
            == Quiet(cfg, w.(gce := Paused(w.gce, vm.name, op, s.ending)), Polling(vm, purpose, op), s, n - 1)
  {
    QuietStep(cfg, w, Pausing(vm, purpose, op), s, n, w.(gce := Paused(w.gce, vm.name, op, s.ending)),
              Polling(vm, purpose, op));
  }

  /** Where the poll of an operation that is over leads. */
  function AfterPoll(vm: VM, purpose: Purpose, errors: seq<string>): Pc {
    if errors == [] then OpDone(vm, purpose) else OpFailed(vm, purpose, Joined(errors))
  }

  lemma {:induction false} Polls(cfg: Config, w: World, vm: VM, purpose: Purpose, op: OpId, s: Setting, n: nat)
    requires n >= 1 && op in w.gce.ops && w.gce.ops[op].Finished?
    ensures Quiet(cfg, w, Polling(vm, purpose, op), s, n)
            == Quiet(cfg, w, AfterPoll(vm, purpose, w.gce.ops[op].errors), s, n - 1)
  {
    QuietStep(cfg, w, Polling(vm, purpose, op), s, n, w, AfterPoll(vm, purpose, w.gce.ops[op].errors));
  }

  /** The wait ends with the operation's effect, or with the instance gone and the errors of the ending. */
  lemma {:induction false} Awaits(cfg: Config, w: World, vm: VM, purpose: Purpose, op: OpId, s: Setting, n: nat)
    requires MachinesOk(w.gce) && Awaiting(w.gce, vm.name, op) && n >= 2
    ensures var w' := w.(gce := Paused(w.gce, vm.name, op, s.ending));
            Quiet(cfg, w, Pausing(vm, purpose, op), s, n)
            == Quiet(cfg, w', AfterPoll(vm, purpose, if ErasedFirst(w.gce.instances[vm.name]) then s.ending else []),
                     s, n - 2)
  {
    var w' := w.(gce := Paused(w.gce, vm.name, op, s.ending));
    PauseSettles(w.gce, vm.name, op, s.ending);
    Pauses(cfg, w, vm, purpose, op, s, n);
    Polls(cfg, w', vm, purpose, op, s, n - 1);
  }

  // ---- The ways through a reconcile of a live record ----

  /** Instance and secret are there. */
  ghost predicate Complete(w: World, key: Key) {
    key in w.secrets && key.name in w.gce.instances
  }

  ghost predicate Live(w: World, key: Key) {
    key in w.api.vms && w.api.vms[key].Id() == key && !w.api.vms[key].deleting
  }

  lemma {:induction false} LooksUp(cfg: Config, w: World, key: Key, s: Setting, n: nat)
    requires Live(w, key) && n >= 2
    ensures var vm := w.api.vms[key];
            Quiet(cfg, w, Begin(key), s, n)
            == Quiet(cfg, w, if key.name in w.gce.instances then EnsureSecret(vm) else MakeKey(vm, true), s, n - 2)
  {
    var vm := w.api.vms[key];
    var next := if key.name in w.gce.instances then EnsureSecret(vm) else MakeKey(vm, true);
    QuietStep(cfg, w, Begin(key), s, n, w, EnsureLookup(vm));
    QuietStep(cfg, w, EnsureLookup(vm), s, n - 1, w, next);
  }

  lemma {:induction false} ChecksSecret(cfg: Config, w: World, vm: VM, s: Setting, n: nat)
    requires n >= 1
    ensures Quiet(cfg, w, EnsureSecret(vm), s, n)
            == Quiet(cfg, w, if vm.Id() in w.secrets then Returned(Nil) else MakeKey(vm, false), s, n - 1)
  {
    var next := if vm.Id() in w.secrets then Returned(Nil) else MakeKey(vm, false);
    QuietStep(cfg, w, EnsureSecret(vm), s, n, w, next);
  }

  /** The world with the key generated and the operation accepted. */
  function Submitting(cfg: Config, w: World, vm: VM, create: bool, pair: Keypair): World {
    Served(w.(used := w.used + {pair.pub}), cfg, Issue(vm, create, pair), Serve)
  }

  /** The instance's last operation gives it the key. */
  ghost predicate Installing(g: Gce, name: string, op: OpId, sshKeys: string) {
    && MachinesOk(g) && Awaiting(g, name, op)
    && var i := g.instances[name];
    && (LastJob(i).effect == Rekey(sshKeys)
        || (LastJob(i).effect == Launch && |i.jobs| == 1 && i.sshKeys == sshKeys))
  }

  lemma JobAppended(i: Instance, job: Job)
    ensures ErasedFirst(i.(jobs := i.jobs + [job])) <==> exists t :: t in i.jobs && t.effect == Erase
  {
    var jobs := i.jobs + [job];
    if ErasedFirst(i.(jobs := jobs)) {
      var k :| 0 <= k < |jobs| - 1 && jobs[k].effect == Erase;
      assert i.jobs[k] in i.jobs;
    }
    if t :| t in i.jobs && t.effect == Erase {
      var k :| 0 <= k < |i.jobs| && i.jobs[k] == t;
      assert jobs[k].effect == Erase;
    }
  }

  /** The accepted operation is the last on the instance, and will give it the key. */
  lemma AcceptsOperation(cfg: Config, w: World, vm: VM, create: bool, pair: Keypair)
    requires MachinesOk(w.gce) && create == (vm.name !in w.gce.instances)
    ensures var g, op := Submitting(cfg, w, vm, create, pair).gce, OpId(vm.name, w.gce.Serial(vm.name));
            && Installing(g, vm.name, op, FormatKey(pair.pub))
            && (ErasedFirst(g.instances[vm.name]) <==> !NoErasure(w.gce, vm.name))
  {
    CallKeepsMachines(w.gce, cfg, Issue(vm, create, pair), Serve);
    if !create {
      var op := OpId(vm.name, w.gce.Serial(vm.name));
      JobAppended(w.gce.instances[vm.name], Job(op, Rekey(FormatKey(pair.pub))));
    }
  }

  lemma {:induction false} SubmitsOperation(cfg: Config, w: World, vm: VM, create: bool, s: Setting, n: nat)
    requires create == (vm.name !in w.gce.instances) && n >= 2
    ensures var w', op := Submitting(cfg, w, vm, create, s.pair), OpId(vm.name, w.gce.Serial(vm.name));
            && Quiet(cfg, w, MakeKey(vm, create), s, n) == Quiet(cfg, w', Pausing(vm, Keying(s.pair), op), s, n - 2)
            && w'.api == w.api && w'.secrets == w.secrets
  {
    var v, issue := w.(used := w.used + {s.pair.pub}), Issue(vm, create, s.pair);
    QuietStep(cfg, w, MakeKey(vm, create), s, n, v, issue);
    QuietStep(cfg, v, issue, s, n - 1, Submitting(cfg, w, vm, create, s.pair),
              Pausing(vm, Keying(s.pair), OpId(vm.name, w.gce.Serial(vm.name))));
  }

  lemma {:induction false} Confirms(cfg: Config, w: World, vm: VM, s: Setting, n: nat)
    requires n >= 1
    ensures Quiet(cfg, w, Confirm(vm, s.pair), s, n)
            == Quiet(cfg, w, if vm.name in w.gce.instances then Publish(vm, s.pair, vm.name, s.host)
                             else Error'(NO_CONFIRM, NOT_FOUND), s, n - 1)
  {
    var next := if vm.name in w.gce.instances then Publish(vm, s.pair, vm.name, s.host)
                else Error'(NO_CONFIRM, NOT_FOUND);
    QuietStep(cfg, w, Confirm(vm, s.pair), s, n, w, next);
  }

  lemma {:induction false} Publishes(cfg: Config, w: World, vm: VM, s: Setting, n: nat)
    requires n >= 1
    ensures var publish := Publish(vm, s.pair, vm.name, s.host);
            var w', taken := Served(w, cfg, publish, Serve), vm.Id() in w.secrets;
            && Quiet(cfg, w, publish, s, n) == (w', if taken then Error'(NO_PUBLISH, TAKEN) else Returned(Nil))
            && w'.api == w.api && w'.gce == w.gce && vm.Id() in w'.secrets
            && w'.secrets[vm.Id()] == if taken then w.secrets[vm.Id()] else SecretFor(vm, s.pair, vm.name, s.host)
  {
    var publish := Publish(vm, s.pair, vm.name, s.host);
    QuietStep(cfg, w, publish, s, n, Served(w, cfg, publish, Serve),
              if vm.Id() in w.secrets then Error'(NO_PUBLISH, TAKEN) else Returned(Nil));
  }

  /** Once the operation is done without errors: the upload, if the instance is there. */
  lemma {:induction false} Uploads(cfg: Config, w: World, vm: VM, s: Setting, n: nat)
    requires n >= 2
    ensures var (w', r) := Quiet(cfg, w, Confirm(vm, s.pair), s, n);
            var taken := vm.Id() in w.secrets;
            && w'.api == w.api && w'.gce == w.gce
            && if vm.name in w.gce.instances then
                 && r == (if taken then Error'(NO_PUBLISH, TAKEN) else Returned(Nil))
                 && vm.Id() in w'.secrets
                 && w'.secrets[vm.Id()]
                    == (if taken then w.secrets[vm.Id()] else SecretFor(vm, s.pair, vm.name, s.host))
               else
                 r == Error'(NO_CONFIRM, NOT_FOUND) && w'.secrets == w.secrets
  {
    Confirms(cfg, w, vm, s, n);
    if vm.name in w.gce.instances { Publishes(cfg, w, vm, s, n - 1); }
  }

  lemma {:induction false} ReportsFailure(cfg: Config, w: World, key: Key, text: string, s: Setting, n: nat)
    requires Live(w, key) && n >= 1
    ensures var vm := w.api.vms[key];
            var (w', r) := Quiet(cfg, w, Reporting(vm, Keying(s.pair), text), s, n);
            r == Returned(Nil) && w'.gce == w.gce && w'.secrets == w.secrets && Live(w', key)
  {
    var vm := w.api.vms[key];
    var reporting := Reporting(vm, Keying(s.pair), text);
    QuietStep(cfg, w, reporting, s, n, Served(w, cfg, reporting, Serve), Returned(Nil));
  }

  /** What a reconcile that makes a key comes to: the instance has it and the secret does if it can, or the instance
      was being deleted and is gone. */
  ghost predicate Keyed(w: World, key: Key, s: Setting, w': World, r: Pc)
    requires key in w.api.vms
  {
    var vm := w.api.vms[key];
    && Live(w', key) && MachinesOk(w'.gce)
    && if NoErasure(w.gce, key.name) then
         && r == (if key in w.secrets then Error'(NO_PUBLISH, TAKEN) else Returned(Nil))
         && Bare(w'.gce, key.name, FormatKey(s.pair.pub)) && key in w'.secrets && w'.api == w.api
         && w'.secrets[key] == (if key in w.secrets then w.secrets[key] else SecretFor(vm, s.pair, key.name, s.host))
       else
         && r == (if s.ending == [] then Error'(NO_CONFIRM, NOT_FOUND) else Returned(Nil))
         && key.name !in w'.gce.instances && w'.secrets == w.secrets
  }

  lemma {:induction false} KeyInstalled(cfg: Config, w: World, key: Key, op: OpId, s: Setting, n: nat)
    requires Live(w, key) && n >= 4 && Installing(w.gce, key.name, op, FormatKey(s.pair.pub))
    requires !ErasedFirst(w.gce.instances[key.name])
    ensures var vm := w.api.vms[key];
            var (w', r) := Quiet(cfg, w, Pausing(vm, Keying(s.pair), op), s, n);
            && Live(w', key) && MachinesOk(w'.gce) && w'.api == w.api
            && r == (if key in w.secrets then Error'(NO_PUBLISH, TAKEN) else Returned(Nil))
            && Bare(w'.gce, key.name, FormatKey(s.pair.pub)) && key in w'.secrets
            && w'.secrets[key] == (if key in w.secrets then w.secrets[key] else SecretFor(vm, s.pair, key.name, s.host))
  {
    var vm, w2 := w.api.vms[key], w.(gce := Paused(w.gce, key.name, op, s.ending));
    PauseSettles(w.gce, key.name, op, s.ending);
    Awaits(cfg, w, vm, Keying(s.pair), op, s, n);
    Uploads(cfg, w2, vm, s, n - 2);
  }

  lemma {:induction false} KeyLost(cfg: Config, w: World, key: Key, op: OpId, s: Setting, n: nat)
    requires Live(w, key) && n >= 4 && Installing(w.gce, key.name, op, FormatKey(s.pair.pub))
    requires ErasedFirst(w.gce.instances[key.name])
    ensures var vm := w.api.vms[key];
            var (w', r) := Quiet(cfg, w, Pausing(vm, Keying(s.pair), op), s, n);
            && Live(w', key) && MachinesOk(w'.gce) && key.name !in w'.gce.instances && w'.secrets == w.secrets
            && r == (if s.ending == [] then Error'(NO_CONFIRM, NOT_FOUND) else Returned(Nil))
  {
    var vm, w2 := w.api.vms[key], w.(gce := Paused(w.gce, key.name, op, s.ending));
    PauseSettles(w.gce, key.name, op, s.ending);
    Awaits(cfg, w, vm, Keying(s.pair), op, s, n);
    if s.ending != [] {
      ReportsFailure(cfg, w2, key, FailureText(Keying(s.pair), Joined(s.ending)), s, n - 2);
    } else {
      Uploads(cfg, w2, vm, s, n - 2);
    }
  }

  lemma {:induction false} MakesKey(cfg: Config, w: World, key: Key, s: Setting, n: nat)
    requires Live(w, key) && MachinesOk(w.gce) && n >= 6
    ensures var (w', r) := Quiet(cfg, w, MakeKey(w.api.vms[key], key.name !in w.gce.instances), s, n);
            Keyed(w, key, s, w', r)
  {
    var vm, create := w.api.vms[key], key.name !in w.gce.instances;
    SubmitsOperation(cfg, w, vm, create, s, n);
    AcceptsOperation(cfg, w, vm, create, s.pair);
    var w1, op := Submitting(cfg, w, vm, create, s.pair), OpId(key.name, w.gce.Serial(key.name));
    if NoErasure(w.gce, key.name) {
      KeyInstalled(cfg, w1, key, op, s, n - 2);
    } else {
      KeyLost(cfg, w1, key, op, s, n - 2);
    }
  }

  // ---- Convergence of live records ----

  /** With instance and secret there, a reconcile changes nothing. */
  lemma {:induction false} CompleteIsStable(cfg: Config, w: World, key: Key, s: Setting, n: nat)
    requires Live(w, key) && Complete(w, key) && Enough(n)
    ensures Quiet(cfg, w, Begin(key), s, n) == (w, Returned(Nil))
  {
    LooksUp(cfg, w, key, s, n);
    ChecksSecret(cfg, w, w.api.vms[key], s, n - 2);
  }

  /** Otherwise the reconcile comes to make a key, for a new instance or for the one that is there. */
  lemma {:induction false} IncompleteMakesKey(cfg: Config, w: World, key: Key, s: Setting, n: nat)
    requires Live(w, key) && !Complete(w, key) && Enough(n)
    ensures var create := key.name !in w.gce.instances;
            Quiet(cfg, w, Begin(key), s, n)
            == Quiet(cfg, w, MakeKey(w.api.vms[key], create), s, if create then n - 2 else n - 3)
  {
    LooksUp(cfg, w, key, s, n);
    if key.name in w.gce.instances { ChecksSecret(cfg, w, w.api.vms[key], s, n - 2); }
  }

  /** Whatever state faults have left a live record's instance, operations and secret in: one fault-free reconcile makes
      instance and secret exist exactly when they did before or no deletion of the instance is in progress; otherwise
      the deletion has its way. The error is exactly that of a secret left without its instance, or of an operation that
      ended without errors and without its instance. */
  lemma {:induction false} OneReconcileCompletes(cfg: Config, w: World, key: Key, s: Setting, n: nat)
    requires Live(w, key) && MachinesOk(w.gce) && Enough(n)
    ensures var (w', r) := Quiet(cfg, w, Begin(key), s, n);
            && Live(w', key) && MachinesOk(w'.gce)
            && (Complete(w', key) <==> Complete(w, key) || NoErasure(w.gce, key.name))
            && (r == Returned(Nil) <==>
                  Complete(w, key) || (if NoErasure(w.gce, key.name) then key !in w.secrets else s.ending != []))
            && (key in w.secrets ==> key in w'.secrets && w'.secrets[key] == w.secrets[key])
            && (if Complete(w, key) then w' == w else Keyed(w, key, s, w', r))
  {
    if Complete(w, key) {
      CompleteIsStable(cfg, w, key, s, n);
    } else {
      IncompleteMakesKey(cfg, w, key, s, n);
      MakesKey(cfg, w, key, s, if key.name !in w.gce.instances then n - 2 else n - 3);
    }
  }

  /** From any world, two fault-free reconciles make instance and secret exist, the second one with success; a third
      changes nothing, and neither does the second if the first was enough. */
  lemma {:induction false} TwoReconcilesSucceed(cfg: Config, w: World, key: Key, s: Setting, s': Setting,
                                                s'': Setting, n: nat)
    requires Live(w, key) && MachinesOk(w.gce) && Enough(n)
    ensures var w1 := Quiet(cfg, w, Begin(key), s, n).0;
            var (w2, r2) := Quiet(cfg, w1, Begin(key), s', n);
            && Live(w2, key) && Complete(w2, key) && r2 == Returned(Nil)
            && (Complete(w1, key) ==> w2 == w1)
            && Quiet(cfg, w2, Begin(key), s'', n) == (w2, Returned(Nil))
  {
    OneReconcileCompletes(cfg, w, key, s, n);
    var w1 := Quiet(cfg, w, Begin(key), s, n).0;
    OneReconcileCompletes(cfg, w1, key, s', n);
    CompleteIsStable(cfg, Quiet(cfg, w1, Begin(key), s', n).0, key, s'', n);
  }

  /** The secret's key opens the instance. */
  ghost predicate Opens(w: World, key: Key) {
    Complete(w, key) && w.gce.instances[key.name].sshKeys == FormatKey(w.secrets[key].pub)
  }

  /** After the first fault-free reconcile the key opens the instance exactly when it did before, or there was neither a
      secret nor a deletion in progress; after the second exactly when it did before or there was no secret: a secret
      left without its instance is neither replaced nor installed, and no later reconcile mends that. */
  lemma {:induction false} ReconcileOpensExactly(cfg: Config, w: World, key: Key, s: Setting, s': Setting, n: nat)
    requires Live(w, key) && MachinesOk(w.gce) && Enough(n)
    requires Line(s.pair.pub) && (key in w.secrets ==> Line(w.secrets[key].pub) && w.secrets[key].pub != s.pair.pub)
    ensures var w1 := Quiet(cfg, w, Begin(key), s, n).0;
            var w2 := Quiet(cfg, w1, Begin(key), s', n).0;
            && (Opens(w1, key) <==> Opens(w, key) || (key !in w.secrets && NoErasure(w.gce, key.name)))
            && (Opens(w2, key) <==> Opens(w, key) || key !in w.secrets)
  {
    OneReconcileCompletes(cfg, w, key, s, n);
    if key in w.secrets && FormatKey(s.pair.pub) == FormatKey(w.secrets[key].pub) {
      Agreement.FormatInjective(s.pair.pub, w.secrets[key].pub);
    }
    OneReconcileCompletes(cfg, Quiet(cfg, w, Begin(key), s, n).0, key, s', n);
  }
}
