/** The API server and GCE: what each call does to them, what it answers, and what happens without the controller. */
module Worlds {
  import opened Types
  import opened Admission
  import opened Protocol

  datatype Owner = Owner(key: Key, uid: nat)

  /** What an accepted operation will do to its instance. */
  datatype Effect = Launch | Erase | Rekey(sshKeys: string)
  datatype Job = Job(id: OpId, effect: Effect)

  /** `jobs` are the operations in progress, which take effect in order of submission.
      `owner` records whose reconcile made the instance, `request` how. */
  datatype Instance = Instance(serial: nat, owner: Owner, sshKeys: string, request: InsertRequest, jobs: seq<Job>)

  datatype OpState = Pending | Finished(errors: seq<string>)
  datatype DiskRef = DiskRef(instance: string, serial: nat, index: nat)

  /** How an operation in progress ends; `applied` says whether a failing one took effect all the same. */
  datatype Ending = Succeed | Fail(errors: seq<string>, applied: bool)

  /** The instances by name, the operations ever accepted, the next operation number of each name, the disks. */
  datatype Gce = Gce(instances: map<string, Instance>, ops: map<OpId, OpState>, serials: map<string, nat>,
                     disks: set<DiskRef>) {
    function Serial(name: string): nat { if name in serials then serials[name] else 0 }

    /** Accepts an operation on an existing instance. */
    function Submit(name: string, effect: Effect): Gce {
      if name !in instances then this
      else
        var id := OpId(name, Serial(name));
        var i := instances[name];
        Gce(instances[name := i.(jobs := i.jobs + [Job(id, effect)])], ops[id := Pending],
            serials[name := id.serial + 1], disks)
    }

    function DisksOf(name: string, serial: nat, request: InsertRequest): set<DiskRef> {
      set k | 0 <= k < |request.disks| :: DiskRef(name, serial, k)
    }

    /** Accepts the creation of an instance, which is visible at once; a taken name is refused. */
    function Insert(owner: Owner, request: InsertRequest): Gce {
      var name := request.name;
      if name in instances then this
      else
        var id := OpId(name, Serial(name));
        var i := Instance(id.serial, owner, request.sshKeys, request, [Job(id, Launch)]);
        Gce(instances[name := i], ops[id := Pending],
            serials[name := id.serial + 1], disks + DisksOf(name, id.serial, request))
    }

    /** An instance goes, and with it those of its disks that are deleted automatically. */
    function Remove(name: string): Gce {
      if name !in instances then this
      else
        var i := instances[name];
        this.(instances := instances - {name},
              disks := disks - set k | 0 <= k < |i.request.disks| && i.request.disks[k].autoDelete ::
                                 DiskRef(name, i.serial, k))
    }

    /** The oldest operation on an instance is over, with these errors. */
    function Pop(name: string, errors: seq<string>): Gce
      requires name in instances && instances[name].jobs != []
    {
      var i := instances[name];
      this.(instances := instances[name := i.(jobs := i.jobs[1..])], ops := ops[i.jobs[0].id := Finished(errors)])
    }

    function SetKeys(name: string, sshKeys: string): Gce
      requires name in instances
    {
      this.(instances := instances[name := instances[name].(sshKeys := sshKeys)])
    }

    /** The oldest operation on an instance ends. */
    function Proceed(name: string, ending: Ending): Gce
      requires name in instances && instances[name].jobs != []
    {
      var job := instances[name].jobs[0];
      var took := ending.Succeed? || ending.applied;
      var over := Pop(name, if ending.Succeed? then [] else ending.errors);
      match job.effect
      case Launch => if took then over else over.Remove(name)
      case Erase => if took then over.Remove(name) else over
      case Rekey(sshKeys) => if took then over.SetKeys(name, sshKeys) else over
    }

    /** An operation whose instance is gone ends in whatever way. */
    function Conclude(op: OpId, errors: seq<string>): Gce { this.(ops := ops[op := Finished(errors)]) }

    /** No instance has the operation among its jobs any more. */
    predicate Orphaned(op: OpId) {
      op.instance !in instances || forall t :: t in instances[op.instance].jobs ==> t.id != op
    }
  }

  /** The stored records; `born` remembers the spec each was admitted with, by uid. */
  datatype Api = Api(vms: map<Key, VM>, born: map<nat, Spec>) {
    /** Optimistic concurrency: a write must come from the record's present version. */
    predicate Current(vm: VM) {
      vm.Id() in vms && vms[vm.Id()].uid == vm.uid && vms[vm.Id()].resourceVersion == vm.resourceVersion
    }

    /** Stores a new version; a record that is being deleted goes with its last finalizer. */
    function Store(key: Key, vm: VM): Api
      requires key in vms
    {
      if vm == vms[key] then this
      else if vm.deleting && vm.finalizers == [] then this.(vms := vms - {key})
      else this.(vms := vms[key := vm.(resourceVersion := vms[key].resourceVersion + 1)])
    }

    /** The status endpoint changes nothing but the status; writing the same status is not a change. */
    function UpdateStatus(vm: VM): Api {
      if !Current(vm) then this else Store(vm.Id(), vms[vm.Id()].(status := vm.status))
    }

    predicate AcceptsUpdate(vm: VM) {
      Current(vm) && Permits(Request("", Decoded(vm), Decoded(vms[vm.Id()])))
    }

    /** The main endpoint ignores the status. */
    function UpdateVM(vm: VM): Api {
      if !AcceptsUpdate(vm) then this
      else Store(vm.Id(), vms[vm.Id()].(finalizers := vm.finalizers, spec := vm.spec))
    }
  }

  /** `used` remembers every public key generated. */
  datatype World = World(api: Api, gce: Gce, secrets: map<Key, Secret>, used: set<string>)

  // ---- The controller's calls ----

  /** What becomes of a call: it is served, refused, or served with its answer lost. */
  datatype Choice =
    | Serve
    | Refuse(err: GceError)
    | Lose(err: GceError)
    | Show(interfaces: seq<seq<string>>)
    | Mint(pair: Keypair)
    | Wake
    | Lapse(text: string)
  {
    predicate Takes() { !Refuse? }
  }

  /** The choices that make sense for a call. A lookup may fail, but NOT_FOUND is only said of what is not there;
      a generated public key is a line never seen before. */
  predicate Sensible(w: World, pc: Pc, c: Choice) {
    match pc
    case DeleteLookup(_) => c.Show? || (c.Refuse? && !c.err.IsNotFound())
    case EnsureLookup(_) => c.Show? || (c.Refuse? && !c.err.IsNotFound())
    case Confirm(_, _) => c.Show? || (c.Refuse? && !c.err.IsNotFound())
    case MakeKey(_, _) =>
      || c.Refuse?
      || (c.Mint? && c.pair.pub !in w.used && Line(c.pair.pub))
    case Pausing(_, _, _) => c.Wake? || c.Lapse?
    case Returned(_) => false
    case _ => c.Serve? || c.Refuse? || c.Lose?
  }

  function ServedGce(g: Gce, cfg: Config, pc: Pc, c: Choice): Gce {
    if !c.Takes() then g
    else match pc
      case DeleteIssue(vm) => g.Submit(vm.name, Erase)
      case Issue(vm, create, pair) =>
        if create then g.Insert(Owner(vm.Id(), vm.uid), InstanceRequest(cfg, vm.name, vm.spec, FormatKey(pair.pub)))
        else g.Submit(vm.name, Rekey(FormatKey(pair.pub)))
      case _ => g
  }

  function ServedApi(a: Api, pc: Pc, c: Choice): Api {
    if !c.Takes() then a
    else match pc
      case Reporting(vm, _, text) => a.UpdateStatus(vm.(status := Errored(vm.status, text)))
      case Strip(vm, _) => a.UpdateVM(vm.(finalizers := Stripped(vm.finalizers)))
      case _ => a
  }

  function ServedSecrets(secrets: map<Key, Secret>, pc: Pc, c: Choice): map<Key, Secret> {
    match pc
    case Publish(vm, pair, instance, host) =>
      if !c.Takes() || vm.Id() in secrets then secrets else secrets[vm.Id() := SecretFor(vm, pair, instance, host)]
    case _ => secrets
  }

  /** The world after the call at this position. */
  function Served(w: World, cfg: Config, pc: Pc, c: Choice): World {
    World(ServedApi(w.api, pc, c), ServedGce(w.gce, cfg, pc, c), ServedSecrets(w.secrets, pc, c),
          if pc.MakeKey? && c.Mint? then w.used + {c.pair.pub} else w.used)
  }

  const PENDING := "PENDING"
  const RUNNING := "RUNNING"
  const CONFLICT := "the object has been modified"
  const NOT_FOUND := "not found"
  const TAKEN := "already exists"
  const REJECTED := "rejected"
  const NO_ENTROPY := "no entropy"

  function Lookup(g: Gce, name: string, c: Choice): Answer {
    match c
    case Show(interfaces) =>
      if name in g.instances then Looked(Some(InstanceView(name, interfaces)), None)
      else Looked(None, Some(GceError(true, STATUS_NOT_FOUND, NOT_FOUND)))
    case Refuse(err) => Looked(None, Some(err))
    case _ => Looked(None, Some(GceError(false, 0, "")))
  }

  function Submitted(g: Gce, name: string, accepted: bool): Answer {
    if accepted then Op(Operation(OpId(name, g.Serial(name)), PENDING, None)) else Failed(REJECTED)
  }

  function Polled(g: Gce, op: OpId): Answer {
    if op !in g.ops then Failed(NOT_FOUND)
    else match g.ops[op]
      case Pending => Op(Operation(op, RUNNING, None))
      case Finished(errors) => Op(Operation(op, DONE, if errors == [] then None else Some(errors)))
  }

  function Fetched(a: Api, key: Key): Answer {
    if key in a.vms then GotVM(a.vms[key].(namespace := key.namespace, name := key.name)) else Missing
  }

  /** The answer to a call that is served, or the error that is reported instead. */
  function Unless(c: Choice, a: Answer): Answer {
    if c.Refuse? || c.Lose? then Failed(c.err.text) else a
  }

  /** The answer to the call at this position. */
  function Reply(w: World, cfg: Config, pc: Pc, c: Choice): (a: Answer)
    requires !pc.Returned?
    ensures Fits(CallOf(cfg, pc), a)
  {
    match pc
    case Begin(key) => Unless(c, Fetched(w.api, key))
    case DeleteLookup(vm) => Lookup(w.gce, vm.name, c)
    case DeleteIssue(vm) => Unless(c, Submitted(w.gce, vm.name, vm.name in w.gce.instances))
    case Strip(vm, _) =>
      Unless(c, if w.api.AcceptsUpdate(vm.(finalizers := Stripped(vm.finalizers))) then Written else Failed(CONFLICT))
    case EnsureLookup(vm) => Lookup(w.gce, vm.name, c)
    case EnsureSecret(vm) => Unless(c, if vm.Id() in w.secrets then SecretFound else Missing)
    case MakeKey(_, _) => if c.Mint? then Generated(c.pair) else Failed(NO_ENTROPY)
    case Issue(vm, create, _) => Unless(c, Submitted(w.gce, vm.name, create != (vm.name in w.gce.instances)))
    case Pausing(_, _, _) => if c.Lapse? then Expired(c.text) else Slept
    case Polling(_, _, op) => Unless(c, Polled(w.gce, op))
    case Reporting(vm, _, text) => Unless(c, if w.api.Current(vm) then Written else Failed(CONFLICT))
    case Confirm(vm, _) => Lookup(w.gce, vm.name, c)
    case Publish(vm, _, _, _) => Unless(c, if vm.Id() in w.secrets then Failed(TAKEN) else Written)
  }

  // ---- The services, by the call they receive ----

  /** What a call does, whoever sends it; `owner` is the record on whose behalf it is sent. */
  function Carried(w: World, owner: Owner, call: Call, c: Choice): World {
    if !c.Takes() then w
    else match call
      case DeleteInstance(name) => w.(gce := w.gce.Submit(name, Erase))
      case InsertInstance(request) => w.(gce := w.gce.Insert(owner, request))
      case SetSshKeys(name, sshKeys) => w.(gce := w.gce.Submit(name, Rekey(sshKeys)))
      case UpdateStatus(vm) => w.(api := w.api.UpdateStatus(vm))
      case UpdateVM(vm) => w.(api := w.api.UpdateVM(vm))
      case CreateSecret(key, secret) => if key in w.secrets then w else w.(secrets := w.secrets[key := secret])
      case NewKeypair => if c.Mint? then w.(used := w.used + {c.pair.pub}) else w
      case _ => w
  }

  /** What a call is answered. */
  function Answered(w: World, call: Call, c: Choice): Answer {
    match call
    case GetVM(key) => Unless(c, Fetched(w.api, key))
    case LookupInstance(name) => Lookup(w.gce, name, c)
    case DeleteInstance(name) => Unless(c, Submitted(w.gce, name, name in w.gce.instances))
    case InsertInstance(request) => Unless(c, Submitted(w.gce, request.name, request.name !in w.gce.instances))
    case SetSshKeys(name, _) => Unless(c, Submitted(w.gce, name, name in w.gce.instances))
    case Pause(_) => if c.Lapse? then Expired(c.text) else Slept
    case PollOp(op) => Unless(c, Polled(w.gce, op))
    case UpdateStatus(vm) => Unless(c, if w.api.Current(vm) then Written else Failed(CONFLICT))
    case UpdateVM(vm) => Unless(c, if w.api.AcceptsUpdate(vm) then Written else Failed(CONFLICT))
    case GetSecret(key) => Unless(c, if key in w.secrets then SecretFound else Missing)
    case CreateSecret(key, _) => Unless(c, if key in w.secrets then Failed(TAKEN) else Written)
    case NewKeypair => if c.Mint? then Generated(c.pair) else Failed(NO_ENTROPY)
  }

  /** On whose behalf the call at a position is sent. */
  function Behalf(pc: Pc): Owner {
    if pc.Holds() then Owner(pc.vm.Id(), pc.vm.uid) else Owner(Key("", ""), 0)
  }

  /** What is served and answered at a position is what the services do and answer on the very call that is sent
      there. */
  lemma CallSentIsServed(w: World, cfg: Config, pc: Pc, c: Choice)
    requires !pc.Returned?
    ensures Served(w, cfg, pc, c) == Carried(w, Behalf(pc), CallOf(cfg, pc), c)
    ensures Reply(w, cfg, pc, c) == Answered(w, CallOf(cfg, pc), c)
  {}

  // ---- What happens without the controller ----

  datatype Change =
    | Create(key: Key, uid: nat, spec: Spec, finalizers: seq<string>, status: Status)
    | Edit(key: Key, spec: Spec, finalizers: seq<string>)
    | EditStatus(key: Key, status: Status)
    | Delete(key: Key)
    | CollectSecret(key: Key)
    | Proceed(name: string, ending: Ending)
    | Conclude(op: OpId, errors: seq<string>)
    | Vanish(name: string)

  /** Creation passes the mutating webhook and updates the validating one. */
  predicate Possible(w: World, c: Change) {
    match c
    case Create(key, uid, _, _, _) => key !in w.api.vms && uid !in w.api.born
    case Edit(key, spec, finalizers) =>
      && key in w.api.vms
      && Permits(Request("", Decoded(w.api.vms[key].(spec := spec, finalizers := finalizers)), Decoded(w.api.vms[key])))
    case EditStatus(key, _) => key in w.api.vms
    case Delete(key) => key in w.api.vms
    case CollectSecret(key) => key in w.secrets
    case Proceed(name, ending) =>
      name in w.gce.instances && w.gce.instances[name].jobs != [] && (ending.Fail? ==> ending.errors != [])
    case Conclude(op, _) => op in w.gce.ops && w.gce.ops[op] == OpState.Pending && w.gce.Orphaned(op)
    case Vanish(name) => name in w.gce.instances
  }

  function Happen(w: World, c: Change): World
    requires Possible(w, c)
  {
    match c
    case Create(key, uid, spec, finalizers, status) =>
      w.(api := Api(w.api.vms[key := VM(key.namespace, key.name, uid, 1, false, Mutated(finalizers), spec, status)],
                    w.api.born[uid := spec]))
    case Edit(key, spec, finalizers) =>
      w.(api := w.api.Store(key, w.api.vms[key].(spec := spec, finalizers := finalizers)))
    case EditStatus(key, status) => w.(api := w.api.Store(key, w.api.vms[key].(status := status)))
    case Delete(key) => w.(api := w.api.Store(key, w.api.vms[key].(deleting := true)))
    case CollectSecret(key) => w.(secrets := w.secrets - {key})
    case Proceed(name, ending) => w.(gce := w.gce.Proceed(name, ending))
    case Conclude(op, errors) => w.(gce := w.gce.Conclude(op, errors))
    case Vanish(name) => w.(gce := w.gce.Remove(name))
  }
}
