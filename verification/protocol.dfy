/** One reconcile as an automaton over its remote calls: which call comes next, and what each answer leads to. */
module Protocol {
  import opened Types
  import Admission

  // ---- What the controller sends ----

  function DiskTypePath(cfg: Config, diskType: string): string {
    "projects/" + cfg.project + "/zones/" + cfg.zone + "/diskTypes/" + diskType
  }

  function MachineTypePath(cfg: Config, machineType: string): string {
    "zones/" + cfg.zone + "/machineTypes/" + machineType
  }

  const NETWORK := "global/networks/default"
  const NAT := "ONE_TO_ONE_NAT"
  const NAT_NAME := "External NAT"

  /** The boot disk names its type by path, the data disks by name only. */
  function BootDisk(cfg: Config, spec: Spec): Disk {
    Disk(true, true, spec.bootDisk.imageFamily, spec.bootDisk.disk.sizeGB,
         DiskTypePath(cfg, spec.bootDisk.disk.diskType))
  }

  function DataDisk(d: DiskSpec): Disk { Disk(true, false, "", d.sizeGB, d.diskType) }

  function Disks(cfg: Config, spec: Spec): seq<Disk> {
    var ds := spec.DataDisks();
    [BootDisk(cfg, spec)] + seq(|ds|, i requires 0 <= i < |ds| => DataDisk(ds[i]))
  }

  function InstanceRequest(cfg: Config, name: string, spec: Spec, sshKeys: string): InsertRequest {
    InsertRequest(name, MachineTypePath(cfg, spec.machineType), sshKeys, true, NETWORK, NAT, NAT_NAME,
                  Disks(cfg, spec))
  }

  function TrimNewline(s: string): string {
    if s != "" && s[|s| - 1] == '\n' then s[..|s| - 1] else s
  }

  /** The ssh-keys metadata for a public key. */
  function FormatKey(pub: string): string {
    SSH_USER + ":" + TrimNewline(pub) + " " + SSH_USER
  }

  /** Authorized-key lines end with a newline. */
  predicate Line(pub: string) { pub != "" && pub[|pub| - 1] == '\n' }

  function SshConfigFile(instance: string, host: string): string {
    "Host " + instance + "\n" + "  HostName " + host + "\n"
    + "  Port 22\n" + ("  User " + SSH_USER + "\n") + "  StrictHostKeyChecking no\n"
  }

  function SecretFor(vm: VM, pair: Keypair, instance: string, host: string): Secret {
    Secret(vm.uid, pair.pem, pair.pub, SshConfigFile(instance, host))
  }

  // ---- Operations ----

  /** The messages of an operation's errors, one a line. */
  function Joined(errors: seq<string>): string {
    if errors == [] then "" else Joined(errors[..|errors| - 1]) + errors[|errors| - 1] + "\n"
  }

  /** Every message is there, in order, with a newline of its own. */
  lemma {:induction false} JoinedExact(errors: seq<string>, more: seq<string>, text: string)
    ensures Joined([]) == "" && Joined([text]) == text + "\n"
    ensures Joined(errors + more) == Joined(errors) + Joined(more)
    decreases |more|
  {
    assert [text][..0] == [];
    if more != [] {
      var init, last := more[..|more| - 1], more[|more| - 1];
      JoinedExact(errors, init, text);
      assert (errors + more)[..|errors + more| - 1] == errors + init;
    } else {
      assert errors + more == errors;
    }
  }

  function OpError(op: Operation): Option<string> {
    if op.errors.None? || op.errors.value == [] then None else Some(Joined(op.errors.value))
  }

  // ---- The automaton ----

  datatype Call =
    | GetVM(key: Key)
    | LookupInstance(name: string)
    | DeleteInstance(name: string)
    | InsertInstance(request: InsertRequest)
    | SetSshKeys(name: string, sshKeys: string)
    | Pause(op: OpId)
    | PollOp(op: OpId)
    | UpdateStatus(vm: VM)
    | UpdateVM(vm: VM)
    | GetSecret(key: Key)
    | CreateSecret(key: Key, secret: Secret)
    | NewKeypair

  datatype Answer =
    | GotVM(vm: VM)
    | Missing
    | Failed(text: string)
    | Looked(instance: Option<InstanceView>, err: Option<GceError>)
    | Op(op: Operation)
    | Slept
    | Expired(text: string)
    | Written
    | SecretFound
    | Generated(pair: Keypair)

  predicate Fits(call: Call, a: Answer) {
    match a
    case GotVM(vm) => call.GetVM? && vm.Id() == call.key
    case Missing => call.GetVM? || call.GetSecret?
    case Failed(_) => !call.LookupInstance? && !call.Pause?
    case Looked(_, _) => call.LookupInstance?
    case Op(_) => call.DeleteInstance? || call.InsertInstance? || call.SetSshKeys? || call.PollOp?
    case Slept => call.Pause?
    case Expired(_) => call.Pause?
    case Written => call.UpdateStatus? || call.UpdateVM? || call.CreateSecret?
    case SecretFound => call.GetSecret?
    case Generated(_) => call.NewKeypair?
  }

  /** Why the controller believes it may remove the finalizer. */
  datatype StripReason = Gone | Erased | Swallowed(text: string)

  /** What an operation on the instance is run for. */
  datatype Purpose = Deletion | Keying(pair: Keypair)

  datatype Result = Nil | Error(text: string) | Panicked

  datatype Pc =
    | Begin(key: Key)
    | DeleteLookup(vm: VM)
    | DeleteIssue(vm: VM)
    | Strip(vm: VM, reason: StripReason)
    | EnsureLookup(vm: VM)
    | EnsureSecret(vm: VM)
    | MakeKey(vm: VM, create: bool)
    | Issue(vm: VM, create: bool, pair: Keypair)
    | Pausing(vm: VM, purpose: Purpose, op: OpId)
    | Polling(vm: VM, purpose: Purpose, op: OpId)
    | Reporting(vm: VM, purpose: Purpose, text: string)
    | Confirm(vm: VM, pair: Keypair)
    | Publish(vm: VM, pair: Keypair, instance: string, host: string)
    | Returned(result: Result)
  {
    predicate Holds() { !Begin? && !Returned? }
  }

  /** The positions on the way to removing the finalizer. */
  ghost predicate Deleting(pc: Pc) {
    match pc
    case DeleteLookup(_) => true
    case DeleteIssue(_) => true
    case Strip(_, _) => true
    case Pausing(_, purpose, _) => purpose.Deletion?
    case Polling(_, purpose, _) => purpose.Deletion?
    case Reporting(_, purpose, _) => purpose.Deletion?
    case _ => false
  }

  function CallOf(cfg: Config, pc: Pc): Call
    requires !pc.Returned?
  {
    match pc
    case Begin(key) => GetVM(key)
    case DeleteLookup(vm) => LookupInstance(vm.name)
    case DeleteIssue(vm) => DeleteInstance(vm.name)
    case Strip(vm, _) => UpdateVM(vm.(finalizers := Admission.Stripped(vm.finalizers)))
    case EnsureLookup(vm) => LookupInstance(vm.name)
    case EnsureSecret(vm) => GetSecret(vm.Id())
    case MakeKey(_, _) => NewKeypair
    case Issue(vm, create, pair) =>
      if create then InsertInstance(InstanceRequest(cfg, vm.name, vm.spec, FormatKey(pair.pub)))
      else SetSshKeys(vm.name, FormatKey(pair.pub))
    case Pausing(_, _, op) => Pause(op)
    case Polling(_, _, op) => PollOp(op)
    case Reporting(vm, _, text) => UpdateStatus(vm.(status := Errored(vm.status, text)))
    case Confirm(vm, _) => LookupInstance(vm.name)
    case Publish(vm, pair, instance, host) => CreateSecret(vm.Id(), SecretFor(vm, pair, instance, host))
  }

  /** The message recorded when the operation fails. */
  function FailureText(purpose: Purpose, text: string): string {
    (if purpose.Deletion? then NOT_DELETED else NOT_RUN) + text
  }

  function OpFailed(vm: VM, purpose: Purpose, text: string): Pc {
    Reporting(vm, purpose, FailureText(purpose, text))
  }

  function OpDone(vm: VM, purpose: Purpose): Pc {
    match purpose
    case Deletion => Strip(vm, Erased)
    case Keying(pair) => Confirm(vm, pair)
  }

  /** The head of the waiting loop: an operation has just been observed. */
  function Check(vm: VM, purpose: Purpose, op: Operation): Pc {
    if OpError(op).Some? then OpFailed(vm, purpose, OpError(op).value)
    else if op.Done() then OpDone(vm, purpose)
    else Pausing(vm, purpose, op.id)
  }

  function Error'(prefix: string, text: string): Pc { Returned(Error(prefix + ": " + text)) }

  const NOT_DELETED := "error deleting GCE instance: "
  const NOT_RUN := "error running operation: "
  const NO_CHECK := "failed to check for existance of virtual machine"
  const NO_SECRET_CHECK := "failed to check for existance of secret"
  const NO_KEYPAIR := "could not create SSH keypair for VM"
  const NO_CONFIRM := "failed to check for virtual machine"
  const NO_PUBLISH := "could not create SSH secret"

  function After(cfg: Config, pc: Pc, a: Answer): Pc
    requires !pc.Returned? && Fits(CallOf(cfg, pc), a)
  {
    match pc
    case Begin(_) => (
      match a
      case GotVM(vm) =>
        if !vm.deleting then EnsureLookup(vm)
        else if vm.Guarded() then DeleteLookup(vm)
        else Returned(Nil)
      case Missing => Returned(Nil)
      case Failed(text) => Returned(Error(text)))
    case DeleteLookup(vm) =>
      if a.err.Some? then
        if a.err.value.IsNotFound() then Strip(vm, Gone) else Error'(NO_CHECK, a.err.value.text)
      else if a.instance.None? then Strip(vm, Gone)
      else DeleteIssue(vm)
    case DeleteIssue(vm) =>
      if a.Op? then Check(vm, Deletion, a.op) else OpFailed(vm, Deletion, a.text)
    case Strip(_, _) =>
      Returned(if a.Written? then Nil else Error(a.text))
    case EnsureLookup(vm) =>
      if a.instance.Some? then EnsureSecret(vm)
      else if a.err.Some? && a.err.value.api && a.err.value.code != STATUS_NOT_FOUND
      then Error'(NO_CHECK, a.err.value.text)
      else MakeKey(vm, true)
    case EnsureSecret(vm) => (
      match a
      case SecretFound => Returned(Nil)
      case Missing => MakeKey(vm, false)
      case Failed(text) => Error'(NO_SECRET_CHECK, text))
    case MakeKey(vm, create) =>
      if a.Generated? then Issue(vm, create, a.pair) else Error'(NO_KEYPAIR, a.text)
    case Issue(vm, _, pair) =>
      if a.Op? then Check(vm, Keying(pair), a.op) else OpFailed(vm, Keying(pair), a.text)
    case Pausing(vm, purpose, op) =>
      if a.Slept? then Polling(vm, purpose, op) else OpFailed(vm, purpose, a.text)
    case Polling(vm, purpose, _) =>
      if a.Op? then Check(vm, purpose, a.op) else OpFailed(vm, purpose, a.text)
    case Reporting(vm, purpose, text) =>
      if a.Failed? then Returned(Error(a.text))
      else if purpose.Deletion? then Strip(vm, Swallowed(text))
      else Returned(Nil)
    case Confirm(vm, pair) =>
      if a.err.Some? then Error'(NO_CONFIRM, a.err.value.text)
      else if a.instance.None? then Returned(Panicked)
      else
        var view := a.instance.value;
        if view.interfaces == [] || view.interfaces[0] == [] then Returned(Panicked)
        else Publish(vm, pair, view.name, view.interfaces[0][0])
    case Publish(_, _, _, _) =>
      if a.Written? then Returned(Nil) else Error'(NO_PUBLISH, a.text)
  }

  // ---- Traces ----

  datatype Exchange = Exchange(call: Call, answer: Answer)

  /** One more exchange; None once the trace has left the automaton. */
  function Advance(cfg: Config, at: Option<Pc>, x: Exchange): Option<Pc> {
    if at.Some? && !at.value.Returned? && x.call == CallOf(cfg, at.value) && Fits(x.call, x.answer)
    then Some(After(cfg, at.value, x.answer))
    else None
  }

  /** Where a trace of exchanges leads. */
  function Exec(cfg: Config, pc: Pc, trace: seq<Exchange>): Option<Pc> {
    if trace == [] then Some(pc)
    else Advance(cfg, Exec(cfg, pc, trace[..|trace| - 1]), trace[|trace| - 1])
  }
}
