/** What the controller sends and returns, said of the exchanges alone: which call is due after which history, with what
    in it, and with what result a history ends. The automaton, and so the code, does exactly this. */
module Conduct {
  import opened Types
  import opened StringSets
  import opened Protocol
  import Admission

  ghost function Last(t: seq<Exchange>): Exchange
    requires t != []
  {
    t[|t| - 1]
  }

  // ---- What an exchange says ----

  /** The record as read. */
  ghost predicate Read(t: seq<Exchange>, key: Key, vm: VM) {
    t != [] && t[0] == Exchange(GetVM(key), GotVM(vm)) && vm.Id() == key
  }

  /** The calls that are answered with an operation. */
  predicate OnOperation(call: Call) { call.DeleteInstance? || call.InsertInstance? || call.SetSshKeys? || call.PollOp? }

  ghost predicate Observed(x: Exchange) { OnOperation(x.call) && x.answer.Op? }

  ghost predicate Faulty(op: Operation) { op.errors.Some? && op.errors.value != [] }

  /** An operation was seen done without errors. */
  ghost predicate Succeeds(x: Exchange) { Observed(x) && !Faulty(x.answer.op) && x.answer.op.status == "DONE" }

  /** An operation was seen in progress. */
  ghost predicate Continues(x: Exchange) { Observed(x) && !Faulty(x.answer.op) && x.answer.op.status != "DONE" }

  /** An operation was seen with errors, could not be started or seen, or was given up. */
  ghost predicate Fails(x: Exchange, text: string) {
    || (Observed(x) && Faulty(x.answer.op) && text == Joined(x.answer.op.errors.value))
    || (OnOperation(x.call) && x.answer.Failed? && text == x.answer.text)
    || (x.call.Pause? && x.answer.Expired? && text == x.answer.text)
  }

  ghost predicate LookedFor(x: Exchange, vm: VM) { x.call == LookupInstance(vm.name) && x.answer.Looked? }

  ghost predicate NotFoundError(err: GceError) { err.api && err.code == 404 }

  // ---- The two ways to a new key ----

  /** No instance was shown, and nothing but an API error other than 404 would have stood in the way. */
  ghost predicate LacksInstance(t: seq<Exchange>, vm: VM) {
    && |t| == 2 && LookedFor(t[1], vm) && t[1].answer.instance.None?
    && (t[1].answer.err.Some? && t[1].answer.err.value.api ==> t[1].answer.err.value.code == 404)
  }

  ghost predicate LacksSecret(t: seq<Exchange>, key: Key, vm: VM) {
    && |t| == 3 && LookedFor(t[1], vm) && t[1].answer.instance.Some?
    && t[2] == Exchange(GetSecret(key), Missing)
  }

  ghost predicate Created(t: seq<Exchange>, vm: VM, pair: Keypair) {
    |t| >= 3 && LacksInstance(t[..2], vm) && t[2] == Exchange(NewKeypair, Generated(pair))
  }

  ghost predicate Refreshed(t: seq<Exchange>, key: Key, vm: VM, pair: Keypair) {
    |t| >= 4 && LacksSecret(t[..3], key, vm) && t[3] == Exchange(NewKeypair, Generated(pair))
  }

  ghost predicate Minted(t: seq<Exchange>, key: Key, vm: VM, pair: Keypair) {
    Created(t, vm, pair) || Refreshed(t, key, vm, pair)
  }

  // ---- What is sent ----

  ghost predicate IsKeyLine(line: string, pub: string) {
    line == if pub != "" && pub[|pub| - 1] == '\n' then "cloud-user:" + pub[..|pub| - 1] + " cloud-user"
            else "cloud-user:" + pub + " cloud-user"
  }

  /** The boot disk, named by path, and then the data disks in order, all deleted with the instance. */
  ghost predicate AreDisks(ds: seq<Disk>, cfg: Config, spec: Spec) {
    var boot, disks := spec.bootDisk, spec.DataDisks();
    && |ds| == 1 + |disks|
    && ds[0] == Disk(true, true, boot.imageFamily, boot.disk.sizeGB,
                     "projects/" + cfg.project + "/zones/" + cfg.zone + "/diskTypes/" + boot.disk.diskType)
    && forall i :: 0 <= i < |disks| ==> ds[i + 1] == Disk(true, false, "", disks[i].sizeGB, disks[i].diskType)
  }

  ghost predicate IsRequest(r: InsertRequest, cfg: Config, vm: VM, pub: string) {
    && r.name == vm.name
    && r.machineType == "zones/" + cfg.zone + "/machineTypes/" + vm.spec.machineType
    && IsKeyLine(r.sshKeys, pub)
    && r.canIpForward && r.network == "global/networks/default"
    && r.accessConfig == "ONE_TO_ONE_NAT" && r.accessName == "External NAT"
    && AreDisks(r.disks, cfg, vm.spec)
  }

  ghost predicate IsSshConfig(s: string, name: string, host: string) {
    s == "Host " + name + "\n"
         + "  HostName " + host + "\n"
         + "  Port 22\n"
         + "  User cloud-user\n"
         + "  StrictHostKeyChecking no\n"
  }

  /** The object as read, with nothing changed but the error state. */
  ghost predicate IsReport(v: VM, vm: VM, text: string) {
    && v.status.state.phase == "error"
    && v.status.state.message
       == (if vm.deleting then "error deleting GCE instance: " else "error running operation: ") + text
    && v == vm.(status := vm.status.(state := v.status.state))
  }

  /** The object as read, with nothing changed but the finalizers: the others, sorted, each once. */
  ghost predicate IsRelease(v: VM, vm: VM) {
    && StrictlySorted(v.finalizers)
    && Elements(v.finalizers) == Elements(vm.finalizers) - {"virtualmachines.ci.openshift.io"}
    && v == vm.(finalizers := v.finalizers)
  }

  /** The lookup said that there is no instance. */
  ghost predicate SaysGone(x: Exchange, vm: VM) {
    LookedFor(x, vm) && (if x.answer.err.Some? then NotFoundError(x.answer.err.value) else x.answer.instance.None?)
  }

  // ---- The call that is due after a history ----

  ghost predicate DueFor(cfg: Config, key: Key, t: seq<Exchange>, vm: VM, call: Call)
    requires t != []
  {
    match call
    case GetVM(_) => false
    case LookupInstance(name) =>
      && name == vm.name
      && (|| (|t| == 1 && (vm.deleting ==> "virtualmachines.ci.openshift.io" in vm.finalizers))
          || (!vm.deleting && Succeeds(Last(t))))
    case DeleteInstance(name) =>
      && name == vm.name && vm.deleting
      && |t| == 2 && LookedFor(t[1], vm) && t[1].answer.instance.Some? && t[1].answer.err.None?
    case GetSecret(k) => k == key && !vm.deleting && |t| == 2 && LookedFor(t[1], vm) && t[1].answer.instance.Some?
    case NewKeypair => !vm.deleting && (LacksInstance(t, vm) || LacksSecret(t, key, vm))
    case InsertInstance(r) =>
      !vm.deleting && |t| == 3 && exists pair :: Created(t, vm, pair) && IsRequest(r, cfg, vm, pair.pub)
    case SetSshKeys(name, line) =>
      && name == vm.name && !vm.deleting
      && |t| == 4 && exists pair :: Refreshed(t, key, vm, pair) && IsKeyLine(line, pair.pub)
    case Pause(op) => Continues(Last(t)) && op == Last(t).answer.op.id
    case PollOp(op) =>
      && Last(t) == Exchange(Pause(op), Slept)
      && |t| >= 2 && Observed(t[|t| - 2]) && t[|t| - 2].answer.op.id == op
    case UpdateStatus(v) => exists text :: Fails(Last(t), text) && IsReport(v, vm, text)
    case UpdateVM(v) =>
      && vm.deleting && IsRelease(v, vm)
      && (|| (|t| == 2 && SaysGone(t[1], vm))
          || Succeeds(Last(t))
          || (Last(t).call.UpdateStatus? && Last(t).answer.Written?))
    case CreateSecret(k, s) =>
      && k == key && !vm.deleting
      && |t| >= 2 && Succeeds(t[|t| - 2])
      && LookedFor(Last(t), vm) && Last(t).answer.err.None? && Last(t).answer.instance.Some?
      && var view := Last(t).answer.instance.value;
      && view.interfaces != [] && view.interfaces[0] != []
      && s.ownerUid == vm.uid && IsSshConfig(s.sshConfig, view.name, view.interfaces[0][0])
      && exists pair :: Minted(t, key, vm, pair) && s.pem == pair.pem && s.pub == pair.pub
  }

  ghost predicate Due(cfg: Config, key: Key, t: seq<Exchange>, call: Call) {
    if t == [] then call == GetVM(key)
    else t[0].answer.GotVM? && Read(t, key, t[0].answer.vm) && DueFor(cfg, key, t, t[0].answer.vm, call)
  }

  // ---- The result with which a history ends ----

  ghost predicate EndsFor(t: seq<Exchange>, vm: VM, result: Result)
    requires t != []
  {
    var x := Last(t);
    match x.call
    case GetVM(_) => vm.deleting && "virtualmachines.ci.openshift.io" !in vm.finalizers && result == Nil
    case LookupInstance(_) =>
      x.answer.Looked? &&
      if |t| > 2 then
        if x.answer.err.Some? then result == Error("failed to check for virtual machine: " + x.answer.err.value.text)
        else
          && result == Panicked
          && (|| x.answer.instance.None? || x.answer.instance.value.interfaces == []
              || x.answer.instance.value.interfaces[0] == [])
      else
        && x.answer.err.Some?
        && (if vm.deleting then !NotFoundError(x.answer.err.value)
            else x.answer.instance.None? && x.answer.err.value.api && x.answer.err.value.code != 404)
        && result == Error("failed to check for existance of virtual machine: " + x.answer.err.value.text)
    case GetSecret(_) =>
      || (x.answer.SecretFound? && result == Nil)
      || (x.answer.Failed? && result == Error("failed to check for existance of secret: " + x.answer.text))
    case NewKeypair => x.answer.Failed? && result == Error("could not create SSH keypair for VM: " + x.answer.text)
    case UpdateStatus(_) =>
      || (x.answer.Written? && !vm.deleting && result == Nil)
      || (x.answer.Failed? && result == Error(x.answer.text))
    case UpdateVM(_) =>
      || (x.answer.Written? && result == Nil)
      || (x.answer.Failed? && result == Error(x.answer.text))
    case CreateSecret(_, _) =>
      || (x.answer.Written? && result == Nil)
      || (x.answer.Failed? && result == Error("could not create SSH secret: " + x.answer.text))
    case _ => false
  }

  ghost predicate Ends(key: Key, t: seq<Exchange>, result: Result) {
    && t != [] && t[0].call == GetVM(key)
    && match t[0].answer
       case GotVM(vm) => vm.Id() == key && EndsFor(t, vm, result)
       case Missing => |t| == 1 && result == Nil
       case Failed(text) => |t| == 1 && result == Error(text)
       case _ => false
  }

  // ---- Where a history stands ----

  ghost predicate Serves(t: seq<Exchange>, key: Key, vm: VM, purpose: Purpose) {
    && vm.deleting == purpose.Deletion?
    && (purpose.Keying? ==> Minted(t, key, vm, purpose.pair))
  }

  /** What the history is at each position of the automaton. */
  ghost predicate StandsFor(key: Key, t: seq<Exchange>, pc: Pc)
    requires pc.Holds() && t != []
  {
    match pc
    case DeleteLookup(vm) => |t| == 1 && vm.deleting && vm.Guarded()
    case DeleteIssue(vm) =>
      vm.deleting && |t| == 2 && LookedFor(t[1], vm) && t[1].answer.instance.Some? && t[1].answer.err.None?
    case Strip(vm, _) =>
      && vm.deleting
      && (|| (|t| == 2 && SaysGone(t[1], vm)) || Succeeds(Last(t))
          || (Last(t).call.UpdateStatus? && Last(t).answer.Written?))
    case EnsureLookup(vm) => |t| == 1 && !vm.deleting
    case EnsureSecret(vm) => !vm.deleting && |t| == 2 && LookedFor(t[1], vm) && t[1].answer.instance.Some?
    case MakeKey(vm, create) => !vm.deleting && if create then LacksInstance(t, vm) else LacksSecret(t, key, vm)
    case Issue(vm, create, pair) =>
      && !vm.deleting
      && if create then |t| == 3 && Created(t, vm, pair) else |t| == 4 && Refreshed(t, key, vm, pair)
    case Pausing(vm, purpose, op) => Serves(t, key, vm, purpose) && Continues(Last(t)) && op == Last(t).answer.op.id
    case Polling(vm, purpose, op) =>
      && Serves(t, key, vm, purpose) && Last(t) == Exchange(Pause(op), Slept)
      && |t| >= 2 && Observed(t[|t| - 2]) && t[|t| - 2].answer.op.id == op
    case Reporting(vm, purpose, message) =>
      && Serves(t, key, vm, purpose)
      && exists text :: Fails(Last(t), text) && message == FailureText(purpose, text)
    case Confirm(vm, pair) => !vm.deleting && Minted(t, key, vm, pair) && Succeeds(Last(t))
    case Publish(vm, pair, name, host) =>
      && !vm.deleting && Minted(t, key, vm, pair)
      && |t| >= 2 && Succeeds(t[|t| - 2])
      && LookedFor(Last(t), vm) && Last(t).answer.err.None? && Last(t).answer.instance.Some?
      && var view := Last(t).answer.instance.value;
      && view.interfaces != [] && view.interfaces[0] != [] && name == view.name && host == view.interfaces[0][0]
  }

  ghost predicate Stands(key: Key, t: seq<Exchange>, pc: Pc) {
    if pc.Begin? then t == [] && pc.key == key
    else pc.Holds() && Read(t, key, pc.vm) && StandsFor(key, t, pc)
  }

  // ---- What the automaton sends ----

  lemma KeyLineOf(line: string, pub: string)
    ensures IsKeyLine(line, pub) <==> line == FormatKey(pub)
  {
    var trimmed := TrimNewline(pub);
    assert SSH_USER + ":" == "cloud-user:";
    assert " " + SSH_USER == " cloud-user";
    assert FormatKey(pub) == (SSH_USER + ":") + trimmed + (" " + SSH_USER);
  }

  lemma DisksOf(ds: seq<Disk>, cfg: Config, spec: Spec)
    ensures AreDisks(ds, cfg, spec) <==> ds == Disks(cfg, spec)
  {
    if AreDisks(ds, cfg, spec) {
      forall i | 0 <= i < |ds| ensures ds[i] == Disks(cfg, spec)[i] {
        if i > 0 { assert ds[i - 1 + 1] == ds[i]; }
      }
    }
  }

  lemma RequestOf(cfg: Config, vm: VM, pub: string, r: InsertRequest)
    ensures IsRequest(r, cfg, vm, pub) <==> r == InstanceRequest(cfg, vm.name, vm.spec, FormatKey(pub))
  {
    KeyLineOf(r.sshKeys, pub);
    DisksOf(r.disks, cfg, vm.spec);
  }

  lemma SshConfigOf(s: string, name: string, host: string)
    ensures IsSshConfig(s, name, host) <==> s == SshConfigFile(name, host)
  {
    assert "  User " + SSH_USER + "\n" == "  User cloud-user\n";
  }

  lemma ReportOf(v: VM, vm: VM, purpose: Purpose, text: string)
    requires vm.deleting == purpose.Deletion?
    ensures IsReport(v, vm, text) <==> v == vm.(status := Errored(vm.status, FailureText(purpose, text)))
  {}

  lemma ReleaseOf(v: VM, vm: VM)
    ensures IsRelease(v, vm) <==> v == vm.(finalizers := Admission.Stripped(vm.finalizers))
  {
    Admission.FinalizerListsExact(vm.finalizers, v.finalizers);
  }

  /** The text of a failure is determined. */
  lemma FailsOnce(x: Exchange, text: string, other: string)
    requires Fails(x, text) && Fails(x, other)
    ensures text == other
  {}

  lemma MintedOnce(t: seq<Exchange>, key: Key, vm: VM, pair: Keypair, other: Keypair)
    requires Minted(t, key, vm, pair) && Minted(t, key, vm, other)
    ensures pair == other
  {
    assert |t| >= 3 ==> t[..2][1] == t[1];
    assert |t| >= 4 ==> t[..3][2] == t[2] && t[..3][1] == t[1];
  }

  // ---- One step further ----

  /** At every position the automaton's call is the one that is due. */
  lemma StandingIsDue(cfg: Config, key: Key, t: seq<Exchange>, pc: Pc)
    requires Stands(key, t, pc)
    ensures Due(cfg, key, t, CallOf(cfg, pc))
  {
    match pc
    case Issue(vm, create, pair) =>
      if create {
        RequestOf(cfg, vm, pair.pub, CallOf(cfg, pc).request);
      } else {
        KeyLineOf(FormatKey(pair.pub), pair.pub);
      }
    case Reporting(vm, purpose, message) =>
      var text :| Fails(Last(t), text) && message == FailureText(purpose, text);
      ReportOf(CallOf(cfg, pc).vm, vm, purpose, text);
    case Strip(vm, _) => ReleaseOf(CallOf(cfg, pc).vm, vm);
    case Publish(vm, pair, name, host) => SshConfigOf(CallOf(cfg, pc).secret.sshConfig, name, host);
    case _ =>
  }

  lemma EarlyIsStanding(cfg: Config, key: Key, t: seq<Exchange>, pc: Pc, call: Call)
    requires Stands(key, t, pc) && Due(cfg, key, t, call)
    requires pc.Begin? || pc.DeleteLookup? || pc.DeleteIssue? || pc.EnsureLookup? || pc.EnsureSecret? || pc.MakeKey?
    ensures call == CallOf(cfg, pc)
  {}

  lemma PauseIsStanding(cfg: Config, key: Key, t: seq<Exchange>, pc: Pc, call: Call)
    requires Stands(key, t, pc) && Due(cfg, key, t, call) && pc.Pausing?
    ensures call == CallOf(cfg, pc)
  {}

  lemma PollIsStanding(cfg: Config, key: Key, t: seq<Exchange>, pc: Pc, call: Call)
    requires Stands(key, t, pc) && Due(cfg, key, t, call) && pc.Polling?
    ensures call == CallOf(cfg, pc)
  {}

  lemma ConfirmIsStanding(cfg: Config, key: Key, t: seq<Exchange>, pc: Pc, call: Call)
    requires Stands(key, t, pc) && Due(cfg, key, t, call) && pc.Confirm?
    ensures call == CallOf(cfg, pc)
  {}

  /** And it is the only one. */
  lemma DueIsStanding(cfg: Config, key: Key, t: seq<Exchange>, pc: Pc, call: Call)
    requires Stands(key, t, pc) && Due(cfg, key, t, call)
    ensures call == CallOf(cfg, pc)
  {
    if pc.Issue? {
      IssueIsStanding(cfg, key, t, pc, call);
    } else if pc.Reporting? {
      ReportingIsStanding(cfg, key, t, pc, call);
    } else if pc.Strip? {
      StripIsStanding(cfg, key, t, pc, call);
    } else if pc.Publish? {
      PublishIsStanding(cfg, key, t, pc, call);
    } else if pc.Pausing? {
      PauseIsStanding(cfg, key, t, pc, call);
    } else if pc.Polling? {
      PollIsStanding(cfg, key, t, pc, call);
    } else if pc.Confirm? {
      ConfirmIsStanding(cfg, key, t, pc, call);
    } else {
      EarlyIsStanding(cfg, key, t, pc, call);
    }
  }

  /** After a failure nothing is due but the report. */
  lemma OnlyReport(cfg: Config, key: Key, t: seq<Exchange>, pc: Pc, call: Call)
    requires Stands(key, t, pc) && pc.Reporting? && Due(cfg, key, t, call)
    ensures call.UpdateStatus?
  {}

  lemma ReportingIsStanding(cfg: Config, key: Key, t: seq<Exchange>, pc: Pc, call: Call)
    requires Stands(key, t, pc) && pc.Reporting? && Due(cfg, key, t, call)
    ensures call == CallOf(cfg, pc)
  {
    OnlyReport(cfg, key, t, pc, call);
    var text :| Fails(Last(t), text) && pc.text == FailureText(pc.purpose, text);
    SameReport(t, pc.vm, pc.purpose, call.vm, text);
  }

  lemma SameReport(t: seq<Exchange>, vm: VM, purpose: Purpose, v: VM, text: string)
    requires t != [] && Fails(Last(t), text) && exists other :: Fails(Last(t), other) && IsReport(v, vm, other)
    requires vm.deleting == purpose.Deletion?
    ensures v == vm.(status := Errored(vm.status, FailureText(purpose, text)))
  {
    var other :| Fails(Last(t), other) && IsReport(v, vm, other);
    FailsOnce(Last(t), text, other);
    ReportOf(v, vm, purpose, text);
  }

  lemma StripIsStanding(cfg: Config, key: Key, t: seq<Exchange>, pc: Pc, call: Call)
    requires Stands(key, t, pc) && pc.Strip? && Due(cfg, key, t, call)
    ensures call == CallOf(cfg, pc)
  {
    ReleaseOf(call.vm, pc.vm);
  }

  lemma PublishIsStanding(cfg: Config, key: Key, t: seq<Exchange>, pc: Pc, call: Call)
    requires Stands(key, t, pc) && pc.Publish? && Due(cfg, key, t, call)
    ensures call == CallOf(cfg, pc)
  {
    SshConfigOf(call.secret.sshConfig, pc.instance, pc.host);
    var other :| Minted(t, key, pc.vm, other) && call.secret.pem == other.pem && call.secret.pub == other.pub;
    MintedOnce(t, key, pc.vm, pc.pair, other);
  }

  lemma IssueIsStanding(cfg: Config, key: Key, t: seq<Exchange>, pc: Pc, call: Call)
    requires Stands(key, t, pc) && pc.Issue? && Due(cfg, key, t, call)
    ensures call == CallOf(cfg, pc)
  {
    var vm := pc.vm;
    if pc.create {
      var other :| Created(t, vm, other) && IsRequest(call.request, cfg, vm, other.pub);
      RequestOf(cfg, vm, other.pub, call.request);
    } else {
      var other :| Refreshed(t, key, vm, other) && IsKeyLine(call.sshKeys, other.pub);
      KeyLineOf(call.sshKeys, other.pub);
    }
  }

  lemma StandingGoesOn(key: Key, t: seq<Exchange>, pc: Pc, result: Result)
    requires Stands(key, t, pc)
    ensures !Ends(key, t, result)
  {}

  lemma SamePrefix(t: seq<Exchange>, x: Exchange)
    ensures |t| >= 2 ==> (t + [x])[..2] == t[..2]
    ensures |t| >= 3 ==> (t + [x])[..3] == t[..3]
    ensures forall i :: 0 <= i < |t| ==> (t + [x])[i] == t[i]
    ensures (t + [x])[|t|] == x && Last(t + [x]) == x
  {}

  /** A key once generated stays generated. */
  lemma MintedStays(t: seq<Exchange>, x: Exchange, key: Key, vm: VM, pair: Keypair)
    requires Minted(t, key, vm, pair)
    ensures Minted(t + [x], key, vm, pair)
  {
    SamePrefix(t, x);
  }

  lemma LookupStands(cfg: Config, key: Key, t: seq<Exchange>, pc: Pc, x: Exchange)
    requires Stands(key, t, pc) && x.call == CallOf(cfg, pc) && Fits(x.call, x.answer)
    requires !After(cfg, pc, x.answer).Returned?
    requires pc.Begin? || pc.DeleteLookup? || pc.EnsureLookup? || pc.EnsureSecret? || pc.MakeKey?
    ensures Stands(key, t + [x], After(cfg, pc, x.answer))
  {
    SamePrefix(t, x);
    if pc.MakeKey? { assert if pc.create then (t + [x])[..2] == t else (t + [x])[..3] == t; }
  }

  lemma SubmitStands(cfg: Config, key: Key, t: seq<Exchange>, pc: Pc, x: Exchange)
    requires Stands(key, t, pc) && x.call == CallOf(cfg, pc) && Fits(x.call, x.answer)
    requires !After(cfg, pc, x.answer).Returned? && (pc.DeleteIssue? || pc.Issue?)
    ensures Stands(key, t + [x], After(cfg, pc, x.answer))
  {
    SamePrefix(t, x);
    if pc.Issue? { MintedStays(t, x, key, pc.vm, pc.pair); }
  }

  lemma WaitStands(cfg: Config, key: Key, t: seq<Exchange>, pc: Pc, x: Exchange)
    requires Stands(key, t, pc) && x.call == CallOf(cfg, pc) && Fits(x.call, x.answer)
    requires !After(cfg, pc, x.answer).Returned? && (pc.Pausing? || pc.Polling?)
    ensures Stands(key, t + [x], After(cfg, pc, x.answer))
  {
    SamePrefix(t, x);
    if pc.purpose.Keying? { MintedStays(t, x, key, pc.vm, pc.purpose.pair); }
  }

  lemma EndingStands(cfg: Config, key: Key, t: seq<Exchange>, pc: Pc, x: Exchange)
    requires Stands(key, t, pc) && x.call == CallOf(cfg, pc) && Fits(x.call, x.answer)
    requires !After(cfg, pc, x.answer).Returned? && (pc.Strip? || pc.Reporting? || pc.Confirm? || pc.Publish?)
    ensures Stands(key, t + [x], After(cfg, pc, x.answer))
  {
    SamePrefix(t, x);
    if pc.Confirm? { MintedStays(t, x, key, pc.vm, pc.pair); }
  }

  lemma StepStands(cfg: Config, key: Key, t: seq<Exchange>, pc: Pc, x: Exchange)
    requires Stands(key, t, pc) && x.call == CallOf(cfg, pc) && Fits(x.call, x.answer)
    requires !After(cfg, pc, x.answer).Returned?
    ensures Stands(key, t + [x], After(cfg, pc, x.answer))
  {
    if pc.DeleteIssue? || pc.Issue? {
      SubmitStands(cfg, key, t, pc, x);
    } else if pc.Pausing? || pc.Polling? {
      WaitStands(cfg, key, t, pc, x);
    } else if pc.Strip? || pc.Reporting? || pc.Confirm? || pc.Publish? {
      EndingStands(cfg, key, t, pc, x);
    } else {
      LookupStands(cfg, key, t, pc, x);
    }
  }

  lemma FirstStepEnds(cfg: Config, key: Key, t: seq<Exchange>, pc: Pc, x: Exchange, result: Result)
    requires Stands(key, t, pc) && x.call == CallOf(cfg, pc) && Fits(x.call, x.answer)
    requires After(cfg, pc, x.answer).Returned? && (pc.Begin?)
    ensures Ends(key, t + [x], result) <==> result == After(cfg, pc, x.answer).result
  {
    SamePrefix(t, x);
  }

  lemma LookupEnds(cfg: Config, key: Key, t: seq<Exchange>, pc: Pc, x: Exchange, result: Result)
    requires Stands(key, t, pc) && x.call == CallOf(cfg, pc) && Fits(x.call, x.answer)
    requires After(cfg, pc, x.answer).Returned? && (pc.DeleteLookup? || pc.EnsureLookup? || pc.Confirm?)
    ensures Ends(key, t + [x], result) <==> result == After(cfg, pc, x.answer).result
  {
    SamePrefix(t, x);
  }

  lemma OtherStepEnds(cfg: Config, key: Key, t: seq<Exchange>, pc: Pc, x: Exchange, result: Result)
    requires Stands(key, t, pc) && x.call == CallOf(cfg, pc) && Fits(x.call, x.answer)
    requires After(cfg, pc, x.answer).Returned?
    requires !pc.Begin? && !pc.DeleteLookup? && !pc.EnsureLookup? && !pc.Confirm?
    ensures Ends(key, t + [x], result) <==> result == After(cfg, pc, x.answer).result
  {
    SamePrefix(t, x);
  }

  lemma StepEnds(cfg: Config, key: Key, t: seq<Exchange>, pc: Pc, x: Exchange, result: Result)
    requires Stands(key, t, pc) && x.call == CallOf(cfg, pc) && Fits(x.call, x.answer)
    requires After(cfg, pc, x.answer).Returned?
    ensures Ends(key, t + [x], result) <==> result == After(cfg, pc, x.answer).result
  {
    if pc.Begin? {
      FirstStepEnds(cfg, key, t, pc, x, result);
    } else if pc.DeleteLookup? || pc.EnsureLookup? || pc.Confirm? {
      LookupEnds(cfg, key, t, pc, x, result);
    } else {
      OtherStepEnds(cfg, key, t, pc, x, result);
    }
  }

  /** After the end no call is due. */
  lemma StepStops(cfg: Config, key: Key, t: seq<Exchange>, pc: Pc, x: Exchange, call: Call)
    requires Stands(key, t, pc) && x.call == CallOf(cfg, pc) && Fits(x.call, x.answer)
    requires After(cfg, pc, x.answer).Returned?
    ensures !Due(cfg, key, t + [x], call)
  {
    SamePrefix(t, x);
  }

  // ---- Histories ----

  /** Every call was due when it was sent, and was answered as such a call can be. */
  ghost predicate Conducted(cfg: Config, key: Key, t: seq<Exchange>) {
    forall i {:trigger t[i]} :: 0 <= i < |t| ==> Due(cfg, key, t[..i], t[i].call) && Fits(t[i].call, t[i].answer)
  }

  /** The history is over, with this result and no call due. */
  ghost predicate Over(cfg: Config, key: Key, t: seq<Exchange>, result: Result) {
    && (forall r :: Ends(key, t, r) <==> r == result)
    && (forall call :: !Due(cfg, key, t, call))
  }

  ghost predicate Fares(cfg: Config, key: Key, t: seq<Exchange>, pc: Pc) {
    if pc.Returned? then Over(cfg, key, t, pc.result) else Stands(key, t, pc)
  }

  lemma StepFares(cfg: Config, key: Key, t: seq<Exchange>, pc: Pc, x: Exchange)
    requires Stands(key, t, pc) && x.call == CallOf(cfg, pc) && Fits(x.call, x.answer)
    ensures Fares(cfg, key, t + [x], After(cfg, pc, x.answer))
  {
    if After(cfg, pc, x.answer).Returned? {
      forall r ensures Ends(key, t + [x], r) <==> r == After(cfg, pc, x.answer).result {
        StepEnds(cfg, key, t, pc, x, r);
      }
      forall call ensures !Due(cfg, key, t + [x], call) { StepStops(cfg, key, t, pc, x, call); }
    } else {
      StepStands(cfg, key, t, pc, x);
    }
  }

  lemma AdvanceFares(cfg: Config, key: Key, t: seq<Exchange>, at: Option<Pc>, x: Exchange)
    requires Advance(cfg, at, x).Some? && Fares(cfg, key, t, at.value)
    ensures Fares(cfg, key, t + [x], Advance(cfg, at, x).value)
  {
    StepFares(cfg, key, t, at.value, x);
  }

  lemma {:induction false} Along(cfg: Config, key: Key, t: seq<Exchange>)
    requires Exec(cfg, Begin(key), t).Some?
    ensures Fares(cfg, key, t, Exec(cfg, Begin(key), t).value)
  {
    if t != [] {
      var init, x := t[..|t| - 1], t[|t| - 1];
      Along(cfg, key, init);
      assert init + [x] == t;
      AdvanceFares(cfg, key, init, Exec(cfg, Begin(key), init), x);
    }
  }

  /** Of every history that the automaton goes through: it goes on with exactly the call that is due, and ends with
      exactly the result that the history ends with. */
  lemma ConductExact(cfg: Config, key: Key, t: seq<Exchange>, call: Call, result: Result)
    requires Exec(cfg, Begin(key), t).Some?
    ensures var pc := Exec(cfg, Begin(key), t).value;
            && (Due(cfg, key, t, call) <==> !pc.Returned? && call == CallOf(cfg, pc))
            && (Ends(key, t, result) <==> pc == Returned(result))
  {
    Along(cfg, key, t);
    var pc := Exec(cfg, Begin(key), t).value;
    if !pc.Returned? {
      StandingIsDue(cfg, key, t, pc);
      if Due(cfg, key, t, call) { DueIsStanding(cfg, key, t, pc, call); }
      StandingGoesOn(key, t, pc, result);
    }
  }

  lemma InitConducted(cfg: Config, key: Key, t: seq<Exchange>, x: Exchange)
    ensures Conducted(cfg, key, t + [x]) <==>
            Conducted(cfg, key, t) && Due(cfg, key, t, x.call) && Fits(x.call, x.answer)
  {
    var u := t + [x];
    assert u[..|t|] == t && u[|t|] == x;
    assert forall i :: 0 <= i < |t| ==> u[..i] == t[..i] && u[i] == t[i];
    if Conducted(cfg, key, u) {
      forall i | 0 <= i < |t| ensures Due(cfg, key, t[..i], t[i].call) && Fits(t[i].call, t[i].answer) {
        assert u[i] == t[i];
      }
    }
  }

  /** The histories of the automaton are exactly those in which every call was due. */
  lemma {:induction false} HistoriesExactly(cfg: Config, key: Key, t: seq<Exchange>)
    ensures Exec(cfg, Begin(key), t).Some? <==> Conducted(cfg, key, t)
  {
    if t != [] {
      var init, x := t[..|t| - 1], t[|t| - 1];
      HistoriesExactly(cfg, key, init);
      assert init + [x] == t;
      InitConducted(cfg, key, init, x);
      if Exec(cfg, Begin(key), init).Some? { ConductExact(cfg, key, init, x.call, Nil); }
    }
  }

  lemma PrefixConducted(cfg: Config, key: Key, t: seq<Exchange>, i: nat)
    requires Conducted(cfg, key, t) && i <= |t|
    ensures Conducted(cfg, key, t[..i])
  {
    var h := t[..i];
    forall j | 0 <= j < |h| ensures Due(cfg, key, h[..j], h[j].call) && Fits(h[j].call, h[j].answer) {
      assert h[..j] == t[..j] && h[j] == t[j];
    }
  }

  lemma DueAt(cfg: Config, key: Key, t: seq<Exchange>, i: nat)
    requires Conducted(cfg, key, t)
    ensures i < |t| ==> Due(cfg, key, t[..i], t[i].call)
  {}

  /** Where a history ends, nothing is sent any more. */
  lemma EndsAt(cfg: Config, key: Key, t: seq<Exchange>, i: nat, result: Result)
    requires Conducted(cfg, key, t) && i <= |t| && Ends(key, t[..i], result)
    ensures |t| == i && Exec(cfg, Begin(key), t) == Some(Returned(result))
  {
    var h := t[..i];
    PrefixConducted(cfg, key, t, i);
    HistoriesExactly(cfg, key, h);
    ConductExact(cfg, key, h, GetVM(key), result);
    Along(cfg, key, h);
    DueAt(cfg, key, t, i);
    assert h == t;
  }

  // ---- In particular ----

  /** The operation observed last. */
  ghost function LatestOp(t: seq<Exchange>): Option<OpId> {
    if t == [] then None
    else if Last(t).answer.Op? then Some(Last(t).answer.op.id)
    else LatestOp(t[..|t| - 1])
  }

  /** What is waited for and polled is the operation observed last, and so is the one whose success releases a
      record. */
  lemma WaitsForLatest(cfg: Config, key: Key, t: seq<Exchange>, i: nat)
    requires Conducted(cfg, key, t) && i < |t|
    ensures t[i].call.Pause? || t[i].call.PollOp? ==> LatestOp(t[..i]) == Some(t[i].call.op)
    ensures t[i].call.UpdateVM? && t[i - 1].call.PollOp? ==>
              Succeeds(t[i - 1]) && LatestOp(t[..i - 1]) == Some(t[i - 1].call.op)
  {
    WaitLatest(cfg, key, t, i);
    if t[i].call.UpdateVM? {
      assert t[..i][i - 1] == t[i - 1];
      WaitLatest(cfg, key, t, i - 1);
    }
  }

  lemma WaitLatest(cfg: Config, key: Key, t: seq<Exchange>, i: nat)
    requires Conducted(cfg, key, t) && i < |t|
    ensures t[i].call.Pause? || t[i].call.PollOp? ==> LatestOp(t[..i]) == Some(t[i].call.op)
    ensures t[i].call.UpdateVM? ==> i > 0
  {
    var h := t[..i];
    if t[i].call.PollOp? {
      assert h[..|h| - 1][|h| - 2] == h[|h| - 2];
      assert LatestOp(h) == LatestOp(h[..|h| - 1]);
    }
  }

  /** An instance is only deleted right after it was shown, without an error, for a record that is being deleted. */
  lemma DeletesWhatIsShown(cfg: Config, key: Key, t: seq<Exchange>, i: nat)
    requires Conducted(cfg, key, t) && i < |t| && t[i].call.DeleteInstance?
    ensures i == 2 && t[0].answer.GotVM? && t[0].answer.vm.deleting && t[i].call.name == key.name
    ensures t[1].call == LookupInstance(key.name) && t[1].answer.Looked?
    ensures t[1].answer.instance.Some? && t[1].answer.err.None?
  {
    assert t[..i][0] == t[0] && t[..i][1] == t[1];
  }

  /** A lookup that fails other than by an API 404 ends a deletion: nothing is sent after it. */
  lemma FailedLookupEndsDeletion(cfg: Config, key: Key, t: seq<Exchange>, vm: VM)
    requires Conducted(cfg, key, t) && Read(t, key, vm) && vm.deleting && |t| >= 2
    requires LookedFor(t[1], vm) && t[1].answer.err.Some? && !NotFoundError(t[1].answer.err.value)
    ensures |t| == 2
    ensures Exec(cfg, Begin(key), t)
            == Some(Returned(Error("failed to check for existance of virtual machine: " + t[1].answer.err.value.text)))
  {
    var h := t[..2];
    assert h[0] == t[0] && h[1] == t[1];
    EndsAt(cfg, key, t, 2, Error("failed to check for existance of virtual machine: " + t[1].answer.err.value.text));
  }

  /** A live record gets a new instance exactly when the lookup shows none and either succeeds, or says 404, or fails
      with an error that is no API error. */
  lemma CreatesExactly(cfg: Config, key: Key, t: seq<Exchange>, vm: VM)
    requires Conducted(cfg, key, t) && Read(t, key, vm) && !vm.deleting && |t| >= 2
    ensures LookedFor(t[1], vm)
    ensures var found, h := t[1].answer, t[..2];
            && (Due(cfg, key, h, NewKeypair) <==>
                  found.instance.None? && (found.err.None? || !found.err.value.api || found.err.value.code == 404))
            && (|t| > 2 && t[2].call == NewKeypair ==> Due(cfg, key, h, NewKeypair))
            && (|t| > 2 && Due(cfg, key, h, NewKeypair) ==> t[2].call == NewKeypair)
  {
    FirstLookup(cfg, key, t, vm);
    var h := t[..2];
    assert h[0] == t[0] && h[1] == t[1];
    if |t| > 2 {
      assert Due(cfg, key, h, t[2].call);
      if Due(cfg, key, h, NewKeypair) { OneDue(cfg, key, t, 2, NewKeypair); }
    }
  }

  lemma FirstLookup(cfg: Config, key: Key, t: seq<Exchange>, vm: VM)
    requires Conducted(cfg, key, t) && Read(t, key, vm) && |t| >= 2
    ensures LookedFor(t[1], vm)
  {
    var h := t[..1];
    assert h[0] == t[0] && Due(cfg, key, h, t[1].call) && Fits(t[1].call, t[1].answer);
  }

  /** At most one call is due. */
  lemma OneDue(cfg: Config, key: Key, t: seq<Exchange>, i: nat, call: Call)
    requires Conducted(cfg, key, t) && i < |t| && Due(cfg, key, t[..i], call)
    ensures t[i].call == call
  {
    PrefixConducted(cfg, key, t, i);
    HistoriesExactly(cfg, key, t[..i]);
    ConductExact(cfg, key, t[..i], call, Nil);
    ConductExact(cfg, key, t[..i], t[i].call, Nil);
  }

  /** A lookup that shows none, and fails with any other API error, ends the reconcile there. */
  lemma FailedLookupEndsCreation(cfg: Config, key: Key, t: seq<Exchange>, vm: VM)
    requires Conducted(cfg, key, t) && Read(t, key, vm) && !vm.deleting && |t| >= 2 && t[1].answer.Looked?
    requires t[1].answer.instance.None? && t[1].answer.err.Some?
    requires t[1].answer.err.value.api && t[1].answer.err.value.code != 404
    ensures |t| == 2
    ensures Exec(cfg, Begin(key), t)
            == Some(Returned(Error("failed to check for existance of virtual machine: " + t[1].answer.err.value.text)))
  {
    FirstLookup(cfg, key, t, vm);
    var h := t[..2];
    assert h[0] == t[0] && h[1] == t[1];
    EndsAt(cfg, key, t, 2, Error("failed to check for existance of virtual machine: " + t[1].answer.err.value.text));
  }

  lemma MintedIsGenerated(t: seq<Exchange>, key: Key, vm: VM, pair: Keypair)
    requires Minted(t, key, vm, pair)
    ensures exists j :: 0 <= j < |t| && t[j] == Exchange(NewKeypair, Generated(pair))
  {
    if Created(t, vm, pair) { assert t[2].call.NewKeypair?; } else { assert t[3].call.NewKeypair?; }
  }

  /** Somewhere in the history this key pair was generated. */
  ghost predicate Generates(t: seq<Exchange>, pair: Keypair) {
    exists j :: 0 <= j < |t| && t[j] == Exchange(NewKeypair, Generated(pair))
  }

  lemma DueSecret(cfg: Config, key: Key, t: seq<Exchange>, call: Call)
    requires call.CreateSecret? && Due(cfg, key, t, call)
    ensures call.key == key && |t| > 1 && t[0].answer.GotVM? && call.secret.ownerUid == t[0].answer.vm.uid
    ensures exists pair :: Generates(t, pair) && call.secret.pem == pair.pem && call.secret.pub == pair.pub
    ensures Shows(Last(t), key, call.secret.sshConfig)
  {
    var vm, s := t[0].answer.vm, call.secret;
    var pair :| Minted(t, key, vm, pair) && s.pem == pair.pem && s.pub == pair.pub;
    MintedIsGenerated(t, key, vm, pair);
    assert Generates(t, pair);
  }

  /** The lookup shows the name and first address that the SSH configuration has. */
  ghost predicate Shows(x: Exchange, key: Key, sshConfig: string) {
    && x.call == LookupInstance(key.name) && x.answer.Looked? && x.answer.err.None? && x.answer.instance.Some?
    && var view := x.answer.instance.value;
    && view.interfaces != [] && view.interfaces[0] != [] && IsSshConfig(sshConfig, view.name, view.interfaces[0][0])
  }

  /** The secret holds the key pair generated in the same reconcile, each half in its place, under the record read, with
      the connection details just shown. */
  lemma SecretHoldsKey(cfg: Config, key: Key, t: seq<Exchange>, i: nat)
    requires Conducted(cfg, key, t) && i < |t| && t[i].call.CreateSecret?
    ensures t[i].call.key == key && i > 1 && t[0].answer.GotVM? && t[i].call.secret.ownerUid == t[0].answer.vm.uid
    ensures exists pair ::
              Generates(t[..i], pair) && t[i].call.secret.pem == pair.pem && t[i].call.secret.pub == pair.pub
    ensures Shows(t[i - 1], key, t[i].call.secret.sshConfig)
  {
    DueSecret(cfg, key, t[..i], t[i].call);
  }

  /** A status is only written right after a failure, and says so: the phase, and the message with the failure's
      text. */
  lemma StatusTellsFailure(cfg: Config, key: Key, t: seq<Exchange>, i: nat)
    requires Conducted(cfg, key, t) && i < |t| && t[i].call.UpdateStatus?
    ensures i > 0 && t[0].answer.GotVM?
    ensures var v, vm, failed := t[i].call.vm, t[0].answer.vm, t[i - 1];
            && v.status.state.phase == "error"
            && (exists text :: Fails(failed, text)
                  && v.status.state.message
                     == (if vm.deleting then "error deleting GCE instance: " else "error running operation: ") + text)
            && v == vm.(status := vm.status.(state := v.status.state))
  {
    assert t[..i][i - 1] == t[i - 1];
  }
}
