/** The controller's own methods, each proved to follow the automaton of Protocol call by call. */
module Controllers {
  import opened Types
  import StringSets
  import Admission
  import opened Protocol
  import opened Waiting
  import opened VirtualMachines
  import WorkQueues
  import Keys
  import Outcomes
  import opened Conduct

  /** An arbitrary answer, made to fit the call it answers; every fitting answer is left as it is. */
  function Fitted(call: Call, a: Answer): (r: Answer)
    ensures Fits(call, r) && (Fits(call, a) ==> r == a)
  {
    if Fits(call, a) then a
    else match call
      case LookupInstance(_) => Looked(None, None)
      case Pause(_) => Slept
      case _ => Failed("")
  }

  /** An attempt to reach an instance over SSH, and whether it was reached. */
  datatype Connection = Connection(host: string, user: string, pem: string, connected: bool)

  /** Where a reconcile uploads a key, it has tried that very key on the instance shown; else it has connected
      nowhere. */
  ghost predicate Tried(log: seq<Exchange>, connections: seq<Connection>) {
    if log != [] && Last(log).call.CreateSecret? then
      && |log| > 1 && |connections| == 1
      && var tried, found := connections[0], log[|log| - 2].answer;
      && tried.user == "cloud-user" && tried.pem == Last(log).call.secret.pem
      && found.Looked? && found.instance.Some?
      && found.instance.value.interfaces != [] && found.instance.value.interfaces[0] != []
      && tried.host == found.instance.value.interfaces[0][0]
    else
      connections == []
  }

  /** The remote services, whose answers are streams about which nothing is known.
      `log` and `at` record the exchanges of the reconcile in progress and where the automaton stands. */
  class Clients {
    const cfg: Config
    const script: nat -> Answer
    const rounds: nat -> Round
    const attempts: nat -> Attempt
    const parses: string -> bool

    var answered: nat
    var polled: nat
    var dialled: nat
    var slept: nat
    var handshaking: nat
    var clock: nat
    ghost var key: Key
    ghost var log: seq<Exchange>
    ghost var path: seq<Option<Pc>>
    ghost var at: Option<Pc>
    ghost var connections: seq<Connection>

    constructor (cfg: Config, script: nat -> Answer, rounds: nat -> Round, attempts: nat -> Attempt,
                 parses: string -> bool)
      ensures Valid() && this.cfg == cfg
    {
      this.cfg, this.script, this.rounds, this.attempts, this.parses := cfg, script, rounds, attempts, parses;
      answered, polled, dialled, slept, handshaking, clock := 0, 0, 0, 0, 0, 0;
      key, log, path, at, connections := Key("", ""), [], [Some(Begin(Key("", "")))], Some(Begin(Key("", ""))), [];
    }

    /** `path` holds the automaton's positions, `at` being the last. */
    ghost predicate Valid()
      reads this
    {
      && |path| == |log| + 1 && path[0] == Some(Begin(key)) && at == path[|log|]
      && forall i {:trigger log[i]} :: 0 <= i < |log| ==> path[i + 1] == Advance(cfg, path[i], log[i])
    }

    lemma {:induction false} PathIsExec(n: nat)
      requires Valid() && n <= |log|
      ensures path[n] == Exec(cfg, Begin(key), log[..n])
    {
      if n > 0 {
        PathIsExec(n - 1);
        assert log[..n][..n - 1] == log[..n - 1];
        assert log[..n][n - 1] == log[n - 1];
      }
    }

    ghost method Start(key: Key)
      modifies this`key, this`log, this`path, this`at, this`connections
      ensures Valid() && this.key == key && at == Some(Begin(key)) && log == [] && connections == []
    {
      this.key, log, path, at, connections := key, [], [Some(Begin(key))], Some(Begin(key)), [];
    }

    ghost method Record(x: Exchange)
      requires Valid()
      modifies this`log, this`path, this`at
      ensures Valid() && at == Advance(cfg, old(at), x) && log == old(log) + [x]
    {
      var next := Advance(cfg, at, x);
      at, path, log := next, path + [next], log + [x];
    }

    ghost method Tries(host: string, user: string, pem: string, connected: bool)
      modifies this`connections
      ensures connections == old(connections) + [Connection(host, user, pem, connected)]
    {
      connections := connections + [Connection(host, user, pem, connected)];
    }

    /** Any call but a poll. */
    method Do(call: Call) returns (a: Answer)
      requires Valid()
      modifies this`answered, this`log, this`path, this`at
      ensures Valid() && Fits(call, a) && at == Advance(cfg, old(at), Exchange(call, a))
      ensures log == old(log) + [Exchange(call, a)]
    {
      a := Fitted(call, script(answered));
      answered := answered + 1;
      Record(Exchange(call, a));
    }

    method ZoneOperationsGet(op: OpId) returns (observed: Observation)
      requires Valid()
      modifies this`polled, this`clock, this`log, this`path, this`at
      ensures Valid() && polled == old(polled) + 1
      ensures observed == rounds(old(polled)).observed && clock == old(clock) + rounds(old(polled)).latency
      ensures at == Advance(cfg, old(at), Exchange(PollOp(op), match observed
                                                               case Seen(o) => Op(o)
                                                               case Lost(t) => Failed(t)))
    {
      observed := rounds(polled).observed;
      clock := clock + rounds(polled).latency;
      polled := polled + 1;
      Record(Exchange(PollOp(op), match observed case Seen(o) => Op(o) case Lost(t) => Failed(t)));
    }

    /** Whichever comes first: the deadline, which yields the text of the timeout, or the end of the sleep. */
    method Select(op: OpId, deadline: nat) returns (lapse: Option<string>)
      requires Valid()
      modifies this`clock, this`log, this`path, this`at
      ensures Valid()
      ensures lapse == if Rouses(old(clock), deadline, rounds(polled).wakes) then None else Some(rounds(polled).lapse)
      ensures lapse.None? ==> clock == old(clock) + GCE_WAIT_SLEEP <= deadline
      ensures at == Advance(cfg, old(at), Exchange(Pause(op), if lapse.Some? then Expired(lapse.value) else Slept))
    {
      if Rouses(clock, deadline, rounds(polled).wakes) {
        clock := clock + GCE_WAIT_SLEEP;
        lapse := None;
      } else {
        clock := if clock < deadline then deadline else clock;
        lapse := Some(rounds(polled).lapse);
      }
      Record(Exchange(Pause(op), if lapse.Some? then Expired(lapse.value) else Slept));
    }

    method DialTimeout(timeoutSeconds: int) returns (ok: bool)
      modifies this`dialled, this`clock
      ensures dialled == old(dialled) + 1 && ok == DialSucceeds(attempts(old(dialled)), timeoutSeconds)
      ensures clock == old(clock) + DialTime(attempts(old(dialled)), timeoutSeconds)
    {
      ok := DialSucceeds(attempts(dialled), timeoutSeconds);
      clock := clock + DialTime(attempts(dialled), timeoutSeconds);
      dialled := dialled + 1;
    }

    /** The handshake on the connection that the last dial made; it has no deadline. */
    method NewClientConn() returns (ok: bool)
      requires dialled > 0
      modifies this`clock, this`handshaking
      ensures ok == attempts(dialled - 1).shakes
      ensures clock - old(clock) == handshaking - old(handshaking) == attempts(dialled - 1).shaking
    {
      ok := attempts(dialled - 1).shakes;
      clock, handshaking := clock + attempts(dialled - 1).shaking, handshaking + attempts(dialled - 1).shaking;
    }

    method Sleep(seconds: int)
      modifies this`slept, this`clock
      ensures slept == old(slept) + 1 && clock == old(clock) + SleepTime(seconds)
    {
      slept, clock := slept + 1, clock + SleepTime(seconds);
    }
  }

  /** The errors of an operation as one error, or the error that prevented observing it. */
  method CheckOp(op: Option<Operation>, err: Option<string>) returns (r: Option<string>)
    requires err.None? ==> op.Some?
    ensures r == if err.Some? then err
                 else if op.value.errors.None? || op.value.errors.value == [] then None
                 else Some(Joined(op.value.errors.value))
  {
    if err.Some? || op.value.errors.None? || |op.value.errors.value| == 0 { return err; }
    var errors := op.value.errors.value;
    var errs := "";
    for i := 0 to |errors|
      invariant errs == Joined(errors[..i])
    {
      assert errors[..i + 1][..i] == errors[..i];
      errs := errs + errors[i];
      errs := errs + "\n";
    }
    assert errors[..|errors|] == errors;
    return Some(errs);
  }

  /** The disks of a new instance: the boot disk, then one for each of the spec's disks in order. */
  method BuildDisks(cfg: Config, spec: VirtualMachineSpec) returns (disks: seq<Disk>)
    ensures disks == Disks(cfg, spec.Value())
  {
    disks := [BootDisk(cfg, spec.Value())];
    var n := if spec.disks == null then 0 else spec.disks.Length;
    for i := 0 to n
      invariant disks == Disks(cfg, spec.Value())[..i + 1]
    {
      disks := disks + [DataDisk(spec.disks[i])];
    }
  }

  /** The request that creates the instance a record asks for. */
  method NewInstance(cfg: Config, vm: VirtualMachine, sshKeys: string) returns (request: InsertRequest)
    ensures request == InstanceRequest(cfg, vm.name, vm.spec.Value(), sshKeys)
    ensures request.name == vm.name && request.sshKeys == sshKeys && AreDisks(request.disks, cfg, vm.spec.Value())
  {
    var disks := BuildDisks(cfg, vm.spec);
    DisksOf(disks, cfg, vm.spec.Value());
    request := InsertRequest(vm.name, MachineTypePath(cfg, vm.spec.machineType), sshKeys, true, NETWORK, NAT, NAT_NAME,
                             disks);
  }

  class Controller {
    const clients: Clients
    const queue: WorkQueues.WorkQueue<string>
    const ssh: SshConfig

    constructor (clients: Clients, queue: WorkQueues.WorkQueue<string>, ssh: SshConfig)
      ensures this.clients == clients && this.queue == queue
    {
      this.clients, this.queue, this.ssh := clients, queue, ssh;
    }

    // ---- Operations and errors ----

    /** A pause that the deadline may cut short, then a poll. */
    method NextObservation(op: OpId, deadline: nat, ghost vm: VM, ghost purpose: Purpose)
      returns (lapse: Option<string>, observed: Observation)
      requires clients.Valid() && clients.at == Some(Pausing(vm, purpose, op))
      modifies clients`polled, clients`clock, clients`log, clients`path, clients`at
      ensures clients.Valid()
      ensures var round := clients.rounds(old(clients.polled));
              if Rouses(old(clients.clock), deadline, round.wakes)
              then lapse == None && observed == round.observed && clients.at == Some(Observe(vm, purpose, observed))
                   && clients.polled == old(clients.polled) + 1
                   && clients.clock == old(clients.clock) + GCE_WAIT_SLEEP + round.latency
              else lapse == Some(round.lapse) && clients.at == Some(OpFailed(vm, purpose, round.lapse))
                   && clients.polled == old(clients.polled)
    {
      observed := Lost("");
      lapse := clients.Select(op, deadline);
      if lapse.None? { observed := clients.ZoneOperationsGet(op); }
    }

    /** Ends with the operation's outcome by the first terminal observation, after at most 120 polls. */
    method WaitForOperation(op: Operation, ghost vm: VM, ghost purpose: Purpose) returns (err: Option<string>)
      requires clients.Valid() && clients.at == Some(Check(vm, purpose, op))
      modifies clients`polled, clients`clock, clients`log, clients`path, clients`at
      ensures clients.Valid()
      ensures clients.at == Some(if err.None? then OpDone(vm, purpose) else OpFailed(vm, purpose, err.value))
      ensures var t := Timeline(op, old(clients.clock), clients.rounds, old(clients.polled));
              && (err.None? <==> t.Succeeds())
              && old(clients.polled) <= clients.polled <= old(clients.polled) + 120
              && t.Ends(clients.polled - old(clients.polled), err)
    {
      ghost var t := Timeline(op, clients.clock, clients.rounds, clients.polled);
      var deadline := clients.clock + GCE_TIMEOUT;
      var current: Option<Operation> := Some(op);
      err := None;
      ghost var n: nat := 0;
      while true
        invariant clients.Valid() && clients.at == Some(Observe(vm, purpose, t.Observed(n)))
        invariant clients.polled == old(clients.polled) + n && t.Reaches(n) && clients.clock == t.Time(n)
        invariant if err.Some? then t.Observed(n) == Lost(err.value)
                  else current.Some? && t.Observed(n) == Seen(current.value)
        decreases deadline - clients.clock
      {
        err := CheckOp(current, err);
        if err.Some? || current.value.Done() { break; }
        assert t.Quiet(n);
        var lapse, observed := NextObservation(current.value.id, deadline, vm, purpose);
        if lapse.Some? { err := lapse; break; }
        match observed {
          case Seen(o) => current := Some(o);
          case Lost(text) => current, err := None, Some(text);
        }
        n := n + 1;
      }
      assert t.Ends(n, err);
      PollBudget(t, n);
      EndIsFirstTerminal(t, n, err);
    }

    /** Records a failure in the status of a copy; the error returned is that of the write. */
    method HandleError(vm: VirtualMachine, text: string, ghost purpose: Purpose) returns (r: Result)
      requires clients.Valid() && clients.at == Some(Reporting(vm.Value(), purpose, text))
      modifies clients`answered, clients`log, clients`path, clients`at
      ensures clients.Valid() && (r.Nil? || r.Error?)
      ensures |clients.log| == |old(clients.log)| + 1 && Last(clients.log).call.UpdateStatus?
      ensures var v := Last(clients.log).call.vm;
              && v.status.state.phase == "error" && v.status.state.message == text
              && v == vm.Value().(status := vm.Value().status.(state := v.status.state))
      ensures clients.at == Some(if r.Nil? && purpose.Deletion? then Strip(vm.Value(), Swallowed(text))
                                 else Returned(r))
    {
      var updated := vm.DeepCopy();
      updated.status := Errored(updated.status, text);
      var a := clients.Do(UpdateStatus(updated.Value()));
      r := if a.Failed? then Error(a.text) else Nil;
    }

    // ---- Deletion ----

    method DeleteVM(vm: VirtualMachine) returns (r: Result)
      requires clients.Valid() && clients.at == Some(DeleteLookup(vm.Value()))
      modifies clients`answered, clients`polled, clients`clock, clients`log, clients`path, clients`at
      ensures clients.Valid() && clients.log != [] && !Last(clients.log).call.CreateSecret?
      ensures if r.Nil? then exists reason :: clients.at == Some(Strip(vm.Value(), reason))
              else clients.at == Some(Returned(r))
    {
      var found := clients.Do(LookupInstance(vm.name));
      if found.err.Some? {
        if found.err.value.IsNotFound() {
          assert clients.at == Some(Strip(vm.Value(), Gone));
          return Nil;
        }
        return Error(NO_CHECK + ": " + found.err.value.text);
      }
      if found.instance.None? {
        assert clients.at == Some(Strip(vm.Value(), Gone));
        return Nil;
      }
      var issued := clients.Do(DeleteInstance(vm.name));
      var err: Option<string>;
      if issued.Op? {
        err := WaitForOperation(issued.op, vm.Value(), Deletion);
      } else {
        err := Some(issued.text);
      }
      if err.Some? {
        r := HandleError(vm, FailureText(Deletion, err.value), Deletion);
        assert r.Nil? ==> clients.at == Some(Strip(vm.Value(), Swallowed(FailureText(Deletion, err.value))));
        return;
      }
      assert clients.at == Some(Strip(vm.Value(), Erased));
      return Nil;
    }

    // ---- Creation ----

    method EnsureVM(vm: VirtualMachine) returns (r: Result)
      requires clients.Valid() && clients.at == Some(EnsureLookup(vm.Value())) && clients.connections == []
      modifies clients
      ensures clients.Valid() && clients.key == old(clients.key) && clients.at == Some(Returned(r))
      ensures Tried(clients.log, clients.connections)
    {
      var found := clients.Do(LookupInstance(vm.name));
      if found.instance.Some? {
        var secret := clients.Do(GetSecret(Key(vm.namespace, vm.name)));
        match secret {
          case Missing => r := RunVMOpPollSSH(vm, false); return;
          case Failed(text) => return Error(NO_SECRET_CHECK + ": " + text);
          case _ => return Nil;
        }
      }
      if found.err.Some? && found.err.value.api && found.err.value.code != STATUS_NOT_FOUND {
        return Error(NO_CHECK + ": " + found.err.value.text);
      }
      r := RunVMOpPollSSH(vm, true);
    }

    /** Runs the operation that gives the instance a new key: its creation, or a change of its metadata. */
    method RunVMOpPollSSH(vm: VirtualMachine, create: bool) returns (r: Result)
      requires clients.Valid() && clients.at == Some(MakeKey(vm.Value(), create)) && clients.connections == []
      modifies clients
      ensures clients.Valid() && clients.key == old(clients.key) && clients.at == Some(Returned(r))
      ensures Tried(clients.log, clients.connections)
    {
      var made := clients.Do(NewKeypair);
      if made.Failed? { return Error(NO_KEYPAIR + ": " + made.text); }
      var pair := made.pair;
      var issued := Action(vm, create, pair);
      var err: Option<string>;
      if issued.Op? {
        err := WaitForOperation(issued.op, vm.Value(), Keying(pair));
      } else {
        err := Some(issued.text);
      }
      if err.Some? {
        r := HandleError(vm, FailureText(Keying(pair), err.value), Keying(pair));
      } else {
        r := PublishKey(vm, pair);
      }
    }

    /** The operation itself, with the formatted public key. */
    method Action(vm: VirtualMachine, create: bool, pair: Keypair) returns (issued: Answer)
      requires clients.Valid() && clients.at == Some(Issue(vm.Value(), create, pair))
      modifies clients`answered, clients`log, clients`path, clients`at
      ensures clients.Valid()
      ensures (issued.Op? && clients.at == Some(Check(vm.Value(), Keying(pair), issued.op)))
              || (issued.Failed? && clients.at == Some(OpFailed(vm.Value(), Keying(pair), issued.text)))
    {
      var formattedPub := FormatKey(pair.pub);
      if create {
        var request := NewInstance(clients.cfg, vm, formattedPub);
        issued := clients.Do(InsertInstance(request));
      } else {
        issued := clients.Do(SetSshKeys(vm.name, formattedPub));
      }
    }

    /** Once the operation is done: connect if possible, and upload the key in any case. */
    method PublishKey(vm: VirtualMachine, pair: Keypair) returns (r: Result)
      requires clients.Valid() && clients.at == Some(Confirm(vm.Value(), pair)) && clients.connections == []
      modifies clients
      ensures clients.Valid() && clients.key == old(clients.key) && clients.at == Some(Returned(r))
      ensures Tried(clients.log, clients.connections)
    {
      var found := clients.Do(LookupInstance(vm.name));
      if found.err.Some? { return Error(NO_CONFIRM + ": " + found.err.value.text); }
      if found.instance.None? { return Panicked; }
      var view := found.instance.value;
      if |view.interfaces| == 0 || |view.interfaces[0]| == 0 { return Panicked; }
      r := ConnectAndUpload(vm, pair, view);
    }

    /** Tries to connect to the first address shown, and uploads the key in any case. */
    method ConnectAndUpload(vm: VirtualMachine, pair: Keypair, view: InstanceView) returns (r: Result)
      requires clients.Valid() && clients.connections == [] && view.interfaces != [] && view.interfaces[0] != []
      requires clients.at == Some(Publish(vm.Value(), pair, view.name, view.interfaces[0][0]))
      requires clients.log != [] && Last(clients.log).answer == Looked(Some(view), None)
      modifies clients
      ensures clients.Valid() && clients.key == old(clients.key) && clients.at == Some(Returned(r))
      ensures Tried(clients.log, clients.connections)
    {
      var host := view.interfaces[0][0];
      ghost var before := clients.log;
      var connected := Connect(host, SSH_USER, pair.pem);  // a failure is only logged
      r := UploadKey(vm, pair, view.name, host);
      TriedUpload(before, Last(clients.log), view, clients.connections);
    }

    lemma TriedUpload(log: seq<Exchange>, x: Exchange, view: InstanceView, connections: seq<Connection>)
      requires log != [] && Last(log).answer == Looked(Some(view), None) && x.call.CreateSecret?
      requires view.interfaces != [] && view.interfaces[0] != []
      requires |connections| == 1 && connections[0].user == "cloud-user"
      requires connections[0].host == view.interfaces[0][0] && connections[0].pem == x.call.secret.pem
      ensures Tried(log + [x], connections)
    {
      var u := log + [x];
      assert u[|u| - 1] == x && u[|u| - 2] == log[|log| - 1];
    }

    /** The attempts to connect to one host, as one user, with one key. */
    method Connect(host: string, user: string, pem: string) returns (connected: bool)
      modifies clients`dialled, clients`clock, clients`slept, clients`handshaking, clients`connections
      ensures clients.connections == old(clients.connections) + [Connection(host, user, pem, connected)]
      ensures connected <==>
                clients.parses(pem) && exists i :: Attempts(ssh, clients.attempts, old(clients.dialled)).ConnectsAt(i)
    {
      connected := PollForSSHConnection(pem);
      clients.Tries(host, user, pem, connected);
    }

    method UploadKey(vm: VirtualMachine, pair: Keypair, instance: string, host: string) returns (r: Result)
      requires clients.Valid() && clients.at == Some(Publish(vm.Value(), pair, instance, host))
      modifies clients`answered, clients`log, clients`path, clients`at
      ensures clients.Valid() && clients.at == Some(Returned(r))
      ensures clients.log != [] && clients.log == old(clients.log) + [Last(clients.log)]
      ensures Last(clients.log).call.CreateSecret? && Last(clients.log).call.key == Key(vm.namespace, vm.name)
      ensures var s := Last(clients.log).call.secret;
              s.pem == pair.pem && s.pub == pair.pub && s.ownerUid == vm.uid
    {
      var published := clients.Do(CreateSecret(Key(vm.namespace, vm.name),
        Secret(vm.uid, pair.pem, pair.pub, SshConfigFile(instance, host))));
      if published.Failed? { return Error(NO_PUBLISH + ": " + published.text); }
      return Nil;
    }

    /** Connects exactly when some attempt within the retries is the first to be accepted, and its
        handshake succeeds. */
    method PollForSSHConnection(pem: string) returns (connected: bool)
      modifies clients`dialled, clients`clock, clients`slept, clients`handshaking
      ensures var a := Attempts(ssh, clients.attempts, old(clients.dialled));
              var dials := clients.dialled - old(clients.dialled);
              && (connected <==> clients.parses(pem) && exists i :: a.ConnectsAt(i))
              && 0 <= dials && (dials == 0 || dials <= ssh.retries)
              && (forall i :: 0 <= i < dials - 1 ==> a.Refused(i))
              && clients.slept - old(clients.slept) == (if dials > 0 && !a.Refused(dials - 1) then dials - 1 else dials)
              && (ssh.timeoutSeconds > 0 && ssh.delaySeconds >= 0 ==>
                    clients.clock - old(clients.clock) - (clients.handshaking - old(clients.handshaking))
                    <= dials * (ssh.timeoutSeconds * 1000 + ssh.delaySeconds * 1000))
    {
      if !clients.parses(pem) { return false; }
      ghost var a := Attempts(ssh, clients.attempts, clients.dialled);
      var succeeded := false;
      var i := 0;
      while i < ssh.retries
        invariant 0 <= i && (i == 0 || i <= ssh.retries) && !succeeded
        invariant clients.dialled == old(clients.dialled) + i && clients.slept == old(clients.slept) + i
        invariant forall j :: 0 <= j < i ==> a.Refused(j)
        invariant clients.clock == old(clients.clock) + a.Spent(i) && clients.handshaking == old(clients.handshaking)
      {
        var dialled := clients.DialTimeout(ssh.timeoutSeconds);
        if dialled {
          var shaken := clients.NewClientConn();
          if shaken {
            succeeded := true;
            assert a.ConnectsAt(i);
          }
          DialBounded(a, i);
          return succeeded;
        }
        clients.Sleep(ssh.delaySeconds);
        i := i + 1;
      }
      if ssh.timeoutSeconds > 0 && ssh.delaySeconds >= 0 { SpentBounded(a, i); }
      return succeeded;
    }

    lemma DialBounded(a: Attempts, i: nat)
      ensures a.cfg.timeoutSeconds > 0 && a.cfg.delaySeconds >= 0 ==>
                a.Spent(i) + DialTime(a.stream(a.base + i), a.cfg.timeoutSeconds)
                <= (i + 1) * (a.cfg.timeoutSeconds * 1000 + a.cfg.delaySeconds * 1000)
    {
      if a.cfg.timeoutSeconds > 0 && a.cfg.delaySeconds >= 0 {
        SpentBounded(a, i + 1);
      }
    }

    // ---- Reconciliation ----

    /** Every run of reconcile is a run of the automaton, whatever the services answer. */
    method Reconcile(key: string) returns (r: Result)
      requires clients.Valid()
      modifies clients
      ensures clients.Valid()
      ensures Keys.SplitKey(key).None? ==> r.Error? && clients.log == old(clients.log)
      ensures Keys.SplitKey(key).Some? ==>
                var k := Keys.SplitKey(key).value;
                && Exec(clients.cfg, Begin(k), clients.log) == Some(Returned(r))
                && Conducted(clients.cfg, k, clients.log) && Ends(k, clients.log, r)
                && (r == Nil <==> Outcomes.Justified(clients.log, k))
                && Tried(clients.log, clients.connections)
    {
      var split := Keys.SplitKey(key);
      if split.None? { return Error("unexpected key format: " + key); }
      clients.Start(split.value);
      r := ReconcileKey(split.value);
      clients.PathIsExec(|clients.log|);
      assert clients.log[..|clients.log|] == clients.log;
      Outcomes.NilExactlyWhenJustified(clients.cfg, split.value, clients.log, r);
      HistoriesExactly(clients.cfg, split.value, clients.log);
      ConductExact(clients.cfg, split.value, clients.log, GetVM(split.value), r);
    }

    method ReconcileKey(key: Key) returns (r: Result)
      requires clients.Valid() && clients.at == Some(Begin(key)) && clients.key == key && clients.connections == []
      modifies clients
      ensures clients.Valid() && clients.at == Some(Returned(r)) && clients.key == key
      ensures Tried(clients.log, clients.connections)
    {
      var got := clients.Do(GetVM(key));
      if got.Missing? { return Nil; }
      if got.Failed? { return Error(got.text); }
      var vm := new VirtualMachine(got.vm);
      if vm.deleting {
        var held := vm.FinalizerList();
        if FINALIZER !in held { return Nil; }
        r := DeleteVM(vm);
        if !r.Nil? { return; }
        r := RemoveFinalizer(vm);
      } else {
        r := EnsureVM(vm);
      }
    }

    /** Writes the object as it was read, less the finalizer. */
    method RemoveFinalizer(vm: VirtualMachine) returns (r: Result)
      requires clients.Valid() && exists reason :: clients.at == Some(Strip(vm.Value(), reason))
      modifies clients`answered, clients`log, clients`path, clients`at, vm`finalizers
      ensures clients.Valid() && clients.at == Some(Returned(r))
      ensures clients.log != [] && Last(clients.log).call.UpdateVM?
    {
      var finalizers := set f | f in vm.FinalizerList();
      finalizers := finalizers - {FINALIZER};
      var listed := StringSets.List(finalizers);
      Admission.FinalizerListsExact(vm.FinalizerList(), listed);
      vm.AssignFinalizers(listed);
      var updated := clients.Do(UpdateVM(vm.Value()));
      r := if updated.Failed? then Error(updated.text) else Nil;
    }

    // ---- The queue's worker ----

    /** Informer handlers call this for added, updated, deleted and resynced objects alike. */
    method Enqueue(key: Key)
      modifies queue
      ensures queue.State() == old(queue.State()).Add(Keys.MetaKey(key))
      ensures Keys.Plain(key) ==> Keys.SplitKey(Keys.MetaKey(key)) == Some(key)
    {
      queue.Add(Keys.MetaKey(key));
      if Keys.Plain(key) { Keys.KeyRoundTrip(key); }
    }

    /** Success forgets the key's failures; an error retries it until its budget is spent, then drops it. */
    method HandleErr(err: bool, key: string, now: nat, bucketDelay: nat)
      modifies queue
      ensures queue.State() == WorkQueues.Handled(old(queue.State()), err, key)
      ensures queue.State() == if err && old(queue.State()).NumRequeues(key) < 15
                               then old(queue.State()).AddRateLimited(key)
                               else old(queue.State()).Forget(key)
    {
      if !err { queue.Forget(key); return; }
      var n := queue.NumRequeues(key);
      if n < MAX_RETRIES {
        queue.AddRateLimited(key, now, bucketDelay);
        return;
      }
      queue.Forget(key);
    }

    /** One turn of a worker that nobody disturbs; a panic skips the error handling but not Done. */
    method ProcessNextWorkItem(now: nat, bucketDelay: nat) returns (more: bool, ghost r: Result)
      requires clients.Valid() && (queue.queue != [] || queue.shuttingDown)
      modifies clients, queue
      ensures clients.Valid() && (more <==> old(queue.queue) != [])
      ensures !more ==> queue.State() == old(queue.State())
      ensures more ==>
                var key := old(queue.queue)[0];
                var taken := old(queue.State()).Get();
                queue.State() == (if r.Panicked? then taken else WorkQueues.Handled(taken, r.Error?, key)).Done(key)
    {
      var item := queue.Get();
      if item.None? { r := Nil; return false, r; }
      var outcome := Reconcile(item.value);
      r := outcome;
      if !outcome.Panicked? { HandleErr(outcome.Error?, item.value, now, bucketDelay); }
      queue.Done(item.value);
      more := true;
    }
  }
}
