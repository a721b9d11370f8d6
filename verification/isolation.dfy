/** Whatever concerns two names, call by call and operation by operation, happens as if one name
    came after the other. */
module Isolation {
  import opened Types
  import Admission
  import opened Protocol
  import opened Worlds
  import opened Machines
  import Reconciles

  // ---- What a call can reach ----

  function NameOf(pc: Pc): string {
    if pc.Begin? then pc.key.name else if pc.Holds() then pc.vm.name else ""
  }

  /** A wait is for an operation on the instance of the record's own name. */
  predicate Proper(pc: Pc) { pc.Pausing? || pc.Polling? ==> pc.op.instance == pc.vm.name }

  lemma NextKeepsName(cfg: Config, w: World, pc: Pc, c: Choice)
    requires !pc.Returned? && Proper(pc)
    ensures var next := Reconciles.Next(cfg, w, pc, c); Proper(next) && (next.Returned? || NameOf(next) == NameOf(pc))
  {}

  /** A call changes only the record, the secret, the instance, the operations and the disks of its own name. */
  lemma CallIsLocal(cfg: Config, w: World, pc: Pc, c: Choice, key: Key, name: string, op: OpId, d: DiskRef)
    requires pc.Holds()
    ensures var w' := Served(w, cfg, pc, c);
            && (key != pc.vm.Id() ==>
                  && (key in w'.api.vms <==> key in w.api.vms)
                  && (key in w.api.vms ==> w'.api.vms[key] == w.api.vms[key])
                  && (key in w'.secrets <==> key in w.secrets)
                  && (key in w.secrets ==> w'.secrets[key] == w.secrets[key]))
            && (name != pc.vm.name ==>
                  && (name in w'.gce.instances <==> name in w.gce.instances)
                  && (name in w.gce.instances ==> w'.gce.instances[name] == w.gce.instances[name])
                  && w'.gce.Serial(name) == w.gce.Serial(name))
            && (op.instance != pc.vm.name ==>
                  (op in w'.gce.ops <==> op in w.gce.ops) && (op in w.gce.ops ==> w'.gce.ops[op] == w.gce.ops[op]))
            && (d.instance != pc.vm.name ==> (d in w'.gce.disks <==> d in w.gce.disks))
  {}

  // ---- What concerns a name ----

  /** What can happen in the course of a reconcile: a call of it, or something without the controller. */
  datatype Doing = ByCall(choice: Choice) | ByChange(change: Change)

  /** The end of an operation on the name's instance, and what users, garbage collection and GCE do to its records, its
      secrets and its instance. Uids are never used twice: `of` says which name a uid is for. */
  predicate About(of: nat -> string, c: Change, name: string) {
    match c
    case Create(key, uid, _, _, _) => key.name == name && of(uid) == name
    case Edit(key, _, _) => key.name == name
    case EditStatus(key, _) => key.name == name
    case Delete(key) => key.name == name
    case CollectSecret(key) => key.name == name
    case Proceed(n, _) => n == name
    case Conclude(op, _) => op.instance == name
    case Vanish(n) => n == name
  }

  /** The reconcile is over, or for this name. */
  predicate Own(pc: Pc, name: string) { Proper(pc) && (pc.Returned? || NameOf(pc) == name) }

  predicate Concerns(of: nat -> string, d: Doing, name: string) { d.ByChange? ==> About(of, d.change, name) }

  function Done(cfg: Config, w: World, pc: Pc, d: Doing): World {
    match d
    case ByCall(c) => if pc.Returned? then w else Served(w, cfg, pc, c)
    case ByChange(c) => if Possible(w, c) then Happen(w, c) else w
  }

  function Then(cfg: Config, w: World, pc: Pc, d: Doing): Pc {
    if d.ByCall? && !pc.Returned? then Reconciles.Next(cfg, w, pc, d.choice) else pc
  }

  lemma ThenOwn(cfg: Config, w: World, pc: Pc, d: Doing, name: string)
    requires Own(pc, name)
    ensures Own(Then(cfg, w, pc, d), name)
  {
    if d.ByCall? && !pc.Returned? { NextKeepsName(cfg, w, pc, d.choice); }
  }

  lemma DoneKeepsMachines(cfg: Config, w: World, pc: Pc, d: Doing)
    requires MachinesOk(w.gce)
    ensures MachinesOk(Done(cfg, w, pc, d).gce)
  {
    match d
    case ByCall(c) => if !pc.Returned? { CallKeepsMachines(w.gce, cfg, pc, c); }
    case ByChange(c) => if Possible(w, c) { ChangeKeepsMachines(w, c); }
  }

  // ---- What a name has of the world ----

  ghost predicate SameApi(of: nat -> string, a: Api, a': Api, name: string) {
    && (forall key: Key :: key.name == name ==>
          (key in a'.vms <==> key in a.vms) && (key in a.vms ==> a'.vms[key] == a.vms[key]))
    && (forall uid :: of(uid) == name ==>
          (uid in a'.born <==> uid in a.born) && (uid in a.born ==> a'.born[uid] == a.born[uid]))
  }

  ghost predicate SameSecrets(t: map<Key, Secret>, t': map<Key, Secret>, name: string) {
    forall key: Key :: key.name == name ==> (key in t' <==> key in t) && (key in t ==> t'[key] == t[key])
  }

  ghost predicate SameGce(g: Gce, g': Gce, name: string) {
    && (name in g'.instances <==> name in g.instances)
    && (name in g.instances ==> g'.instances[name] == g.instances[name])
    && (name in g'.serials <==> name in g.serials) && (name in g.serials ==> g'.serials[name] == g.serials[name])
    && (forall op: OpId :: op.instance == name ==>
          (op in g'.ops <==> op in g.ops) && (op in g.ops ==> g'.ops[op] == g.ops[op]))
    && (forall d: DiskRef :: d.instance == name ==> (d in g'.disks <==> d in g.disks))
  }

  ghost predicate SameView(of: nat -> string, w: World, w': World, name: string) {
    SameApi(of, w.api, w'.api, name) && SameSecrets(w.secrets, w'.secrets, name) && SameGce(w.gce, w'.gce, name)
  }

  /** Worlds in which every name has the same are the same, but for the keys generated. */
  lemma SameWorld(of: nat -> string, w: World, w': World)
    requires forall name :: SameView(of, w, w', name)
    requires w'.used == w.used
    ensures w' == w
  {
    forall key: Key
      ensures (key in w'.api.vms <==> key in w.api.vms) && (key in w.api.vms ==> w'.api.vms[key] == w.api.vms[key])
      ensures (key in w'.secrets <==> key in w.secrets) && (key in w.secrets ==> w'.secrets[key] == w.secrets[key])
    {
      assert SameView(of, w, w', key.name);
    }
    forall uid: nat
      ensures (uid in w'.api.born <==> uid in w.api.born) && (uid in w.api.born ==> w'.api.born[uid] == w.api.born[uid])
    {
      assert SameView(of, w, w', of(uid));
    }
    assert w'.api.vms == w.api.vms && w'.api.born == w.api.born && w'.secrets == w.secrets;
    forall name ensures SameGce(w.gce, w'.gce, name) { assert SameView(of, w, w', name); }
    SameGceEverywhere(w.gce, w'.gce);
  }

  lemma SameGceEverywhere(g: Gce, g': Gce)
    requires forall name :: SameGce(g, g', name)
    ensures g' == g
  {
    forall op: OpId ensures (op in g'.ops <==> op in g.ops) && (op in g.ops ==> g'.ops[op] == g.ops[op]) {
      assert SameGce(g, g', op.instance);
    }
    forall d: DiskRef ensures d in g'.disks <==> d in g.disks { assert SameGce(g, g', d.instance); }
    forall name
      ensures (name in g'.instances <==> name in g.instances)
      ensures name in g.instances ==> g'.instances[name] == g.instances[name]
      ensures (name in g'.serials <==> name in g.serials) && (name in g.serials ==> g'.serials[name] == g.serials[name])
    {
      assert SameGce(g, g', name);
    }
    assert g'.instances == g.instances && g'.serials == g.serials && g'.ops == g.ops && g'.disks == g.disks;
  }

  // ---- Nothing reaches another name ----

  lemma ProceedElsewhere(g: Gce, name: string, ending: Ending, other: string)
    requires MachinesOk(g) && name in g.instances && g.instances[name].jobs != [] && other != name
    ensures SameGce(g, g.Proceed(name, ending), other)
  {
    assert MachineOk(g, name) && JobOk(g, name, g.instances[name].jobs[0]);
  }

  lemma CallElsewhere(of: nat -> string, cfg: Config, w: World, pc: Pc, c: Choice, name: string, other: string)
    requires !pc.Returned? && Own(pc, name) && other != name
    ensures SameView(of, w, Served(w, cfg, pc, c), other)
  {}

  lemma ChangeElsewhere(of: nat -> string, w: World, c: Change, name: string, other: string)
    requires MachinesOk(w.gce) && Possible(w, c) && About(of, c, name) && other != name
    ensures SameView(of, w, Happen(w, c), other)
  {
    if c.Proceed? { ProceedElsewhere(w.gce, c.name, c.ending, other); }
  }

  lemma DoneElsewhere(of: nat -> string, cfg: Config, w: World, pc: Pc, d: Doing, name: string, other: string)
    requires MachinesOk(w.gce) && Own(pc, name) && Concerns(of, d, name) && other != name
    ensures SameView(of, w, Done(cfg, w, pc, d), other)
  {
    match d
    case ByCall(c) => if !pc.Returned? { CallElsewhere(of, cfg, w, pc, c, name, other); }
    case ByChange(c) => if Possible(w, c) { ChangeElsewhere(of, w, c, name, other); }
  }

  // ---- Nothing depends on another name ----

  lemma StoreSees(of: nat -> string, a: Api, a': Api, key: Key, vm: VM, name: string)
    requires SameApi(of, a, a', name) && key in a.vms && key in a'.vms && key.name == name
    ensures SameApi(of, a.Store(key, vm), a'.Store(key, vm), name)
  {}

  lemma ApiCallSees(of: nat -> string, a: Api, a': Api, pc: Pc, c: Choice, name: string)
    requires pc.Holds() && pc.vm.name == name && SameApi(of, a, a', name)
    ensures SameApi(of, ServedApi(a, pc, c), ServedApi(a', pc, c), name)
  {
    var key := pc.vm.Id();
    assert key in a'.vms <==> key in a.vms;
    if c.Takes() && a.Current(pc.vm) {
      var vm := a.vms[key];
      if pc.Reporting? {
        StoreSees(of, a, a', key, vm.(status := Errored(pc.vm.status, pc.text)), name);
      } else if pc.Strip? {
        StoreSees(of, a, a', key, vm.(finalizers := Admission.Stripped(pc.vm.finalizers), spec := pc.vm.spec), name);
      }
    }
  }

  lemma SubmitSees(g: Gce, g': Gce, name: string, effect: Effect)
    requires SameGce(g, g', name)
    ensures SameGce(g.Submit(name, effect), g'.Submit(name, effect), name)
  {}

  lemma InsertSees(g: Gce, g': Gce, owner: Owner, request: InsertRequest)
    requires SameGce(g, g', request.name)
    ensures SameGce(g.Insert(owner, request), g'.Insert(owner, request), request.name)
  {
    assert g'.Serial(request.name) == g.Serial(request.name);
  }

  lemma GceCallSees(cfg: Config, g: Gce, g': Gce, pc: Pc, c: Choice, name: string)
    requires pc.Holds() && pc.vm.name == name && SameGce(g, g', name)
    ensures SameGce(ServedGce(g, cfg, pc, c), ServedGce(g', cfg, pc, c), name)
  {
    match pc
    case DeleteIssue(_) => SubmitSees(g, g', name, Erase);
    case Issue(vm, create, pair) =>
      if create {
        InsertSees(g, g', Owner(vm.Id(), vm.uid), InstanceRequest(cfg, vm.name, vm.spec, FormatKey(pair.pub)));
      } else {
        SubmitSees(g, g', name, Rekey(FormatKey(pair.pub)));
      }
    case _ =>
  }

  lemma SecretCallSees(t: map<Key, Secret>, t': map<Key, Secret>, pc: Pc, c: Choice, name: string)
    requires pc.Holds() && pc.vm.name == name && SameSecrets(t, t', name)
    ensures SameSecrets(ServedSecrets(t, pc, c), ServedSecrets(t', pc, c), name)
  {
    assert pc.vm.Id() in t' <==> pc.vm.Id() in t;
  }

  function KeyOf(pc: Pc): Key
    requires !pc.Returned?
  {
    if pc.Begin? then pc.key else pc.vm.Id()
  }

  lemma RepliesAsSeen(of: nat -> string, cfg: Config, w: World, w': World, pc: Pc, c: Choice, name: string)
    requires !pc.Returned? && Own(pc, name) && SameView(of, w, w', name)
    ensures Reply(w', cfg, pc, c) == Reply(w, cfg, pc, c)
  {
    assert KeyOf(pc) in w'.api.vms <==> KeyOf(pc) in w.api.vms;
    assert KeyOf(pc) in w'.secrets <==> KeyOf(pc) in w.secrets;
  }

  lemma CallSees(of: nat -> string, cfg: Config, w: World, w': World, pc: Pc, c: Choice, name: string)
    requires !pc.Returned? && Own(pc, name) && SameView(of, w, w', name)
    ensures SameView(of, Served(w, cfg, pc, c), Served(w', cfg, pc, c), name)
  {
    if pc.Holds() {
      ApiCallSees(of, w.api, w'.api, pc, c, name);
      GceCallSees(cfg, w.gce, w'.gce, pc, c, name);
      SecretCallSees(w.secrets, w'.secrets, pc, c, name);
    }
  }

  lemma PossibleAsSeen(of: nat -> string, w: World, w': World, c: Change, name: string)
    requires About(of, c, name) && SameView(of, w, w', name)
    ensures Possible(w', c) <==> Possible(w, c)
  {}

  lemma PopSees(g: Gce, g': Gce, name: string, errors: seq<string>)
    requires SameGce(g, g', name) && name in g.instances && g.instances[name].jobs != []
    ensures SameGce(g.Pop(name, errors), g'.Pop(name, errors), name)
  {}

  lemma RemoveSees(g: Gce, g': Gce, name: string)
    requires SameGce(g, g', name)
    ensures SameGce(g.Remove(name), g'.Remove(name), name)
  {}

  lemma ProceedSees(g: Gce, g': Gce, name: string, ending: Ending)
    requires SameGce(g, g', name) && name in g.instances && g.instances[name].jobs != []
    ensures SameGce(g.Proceed(name, ending), g'.Proceed(name, ending), name)
  {
    var errors := if ending.Succeed? then [] else ending.errors;
    PopSees(g, g', name, errors);
    RemoveSees(g.Pop(name, errors), g'.Pop(name, errors), name);
  }

  /** What a change does to the records and specs. */
  lemma ApiChangeSees(of: nat -> string, w: World, w': World, c: Change, name: string)
    requires About(of, c, name) && SameView(of, w, w', name) && Possible(w, c) && Possible(w', c)
    ensures SameApi(of, Happen(w, c).api, Happen(w', c).api, name)
  {
    var a, a' := w.api, w'.api;
    match c
    case Create(key, uid, spec, finalizers, status) =>
    case Edit(k, spec, finalizers) => StoreSees(of, a, a', k, a.vms[k].(spec := spec, finalizers := finalizers), name);
    case EditStatus(k, status) => StoreSees(of, a, a', k, a.vms[k].(status := status), name);
    case Delete(k) => StoreSees(of, a, a', k, a.vms[k].(deleting := true), name);
    case _ =>
  }

  lemma GceChangeSees(of: nat -> string, w: World, w': World, c: Change, name: string)
    requires About(of, c, name) && SameView(of, w, w', name) && Possible(w, c) && Possible(w', c)
    ensures SameGce(Happen(w, c).gce, Happen(w', c).gce, name)
  {
    if c.Proceed? { ProceedSees(w.gce, w'.gce, c.name, c.ending); }
  }

  lemma ChangeSees(of: nat -> string, w: World, w': World, c: Change, name: string)
    requires About(of, c, name) && SameView(of, w, w', name) && Possible(w, c) && Possible(w', c)
    ensures SameView(of, Happen(w, c), Happen(w', c), name)
  {
    ApiChangeSees(of, w, w', c, name);
    GceChangeSees(of, w, w', c, name);
  }

  lemma DoneSees(of: nat -> string, cfg: Config, w: World, w': World, pc: Pc, d: Doing, name: string)
    requires Own(pc, name) && Concerns(of, d, name) && SameView(of, w, w', name)
    ensures SameView(of, Done(cfg, w, pc, d), Done(cfg, w', pc, d), name)
    ensures Then(cfg, w', pc, d) == Then(cfg, w, pc, d)
  {
    match d
    case ByCall(c) =>
      if !pc.Returned? {
        CallSees(of, cfg, w, w', pc, c, name);
        RepliesAsSeen(of, cfg, w, w', pc, c, name);
      }
    case ByChange(c) =>
      PossibleAsSeen(of, w, w', c, name);
      if Possible(w, c) { ChangeSees(of, w, w', c, name); }
  }

  // ---- Two steps that concern different names ----

  lemma Sees(of: nat -> string, w: World, w': World, w'': World, name: string)
    requires SameView(of, w, w', name) && SameView(of, w, w'', name)
    ensures SameView(of, w', w'', name) && SameView(of, w', w, name)
  {}

  /** The keys that a step generates. */
  function Minted(pc: Pc, d: Doing): set<string> {
    if d.ByCall? && pc.MakeKey? && d.choice.Mint? then {d.choice.pair.pub} else {}
  }

  lemma DoneMints(of: nat -> string, cfg: Config, w: World, pc: Pc, d: Doing, name: string)
    requires Concerns(of, d, name)
    ensures Done(cfg, w, pc, d).used == w.used + Minted(pc, d)
  {}

  /** The second step leaves what the first name has, and then the first does the same to it. */
  lemma FirstSeesSame(of: nat -> string, cfg: Config, w: World, m: string, p: Pc, c: Doing, n: string, q: Pc, d: Doing)
    requires MachinesOk(w.gce) && m != n && Own(p, m) && Concerns(of, c, m) && Own(q, n) && Concerns(of, d, n)
    ensures SameView(of, Done(cfg, Done(cfg, w, p, c), q, d), Done(cfg, Done(cfg, w, q, d), p, c), m)
    ensures Then(cfg, Done(cfg, w, q, d), p, c) == Then(cfg, w, p, c)
  {
    var v, u := Done(cfg, w, p, c), Done(cfg, w, q, d);
    DoneKeepsMachines(cfg, w, p, c);
    DoneElsewhere(of, cfg, w, q, d, n, m);
    DoneSees(of, cfg, w, u, p, c, m);
    DoneElsewhere(of, cfg, v, q, d, n, m);
    Sees(of, v, Done(cfg, v, q, d), Done(cfg, u, p, c), m);
  }

  lemma OthersSeeSame(of: nat -> string, cfg: Config, w: World, m: string, p: Pc, c: Doing, n: string, q: Pc, d: Doing,
                      name: string)
    requires MachinesOk(w.gce) && m != n && Own(p, m) && Concerns(of, c, m) && Own(q, n) && Concerns(of, d, n)
    requires name != m && name != n
    ensures SameView(of, Done(cfg, Done(cfg, w, p, c), q, d), Done(cfg, Done(cfg, w, q, d), p, c), name)
  {
    var v, u := Done(cfg, w, p, c), Done(cfg, w, q, d);
    DoneKeepsMachines(cfg, w, p, c);
    DoneKeepsMachines(cfg, w, q, d);
    DoneElsewhere(of, cfg, w, p, c, m, name);
    DoneElsewhere(of, cfg, v, q, d, n, name);
    DoneElsewhere(of, cfg, w, q, d, n, name);
    DoneElsewhere(of, cfg, u, p, c, m, name);
    SeesThrough(of, w, v, Done(cfg, v, q, d), u, Done(cfg, u, p, c), name);
  }

  lemma SameMinted(of: nat -> string, cfg: Config, w: World, m: string, p: Pc, c: Doing, n: string, q: Pc, d: Doing)
    requires Concerns(of, c, m) && Concerns(of, d, n)
    ensures Done(cfg, Done(cfg, w, p, c), q, d).used == Done(cfg, Done(cfg, w, q, d), p, c).used
  {
    var v, u := Done(cfg, w, p, c), Done(cfg, w, q, d);
    DoneMints(of, cfg, w, p, c, m);
    DoneMints(of, cfg, w, q, d, n);
    DoneMints(of, cfg, v, q, d, n);
    DoneMints(of, cfg, u, p, c, m);
  }

  lemma StepsCommute(of: nat -> string, cfg: Config, w: World, m: string, p: Pc, c: Doing, n: string, q: Pc, d: Doing)
    requires MachinesOk(w.gce) && m != n && Own(p, m) && Concerns(of, c, m) && Own(q, n) && Concerns(of, d, n)
    ensures Done(cfg, Done(cfg, w, p, c), q, d) == Done(cfg, Done(cfg, w, q, d), p, c)
    ensures Then(cfg, Done(cfg, w, p, c), q, d) == Then(cfg, w, q, d)
    ensures Then(cfg, Done(cfg, w, q, d), p, c) == Then(cfg, w, p, c)
  {
    FirstSeesSame(of, cfg, w, m, p, c, n, q, d);
    FirstSeesSame(of, cfg, w, n, q, d, m, p, c);
    var vu, uv := Done(cfg, Done(cfg, w, p, c), q, d), Done(cfg, Done(cfg, w, q, d), p, c);
    forall name ensures SameView(of, vu, uv, name) {
      if name == n {
        Sees(of, uv, vu, uv, n);
      } else if name != m {
        OthersSeeSame(of, cfg, w, m, p, c, n, q, d, name);
      }
    }
    SameMinted(of, cfg, w, m, p, c, n, q, d);
    SameWorld(of, vu, uv);
  }

  lemma SeesThrough(of: nat -> string, w: World, v: World, vu: World, u: World, uv: World, name: string)
    requires SameView(of, w, v, name) && SameView(of, v, vu, name) && SameView(of, w, u, name)
    requires SameView(of, u, uv, name)
    ensures SameView(of, vu, uv, name)
  {}

  // ---- Everything that concerns one name ----

  /** A step makes sense: the call can go this way, or the change is possible. */
  predicate MakesSense(w: World, pc: Pc, d: Doing) {
    match d
    case ByCall(c) => pc.Returned? || Sensible(w, pc, c)
    case ByChange(c) => Possible(w, c)
  }

  /** A reconcile and what happens around it, without anything that concerns other names. */
  function AllDone(cfg: Config, w: World, pc: Pc, ds: seq<Doing>): (World, Pc)
    decreases |ds|
  {
    if ds == [] then (w, pc) else AllDone(cfg, Done(cfg, w, pc, ds[0]), Then(cfg, w, pc, ds[0]), ds[1..])
  }

  predicate AllMakeSense(cfg: Config, w: World, pc: Pc, ds: seq<Doing>)
    decreases |ds|
  {
    ds == []
    || (MakesSense(w, pc, ds[0]) && AllMakeSense(cfg, Done(cfg, w, pc, ds[0]), Then(cfg, w, pc, ds[0]), ds[1..]))
  }

  predicate AllConcern(of: nat -> string, ds: seq<Doing>,
                       name: string) { forall i :: 0 <= i < |ds| ==> Concerns(of, ds[i], name) }

  // ---- Two names interleaved ----

  /** Whose turn it is, and what is done. */
  datatype Move = Move(first: bool, doing: Doing)

  function Both(cfg: Config, w: World, p: Pc, q: Pc, moves: seq<Move>): (World, Pc, Pc)
    decreases |moves|
  {
    if moves == [] then (w, p, q)
    else
      var m, rest := moves[0], moves[1..];
      if m.first then Both(cfg, Done(cfg, w, p, m.doing), Then(cfg, w, p, m.doing), q, rest)
      else Both(cfg, Done(cfg, w, q, m.doing), p, Then(cfg, w, q, m.doing), rest)
  }

  predicate BothMakeSense(cfg: Config, w: World, p: Pc, q: Pc, moves: seq<Move>)
    decreases |moves|
  {
    moves == []
    || var m, rest := moves[0], moves[1..];
       if m.first then
         MakesSense(w, p, m.doing) && BothMakeSense(cfg, Done(cfg, w, p, m.doing), Then(cfg, w, p, m.doing), q, rest)
       else
         MakesSense(w, q, m.doing) && BothMakeSense(cfg, Done(cfg, w, q, m.doing), p, Then(cfg, w, q, m.doing), rest)
  }

  function Side(moves: seq<Move>, first: bool): seq<Doing> {
    if moves == [] then []
    else (if moves[0].first == first then [moves[0].doing] else []) + Side(moves[1..], first)
  }

  lemma SidesOf(m: Move, rest: seq<Move>)
    ensures Side([m] + rest, m.first) == [m.doing] + Side(rest, m.first)
    ensures Side([m] + rest, !m.first) == Side(rest, !m.first)
  {
    assert ([m] + rest)[1..] == rest;
  }

  /** The first name's steps are about it, and the second's about that. */
  predicate Separate(of: nat -> string, moves: seq<Move>, m: string, n: string) {
    forall i :: 0 <= i < |moves| ==> Concerns(of, moves[i].doing, if moves[i].first then m else n)
  }

  /** The world and both results are those of everything of the first, followed by everything of the second. */
  ghost predicate Sequential(cfg: Config, w: World, p: Pc, q: Pc, moves: seq<Move>) {
    var (w1, p1) := AllDone(cfg, w, p, Side(moves, true));
    var (w2, q2) := AllDone(cfg, w1, q, Side(moves, false));
    Both(cfg, w, p, q, moves) == (w2, p1, q2)
  }

  ghost predicate SensibleInTurn(cfg: Config, w: World, p: Pc, q: Pc, moves: seq<Move>) {
    && AllMakeSense(cfg, w, p, Side(moves, true))
    && AllMakeSense(cfg, AllDone(cfg, w, p, Side(moves, true)).0, q, Side(moves, false))
  }

  lemma AllDoneStep(cfg: Config, w: World, pc: Pc, d: Doing, rest: seq<Doing>)
    ensures AllDone(cfg, w, pc, [d] + rest) == AllDone(cfg, Done(cfg, w, pc, d), Then(cfg, w, pc, d), rest)
    ensures AllMakeSense(cfg, w, pc, [d] + rest) <==>
            MakesSense(w, pc, d) && AllMakeSense(cfg, Done(cfg, w, pc, d), Then(cfg, w, pc, d), rest)
  {
    assert ([d] + rest)[1..] == rest;
  }

  /** A step of the second name can be put off until the first name is done. */
  lemma {:induction false} StepPostponed(of: nat -> string, cfg: Config, w: World, m: string, p: Pc, cs: seq<Doing>,
                                         n: string, q: Pc, d: Doing)
    requires MachinesOk(w.gce) && m != n && Own(p, m) && AllConcern(of, cs, m) && Own(q, n) && Concerns(of, d, n)
    ensures var (w1, p1) := AllDone(cfg, w, p, cs);
            && AllDone(cfg, Done(cfg, w, q, d), p, cs) == (Done(cfg, w1, q, d), p1)
            && Then(cfg, w1, q, d) == Then(cfg, w, q, d)
    decreases |cs|
  {
    if cs != [] {
      StepsCommute(of, cfg, w, m, p, cs[0], n, q, d);
      DoneKeepsMachines(cfg, w, p, cs[0]);
      ThenOwn(cfg, w, p, cs[0], m);
      StepPostponed(of, cfg, Done(cfg, w, p, cs[0]), m, Then(cfg, w, p, cs[0]), cs[1..], n, q, d);
    }
  }

  lemma SensibleAsSeen(w: World, w': World, pc: Pc, c: Choice)
    requires w'.used <= w.used && Sensible(w, pc, c)
    ensures Sensible(w', pc, c)
  {}

  lemma MintsDiffer(w: World, p: Pc, c: Doing, q: Pc, d: Doing, v: World, u: World)
    requires c.ByCall? && !p.Returned? && Sensible(u, p, c.choice) && u.used == w.used + Minted(q, d)
    requires d.ByCall? && !q.Returned? && Sensible(w, q, d.choice) && v.used == w.used + Minted(p, c)
    ensures Sensible(v, q, d.choice)
  {}

  /** Steps for different names make sense in either order: keys generated by one are new to the other. */
  lemma SenseCommutes(of: nat -> string, cfg: Config, w: World, m: string, p: Pc, c: Doing, n: string, q: Pc, d: Doing)
    requires MachinesOk(w.gce) && m != n && Own(p, m) && Concerns(of, c, m) && Own(q, n) && Concerns(of, d, n)
    requires MakesSense(w, q, d) && MakesSense(Done(cfg, w, q, d), p, c)
    ensures MakesSense(w, p, c) && MakesSense(Done(cfg, w, p, c), q, d)
  {
    var v, u := Done(cfg, w, p, c), Done(cfg, w, q, d);
    DoneElsewhere(of, cfg, w, p, c, m, n);
    DoneElsewhere(of, cfg, w, q, d, n, m);
    DoneMints(of, cfg, w, p, c, m);
    DoneMints(of, cfg, w, q, d, n);
    match c {
      case ByCall(choice) => if !p.Returned? { SensibleAsSeen(u, w, p, choice); }
      case ByChange(change) => PossibleAsSeen(of, w, u, change, m);
    }
    match d {
      case ByCall(choice) => if c.ByCall? && !p.Returned? && !q.Returned? { MintsDiffer(w, p, c, q, d, v, u); }
      case ByChange(change) => PossibleAsSeen(of, w, v, change, n);
    }
  }

  lemma {:induction false} SensePostponed(of: nat -> string, cfg: Config, w: World, m: string, p: Pc, cs: seq<Doing>,
                                          n: string, q: Pc, d: Doing)
    requires MachinesOk(w.gce) && m != n && Own(p, m) && AllConcern(of, cs, m) && Own(q, n) && Concerns(of, d, n)
    requires MakesSense(w, q, d) && AllMakeSense(cfg, Done(cfg, w, q, d), p, cs)
    ensures AllMakeSense(cfg, w, p, cs) && MakesSense(AllDone(cfg, w, p, cs).0, q, d)
    decreases |cs|
  {
    if cs != [] {
      SenseCommutes(of, cfg, w, m, p, cs[0], n, q, d);
      StepsCommute(of, cfg, w, m, p, cs[0], n, q, d);
      DoneKeepsMachines(cfg, w, p, cs[0]);
      ThenOwn(cfg, w, p, cs[0], m);
      SensePostponed(of, cfg, Done(cfg, w, p, cs[0]), m, Then(cfg, w, p, cs[0]), cs[1..], n, q, d);
    }
  }

  lemma FirstMoves(cfg: Config, w: World, p: Pc, q: Pc, m: Move, rest: seq<Move>)
    requires m.first && Sequential(cfg, Done(cfg, w, p, m.doing), Then(cfg, w, p, m.doing), q, rest)
    ensures Sequential(cfg, w, p, q, [m] + rest)
  {
    SidesOf(m, rest);
    assert ([m] + rest)[1..] == rest;
    AllDoneStep(cfg, w, p, m.doing, Side(rest, true));
  }

  lemma SecondMoves(of: nat -> string, cfg: Config, w: World, a: string, p: Pc, b: string, q: Pc, m: Move,
                    rest: seq<Move>)
    requires MachinesOk(w.gce) && a != b && Own(p, a) && Own(q, b) && Concerns(of, m.doing, b)
    requires AllConcern(of, Side(rest, true), a)
    requires !m.first && Sequential(cfg, Done(cfg, w, q, m.doing), p, Then(cfg, w, q, m.doing), rest)
    ensures Sequential(cfg, w, p, q, [m] + rest)
  {
    SidesOf(m, rest);
    assert ([m] + rest)[1..] == rest;
    StepPostponed(of, cfg, w, a, p, Side(rest, true), b, q, m.doing);
    AllDoneStep(cfg, AllDone(cfg, w, p, Side(rest, true)).0, q, m.doing, Side(rest, false));
  }

  lemma FirstInTurn(cfg: Config, w: World, p: Pc, q: Pc, m: Move, rest: seq<Move>)
    requires m.first && MakesSense(w, p, m.doing)
    requires SensibleInTurn(cfg, Done(cfg, w, p, m.doing), Then(cfg, w, p, m.doing), q, rest)
    ensures SensibleInTurn(cfg, w, p, q, [m] + rest)
  {
    SidesOf(m, rest);
    AllDoneStep(cfg, w, p, m.doing, Side(rest, true));
  }

  lemma SecondInTurn(of: nat -> string, cfg: Config, w: World, a: string, p: Pc, b: string, q: Pc, m: Move,
                     rest: seq<Move>)
    requires MachinesOk(w.gce) && a != b && Own(p, a) && Own(q, b) && Concerns(of, m.doing, b)
    requires AllConcern(of, Side(rest, true), a)
    requires !m.first && MakesSense(w, q, m.doing)
    requires SensibleInTurn(cfg, Done(cfg, w, q, m.doing), p, Then(cfg, w, q, m.doing), rest)
    ensures SensibleInTurn(cfg, w, p, q, [m] + rest)
  {
    SidesOf(m, rest);
    SensePostponed(of, cfg, w, a, p, Side(rest, true), b, q, m.doing);
    StepPostponed(of, cfg, w, a, p, Side(rest, true), b, q, m.doing);
    AllDoneStep(cfg, AllDone(cfg, w, p, Side(rest, true)).0, q, m.doing, Side(rest, false));
  }

  lemma {:induction false} FirstSideConcerns(of: nat -> string, moves: seq<Move>, m: string, n: string)
    requires Separate(of, moves, m, n)
    ensures AllConcern(of, Side(moves, true), m)
  {
    if moves != [] { FirstSideConcerns(of, moves[1..], m, n); }
  }

  lemma {:induction false} SameEnd(of: nat -> string, cfg: Config, w: World, a: string, p: Pc, b: string, q: Pc,
                                   moves: seq<Move>)
    requires MachinesOk(w.gce) && a != b && Own(p, a) && Own(q, b) && Separate(of, moves, a, b)
    ensures Sequential(cfg, w, p, q, moves)
    decreases |moves|
  {
    if moves != [] {
      var m, rest := moves[0], moves[1..];
      assert moves == [m] + rest;
      FirstSideConcerns(of, rest, a, b);
      if m.first {
        DoneKeepsMachines(cfg, w, p, m.doing);
        ThenOwn(cfg, w, p, m.doing, a);
        SameEnd(of, cfg, Done(cfg, w, p, m.doing), a, Then(cfg, w, p, m.doing), b, q, rest);
        FirstMoves(cfg, w, p, q, m, rest);
      } else {
        DoneKeepsMachines(cfg, w, q, m.doing);
        ThenOwn(cfg, w, q, m.doing, b);
        SameEnd(of, cfg, Done(cfg, w, q, m.doing), a, p, b, Then(cfg, w, q, m.doing), rest);
        SecondMoves(of, cfg, w, a, p, b, q, m, rest);
      }
    }
  }

  lemma {:induction false} SameSense(of: nat -> string, cfg: Config, w: World, a: string, p: Pc, b: string, q: Pc,
                                     moves: seq<Move>)
    requires MachinesOk(w.gce) && a != b && Own(p, a) && Own(q, b) && Separate(of, moves, a, b)
    requires BothMakeSense(cfg, w, p, q, moves)
    ensures SensibleInTurn(cfg, w, p, q, moves)
    decreases |moves|
  {
    if moves != [] {
      var m, rest := moves[0], moves[1..];
      assert moves == [m] + rest;
      FirstSideConcerns(of, rest, a, b);
      if m.first {
        DoneKeepsMachines(cfg, w, p, m.doing);
        ThenOwn(cfg, w, p, m.doing, a);
        SameSense(of, cfg, Done(cfg, w, p, m.doing), a, Then(cfg, w, p, m.doing), b, q, rest);
        FirstInTurn(cfg, w, p, q, m, rest);
      } else {
        DoneKeepsMachines(cfg, w, q, m.doing);
        ThenOwn(cfg, w, q, m.doing, b);
        SameSense(of, cfg, Done(cfg, w, q, m.doing), a, p, b, Then(cfg, w, q, m.doing), rest);
        SecondInTurn(of, cfg, w, a, p, b, q, m, rest);
      }
    }
  }

  /** However two reconciles for different names, the ends of their operations, and what users, garbage collection and
      GCE do to the two names are interleaved: the world and both results are those of everything that concerns the
      first name, followed by everything that concerns the second; and if the interleaving makes sense, so does that. */
  lemma InterleavingIsSequential(of: nat -> string, cfg: Config, w: World, a: string, p: Pc, b: string, q: Pc,
                                 moves: seq<Move>)
    requires MachinesOk(w.gce) && a != b && Own(p, a) && Own(q, b) && Separate(of, moves, a, b)
    ensures Sequential(cfg, w, p, q, moves)
    ensures BothMakeSense(cfg, w, p, q, moves) ==> SensibleInTurn(cfg, w, p, q, moves)
  {
    SameEnd(of, cfg, w, a, p, b, q, moves);
    if BothMakeSense(cfg, w, p, q, moves) { SameSense(of, cfg, w, a, p, b, q, moves); }
  }
}
