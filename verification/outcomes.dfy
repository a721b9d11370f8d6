/** What a nil return of reconcile says about the calls it made, over every sequence of answers. */
module Outcomes {
  import opened Types
  import Admission
  import opened Protocol
  import opened Conduct

  // ---- The ways to return nil ----

  ghost predicate RecordAbsent(t: seq<Exchange>, key: Key) {
    t == [Exchange(GetVM(key), Missing)]
  }

  ghost predicate AlreadyReleased(t: seq<Exchange>, key: Key) {
    |t| == 1 && t[0].answer.GotVM? && Read(t, key, t[0].answer.vm)
    && t[0].answer.vm.deleting && !t[0].answer.vm.Guarded()
  }

  /** The exchange right before the finalizer is written off, by the reason it gives. */
  ghost predicate Warrants(vm: VM, reason: StripReason, x: Exchange) {
    match reason
    case Gone =>
      SaysGone(x, vm)
    case Erased =>
      && (x.call == DeleteInstance(vm.name) || x.call.PollOp?)
      && x.answer.Op? && OpError(x.answer.op).None? && x.answer.op.Done()
    case Swallowed(text) =>
      x == Exchange(UpdateStatus(vm.(status := Errored(vm.status, text))), Written)
  }

  ghost predicate Warranted(vm: VM, x: Exchange) {
    exists reason :: Warrants(vm, reason, x)
  }

  ghost predicate FinalizerRemoved(t: seq<Exchange>, key: Key, vm: VM) {
    && Read(t, key, vm) && vm.deleting && vm.Guarded() && |t| >= 3
    && Last(t) == Exchange(UpdateVM(vm.(finalizers := Admission.Stripped(vm.finalizers))), Written)
    && Warranted(vm, t[|t| - 2])
  }

  ghost predicate SeesInstance(x: Exchange, vm: VM) {
    LookedFor(x, vm) && x.answer.instance.Some?
  }

  ghost predicate FoundBoth(t: seq<Exchange>, key: Key, vm: VM) {
    && Read(t, key, vm) && !vm.deleting && |t| == 3
    && SeesInstance(t[1], vm) && t[2] == Exchange(GetSecret(key), SecretFound)
  }

  ghost predicate MadeSecret(t: seq<Exchange>, key: Key, vm: VM) {
    && Read(t, key, vm) && !vm.deleting && |t| >= 3
    && SeesInstance(t[|t| - 2], vm)
    && Last(t).call.CreateSecret? && Last(t).call.key == key && Last(t).answer == Written
  }

  ghost predicate ReportedFailure(t: seq<Exchange>, key: Key, vm: VM) {
    && Read(t, key, vm) && !vm.deleting
    && Last(t).call.UpdateStatus? && Last(t).answer == Written
    && exists text :: Last(t).call.vm == vm.(status := Errored(vm.status, NOT_RUN + text))
  }

  ghost predicate Justified(t: seq<Exchange>, key: Key) {
    || RecordAbsent(t, key)
    || AlreadyReleased(t, key)
    || exists vm ::
         FinalizerRemoved(t, key, vm) || FoundBoth(t, key, vm) || MadeSecret(t, key, vm) || ReportedFailure(t, key, vm)
  }

  // ---- What the trace so far says at each position ----

  ghost predicate Facts(t: seq<Exchange>, key: Key, pc: Pc) {
    && !pc.Returned?
    && (pc.Begin? <==> t == []) && (pc.Begin? ==> pc.key == key)
    && (pc.Holds() ==>
          && Read(t, key, pc.vm)
          && pc.vm.deleting == Deleting(pc)
          && (Deleting(pc) ==> pc.vm.Guarded())
          && (pc.Strip? ==> |t| >= 2 && Warrants(pc.vm, pc.reason, Last(t)))
          && (pc.EnsureSecret? ==> |t| == 2 && SeesInstance(Last(t), pc.vm))
          && (pc.EnsureLookup? ==> |t| == 1)
          && (pc.Publish? ==> |t| >= 2 && SeesInstance(Last(t), pc.vm))
          && (pc.Reporting? ==> exists text :: pc.text == FailureText(pc.purpose, text)))
  }

  lemma StepOn(cfg: Config, t: seq<Exchange>, key: Key, pc: Pc, x: Exchange)
    requires Facts(t, key, pc) && x.call == CallOf(cfg, pc) && Fits(x.call, x.answer)
    requires !After(cfg, pc, x.answer).Returned?
    ensures Facts(t + [x], key, After(cfg, pc, x.answer))
  {
    var u := t + [x];
    assert u[|u| - 1] == x && (t != [] ==> u[0] == t[0] && u[|u| - 2] == t[|t| - 1]);
  }

  lemma StepHome(cfg: Config, t: seq<Exchange>, key: Key, pc: Pc, x: Exchange)
    requires Facts(t, key, pc) && x.call == CallOf(cfg, pc) && Fits(x.call, x.answer)
    requires After(cfg, pc, x.answer).Returned?
    ensures After(cfg, pc, x.answer).result == Nil <==> Justified(t + [x], key)
  {
    var u, next := t + [x], After(cfg, pc, x.answer);
    assert u[|u| - 1] == x && (t != [] ==> u[0] == t[0] && u[|u| - 2] == t[|t| - 1]);
    match pc
    case Strip(vm, reason) =>
      if next == Returned(Nil) { assert Warrants(vm, reason, u[|u| - 2]); assert FinalizerRemoved(u, key, vm); }
    case EnsureSecret(vm) =>
      if next == Returned(Nil) { assert FoundBoth(u, key, vm); }
    case Publish(vm, _, _, _) =>
      if next == Returned(Nil) { assert MadeSecret(u, key, vm); }
    case Reporting(vm, purpose, _) =>
      if next == Returned(Nil) { assert ReportedFailure(u, key, vm); }
    case _ =>
  }

  lemma {:induction false} Along(cfg: Config, key: Key, t: seq<Exchange>)
    requires Exec(cfg, Begin(key), t).Some?
    ensures var pc := Exec(cfg, Begin(key), t).value;
            if pc.Returned? then (pc.result == Nil <==> Justified(t, key)) else Facts(t, key, pc)
  {
    if t != [] {
      var init := t[..|t| - 1];
      Along(cfg, key, init);
      var pc := Exec(cfg, Begin(key), init).value;
      if After(cfg, pc, t[|t| - 1].answer).Returned? {
        StepHome(cfg, init, key, pc, t[|t| - 1]);
      } else {
        StepOn(cfg, init, key, pc, t[|t| - 1]);
      }
      assert init + [t[|t| - 1]] == t;
    }
  }

  /** A finished reconcile returned nil exactly when its trace is one of the six justified kinds. */
  lemma NilExactlyWhenJustified(cfg: Config, key: Key, t: seq<Exchange>, result: Result)
    requires Exec(cfg, Begin(key), t) == Some(Returned(result))
    ensures result == Nil <==> Justified(t, key)
  {
    Along(cfg, key, t);
  }
}
