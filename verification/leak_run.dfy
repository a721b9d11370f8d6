/** A run from the empty system to a leaked instance: one record, one worker, two refusals of the same deletion. */
module LeakRun {
  import opened Types
  import opened Protocol
  import WorkQueues
  import opened Worlds
  import opened Systems
  import opened Reachable
  import Records
  import opened Reconciles
  import Coverage
  import opened Leaking

  /** An undisturbed reconcile is part of a run. */
  lemma {:induction false} AloneInRun(cfg: Config, w: World, q: WorkQueues.Queue<Key>, key: Key, pc: Pc,
                                      choices: seq<Choice>)
    requires Reached(cfg, Lone(w, q, Busy(key, Running(pc)))) && SensibleAlong(cfg, w, pc, choices)
    ensures var (w', pc') := Alone(cfg, w, pc, choices); Reached(cfg, Lone(w', q, Busy(key, Running(pc'))))
    decreases |choices|
  {
    if choices != [] && !pc.Returned? {
      var s, e := Lone(w, q, Busy(key, Running(pc))), Call(0, choices[0]);
      Extend(cfg, s, e);
      var w', pc' := Served(w, cfg, pc, choices[0]), Next(cfg, w, pc, choices[0]);
      assert Apply(cfg, s, e) == Lone(w', q, Busy(key, Running(pc')));
      AloneInRun(cfg, w', q, key, pc', choices[1..]);
    }
  }

  lemma FailureRetried(cfg: Config, w: World, key: Key, failures: map<Key, nat>, text: string)
    requires Reached(cfg, Lone(w, Processing(key, failures), Busy(key, Running(Returned(Error(text))))))
    requires Processing(key, failures).NumRequeues(key) < MAX_RETRIES
    ensures var n := Processing(key, failures).NumRequeues(key) + 1;
            Reached(cfg, Lone(w, Waiting(key, failures[key := n]), Idle))
  {
    var n := Processing(key, failures).NumRequeues(key) + 1;
    var s := Lone(w, Processing(key, failures), Busy(key, Running(Returned(Error(text)))));
    var retrying := Lone(w, Processing(key, failures), Busy(key, Retrying));
    var releasing := Lone(w, WorkQueues.Queue([], {}, {key}, failures[key := n], {key}, false), Busy(key, Releasing));
    ExtendTo(cfg, s, Settle(0), retrying);
    ExtendTo(cfg, retrying, Retry(0), releasing);
    ExtendTo(cfg, releasing, Release(0), Lone(w, Waiting(key, failures[key := n]), Idle));
  }

  lemma DelayPasses(cfg: Config, w: World, key: Key, failures: map<Key, nat>)
    requires Reached(cfg, Lone(w, Waiting(key, failures), Idle))
    ensures Reached(cfg, Lone(w, Processing(key, failures), Busy(key, Running(Begin(key)))))
  {
    var s := Lone(w, Waiting(key, failures), Idle);
    var queued := Lone(w, WorkQueues.Queue([key], {key}, {}, failures, {}, false), Idle);
    ExtendTo(cfg, s, Fire(key), queued);
    ExtendTo(cfg, queued, Take(0), Lone(w, Processing(key, failures), Busy(key, Running(Begin(key)))));
  }

  // ---- The example ----

  const BUSY := GceError(true, 503, "unavailable")
  const SHOWN := [["192.0.2.1"]]

  /** The record's instance, created although the answer to its creation was lost. */
  function WithInstance(cfg: Config): World {
    Served(WithRecord().(used := {PAIR.pub}), cfg, Issue(NewRecord(), true, PAIR), Lose(BUSY))
  }

  function CreationError(): string { NOT_RUN + BUSY.text }

  /** The creation is accepted, its answer lost, and the report of the failure refused. */
  lemma SubmissionCalls(cfg: Config)
    ensures var made, issue := WithRecord().(used := {PAIR.pub}), Issue(NewRecord(), true, PAIR);
            && SensibleAlong(cfg, made, issue, [Lose(BUSY), Refuse(BUSY)])
            && Alone(cfg, made, issue, [Lose(BUSY), Refuse(BUSY)]) == (WithInstance(cfg), Returned(Error(BUSY.text)))
  {
    var vm, made := NewRecord(), WithRecord().(used := {PAIR.pub});
    CreationSteps(cfg);
    var c5 := [Refuse(BUSY)] + [];
    assert [Lose(BUSY), Refuse(BUSY)] == [Lose(BUSY)] + c5;
    var reporting := Reporting(vm, Keying(PAIR), CreationError());
    StepAlong(cfg, WithInstance(cfg), reporting, Refuse(BUSY), [], WithInstance(cfg), Returned(Error(BUSY.text)));
    StepAlong(cfg, made, Issue(vm, true, PAIR), Lose(BUSY), c5, WithInstance(cfg), reporting);
  }

  lemma CreationCalls(cfg: Config)
    ensures var choices := [Serve, Show(SHOWN), Mint(PAIR), Lose(BUSY), Refuse(BUSY)];
            && SensibleAlong(cfg, WithRecord(), Begin(KEY), choices)
            && Alone(cfg, WithRecord(), Begin(KEY), choices) == (WithInstance(cfg), Returned(Error(BUSY.text)))
  {
    var vm, w := NewRecord(), WithRecord();
    var made := w.(used := {PAIR.pub});
    CreationSteps(cfg);
    SubmissionCalls(cfg);
    var c4 := [Lose(BUSY), Refuse(BUSY)];
    var c3 := [Mint(PAIR)] + c4;
    var c2 := [Show(SHOWN)] + c3;
    assert [Serve, Show(SHOWN), Mint(PAIR), Lose(BUSY), Refuse(BUSY)] == [Serve] + c2;
    StepAlong(cfg, w, MakeKey(vm, true), Mint(PAIR), c4, made, Issue(vm, true, PAIR));
    StepAlong(cfg, w, EnsureLookup(vm), Show(SHOWN), c3, w, MakeKey(vm, true));
    StepAlong(cfg, w, Begin(KEY), Serve, c2, w, EnsureLookup(vm));
  }

  lemma CreationSteps(cfg: Config)
    ensures var vm, w := NewRecord(), WithRecord();
            var made, issue := w.(used := {PAIR.pub}), Issue(vm, true, PAIR);
            var reporting := Reporting(vm, Keying(PAIR), CreationError());
            && Served(w, cfg, Begin(KEY), Serve) == w && Next(cfg, w, Begin(KEY), Serve) == EnsureLookup(vm)
            && Served(w, cfg, EnsureLookup(vm), Show(SHOWN)) == w
            && Next(cfg, w, EnsureLookup(vm), Show(SHOWN)) == MakeKey(vm, true)
            && Sensible(w, MakeKey(vm, true), Mint(PAIR))
            && Served(w, cfg, MakeKey(vm, true), Mint(PAIR)) == made
            && Next(cfg, w, MakeKey(vm, true), Mint(PAIR)) == issue
            && Next(cfg, made, issue, Lose(BUSY)) == reporting
            && Next(cfg, WithInstance(cfg), reporting, Refuse(BUSY)) == Returned(Error(BUSY.text))
            && Served(WithInstance(cfg), cfg, reporting, Refuse(BUSY)) == WithInstance(cfg)
  {
    assert {} + {PAIR.pub} == {PAIR.pub};
  }

  lemma InstanceThere(cfg: Config)
    ensures var w := WithInstance(cfg);
            && w.api == WithRecord().api && KEY.name in w.gce.instances
            && w.gce.instances[KEY.name].owner == Owner(KEY, 0)
  {}

  function BeingDeleted(cfg: Config): World {
    var w := WithInstance(cfg);
    w.(api := w.api.(vms := map[KEY := NewRecord().(deleting := true, resourceVersion := 2)]))
  }

  lemma DeletionRequested(cfg: Config)
    ensures Reached(cfg, Lone(BeingDeleted(cfg), Processing(KEY, map[KEY := 1]), Busy(KEY, Running(Begin(KEY)))))
  {
    RecordCreated(cfg);
    CreationCalls(cfg);
    AloneInRun(cfg, WithRecord(), Processing(KEY, map[]), KEY, Begin(KEY),
               [Serve, Show(SHOWN), Mint(PAIR), Lose(BUSY), Refuse(BUSY)]);
    FailureRetried(cfg, WithInstance(cfg), KEY, map[], BUSY.text);
    var s := Lone(WithInstance(cfg), Waiting(KEY, map[KEY := 1]), Idle);
    assert map[][KEY := 1] == map[KEY := 1];
    InstanceThere(cfg);
    Extend(cfg, s, Env(Delete(KEY)));
    assert Apply(cfg, s, Env(Delete(KEY))) == Lone(BeingDeleted(cfg), Waiting(KEY, map[KEY := 1]), Idle);
    DelayPasses(cfg, BeingDeleted(cfg), KEY, map[KEY := 1]);
  }

  /** A reconcile whose deletion is refused is part of a run. */
  lemma RefusalInRun(cfg: Config, w: World, q: WorkQueues.Queue<Key>, key: Key)
    requires Records.RecordOk(w.api, key) && w.api.vms[key].deleting && w.api.vms[key].Guarded()
    requires key.name in w.gce.instances
    requires Reached(cfg, Lone(w, q, Busy(key, Running(Begin(key)))))
    ensures var (w', pc) := RefusedDeletion(cfg, w, key, SHOWN, BUSY); Reached(cfg, Lone(w', q, Busy(key, Running(pc))))
  {
    var vm := w.api.vms[key];
    var reporting := Reporting(vm, Deletion, NOT_DELETED + BUSY.text);
    ReadsRecord(cfg, w, key);
    SeesInstance(cfg, w, vm, SHOWN);
    GetsRefusal(cfg, w, vm, BUSY);
    ReportingServed(cfg, w, key, NOT_DELETED + BUSY.text);
    var c4 := [Serve] + [Serve];
    var c3 := [Refuse(BUSY)] + c4;
    var c2 := [Show(SHOWN)] + c3;
    var strip, w1 := Strip(vm, Swallowed(NOT_DELETED + BUSY.text)), Served(w, cfg, reporting, Serve);
    assert SensibleAlong(cfg, Served(w1, cfg, strip, Serve), Next(cfg, w1, strip, Serve), []);
    assert [Serve] == [Serve] + [];
    StepAlong(cfg, w1, strip, Serve, [], Served(w1, cfg, strip, Serve), Next(cfg, w1, strip, Serve));
    StepAlong(cfg, w, reporting, Serve, [Serve], w1, strip);
    StepAlong(cfg, w, DeleteIssue(vm), Refuse(BUSY), c4, w, reporting);
    StepAlong(cfg, w, DeleteLookup(vm), Show(SHOWN), c3, w, DeleteIssue(vm));
    StepAlong(cfg, w, Begin(key), Serve, c2, w, DeleteLookup(vm));
    assert [Serve] + c2 == [Serve, Show(SHOWN), Refuse(BUSY), Serve, Serve];
    AloneInRun(cfg, w, q, key, Begin(key), [Serve] + c2);
  }

  /** After the first refusal the status tells of it, and the removal has met a conflict. */
  lemma FirstRefusal(cfg: Config)
    ensures var (w1, r1) := RefusedDeletion(cfg, BeingDeleted(cfg), KEY, SHOWN, BUSY);
            && Records.RecordOk(BeingDeleted(cfg).api, KEY) && KEY.name in BeingDeleted(cfg).gce.instances
            && r1 == Returned(Error(CONFLICT)) && w1.gce == BeingDeleted(cfg).gce
            && Records.RecordOk(w1.api, KEY) && w1.api.vms[KEY].deleting && w1.api.vms[KEY].Guarded()
            && w1.api.vms[KEY].status == Errored(BLANK, NOT_DELETED + BUSY.text)
  {
    InstanceThere(cfg);
    var w, text := BeingDeleted(cfg), NOT_DELETED + BUSY.text;
    assert Records.RecordOk(w.api, KEY);
    RefusedDeletionReports(cfg, w, KEY, SHOWN, BUSY);
    SwallowedExactly(cfg, w, KEY, text);
    AloneKeepsBorn(cfg, w, Reporting(w.api.vms[KEY], Deletion, text), [Serve, Serve]);
    assert PHASE_ERROR != "";
  }

  lemma SecondAttempt(cfg: Config)
    ensures var w1 := RefusedDeletion(cfg, BeingDeleted(cfg), KEY, SHOWN, BUSY).0;
            Reached(cfg, Lone(w1, Processing(KEY, map[KEY := 2]), Busy(KEY, Running(Begin(KEY)))))
  {
    DeletionRequested(cfg);
    FirstRefusal(cfg);
    RefusalInRun(cfg, BeingDeleted(cfg), Processing(KEY, map[KEY := 1]), KEY);
    var w1 := RefusedDeletion(cfg, BeingDeleted(cfg), KEY, SHOWN, BUSY).0;
    FailureRetried(cfg, w1, KEY, map[KEY := 1], CONFLICT);
    assert map[KEY := 1][KEY := 2] == map[KEY := 2];
    DelayPasses(cfg, w1, KEY, map[KEY := 2]);
  }

  /** The finalizer does not always outlive the instance: a fair run from the empty system ends with an instance whose
      record is gone. */
  lemma LeakIsReachable(cfg: Config)
    ensures exists s :: Reached(cfg, s) && !Coverage.Covered(s.world)
  {
    FirstRefusal(cfg);
    SecondAttempt(cfg);
    InstanceThere(cfg);
    var w1, text := RefusedDeletion(cfg, BeingDeleted(cfg), KEY, SHOWN, BUSY).0, NOT_DELETED + BUSY.text;
    RefusalInRun(cfg, w1, Processing(KEY, map[KEY := 2]), KEY);
    RefusedDeletionReports(cfg, w1, KEY, SHOWN, BUSY);
    SwallowedExactly(cfg, w1, KEY, text);
    var (w2, r2) := RefusedDeletion(cfg, w1, KEY, SHOWN, BUSY);
    var s := Lone(w2, Processing(KEY, map[KEY := 2]), Busy(KEY, Running(r2)));
    assert s.world.gce.instances[KEY.name].owner == Owner(KEY, 0);
    assert Reached(cfg, s) && !Coverage.Covered(s.world);
  }
}
