/** The whole system: the world, the work queue, and any number of workers, interleaved call by call. */
module Systems {
  import opened Types
  import Protocol
  import WorkQueues
  import opened Worlds

  /** A worker between Get and Done: reconciling, about to count a failure, or about to call Done. */
  datatype Stage = Running(pc: Protocol.Pc) | Retrying | Releasing
  datatype Worker = Idle | Busy(key: Key, stage: Stage)

  datatype System = System(world: World, queue: WorkQueues.Queue<Key>, workers: map<nat, Worker>) {
    predicate At(w: nat, stage: Stage) {
      w in workers && workers[w].Busy? && workers[w].stage == stage
    }

    /** Worker w is in the middle of a reconcile. */
    predicate Active(w: nat) {
      w in workers && workers[w].Busy? && workers[w].stage.Running?
    }

    function PcOf(w: nat): Protocol.Pc
      requires Active(w)
    {
      workers[w].stage.pc
    }

    function KeyOf(w: nat): Key
      requires w in workers && workers[w].Busy?
    {
      workers[w].key
    }

    function Enter(w: nat, stage: Stage): map<nat, Worker>
      requires w in workers && workers[w].Busy?
    {
      workers[w := Busy(workers[w].key, stage)]
    }
  }

  datatype Event =
    | Notify(key: Key)                // an informer handler enqueues the key: an event or a resync
    | Fire(key: Key)                  // a rate-limited add comes due
    | Take(worker: nat)               // Get
    | Call(worker: nat, choice: Choice)
    | Settle(worker: nat)             // handleErr up to its decision; skipped by a panic
    | Retry(worker: nat)              // AddRateLimited
    | Release(worker: nat)            // Done
    | Crash                           // the process restarts; the world stays as it is
    | Env(change: Change)

  predicate Enabled(cfg: Config, s: System, e: Event) {
    match e
    case Notify(_) => true
    case Fire(key) => key in s.queue.delayed
    case Take(w) => w in s.workers && s.workers[w].Idle? && s.queue.queue != []
    case Call(w, choice) => s.Active(w) && !s.PcOf(w).Returned? && Sensible(s.world, s.PcOf(w), choice)
    case Settle(w) => s.Active(w) && s.PcOf(w).Returned?
    case Retry(w) => s.At(w, Retrying)
    case Release(w) => s.At(w, Releasing)
    case Crash => true
    case Env(change) => Possible(s.world, change)
  }

  function Apply(cfg: Config, s: System, e: Event): System
    requires Enabled(cfg, s, e)
  {
    match e
    case Notify(key) => s.(queue := s.queue.Add(key))
    case Fire(key) => s.(queue := s.queue.Fire(key))
    case Take(w) =>
      var key := s.queue.queue[0];
      s.(queue := s.queue.Get(), workers := s.workers[w := Busy(key, Running(Protocol.Begin(key)))])
    case Call(w, choice) =>
      var pc := s.PcOf(w);
      s.(world := Served(s.world, cfg, pc, choice),
         workers := s.Enter(w, Running(Protocol.After(cfg, pc, Reply(s.world, cfg, pc, choice)))))
    case Settle(w) =>
      var key, result := s.KeyOf(w), s.PcOf(w).result;
      if result.Panicked? then s.(workers := s.Enter(w, Releasing))
      else if result.Error? && s.queue.NumRequeues(key) < MAX_RETRIES then s.(workers := s.Enter(w, Retrying))
      else s.(queue := s.queue.Forget(key), workers := s.Enter(w, Releasing))
    case Retry(w) => s.(queue := s.queue.AddRateLimited(s.KeyOf(w)), workers := s.Enter(w, Releasing))
    case Release(w) => s.(queue := s.queue.Done(s.KeyOf(w)), workers := s.workers[w := Idle])
    case Crash => s.(queue := WorkQueues.Empty(), workers := map w | w in s.workers :: Idle)
    case Env(change) => s.(world := Happen(s.world, change))
  }

  /** A start: no records, instances or secrets of ours, an empty queue, idle workers. */
  ghost predicate Initial(s: System) {
    && s.world == World(Api(map[], map[]), Gce(map[], map[], map[], {}), map[], {})
    && s.queue == WorkQueues.Empty()
    && forall w :: w in s.workers ==> s.workers[w].Idle?
  }

  /** A run: the states that a sequence of enabled events goes through. */
  ghost predicate Run(cfg: Config, states: seq<System>, events: seq<Event>) {
    && |states| == |events| + 1
    && Initial(states[0])
    && forall i :: 0 <= i < |events| ==>
         Enabled(cfg, states[i], events[i]) && states[i + 1] == Apply(cfg, states[i], events[i])
  }
}
