/** Runs built event by event, and a first record for the examples. */
module Reachable {
  import opened Types
  import Admission
  import opened Protocol
  import opened WorkQueues
  import opened Worlds
  import opened Systems
  import Agreement
  import Protection

  /** Every name is at home in one namespace. */
  const HOME: string -> string := name => "ci"

  ghost predicate Ends(cfg: Config, states: seq<System>, events: seq<Event>, s: System) {
    Protection.FairRun(cfg, states, events) && Agreement.HomedRun(cfg, HOME, states, events) && states[|events|] == s
  }

  /** Some fair run under unique names ends in this state. */
  ghost predicate Reached(cfg: Config, s: System) {
    exists states, events :: Ends(cfg, states, events, s)
  }

  /** Nothing but what such runs allow. */
  ghost predicate Allowed(s: System, e: Event) {
    Protection.Fair(s, e) && (e.Env? && e.change.Create? ==> Agreement.Homed(HOME, e.change.key))
  }

  lemma Extend(cfg: Config, s: System, e: Event)
    requires Reached(cfg, s) && Enabled(cfg, s, e) && Allowed(s, e)
    ensures Reached(cfg, Apply(cfg, s, e))
  {
    var states, events :| Ends(cfg, states, events, s);
    assert Ends(cfg, states + [Apply(cfg, s, e)], events + [e], Apply(cfg, s, e));
  }

  /** One worker, at this stage. */
  function Lone(world: World, queue: Queue<Key>, worker: Worker): System {
    System(world, queue, map[0 := worker])
  }

  /** The queue while the key is being processed, and while it waits for its delay. */
  function Processing(key: Key, failures: map<Key, nat>): Queue<Key> { Queue([], {}, {key}, failures, {}, false) }

  function Waiting(key: Key, failures: map<Key, nat>): Queue<Key> { Queue([], {}, {}, failures, {key}, false) }

  lemma ExtendTo(cfg: Config, s: System, e: Event, t: System)
    requires Reached(cfg, s) && Enabled(cfg, s, e) && Allowed(s, e) && t == Apply(cfg, s, e)
    ensures Reached(cfg, t)
  {
    Extend(cfg, s, e);
  }

  lemma TurnStarts(cfg: Config, w: World, key: Key)
    requires Reached(cfg, Lone(w, Empty(), Idle))
    ensures Reached(cfg, Lone(w, Processing(key, map[]), Busy(key, Running(Begin(key)))))
  {
    var queued := Lone(w, Queue([key], {key}, {}, map[], {}, false), Idle);
    ExtendTo(cfg, Lone(w, Empty(), Idle), Notify(key), queued);
    ExtendTo(cfg, queued, Take(0), Lone(w, Processing(key, map[]), Busy(key, Running(Begin(key)))));
  }

  lemma TurnEnds(cfg: Config, w: World, key: Key)
    requires Reached(cfg, Lone(w, Processing(key, map[]), Busy(key, Running(Returned(Nil)))))
    ensures Reached(cfg, Lone(w, Empty(), Idle))
  {
    var q := Processing(key, map[]);
    assert q.Forget(key) == q;
    ExtendTo(cfg, Lone(w, q, Busy(key, Running(Returned(Nil)))), Settle(0), Lone(w, q, Busy(key, Releasing)));
    ExtendTo(cfg, Lone(w, q, Busy(key, Releasing)), Release(0), Lone(w, Empty(), Idle));
  }

  // ---- A first record ----

  const KEY := Key("ci", "vm")
  const SPEC := Spec("n1-standard-1", BootDiskSpec("centos-6", DiskSpec(25, "pd-standard")), None)
  const BLANK := Status(ProcessingState("", ""), "", "")
  const PAIR := Keypair("private", "public\n")

  function NewRecord(): VM { VM("ci", "vm", 0, 1, false, [FINALIZER], SPEC, BLANK) }

  function EmptyWorld(): World { World(Api(map[], map[]), Gce(map[], map[], map[], {}), map[], {}) }

  function WithRecord(): World { EmptyWorld().(api := Api(map[KEY := NewRecord()], map[0 := SPEC])) }

  lemma FirstFinalizers()
    ensures Admission.Mutated([]) == [FINALIZER]
  {
    Admission.FinalizerListsExact([], [FINALIZER]);
  }

  lemma CreateApplied(cfg: Config)
    ensures Reached(cfg, Lone(WithRecord(), Empty(), Idle))
  {
    var start, create := Lone(EmptyWorld(), Empty(), Idle), Env(Create(KEY, 0, SPEC, [], BLANK));
    assert Ends(cfg, [start], [], start);
    Extend(cfg, start, create);
    FirstFinalizers();
    assert Apply(cfg, start, create) == Lone(WithRecord(), Empty(), Idle);
  }

  lemma RecordCreated(cfg: Config)
    ensures Reached(cfg, Lone(WithRecord(), Processing(KEY, map[]), Busy(KEY, Running(Begin(KEY)))))
  {
    CreateApplied(cfg);
    TurnStarts(cfg, WithRecord(), KEY);
  }
}
